# Hangman game engine, modelled in Dafny

This project models the engine of a multilingual hangman game for iOS.

A player picks one of six languages by tapping a flag. The game fetches a random word for that language from a word-list web service. The player then guesses letters against a budget of wrong guesses, and the score carries over from round to round.

The model covers:

- **`Languages`** (`languages.dfy`): the closed `GameLanguage` enum, with its raw codes, the optional API parameter and the keyboard alphabet.
- **`WordSource`** (`word_source.dfy`): how the request URL is built from the language, and the three-way decision on the service's answer. A word counts only when the status is 200 and the body is a non-empty list of strings; every other answer is a failure.
- **`GameRules`** (`game_rules.dfy`): the engine's fields taken as a value (`EngineState`). It holds the derived queries (`DisplayWord`, `RemainingAttempts`, `IsGameWon`, `IsGameLost`), one pure step function per operation, a round invariant, and lemmas about sequences of guesses.
- **`GameModel`** (`game_model.dfy`): the `GameModel` class. Its methods update the fields in place, as the Swift class does, and each one is proved to produce exactly the state its rule in `GameRules` gives. Each keeps the round invariant, except that `StartNewGame` establishes it only when the budget is at least 1.
- **`LanguageSelection`** (`language_selection.dfy`): the flag-tag ↔ language switches of the selection screen, and the screen's two loops. One loop numbers the flag views; the other highlights the selected flag and dims the rest.
- **`Scenarios`** (`scenarios.dfy`): a worked round on the word "cat", using a case mapping that uppercases ASCII only.

How characters are uppercased is not modelled. Every rule that compares letters (`IsGameWon`, `DisplayWord`, `UpdateGameState`, `Guess`, `Guesses`, `WrongOf`, `RoundInvariant`) takes a function `upper: char -> char` as a parameter, and the `GameModel` class keeps it in a constant field.

The model follows the code where the code is literal:

- A guess counts as a duplicate only when the exact same character was guessed before.
- The letter is stored exactly as typed.
- Case matters only in two places: the test for membership in the word, and the win test.

So a lower-case guess of a letter that is in the word is accepted and is not counted wrong. But it never reveals a slot and never brings the win closer (`LowercaseGuessIsInert`, `CatIsWonByThreeLetters`).

The code also does not reject an empty fetched word. An empty word starts a round that is won, for zero points, on the first guess.

`resetGame` zeroes the score before fetching. When the fetch fails, the score stays zero and the previous round is kept.

## Model

| member | source | states |
|---|---|---|
| Languages.RawValue | burak-hangman/GameModel.swift:3-9 | every raw code has at least two characters, and it is "en" exactly for English; distinctness is `RawValueInjective` |
| Languages.RawValueInjective | burak-hangman/GameModel.swift:3-9 | distinct languages have distinct raw codes |
| Languages.ApiParam | burak-hangman/GameModel.swift:11-18 | the parameter is absent exactly for English; otherwise it is the language's raw code |
| Languages.Alphabet | burak-hangman/GameModel.swift:31-46 | every language's keyboard contains all 26 Latin capitals A–Z |
| WordSource.RequestUrl | burak-hangman/GameModel.swift:99-104 | for English the URL is the base URL alone; for every other language it is base + `?lang=` + the language's raw code |
| WordSource.RequestUrlShape | burak-hangman/GameModel.swift:99-104 | every URL starts with the base; it has no `?` exactly for English; the text after `?lang=` is exactly the raw code |
| WordSource.RequestUrlInjective | burak-hangman/GameModel.swift:99-104 | distinct languages are sent to distinct URLs |
| WordSource.WordFromResponse | burak-hangman/GameModel.swift:111-139 | a word is obtained iff the status is 200 and the body is a non-empty list of strings; the word is the list's first element |
| GameRules.IsGameWon | burak-hangman/GameModel.swift:83-85 | won iff, at every position, the uppercased character uppercased again is in the guessed set (an empty word is won vacuously) |
| GameRules.JoinWithSpaces | burak-hangman/GameModel.swift:74 | n slots joined into 2n−1 characters: slot i at position 2i, a single space between neighbours |
| GameRules.DisplayWord | burak-hangman/GameModel.swift:71-75 | one slot per character, separated by single spaces; slot i is the uppercased character if that is guessed, otherwise `_` |
| GameRules.SetLanguage | burak-hangman/GameModel.swift:93-95 | only the language changes, to the given one |
| GameRules.StartNewGame | burak-hangman/GameModel.swift:146-152 | sets the word, empties both letter sets and sets in-progress; keeps score, language and budget |
| GameRules.UpdateGameState | burak-hangman/GameModel.swift:176-184 | won is tested first and adds the word's length to the score; otherwise lost when the wrong count reaches the budget, with the score unchanged; otherwise nothing changes; no letter set changes |
| GameRules.Guess | burak-hangman/GameModel.swift:155-173 | accepted iff the round is in progress and the exact character is new; a rejected guess changes nothing; an accepted one adds the character to the guessed set, and to the wrong set iff its uppercase is not in the uppercased word; then, if every letter is guessed, the round is won and the score rises by the word's length; otherwise, if the wrong letters reach the budget, it is lost with the score unchanged; otherwise it stays in progress with the score unchanged |
| GameRules.GuessesAppend | burak-hangman/GameModel.swift:155-173 | guessing one sequence of letters and then another is the same as guessing the two joined |
| GameRules.FetchNewWord | burak-hangman/GameModel.swift:98-143 | reports success iff the service's answer to the current language's URL yields a word; on success it starts a round with that word; on failure every field is unchanged |
| GameRules.NextWord | burak-hangman/GameModel.swift:187-189 | the score is never changed, whatever the fetch does |
| GameRules.ResetGame | burak-hangman/GameModel.swift:192-195 | the score is 0 afterwards; a failed fetch leaves every other field as it was; a successful one starts a fresh in-progress round |
| GameRules.InitialInvariant | burak-hangman/GameModel.swift:52-61 | a newly created engine satisfies the round invariant |
| GameRules.StartNewGameInvariant | burak-hangman/GameModel.swift:146-152 | a round started with a budget of at least 1 satisfies the invariant; before any guess it is won only if its word is empty |
| GameRules.GuessPreservesInvariant | burak-hangman/GameModel.swift:155-184 | every guess keeps the invariant: wrong set = guessed letters absent from the word (so it is a subset of the guessed set); fewer wrong letters than the budget while in progress; won implies all letters guessed; lost implies exactly budget-many wrong letters and not won |
| GameRules.GuessesPreserveInvariant | burak-hangman/GameModel.swift:155-184 | any sequence of guesses keeps the invariant |
| GameRules.IsGameLost | burak-hangman/GameModel.swift:88-90 | a budget of 0 or less is lost from the start, and with no wrong letter only such a budget is lost; that a round is lost only at exactly budget-many wrong letters, and never together with won, is the Lost clause of `RoundInvariant`, kept by `GuessesPreserveInvariant` and by the lost branch of `Guess` |
| GameRules.RemainingAttempts | burak-hangman/GameModel.swift:78-80 | the whole budget before any wrong letter, never more than the budget, and 0 or less exactly when the round is lost (`IsGameLost`) |
| GameRules.WrongLetterCostsOneAttempt | burak-hangman/GameModel.swift:78-80 | a new wrong letter lowers the remaining attempts by exactly one; one already in the wrong set lowers them by nothing |
| GameRules.RemainingAttemptsBounds | burak-hangman/GameModel.swift:78-90 | under the invariant, the remaining attempts lie between 0 and the budget, and are at least 1 while the round is in progress |
| GameRules.GuessesAfterRoundAreIgnored | burak-hangman/GameModel.swift:155-159 | when the round is not in progress (not started, won or lost), any sequence of guesses leaves every field unchanged |
| GameRules.ScoreCreditedOnce | burak-hangman/GameModel.swift:176-184 | over any sequence of guesses in a round, the score rises by exactly the word's length if the round ends won, and otherwise stays the same |
| GameRules.DisplayWhenWon | burak-hangman/GameModel.swift:71-85 | once won, slot i shows character i uppercased |
| GameRules.WonIffNoPlaceholder | burak-hangman/GameModel.swift:71-85 | if no revealed character is `_` itself, the round is won iff no slot shows `_` |
| GameRules.LowercaseGuessIsInert | burak-hangman/GameModel.swift:155-167 | with an idempotent case mapping, adding a character that is not its own uppercase changes neither the win test nor the board |
| GameModel.GameModel.constructor | burak-hangman/GameModel.swift:52-61 | empty word and sets, English, not started, score 0, budget 6; satisfies the invariant |
| GameModel.GameModel.SetLanguage | burak-hangman/GameModel.swift:93-95 | the new fields are the `SetLanguage` rule applied to the old ones; the invariant is kept |
| GameModel.GameModel.StartNewGame | burak-hangman/GameModel.swift:146-152 | the new fields are the `StartNewGame` rule applied to the old ones; the invariant holds when the budget is at least 1 |
| GameModel.GameModel.UpdateGameState | burak-hangman/GameModel.swift:176-184 | the new fields are the `UpdateGameState` rule applied to the old ones; the invariant is kept |
| GameModel.GameModel.GuessLetter | burak-hangman/GameModel.swift:155-173 | the new fields and the result are the `Guess` rule applied to the old fields; a rejected guess changes nothing; the invariant is kept |
| GameModel.GameModel.FetchNewWord | burak-hangman/GameModel.swift:98-143 | the URL for the current language goes to the service; the new fields and the result follow the `FetchNewWord` rule; a failure changes nothing |
| GameModel.GameModel.NextWord | burak-hangman/GameModel.swift:187-189 | follows the `NextWord` rule, so the score is kept |
| GameModel.GameModel.ResetGame | burak-hangman/GameModel.swift:192-195 | follows the `ResetGame` rule: the score is zeroed and is not restored after a failed fetch |
| LanguageSelection.LanguageForTag | burak-hangman/ViewController.swift:53-68 | any tag outside 1..6 selects English |
| LanguageSelection.FlagTag | burak-hangman/ViewController.swift:91-100 | every language's tag is in 1..6, and `LanguageForTag` maps it back to the same language |
| LanguageSelection.TagRoundTrip | burak-hangman/ViewController.swift:53-100 | every tag in 1..6 is the flag tag of the language it selects |
| LanguageSelection.FlagTagInjective | burak-hangman/ViewController.swift:91-100 | distinct languages get distinct tags |
| LanguageSelection.ViewTags | burak-hangman/ViewController.swift:28-30 | view i (counting from 0) gets tag i + 1, so the tags are pairwise distinct and are exactly the numbers 1..count |
| LanguageSelection.Highlights | burak-hangman/ViewController.swift:85-87 | a view is highlighted iff its tag is the selected language's flag tag; tapping a highlighted view selects that language again; if the tags are pairwise distinct, at most one view is highlighted |
| LanguageSelection.ExactlyOneFlagHighlighted | burak-hangman/ViewController.swift:28-100 | with six views tagged 1..6, exactly one is highlighted, and tapping it selects the language again |
| LanguageSelection.ViewController.constructor | burak-hangman/ViewController.swift:12-15 | a fresh game model in its initial state; English selected |
| LanguageSelection.ViewController.SetupFlagImageViews | burak-hangman/ViewController.swift:27-46 | afterwards the views carry tags 1..n in order |
| LanguageSelection.ViewController.UpdateSelectedLanguage | burak-hangman/ViewController.swift:74-88 | the game model's language and the selected language are both set to the given one; only the view with that language's tag is highlighted; the tags are unchanged |
| LanguageSelection.ViewController.FlagTapped | burak-hangman/ViewController.swift:49-71 | selects the language for the tapped view's tag and updates the selection as above |
| LanguageSelection.ViewController.ViewDidLoad | burak-hangman/ViewController.swift:17-24 | numbers the views 1..n and selects English |
| Scenarios.CatStep | burak-hangman/GameModel.swift:155-184 | on "cat", a new guess whose uppercase is in the word, while C is still unguessed, is recorded with no wrong letter and the round stays in progress |
| Scenarios.CatBeforeLastLetter | burak-hangman/GameModel.swift:155-184 | on "cat", the guesses T, a, A leave the round in progress with no wrong letters |
| Scenarios.CatLastLetter | burak-hangman/GameModel.swift:176-184 | the guess C then wins "cat" and credits 3 points |
| Scenarios.CatIsWonByThreeLetters | burak-hangman/GameModel.swift:155-184 | T, a, A, C win "cat" with no wrong letters and credit exactly 3 points; the lower-case a does not help |

## Left out

- Networking, threading and JSON decoding are not modelled. The service is a parameter `transport: string -> Response`, applied to the URL the engine builds. `Response` distinguishes a transport error, a status code, and a body that is or is not a list of strings. Asynchronous completion, `DispatchQueue.main.async`, and overlapping fetches are concurrency concerns and are left out.
- The `URL(string:)` failure branch (GameModel.swift:106-109) is not modelled: it cannot occur for the six fixed URL strings. The `weak self` branch is not modelled either: it only matters after the engine has been released.
- Unicode case mapping is abstract, as a one-character-to-one-character function. Swift's `uppercased()` can produce several characters: 'ß' becomes "SS", and 'ß' is on the German keyboard (GameModel.swift:40). So in Swift, the uppercased word can be longer than `currentWord.count`. The board and the win test then range over more characters than the word's length that is credited. In the model, the uppercased word always has the word's length. The characters that lines 73 and 84 pass to `Character(... .uppercased())` come from `currentWord.uppercased()`, where 'ß' has already become "SS"; that conversion would trap only for a character whose uppercase, taken a second time, is several characters. A typed 'ß' does meet a multi-character uppercase at line 165: `letter.uppercased()` is "SS", tested as a substring of the uppercased word. So in Swift a typed 'ß' is never counted wrong on a word containing "ss" or "ß", yet it reveals no slot and never helps win. The model's one-character `upper` cannot express that.
- A Dafny `char` is one Unicode scalar value, and it stands for one Swift `Character`, which is an extended grapheme cluster. So `|word|` models `currentWord.count`, and `char` equality models `Character` equality. Swift compares Characters under canonical equivalence, and one Character can hold several scalars ("e" followed by U+0301). For such words the model credits more points than Swift does (line 180) and can tell apart letters that Swift treats as equal (lines 73, 84, 157, 162).
- `currentScore` is an unbounded integer in the model. Swift's `Int` addition at line 180 traps on overflow.
- `maxWrongAttempts` is a public variable in Swift. The model keeps it as a field that clients may assign. The round invariant assumes it is at least 1 and does not change during a round.
- Languages.Alphabet: states only that every alphabet contains A–Z. It does not give the exact letters, and it does not state that the letters are distinct: proving that over the longer literals costs too much.
- The flag image names (GameModel.swift:20-29) and the `print` at line 151 are not modelled.
- The localization calls inside `updateSelectedLanguage` (ViewController.swift:76, 81-82) and LocalizationHelper.swift (a translation table with a C-style formatter) are left out: they are text only.
- GameViewController.swift (button layout, alerts, enabling keys) is left out. It only reads the engine's queries and calls its operations.
- `playButtonTapped` and `prepare(for:sender:)` (ViewController.swift:103-133) are left out. They show an alert or run a segue after `fetchNewWord`, which is modelled.
- The flag views are modelled as two parallel arrays: each view's tag, and whether it is highlighted (alpha 1.0) or dimmed (alpha 0.5). They are not modelled as view objects. `FlagTapped` takes the index of the tapped view; the `as? UIImageView` guard is UI.

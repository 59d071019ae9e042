/** The hangman rules as pure functions over a snapshot of the engine's fields.
    The case mapping of characters is not modelled: every rule that compares
    letters takes it as a parameter `upper`, one character to one character. */
module GameRules {
  import opened Languages
  import opened WordSource

  datatype GameState = NotStarted | InProgress | Won | Lost

  /** The engine's fields at one moment. */
  datatype EngineState = EngineState(
    word: string,
    guessed: set<char>,
    wrong: set<char>,
    language: Language,
    state: GameState,
    score: int,
    maxWrong: int)

  const DEFAULT_MAX_WRONG_ATTEMPTS := 6

  /** The fields of a freshly created engine. */
  const INITIAL := EngineState("", {}, {}, English, NotStarted, 0, DEFAULT_MAX_WRONG_ATTEMPTS)

  const PLACEHOLDER := '_'
  const SEPARATOR := ' '

  // ---------------------------------------------------------------- queries

  /** The word with every character uppercased. */
  function UpperWord(upper: char -> char, word: string): (u: string)
    ensures |u| == |word|
    ensures forall i :: 0 <= i < |word| ==> u[i] == upper(word[i])
  {
    seq(|word|, i requires 0 <= i < |word| => upper(word[i]))
  }

  /** Won: every character of the uppercased word, uppercased, has been guessed;
      that is, at every position of the word. */
  predicate IsGameWon(upper: char -> char, word: string, guessed: set<char>)
    ensures IsGameWon(upper, word, guessed) <==> forall i :: 0 <= i < |word| ==> upper(upper(word[i])) in guessed
  {
    var u := UpperWord(upper, word);
    assert forall c :: c in u ==> exists i :: 0 <= i < |u| && u[i] == c;
    forall c :: c in u ==> upper(c) in guessed
  }

  /** Lost: the wrong guesses have reached the budget. A budget of zero or
      less is lost from the start; with no wrong guess, only such a budget is. */
  predicate IsGameLost(wrong: set<char>, maxWrong: int)
    ensures maxWrong <= 0 ==> IsGameLost(wrong, maxWrong)
    ensures wrong == {} ==> (IsGameLost(wrong, maxWrong) <==> maxWrong <= 0)
  {
    |wrong| >= maxWrong
  }

  /** The wrong guesses still allowed: the whole budget before any wrong
      guess, one fewer for each new wrong letter, and none left exactly when
      the round is lost. */
  function RemainingAttempts(maxWrong: int, wrong: set<char>): (r: int)
    ensures r <= maxWrong
    ensures wrong == {} ==> r == maxWrong
    ensures r <= 0 <==> IsGameLost(wrong, maxWrong)
  {
    maxWrong - |wrong|
  }

  /** Each new wrong letter costs exactly one attempt; a repeated one costs none. */
  lemma WrongLetterCostsOneAttempt(maxWrong: int, wrong: set<char>, c: char)
    ensures c !in wrong ==> RemainingAttempts(maxWrong, wrong + {c}) == RemainingAttempts(maxWrong, wrong) - 1
    ensures c in wrong ==> RemainingAttempts(maxWrong, wrong + {c}) == RemainingAttempts(maxWrong, wrong)
  {
    if c in wrong {
      assert wrong + {c} == wrong;
    }
  }

  /** The letters that do not occur in the word: those guessed whose uppercase
      is not a character of the uppercased word. */
  ghost function WrongOf(upper: char -> char, word: string, guessed: set<char>): set<char> {
    set c | c in guessed && upper(c) !in UpperWord(upper, word)
  }

  /** Slots joined by single separators. */
  function JoinWithSpaces(slots: seq<char>): (r: string)
    ensures |r| == if |slots| == 0 then 0 else 2 * |slots| - 1
    ensures forall i :: 0 <= i < |slots| ==> r[2 * i] == slots[i]
    ensures forall i :: 0 <= i < |slots| - 1 ==> r[2 * i + 1] == SEPARATOR
  {
    if |slots| <= 1 then slots
    else
      var rest := JoinWithSpaces(slots[1..]);
      var r := [slots[0], SEPARATOR] + rest;
      assert forall i :: 1 <= i < |slots| - 1 ==> r[2 * i + 1] == SEPARATOR by {
        forall i | 1 <= i < |slots| - 1
          ensures r[2 * i + 1] == SEPARATOR
        {
          var j := i - 1;
          assert 0 <= j < |slots[1..]| - 1;
          assert r[2 * i + 1] == rest[2 * j + 1];
        }
      }
      r
  }

  /** The board: one slot per character of the uppercased word, showing that
      character uppercased once it has been guessed and the placeholder before. */
  function DisplayWord(upper: char -> char, word: string, guessed: set<char>): (r: string)
    ensures |r| == if |word| == 0 then 0 else 2 * |word| - 1
    ensures forall i :: 0 <= i < |word| ==>
      r[2 * i] == (if upper(upper(word[i])) in guessed then upper(upper(word[i])) else PLACEHOLDER)
    ensures forall i :: 0 <= i < |word| - 1 ==> r[2 * i + 1] == SEPARATOR
  {
    var u := UpperWord(upper, word);
    JoinWithSpaces(seq(|u|, i requires 0 <= i < |u| => if upper(u[i]) in guessed then upper(u[i]) else PLACEHOLDER))
  }

  // ---------------------------------------------------------------- steps

  function SetLanguage(s: EngineState, l: Language): (r: EngineState)
    ensures r.language == l
    ensures r.(language := s.language) == s
  {
    s.(language := l)
  }

  /** A new round: the word is set, both letter sets are emptied and the
      round is in progress; score, language and budget are kept. */
  function StartNewGame(s: EngineState, word: string): (r: EngineState)
    ensures r.word == word && r.guessed == {} && r.wrong == {} && r.state == InProgress
    ensures r.score == s.score && r.language == s.language && r.maxWrong == s.maxWrong
  {
    s.(word := word, guessed := {}, wrong := {}, state := InProgress)
  }

  /** Won is tested first and credits the word's length; lost only otherwise. */
  function UpdateGameState(upper: char -> char, s: EngineState): (r: EngineState)
    ensures r.(state := s.state, score := s.score) == s
    ensures IsGameWon(upper, s.word, s.guessed) ==> r.state == Won && r.score == s.score + |s.word|
    ensures !IsGameWon(upper, s.word, s.guessed) ==> r.score == s.score
    ensures !IsGameWon(upper, s.word, s.guessed) && IsGameLost(s.wrong, s.maxWrong) ==> r.state == Lost
    ensures !IsGameWon(upper, s.word, s.guessed) && !IsGameLost(s.wrong, s.maxWrong) ==> r.state == s.state
  {
    if IsGameWon(upper, s.word, s.guessed) then
      s.(state := Won, score := s.score + |s.word|)
    else if IsGameLost(s.wrong, s.maxWrong) then
      s.(state := Lost)
    else
      s
  }

  /** One guess: rejected with nothing changed unless the round is in progress
      and this exact character is new; otherwise recorded (as wrong when its
      uppercase is not in the uppercased word) and the state re-evaluated. */
  function Guess(upper: char -> char, s: EngineState, letter: char): (r: (EngineState, bool))
    ensures r.1 <==> s.state == InProgress && letter !in s.guessed
    ensures !r.1 ==> r.0 == s
    ensures r.1 ==> r.0.guessed == s.guessed + {letter}
    ensures r.1 ==> r.0.wrong == if upper(letter) in UpperWord(upper, s.word) then s.wrong else s.wrong + {letter}
    ensures r.0.word == s.word && r.0.language == s.language && r.0.maxWrong == s.maxWrong
    ensures r.1 && IsGameWon(upper, s.word, r.0.guessed) ==>
              r.0.state == Won && r.0.score == s.score + |s.word|
    ensures r.1 && !IsGameWon(upper, s.word, r.0.guessed) && IsGameLost(r.0.wrong, s.maxWrong) ==>
              r.0.state == Lost && r.0.score == s.score
    ensures r.1 && !IsGameWon(upper, s.word, r.0.guessed) && !IsGameLost(r.0.wrong, s.maxWrong) ==>
              r.0.state == InProgress && r.0.score == s.score
  {
    if s.state != InProgress || letter in s.guessed then
      (s, false)
    else
      var guessed := s.guessed + {letter};
      var wrong := if upper(letter) !in UpperWord(upper, s.word) then s.wrong + {letter} else s.wrong;
      (UpdateGameState(upper, s.(guessed := guessed, wrong := wrong)), true)
  }

  /** The state after guessing `letters` one after the other. */
  function Guesses(upper: char -> char, s: EngineState, letters: seq<char>): EngineState
    decreases |letters|
  {
    if letters == [] then s
    else Guesses(upper, Guess(upper, s, letters[0]).0, letters[1..])
  }

  /** Guessing `a` then `b` is guessing `a + b`. */
  lemma {:induction false} GuessesAppend(upper: char -> char, s: EngineState, a: seq<char>, b: seq<char>)
    ensures Guesses(upper, s, a + b) == Guesses(upper, Guesses(upper, s, a), b)
    decreases |a|
  {
    if a != [] {
      assert (a + b)[1..] == a[1..] + b;
      GuessesAppend(upper, Guess(upper, s, a[0]).0, a[1..], b);
    } else {
      assert a + b == b;
    }
  }

  /** Fetching a word for the current language through `transport`: a fetched
      word starts a new round and reports success; every failure reports false
      and leaves every field as it was. */
  function FetchNewWord(s: EngineState, transport: string -> Response): (r: (EngineState, bool))
    ensures r.1 <==> WordFromResponse(transport(RequestUrl(s.language))).Some?
    ensures r.1 ==> r.0 == StartNewGame(s, WordFromResponse(transport(RequestUrl(s.language))).value)
    ensures !r.1 ==> r.0 == s
  {
    match WordFromResponse(transport(RequestUrl(s.language)))
    case Some(word) => (StartNewGame(s, word), true)
    case None => (s, false)
  }

  /** The next round keeps the score whatever the fetch does. */
  function NextWord(s: EngineState, transport: string -> Response): (r: (EngineState, bool))
    ensures r.0.score == s.score
  {
    FetchNewWord(s, transport)
  }

  /** A full reset zeroes the score before fetching; a failed fetch does not
      restore it. */
  function ResetGame(s: EngineState, transport: string -> Response): (r: (EngineState, bool))
    ensures r.0.score == 0
    ensures !r.1 ==> r.0 == s.(score := 0)
    ensures r.1 ==> r.0.state == InProgress && r.0.guessed == {} && r.0.wrong == {}
  {
    FetchNewWord(s.(score := 0), transport)
  }

  // ---------------------------------------------------------------- invariant

  /** What holds of the fields between operations while the budget is at least one:
      the wrong letters are exactly the guessed ones absent from the word; an
      in-progress round has budget left and is won only before its first guess
      on an empty word; a won round has every letter guessed; a lost round has
      used its budget exactly without being won. */
  ghost predicate RoundInvariant(upper: char -> char, s: EngineState) {
    && s.maxWrong >= 1
    && s.wrong == WrongOf(upper, s.word, s.guessed)
    && (s.state == NotStarted ==> s.guessed == {})
    && (s.state == InProgress ==>
          |s.wrong| < s.maxWrong && (IsGameWon(upper, s.word, s.guessed) ==> s.guessed == {}))
    && (s.state == Won ==> IsGameWon(upper, s.word, s.guessed) && |s.wrong| <= s.maxWrong)
    && (s.state == Lost ==> |s.wrong| == s.maxWrong && !IsGameWon(upper, s.word, s.guessed))
  }

  lemma InitialInvariant(upper: char -> char)
    ensures RoundInvariant(upper, INITIAL)
  {
  }

  /** A round started with a budget of at least one satisfies the invariant;
      it counts as won before any guess only when the word is empty. */
  lemma StartNewGameInvariant(upper: char -> char, s: EngineState, word: string)
    requires s.maxWrong >= 1
    ensures RoundInvariant(upper, StartNewGame(s, word))
    ensures IsGameWon(upper, word, {}) <==> word == []
  {
    if word != [] {
      assert UpperWord(upper, word)[0] in UpperWord(upper, word);
    }
  }

  /** Every guess keeps the invariant. */
  lemma GuessPreservesInvariant(upper: char -> char, s: EngineState, letter: char)
    requires RoundInvariant(upper, s)
    ensures RoundInvariant(upper, Guess(upper, s, letter).0)
  {
  }

  lemma {:induction false} GuessesPreserveInvariant(upper: char -> char, s: EngineState, letters: seq<char>)
    requires RoundInvariant(upper, s)
    ensures RoundInvariant(upper, Guesses(upper, s, letters))
    decreases |letters|
  {
    if letters != [] {
      GuessPreservesInvariant(upper, s, letters[0]);
      GuessesPreserveInvariant(upper, Guess(upper, s, letters[0]).0, letters[1..]);
    }
  }

  /** Under the invariant the remaining attempts are never negative, and an
      in-progress round always has at least one left. */
  lemma RemainingAttemptsBounds(upper: char -> char, s: EngineState)
    requires RoundInvariant(upper, s)
    ensures 0 <= RemainingAttempts(s.maxWrong, s.wrong) <= s.maxWrong
    ensures s.state == InProgress ==> RemainingAttempts(s.maxWrong, s.wrong) >= 1
  {
  }

  /** A round that is not in progress (not started, won or lost) accepts no
      guess: any further guesses leave every field unchanged. */
  lemma {:induction false} GuessesAfterRoundAreIgnored(upper: char -> char, s: EngineState, letters: seq<char>)
    requires s.state != InProgress
    ensures Guesses(upper, s, letters) == s
    decreases |letters|
  {
    if letters != [] {
      GuessesAfterRoundAreIgnored(upper, s, letters[1..]);
    }
  }

  /** Over any sequence of guesses in a round, the score rises by the word's
      length exactly when the round ends won, and otherwise stays put: the
      word is credited at most once. */
  lemma {:induction false} ScoreCreditedOnce(upper: char -> char, s: EngineState, letters: seq<char>)
    requires s.state == InProgress
    ensures Guesses(upper, s, letters).score
            == s.score + (if Guesses(upper, s, letters).state == Won then |s.word| else 0)
    ensures Guesses(upper, s, letters).word == s.word
    decreases |letters|
  {
    if letters != [] {
      var next := Guess(upper, s, letters[0]).0;
      if next.state == InProgress {
        ScoreCreditedOnce(upper, next, letters[1..]);
      } else {
        GuessesAfterRoundAreIgnored(upper, next, letters[1..]);
      }
    }
  }

  /** Once won, the board shows every character revealed: slot i is the i-th
      character uppercased. */
  lemma DisplayWhenWon(upper: char -> char, word: string, guessed: set<char>)
    requires IsGameWon(upper, word, guessed)
    ensures forall i :: 0 <= i < |word| ==> DisplayWord(upper, word, guessed)[2 * i] == upper(upper(word[i]))
  {
  }

  /** For a word none of whose revealed characters is the placeholder itself,
      the round is won exactly when no slot of the board is the placeholder. */
  lemma WonIffNoPlaceholder(upper: char -> char, word: string, guessed: set<char>)
    requires forall i :: 0 <= i < |word| ==> upper(upper(word[i])) != PLACEHOLDER
    ensures IsGameWon(upper, word, guessed)
        <==> forall i :: 0 <= i < |word| ==> DisplayWord(upper, word, guessed)[2 * i] != PLACEHOLDER
  {
    var d := DisplayWord(upper, word, guessed);
    var u := UpperWord(upper, word);
    if forall i :: 0 <= i < |word| ==> d[2 * i] != PLACEHOLDER {
      forall c | c in u
        ensures upper(c) in guessed
      {
        var i :| 0 <= i < |u| && u[i] == c;
        assert d[2 * i] != PLACEHOLDER;
      }
    } else {
      var i :| 0 <= i < |word| && d[2 * i] == PLACEHOLDER;
      assert u[i] in u;
    }
  }

  /** With an idempotent case mapping, a character that is not its own
      uppercase (a lower-case guess) never reveals a slot and never moves the
      round towards won, although it is not counted wrong when its uppercase
      occurs in the word. */
  lemma LowercaseGuessIsInert(upper: char -> char, word: string, guessed: set<char>, c: char)
    requires forall x :: upper(upper(x)) == upper(x)
    requires upper(c) != c
    ensures IsGameWon(upper, word, guessed + {c}) == IsGameWon(upper, word, guessed)
    ensures DisplayWord(upper, word, guessed + {c}) == DisplayWord(upper, word, guessed)
  {
    var d0 := DisplayWord(upper, word, guessed);
    var d1 := DisplayWord(upper, word, guessed + {c});
    forall k | 0 <= k < |d1|
      ensures d1[k] == d0[k]
    {
      var i := k / 2;
      if k == 2 * i {
        assert upper(upper(word[i])) != c;
        assert d1[2 * i] == d0[2 * i];
      } else {
        assert k == 2 * i + 1;
      }
    }
    if IsGameWon(upper, word, guessed + {c}) {
      forall x | x in UpperWord(upper, word)
        ensures upper(x) in guessed
      {
        assert upper(x) != c;
      }
    }
  }
}

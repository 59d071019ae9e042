/** The game engine object: its fields are updated in place by the operations,
    each of which is proved to follow the corresponding rule of GameRules. */
module GameModel {
  import opened Languages
  import opened WordSource
  import opened GameRules

  class GameModel {
    /** The character case mapping the engine uses; see GameRules. */
    const upper: char -> char

    var currentWord: string
    var guessedLetters: set<char>
    var wrongLetters: set<char>
    var currentLanguage: Language
    var gameState: GameState
    var currentScore: int
    var maxWrongAttempts: int

    /** The fields as a value. */
    function State(): EngineState
      reads this
    {
      EngineState(currentWord, guessedLetters, wrongLetters, currentLanguage,
                  gameState, currentScore, maxWrongAttempts)
    }

    ghost predicate Valid()
      reads this
    {
      RoundInvariant(upper, State())
    }

    constructor(upper: char -> char)
      ensures this.upper == upper
      ensures State() == INITIAL
      ensures Valid()
    {
      this.upper := upper;
      currentWord := "";
      guessedLetters := {};
      wrongLetters := {};
      currentLanguage := English;
      gameState := NotStarted;
      currentScore := 0;
      maxWrongAttempts := DEFAULT_MAX_WRONG_ATTEMPTS;
    }

    method SetLanguage(language: Language)
      modifies this
      ensures State() == GameRules.SetLanguage(old(State()), language)
      ensures old(Valid()) ==> Valid()
    {
      currentLanguage := language;
    }

    /** Private in the engine: called only by FetchNewWord after a word arrived. */
    method StartNewGame(word: string)
      modifies this
      ensures State() == GameRules.StartNewGame(old(State()), word)
      ensures old(maxWrongAttempts) >= 1 ==> Valid()
    {
      currentWord := word;
      guessedLetters := {};
      wrongLetters := {};
      gameState := InProgress;
      if old(maxWrongAttempts) >= 1 {
        StartNewGameInvariant(upper, old(State()), word);
      }
    }

    /** Private in the engine: called only by GuessLetter, once per accepted
        guess on an in-progress round. */
    method UpdateGameState()
      modifies this
      ensures State() == GameRules.UpdateGameState(upper, old(State()))
      ensures old(Valid()) ==> Valid()
    {
      if IsGameWon(upper, currentWord, guessedLetters) {
        gameState := Won;
        currentScore := currentScore + |currentWord|;
      } else if IsGameLost(wrongLetters, maxWrongAttempts) {
        gameState := Lost;
      }
    }

    method GuessLetter(letter: char) returns (accepted: bool)
      modifies this
      ensures (State(), accepted) == Guess(upper, old(State()), letter)
      ensures !accepted ==> unchanged(this)
      ensures old(Valid()) ==> Valid()
    {
      if gameState != InProgress || letter in guessedLetters {
        return false;
      }
      guessedLetters := guessedLetters + {letter};
      if upper(letter) !in UpperWord(upper, currentWord) {
        wrongLetters := wrongLetters + {letter};
      }
      UpdateGameState();
      accepted := true;
      if old(Valid()) {
        GuessPreservesInvariant(upper, old(State()), letter);
      }
    }

    /** Fetches a word for the current language; `transport` stands for the
        word-list service and receives the request URL. */
    method FetchNewWord(transport: string -> Response) returns (success: bool)
      modifies this
      ensures (State(), success) == GameRules.FetchNewWord(old(State()), transport)
      ensures !success ==> unchanged(this)
      ensures old(Valid()) ==> Valid()
    {
      var url := RequestUrl(currentLanguage);
      var response := transport(url);
      match WordFromResponse(response)
      case Some(word) =>
        StartNewGame(word);
        success := true;
      case None =>
        success := false;
    }

    method NextWord(transport: string -> Response) returns (success: bool)
      modifies this
      ensures (State(), success) == GameRules.NextWord(old(State()), transport)
      ensures old(Valid()) ==> Valid()
    {
      success := FetchNewWord(transport);
    }

    method ResetGame(transport: string -> Response) returns (success: bool)
      modifies this
      ensures (State(), success) == GameRules.ResetGame(old(State()), transport)
      ensures old(Valid()) ==> Valid()
    {
      currentScore := 0;
      success := FetchNewWord(transport);
    }
  }
}

/** A worked round over the rules, with a case mapping that uppercases ASCII
    letters only. */
module Scenarios {
  import opened GameRules

  function AsciiUpper(c: char): char {
    if 'a' <= c <= 'z' then (c as int - 32) as char else c
  }

  lemma UpperCat()
    ensures UpperWord(AsciiUpper, "cat") == "CAT"
  {
  }

  /** On "cat", a new guess whose uppercase is in the word, while 'C' stays
      unguessed, is recorded without a wrong letter and the round goes on. */
  lemma CatStep(s: EngineState, letter: char)
    requires s.state == InProgress && s.word == "cat" && s.wrong == {}
    requires s.maxWrong == DEFAULT_MAX_WRONG_ATTEMPTS
    requires letter !in s.guessed && AsciiUpper(letter) in "CAT"
    requires 'C' !in s.guessed + {letter}
    ensures Guess(AsciiUpper, s, letter).0 == s.(guessed := s.guessed + {letter})
  {
    UpperCat();
    assert 'C' in UpperWord(AsciiUpper, "cat");
    assert !IsGameWon(AsciiUpper, "cat", s.guessed + {letter});
  }

  /** The round on "cat" after the guesses T, a, A in turn: still in
      progress, nothing wrong, 'C' not yet revealed. */
  lemma CatBeforeLastLetter(s: EngineState)
    requires s.state == InProgress && s.word == "cat" && s.guessed == {} && s.wrong == {}
    requires s.maxWrong == DEFAULT_MAX_WRONG_ATTEMPTS
    ensures Guesses(AsciiUpper, s, "TaA") == s.(guessed := {'T', 'a', 'A'})
  {
    var s1 := s.(guessed := {'T'});
    var s2 := s.(guessed := {'T', 'a'});
    var s3 := s.(guessed := {'T', 'a', 'A'});
    CatStep(s, 'T');
    assert {} + {'T'} == {'T'};
    CatStep(s1, 'a');
    assert {'T'} + {'a'} == {'T', 'a'};
    CatStep(s2, 'A');
    assert {'T', 'a'} + {'A'} == {'T', 'a', 'A'};
    assert Guesses(AsciiUpper, s2, "A") == Guesses(AsciiUpper, s3, "");
    assert Guesses(AsciiUpper, s1, "aA") == Guesses(AsciiUpper, s2, "A");
  }

  /** The guess 'C' completes "cat": the round is won and its length credited. */
  lemma CatLastLetter(s: EngineState)
    requires s.state == InProgress && s.word == "cat" && s.wrong == {} && s.guessed == {'T', 'a', 'A'}
    requires s.maxWrong == DEFAULT_MAX_WRONG_ATTEMPTS
    ensures Guesses(AsciiUpper, s, "C") == s.(guessed := {'T', 'a', 'A', 'C'}, state := Won, score := s.score + 3)
  {
    UpperCat();
    assert IsGameWon(AsciiUpper, "cat", {'T', 'a', 'A', 'C'});
    var s4 := s.(guessed := {'T', 'a', 'A', 'C'}, state := Won, score := s.score + 3);
    assert Guess(AsciiUpper, s, 'C').0 == s4;
    assert Guesses(AsciiUpper, s, "C") == Guesses(AsciiUpper, s4, "");
  }

  /** "cat" is won once T, A and C are guessed; the lower-case 'a' in between
      is accepted, not counted wrong, and reveals nothing. The round credits
      three points. */
  lemma CatIsWonByThreeLetters(s: EngineState)
    requires s.state == InProgress && s.word == "cat" && s.guessed == {} && s.wrong == {}
    requires s.maxWrong == DEFAULT_MAX_WRONG_ATTEMPTS
    ensures Guesses(AsciiUpper, s, "TaAC")
         == s.(guessed := {'T', 'a', 'A', 'C'}, state := Won, score := s.score + 3)
  {
    CatBeforeLastLetter(s);
    CatLastLetter(s.(guessed := {'T', 'a', 'A'}));
    assert "TaAC" == "TaA" + "C";
    GuessesAppend(AsciiUpper, s, "TaA", "C");
  }
}

/** The language-selection screen: one flag view per language, numbered by
    tag, and the two mappings between tags and languages. */
module LanguageSelection {
  import opened Languages
  import opened GameRules
  import GameModel

  const FLAG_COUNT := 6

  /** The language chosen by tapping the flag with this tag; any tag outside
      1..6 selects English. */
  function LanguageForTag(tag: int): (l: Language)
    ensures !(1 <= tag <= FLAG_COUNT) ==> l == English
  {
    match tag
    case 1 => English
    case 2 => Spanish
    case 3 => Italian
    case 4 => German
    case 5 => French
    case 6 => PortugueseBR
    case _ => English
  }

  /** The tag of the flag that shows a language: always one of 1..6, and the
      tag that selects that language back. */
  function FlagTag(l: Language): (tag: int)
    ensures 1 <= tag <= FLAG_COUNT
    ensures LanguageForTag(tag) == l
  {
    match l
    case English => 1
    case Spanish => 2
    case Italian => 3
    case German => 4
    case French => 5
    case PortugueseBR => 6
  }

  /** The other direction of the round trip: every tag in 1..6 is the flag tag
      of the language it selects, so the tags 1..6 and the six languages are in
      one-to-one correspondence. */
  lemma TagRoundTrip(tag: int)
    requires 1 <= tag <= FLAG_COUNT
    ensures FlagTag(LanguageForTag(tag)) == tag
  {
  }

  lemma FlagTagInjective(a: Language, b: Language)
    requires FlagTag(a) == FlagTag(b)
    ensures a == b
  {
  }

  /** The tags the flag views receive: view i (from 0) gets i + 1, so the
      tags are pairwise distinct and are exactly 1..count. */
  function ViewTags(count: nat): (tags: seq<int>)
    ensures |tags| == count
    ensures forall i :: 0 <= i < count ==> tags[i] == i + 1
    ensures forall i, j :: 0 <= i < j < count ==> tags[i] != tags[j]
    ensures forall t :: t in tags <==> 1 <= t <= count
  {
    var tags := seq(count, i requires 0 <= i < count => i + 1);
    assert forall t :: 1 <= t <= count ==> t in tags by {
      forall t | 1 <= t <= count
        ensures t in tags
      {
        assert tags[t - 1] == t;
      }
    }
    tags
  }

  /** Which views are highlighted for a language: those whose tag is the
      language's flag tag; all others are dimmed. Tapping a highlighted view
      selects the language again, and with pairwise distinct tags at most one
      view is highlighted. */
  function Highlights(tags: seq<int>, l: Language): (lit: seq<bool>)
    ensures |lit| == |tags|
    ensures forall i :: 0 <= i < |tags| ==> (lit[i] <==> tags[i] == FlagTag(l))
    ensures forall i :: 0 <= i < |tags| && lit[i] ==> LanguageForTag(tags[i]) == l
    ensures (forall i, j :: 0 <= i < j < |tags| ==> tags[i] != tags[j]) ==>
              forall i, j :: 0 <= i < |tags| && 0 <= j < |tags| && lit[i] && lit[j] ==> i == j
  {
    seq(|tags|, i requires 0 <= i < |tags| => tags[i] == FlagTag(l))
  }

  /** With the six flag views numbered 1..6, exactly one view is highlighted:
      the one whose tapping selects the language again. */
  lemma ExactlyOneFlagHighlighted(l: Language)
    ensures exists k :: 0 <= k < FLAG_COUNT && Highlights(ViewTags(FLAG_COUNT), l)[k]
    ensures forall i, j ::
              (0 <= i < FLAG_COUNT && 0 <= j < FLAG_COUNT &&
               Highlights(ViewTags(FLAG_COUNT), l)[i] && Highlights(ViewTags(FLAG_COUNT), l)[j]) ==> i == j
    ensures forall i :: 0 <= i < FLAG_COUNT && Highlights(ViewTags(FLAG_COUNT), l)[i]
              ==> LanguageForTag(ViewTags(FLAG_COUNT)[i]) == l
  {
    var k := FlagTag(l) - 1;
    assert Highlights(ViewTags(FLAG_COUNT), l)[k];
  }

  class ViewController {
    const gameModel: GameModel.GameModel
    var selectedLanguage: Language
    /** The tag of each flag view, in the order of the outlet collection. */
    const flagTags: array<int>
    /** Whether each flag view is shown at full opacity (true) or dimmed. */
    const flagHighlighted: array<bool>

    ghost predicate Valid()
      reads this
    {
      flagTags.Length == flagHighlighted.Length
    }

    constructor(upper: char -> char, flagViewCount: nat)
      ensures Valid() && flagTags.Length == flagViewCount
      ensures fresh(gameModel) && fresh(flagTags) && fresh(flagHighlighted)
      ensures gameModel.State() == INITIAL && gameModel.Valid() && gameModel.upper == upper
      ensures selectedLanguage == English
    {
      gameModel := new GameModel.GameModel(upper);
      selectedLanguage := English;
      flagTags := new int[flagViewCount];
      flagHighlighted := new bool[flagViewCount];
    }

    method SetupFlagImageViews()
      modifies flagTags
      ensures flagTags[..] == ViewTags(flagTags.Length)
    {
      for i := 0 to flagTags.Length
        invariant forall k :: 0 <= k < i ==> flagTags[k] == k + 1
      {
        flagTags[i] := i + 1;
      }
    }

    method UpdateSelectedLanguage(language: Language)
      requires Valid()
      modifies this, gameModel, flagHighlighted
      ensures Valid()
      ensures selectedLanguage == language
      ensures gameModel.State() == GameRules.SetLanguage(old(gameModel.State()), language)
      ensures old(gameModel.Valid()) ==> gameModel.Valid()
      ensures flagHighlighted[..] == Highlights(flagTags[..], language)
      ensures unchanged(flagTags)
    {
      gameModel.SetLanguage(language);
      selectedLanguage := language;
      var selectedTag := FlagTag(language);
      for i := 0 to flagHighlighted.Length
        modifies flagHighlighted
        invariant forall k :: 0 <= k < i ==> (flagHighlighted[k] <==> flagTags[k] == selectedTag)
      {
        flagHighlighted[i] := flagTags[i] == selectedTag;
      }
    }

    /** The user tapped the flag view at `viewIndex`. */
    method FlagTapped(viewIndex: nat)
      requires Valid() && viewIndex < flagTags.Length
      modifies this, gameModel, flagHighlighted
      ensures Valid()
      ensures selectedLanguage == LanguageForTag(old(flagTags[viewIndex]))
      ensures gameModel.State() == GameRules.SetLanguage(old(gameModel.State()), selectedLanguage)
      ensures old(gameModel.Valid()) ==> gameModel.Valid()
      ensures flagHighlighted[..] == Highlights(flagTags[..], selectedLanguage)
      ensures unchanged(flagTags)
    {
      selectedLanguage := LanguageForTag(flagTags[viewIndex]);
      UpdateSelectedLanguage(selectedLanguage);
    }

    method ViewDidLoad()
      requires Valid()
      modifies this, gameModel, flagTags, flagHighlighted
      ensures Valid()
      ensures flagTags[..] == ViewTags(flagTags.Length)
      ensures selectedLanguage == English
      ensures gameModel.State() == GameRules.SetLanguage(old(gameModel.State()), English)
      ensures old(gameModel.Valid()) ==> gameModel.Valid()
      ensures flagHighlighted[..] == Highlights(flagTags[..], English)
    {
      SetupFlagImageViews();
      UpdateSelectedLanguage(English);
    }
  }
}

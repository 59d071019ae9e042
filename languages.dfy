/** The closed set of game languages and the data each one carries:
    the raw code, the optional word-service parameter and the keyboard alphabet. */
module Languages {

  datatype Option<+T> = None | Some(value: T)

  datatype Language = English | Spanish | Italian | German | French | PortugueseBR

  /** The enum's raw value: a code of at least two characters, "en" exactly
      for the default language. */
  function RawValue(l: Language): (code: string)
    ensures |code| >= 2
    ensures code == "en" <==> l == English
  {
    match l
    case English => "en"
    case Spanish => "es"
    case Italian => "it"
    case German => "de"
    case French => "fr"
    case PortugueseBR => "pt-br"
  }

  /** Distinct languages have distinct raw values. */
  lemma RawValueInjective(a: Language, b: Language)
    requires RawValue(a) == RawValue(b)
    ensures a == b
  {
  }

  /** The word-service language selector: absent for the default language,
      the raw value for every other one. */
  function ApiParam(l: Language): (p: Option<string>)
    ensures p.None? <==> l == English
    ensures p.Some? ==> p.value == RawValue(l) && |p.value| >= 2
  {
    match l
    case English => None
    case _ => Some(RawValue(l))
  }

  const LATIN := "ABCDEFGHIJKLMNOPQRSTUVWXYZ"

  /** Letters shown on the on-screen keyboard, in keyboard order. */
  function Alphabet(l: Language): (a: seq<char>)
    ensures forall c :: 'A' <= c <= 'Z' ==> c in a
  {
    match l
    case English => LATIN
    case Spanish => "ABCDEFGHIJKLMNÑOPQRSTUVWXYZ"
    case Italian => LATIN
    case German => LATIN + "ÄÖÜß"
    case French => LATIN + "ÀÂÆÇÉÈÊËÎÏÔŒÙÛÜŸ"
    case PortugueseBR => LATIN + "ÁÀÂÃÇÉÊÍÓÔÕÚÜ"
  }
}

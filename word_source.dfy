/** The word-list service seen from the game: the request URL built from the
    language, and the decision taken on whatever the service answered. */
module WordSource {
  import opened Languages

  const API_BASE_URL := "https://random-word-api.herokuapp.com/word"
  const LANG_QUERY := "?lang="

  /** The request URL: the base alone when the language has no API parameter,
      otherwise the base followed by the `lang` query. */
  function RequestUrl(l: Language): (url: string)
    ensures l == English ==> url == API_BASE_URL
    ensures l != English ==> url == API_BASE_URL + LANG_QUERY + RawValue(l)
  {
    match ApiParam(l)
    case None => API_BASE_URL
    case Some(param) => API_BASE_URL + LANG_QUERY + param
  }

  /** Every request goes to the base endpoint; only English omits the query,
      and the query names exactly the language's raw value. */
  lemma RequestUrlShape(l: Language)
    ensures |RequestUrl(l)| >= |API_BASE_URL|
    ensures RequestUrl(l)[..|API_BASE_URL|] == API_BASE_URL
    ensures l == English <==> '?' !in RequestUrl(l)
    ensures l != English ==> RequestUrl(l)[|API_BASE_URL| + |LANG_QUERY|..] == RawValue(l)
  {
    var url := RequestUrl(l);
    if l == English {
      assert url == API_BASE_URL;
    } else {
      var n := |API_BASE_URL|;
      assert url[n] == LANG_QUERY[0] == '?';
    }
  }

  /** Distinct languages are sent to distinct URLs. */
  lemma RequestUrlInjective(a: Language, b: Language)
    requires RequestUrl(a) == RequestUrl(b)
    ensures a == b
  {
    RequestUrlShape(a);
    RequestUrlShape(b);
    if a != English && b != English {
      RawValueInjective(a, b);
    }
  }

  /** What the JSON body decoded to: a list of strings, or anything else. */
  datatype Body = StringList(words: seq<string>) | NotStringList

  /** What the transport delivered: an error (no data, a transport error,
      or no HTTP response), or an HTTP status with its body. */
  datatype Response = TransportError | Http(status: int, body: Body)

  /** The fetched word: the first element of a list of strings delivered
      with status 200; every other response is a failure. */
  function WordFromResponse(r: Response): (w: Option<string>)
    ensures w.Some? <==> r.Http? && r.status == 200 && r.body.StringList? && |r.body.words| > 0
    ensures w.Some? ==> w.value == r.body.words[0]
  {
    match r
    case TransportError => None
    case Http(status, body) =>
      if status != 200 then None
      else match body
        case NotStringList => None
        case StringList(words) => if |words| == 0 then None else Some(words[0])
  }
}

/** Shared vocabulary: optional values, results with the Python exceptions the
    core can raise, dictionary values, and the two foreign collaborators the
    core depends on (the Jaro-Winkler scorer and the regular-expression engine). */
module Base {

  datatype Option<+T> = None | Some(value: T)

  /** The exceptions that escape from the modelled Python code. */
  datatype Error =
    | KeyError(key: string)          // dict[key] on a missing key
    | IndexError                     // list[i] out of range, [][-1]
    | PatternError(pattern: string)  // re.compile rejected the pattern (re.error)
    | TypeError                      // a value of the wrong shape
    | AttributeError(name: string)   // an attribute read before it was assigned
    | ValueError                     // list.remove of an absent element
    | RestError                      // a Twilio REST request failed (TwilioRestException)

  datatype Result<+T> = Ok(value: T) | Err(error: Error)

  /** The values a configuration or user-input dictionary holds. */
  datatype Value = Null | Int(i: int) | Str(s: string) | StrList(items: seq<string>)

  /** A similarity score; jellyfish.jaro_winkler_similarity ranges over [0, 1]. */
  type Score = r: real | 0.0 <= r <= 1.0

  /** The Jaro-Winkler scorer, left uninterpreted: any total scorer into [0, 1]. */
  type Similarity = (string, string) -> Score

  /** The regular-expression engine, left uninterpreted.  `compiles(p)` says
      whether re.compile(p, re.IGNORECASE) succeeds; `search(p, t)` whether
      that compiled pattern finds a match anywhere in t. */
  datatype RegexEngine = RegexEngine(compiles: string -> bool, search: (string, string) -> bool)

  /** Python's list indexing: negative indices count from the end; anything
      else outside the list raises IndexError (None here). */
  function PyIndex(i: int, n: nat): (r: Option<nat>)
    ensures r.Some? <==> -(n as int) <= i < n
    ensures r.Some? ==> r.value < n && (r.value == i || r.value == n + i)
  {
    if 0 <= i < n then Some(i)
    else if i < 0 && 0 <= n + i then Some(n + i)
    else None
  }
}

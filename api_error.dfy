/** The gateway's typed errors and the texts shown for them. */
module ApiError {
  import opened Text

  datatype APIError =
    | InvalidURL
    | InvalidResponse
    | HttpError(statusCode: int, message: string)
    | DecodingError
    /** Wraps a non-API error; the cause is kept as its localized description. */
    | NetworkError(cause: string)
    | Unauthorized

  /** Anything a call can throw: an `APIError`, an `NSError` raised by the sign-in
      flow (domain "AuthService"), or any other Foundation or SDK error, of which
      only the localized description is observable. */
  datatype Failure =
    | Api(error: APIError)
    | SignInError(code: int, description: string)
    | Foreign(description: string)

  /** `APIError.errorDescription`. */
  function Description(e: APIError): string
  {
    match e
    case InvalidURL => "Invalid URL"
    case InvalidResponse => "Invalid response from server"
    case HttpError(s, m) => "Error " + IntToString(s) + ": " + m
    case DecodingError => "Failed to decode response"
    case NetworkError(c) => "Network error: " + c
    case Unauthorized => "Unauthorized - please login again"
  }

  /** `error.localizedDescription` for anything thrown. */
  function LocalizedDescription(f: Failure): string
  {
    match f
    case Api(e) => Description(e)
    case SignInError(_, d) => d
    case Foreign(d) => d
  }

  /** Index of the first ':' in `s` (|s| when there is none). */
  function FirstColon(s: string): nat
  {
    if s == [] || s[0] == ':' then 0 else 1 + FirstColon(s[1..])
  }

  lemma {:induction false} FirstColonAfterHead(a: string, x: string)
    requires ':' !in a && |x| > 0 && x[0] == ':'
    ensures FirstColon(a + x) == |a|
  {
    if a != [] {
      assert (a + x)[1..] == a[1..] + x;
      FirstColonAfterHead(a[1..], x);
    }
  }

  /** Two strings that both continue with ':' right after a colon-free head have the same head. */
  lemma SameHeadBeforeColon(a: string, x: string, b: string, y: string)
    requires ':' !in a && ':' !in b && |x| > 0 && |y| > 0 && x[0] == ':' && y[0] == ':'
    requires a + x == b + y
    ensures a == b && x == y
  {
    FirstColonAfterHead(a, x);
    FirstColonAfterHead(b, y);
    assert a == (a + x)[..|a|] == (b + y)[..|b|] == b;
    assert x == (a + x)[|a|..] == (b + y)[|b|..] == y;
  }

  lemma {:induction false} HttpDescriptionDetermines(s1: int, m1: string, s2: int, m2: string)
    requires Description(HttpError(s1, m1)) == Description(HttpError(s2, m2))
    ensures s1 == s2 && m1 == m2
  {
    var h1, h2 := IntToString(s1), IntToString(s2);
    var d1, d2 := Description(HttpError(s1, m1)), Description(HttpError(s2, m2));
    assert d1[6..] == h1 + (": " + m1);
    assert d2[6..] == h2 + (": " + m2);
    SameHeadBeforeColon(h1, ": " + m1, h2, ": " + m2);
    IntToStringInjective(s1, s2);
    assert m1 == (": " + m1)[2..];
  }

  /** The mapping is total and loses nothing: distinct errors are shown with distinct
      texts, so the status and the message can be read back from an `httpError` text. */
  lemma DescriptionInjective(e1: APIError, e2: APIError)
    requires Description(e1) == Description(e2)
    ensures e1 == e2
  {
    var d1, d2 := Description(e1), Description(e2);
    if e1.HttpError? && e2.HttpError? {
      HttpDescriptionDetermines(e1.statusCode, e1.message, e2.statusCode, e2.message);
    } else if e1.NetworkError? && e2.NetworkError? {
      var p := "Network error: ";
      assert e1.cause == (p + e1.cause)[|p|..];
    } else if e1.HttpError? || e1.NetworkError? || e2.HttpError? || e2.NetworkError? {
      assert d1[0] == d2[0] && d1[1] == d2[1];
    }
  }
}

/** The command line's error type (src/core/error.rs): seven variants, two of
    which wrap a library error and five of which carry a fixed message. */
module Errors {
  import opened Wrappers

  /** A reqwest error, seen only through the two texts the model needs: what
      its `Display` prints and what its `description` returns. */
  datatype ReqwestError = ReqwestError(text: string, description: string)

  /** A regex compilation error, seen the same way. */
  datatype RegexError = RegexError(text: string, description: string)

  /** A chrono parse error; its content is never looked at. */
  datatype ChronoParseError = ChronoParseError(kind: nat)

  datatype Error =
    | Reqwest(reqwest: ReqwestError)
    | ArgumentMissing(msg: string)
    | Regex(regex: RegexError)
    | NoAccountFound(msg: string)
    | EnvMissing(msg: string)
    | Parsable(msg: string)
    | Message(msg: string)
  {
    /** The five variants that carry a message rather than a library error. */
    predicate IsStatic() {
      !Reqwest? && !Regex?
    }
  }

  /** What `Error::cause` points at. */
  datatype Cause = ReqwestCause(reqwest: ReqwestError) | RegexCause(regex: RegexError)

  /** `description`: the wrapped error's own description, or the message. */
  function Description(e: Error): (d: string)
    ensures e.IsStatic() ==> d == e.msg
    ensures e.Reqwest? ==> d == e.reqwest.description
    ensures e.Regex? ==> d == e.regex.description
  {
    match e
    case Reqwest(err) => err.description
    case ArgumentMissing(m) => m
    case Regex(err) => err.description
    case NoAccountFound(m) => m
    case EnvMissing(m) => m
    case Parsable(m) => m
    case Message(m) => m
  }

  /** `cause`: only the two wrapping variants have one, and it is the wrapped error. */
  function CauseOf(e: Error): (c: Option<Cause>)
    ensures c.Some? <==> !e.IsStatic()
    ensures e.Reqwest? ==> c == Some(ReqwestCause(e.reqwest))
    ensures e.Regex? ==> c == Some(RegexCause(e.regex))
  {
    match e
    case Reqwest(err) => Some(ReqwestCause(err))
    case Regex(err) => Some(RegexCause(err))
    case ArgumentMissing(_) => None
    case NoAccountFound(_) => None
    case EnvMissing(_) => None
    case Parsable(_) => None
    case Message(_) => None
  }

  /** The fixed text `Display` writes before a static variant's message. */
  function Prefix(e: Error): string
    requires e.IsStatic()
  {
    match e
    case ArgumentMissing(_) => "Arg missing error: "
    case NoAccountFound(_) => "No account found: "
    case EnvMissing(_) => "Error: env "
    case Parsable(_) => "Parse error: "
    case Message(_) => "Error: "
  }

  /** The fixed text `Display` writes after a static variant's message. */
  function Suffix(e: Error): string
    requires e.IsStatic()
  {
    if e.EnvMissing? then " missing" else ""
  }

  /** `Display`. A static variant shows its description verbatim between a
      fixed prefix and suffix; a wrapping variant shows the wrapped error's
      own text (not its description) after a fixed prefix. */
  function Display(e: Error): (s: string)
    ensures e.IsStatic() ==> s == Prefix(e) + Description(e) + Suffix(e)
    ensures e.Reqwest? ==> s == "Reqwest error: " + e.reqwest.text
    ensures e.Regex? ==> s == "Regex error: " + e.regex.text
  {
    match e
    case Reqwest(err) => "Reqwest error: " + err.text
    case Regex(err) => "Regex error: " + err.text
    case ArgumentMissing(m) => "Arg missing error: " + m
    case NoAccountFound(m) => "No account found: " + m
    case EnvMissing(m) => "Error: env " + m + " missing"
    case Parsable(m) => "Parse error: " + m
    case Message(m) => "Error: " + m
  }

  const DateFormatMessage := "Couldn't parse date on format `YYYY-MM-DD`"

  /** `From<chrono::ParseError>`: every parse error becomes the same message. */
  function FromChrono(p: ChronoParseError): (e: Error)
    ensures e == Message(DateFormatMessage)
  {
    Message(DateFormatMessage)
  }

  /** `From<reqwest::Error>`. */
  function FromReqwest(err: ReqwestError): (e: Error)
    ensures CauseOf(e) == Some(ReqwestCause(err))
  {
    Reqwest(err)
  }

  /** `From<regex::Error>`. */
  function FromRegex(err: RegexError): (e: Error)
    ensures CauseOf(e) == Some(RegexCause(err))
  {
    Regex(err)
  }

  /** The chrono conversion forgets which parse error it was given. */
  lemma FromChronoForgets(p: ChronoParseError, q: ChronoParseError)
    ensures Display(FromChrono(p)) == Display(FromChrono(q))
              == "Error: " + DateFormatMessage
  {
    MessageDisplay(DateFormatMessage);
  }

  lemma MessageDisplay(m: string)
    ensures Display(Message(m)) == "Error: " + m
  {
  }

  /** The wrapping conversions lose nothing: the cause gives back the wrapped
      error, and the error's description and display are the wrapped error's. */
  lemma FromReqwestRoundTrip(err: ReqwestError)
    ensures CauseOf(FromReqwest(err)).value.reqwest == err
    ensures Description(FromReqwest(err)) == err.description
    ensures Display(FromReqwest(err)) == "Reqwest error: " + err.text
  {
  }

  lemma FromRegexRoundTrip(err: RegexError)
    ensures CauseOf(FromRegex(err)).value.regex == err
    ensures Description(FromRegex(err)) == err.description
    ensures Display(FromRegex(err)) == "Regex error: " + err.text
  {
  }

  /** A static error's display always ends with its message followed by the
      suffix, so the message can be read back off the display. */
  lemma DisplayRecoversMessage(e: Error)
    requires e.IsStatic()
    ensures var s := Display(e);
      |s| == |Prefix(e)| + |e.msg| + |Suffix(e)| &&
      s[|Prefix(e)|..|s| - |Suffix(e)|] == e.msg
  {
    var s := Display(e);
    assert s == Prefix(e) + e.msg + Suffix(e);
  }
}

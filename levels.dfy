/** The severity levels a variant can be tagged with, and the parser
    that reads one from an identifier. */
module Levels {
  import opened Outcomes

  datatype Level = No | Trace | Debug | Info | Warn | Error

  /** The exact spelling that names each level in a `level(...)` tag. */
  function Name(l: Level): string {
    match l
    case No => "No"
    case Trace => "Trace"
    case Debug => "Debug"
    case Info => "Info"
    case Warn => "Warn"
    case Error => "Error"
  }

  /** The closed, case-sensitive vocabulary the parser accepts. */
  const LevelNames: set<string> := {"No", "Trace", "Debug", "Info", "Warn", "Error"}

  /** Level::from_ident: accepts exactly the six names and yields the level
      spelled by the identifier; anything else panics. */
  function FromIdent(id: string): (r: Result<Level>)
    ensures r.Ok? <==> id in LevelNames
    ensures r.Ok? ==> Name(r.value) == id
    ensures r.Err? ==> r.error == UnknownLevel
  {
    if id == "No" then Ok(No)
    else if id == "Trace" then Ok(Trace)
    else if id == "Debug" then Ok(Debug)
    else if id == "Info" then Ok(Info)
    else if id == "Warn" then Ok(Warn)
    else if id == "Error" then Ok(Error)
    else Err(UnknownLevel)
  }

  /** Every level is parsed back from its own name. */
  lemma NameRoundTrip(l: Level)
    ensures Name(l) in LevelNames
    ensures FromIdent(Name(l)) == Ok(l)
  {
  }

  /** Each level is produced by exactly one identifier: its name. */
  lemma FromIdentExactlyName(id: string, l: Level)
    ensures FromIdent(id) == Ok(l) <==> id == Name(l)
  {
  }

  /** Distinct accepted identifiers give distinct levels. */
  lemma FromIdentInjective(a: string, b: string)
    requires FromIdent(a).Ok? && FromIdent(b).Ok?
    requires a != b
    ensures FromIdent(a).value != FromIdent(b).value
  {
  }

  /** Other capitalisations are rejected, never mapped to a default. */
  lemma OtherSpellingsRejected()
    ensures FromIdent("no") == Err(UnknownLevel)
    ensures FromIdent("trace") == Err(UnknownLevel)
    ensures FromIdent("debug") == Err(UnknownLevel)
    ensures FromIdent("info") == Err(UnknownLevel)
    ensures FromIdent("warn") == Err(UnknownLevel)
    ensures FromIdent("error") == Err(UnknownLevel)
    ensures FromIdent("WARN") == Err(UnknownLevel)
    ensures FromIdent("") == Err(UnknownLevel)
  {
  }
}

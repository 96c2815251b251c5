/** The expansion of `#[derive(ErrorLevel)]`: the enum guard, the
    classification pass, and the `error_level` implementation it emits. */
module Expand {
  import opened Outcomes
  import opened Syntax
  import opened Levels
  import opened Classify

  /** The levels of the `log` crate, as the generated code returns them. */
  datatype LogLevel = LogError | LogWarn | LogInfo | LogDebug | LogTrace

  /** The generated `impl ErrorLevel for <forType>`: its `error_level`
      body returns the fixed value `body`. */
  datatype ErrorLevelImpl = ErrorLevelImpl(forType: string, body: Option<LogLevel>)

  /** What the generated `error_level` returns on a value of any variant. */
  function ErrorLevel(impl: ErrorLevelImpl, variant: string): Option<LogLevel> {
    impl.body
  }

  /** unwrap_enum: the variants of an enum; any other item panics. */
  function UnwrapEnum(data: Data): (r: Result<seq<Variant>>)
    ensures r.Ok? <==> data.Enum?
    ensures r.Ok? ==> data == Enum(r.value)
    ensures r.Err? ==> r.error == NotAnEnum
  {
    match data
    case Enum(variants) => Ok(variants)
    case _ => Err(NotAnEnum)
  }

  /** impl_error_level_macro: rejects non-enums, classifies the variants
      (aborting on the first malformed tag), and emits an implementation
      whose `error_level` is `Some(Warn)` for every variant, whatever the
      tags say. */
  method ImplErrorLevelMacro(ast: DeriveInput) returns (r: Result<ErrorLevelImpl>)
    ensures !ast.data.Enum? ==> r == Err(NotAnEnum)
    ensures ast.data.Enum? && MarkedOf(ast.data.variants).Err? ==> r == Err(MarkedOf(ast.data.variants).error)
    ensures r.Ok? <==> ast.data.Enum? && forall i :: 0 <= i < |ast.data.variants| ==> LogLevelOf(ast.data.variants[i].attrs).Ok?
    ensures r.Ok? ==> r.value == ErrorLevelImpl(ast.ident, Some(LogWarn))
    ensures r.Ok? ==> forall v :: ErrorLevel(r.value, v) == Some(LogWarn)
  {
    var data := UnwrapEnum(ast.data);
    if data.Err? {
      return Err(data.error);
    }
    var marked := MarkedVariants(data.value);
    MarkedOfOkIff(data.value);
    if marked.Err? {
      return Err(marked.error);
    }
    return Ok(ErrorLevelImpl(ast.ident, Some(LogWarn)));
  }

  function Tag(name: string): Attribute {
    Parsed(List(MetaList(Path(false, ["level"]), [MetaItem(PathMeta(Path(false, [name])))])))
  }

  /** The `CustomError` enum of the `it_works` test: three tagged variants
      and one wrapping another error type, without a tag. */
  function CustomErrorVariants(): seq<Variant> {
    [ Variant("ErrorA", [Tag("Warn")]),
      Variant("ErrorB", [Tag("Info")]),
      Variant("ErrorC", [Tag("No")]),
      Variant("ErrorD", []) ]
  }

  /** The untagged wrapping variant is simply not marked. */
  lemma CustomErrorMarks()
    ensures MarkedOf(CustomErrorVariants()) ==
      Ok([Marked(Warn, "ErrorA"), Marked(Info, "ErrorB"), Marked(No, "ErrorC")])
  {
    var vs := CustomErrorVariants();
    assert LogLevelOf(vs[0].attrs) == Ok(Some(Warn));
    assert LogLevelOf(vs[1].attrs) == Ok(Some(Info));
    assert LogLevelOf(vs[2].attrs) == Ok(Some(No));
    assert LogLevelOf(vs[3].attrs) == Ok(None);
    assert MarkedOf(vs[3..]) == Ok([]);
    assert vs[2..][0] == vs[2] && vs[2..][1..] == vs[3..];
    assert [Marked(No, "ErrorC")] + [] == [Marked(No, "ErrorC")];
    assert MarkedOf(vs[2..]) == Ok([Marked(No, "ErrorC")]);
    assert vs[1..][0] == vs[1] && vs[1..][1..] == vs[2..];
    assert [Marked(Info, "ErrorB")] + [Marked(No, "ErrorC")] == [Marked(Info, "ErrorB"), Marked(No, "ErrorC")];
    assert MarkedOf(vs[1..]) == Ok([Marked(Info, "ErrorB"), Marked(No, "ErrorC")]);
    assert [Marked(Warn, "ErrorA")] + [Marked(Info, "ErrorB"), Marked(No, "ErrorC")]
        == [Marked(Warn, "ErrorA"), Marked(Info, "ErrorB"), Marked(No, "ErrorC")];
  }

  /** The `it_works` test: `ErrorA` reports `Warn`, and so does `ErrorB`,
      although it is tagged `Info`. */
  method ItWorks() returns (a: Option<LogLevel>, b: Option<LogLevel>)
    ensures a == Some(LogWarn) && b == Some(LogWarn)
  {
    CustomErrorMarks();
    MarkedOfOkIff(CustomErrorVariants());
    var impl := ImplErrorLevelMacro(DeriveInput("CustomError", Enum(CustomErrorVariants())));
    a := ErrorLevel(impl.value, "ErrorA");
    b := ErrorLevel(impl.value, "ErrorB");
  }

  /** The `should_not_compile` test's enum: an untagged unit variant and an
      untagged variant wrapping a tuple. Neither is examined beyond its
      (empty) attribute list, so the expansion succeeds. */
  method UntaggedVariantsAccepted() returns (r: Result<ErrorLevelImpl>)
    ensures r == Ok(ErrorLevelImpl("CustomError", Some(LogWarn)))
  {
    var vs := [ Variant("ErrorA", [Tag("Warn")]),
                Variant("ErrorB", [Tag("Info")]),
                Variant("ErrorC", []),
                Variant("ErrorD", []) ];
    assert LogLevelOf(vs[0].attrs).Ok? && LogLevelOf(vs[1].attrs).Ok?;
    assert LogLevelOf(vs[2].attrs).Ok? && LogLevelOf(vs[3].attrs).Ok?;
    assert forall i :: 0 <= i < |vs| ==> LogLevelOf(vs[i].attrs).Ok?;
    r := ImplErrorLevelMacro(DeriveInput("CustomError", Enum(vs)));
  }

  /** A struct is refused before any attribute is read. */
  method StructRejected(ident: string) returns (r: Result<ErrorLevelImpl>)
    ensures r == Err(NotAnEnum)
  {
    r := ImplErrorLevelMacro(DeriveInput(ident, Struct));
  }
}

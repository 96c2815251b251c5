# error_level_derive, modelled in Dafny

`error_level_derive` provides `#[derive(ErrorLevel)]`, a Rust procedural macro.
It reads an enum's variants and their `#[level(...)]` tags, then emits an
`impl ErrorLevel` whose `error_level()` method returns an `Option<log::Level>`.

This project models the macro's front end as it is written in `src/lib.rs`:

- `Levels`: the six-name severity vocabulary (`Level::from_ident`).
- `Classify`: the attribute scan of a single variant (`log_level`,
  `has_level_path`, `unwrap_meta`) and the ordered collection of tagged variants
  (`marked_variants`).
- `Expand`: the enum guard (`unwrap_enum`) and the observable result of
  `impl_error_level_macro`. In this version of the code, the emitted
  `error_level` body is the constant `Some(log::Level::Warn)`. The list of
  marked variants is computed but never used.
- `Syntax` and `Outcomes`: stand-ins for the `syn` syntax tree, and the
  `Result`/`Option` values that replace every `panic!` and `unwrap()`.
  The variant for a given panic names the call that panicked (`Panic`).

`log_level` and `marked_variants` are loops in the source. They are modelled as
methods with loop invariants. Each is proved equal to a specification function
(`LogLevelOf`, `MarkedOf`). Lemmas then state what those functions mean: first
match wins, skipped attributes do not interfere, declaration order is kept, and
the first malformed tag aborts the pass.

The code and the tests disagree on one point, and the model follows the code.
`tests/should_work.rs:35-38` expects per-variant levels (`Info`, `None`, and
delegation to the inner error). The code always emits `Some(Warn)`, which
`tests/simple.rs:41-42` relies on. Delegating variants such as
`ErrorD(OuterError)` are not handled anywhere in the code. They are simply
untagged variants, and the model treats them that way.

## Model

| member | source | states |
|---|---|---|
| `Levels.FromIdent` | src/lib.rs:27-37 | accepts exactly the six names `No`, `Trace`, `Debug`, `Info`, `Warn`, `Error`; the level it returns is spelled by the identifier; every other string panics with the unknown-level panic |
| `Levels.NameRoundTrip` | src/lib.rs:17-34 | every level's name is in the vocabulary and parses back to that level |
| `Levels.FromIdentExactlyName` | src/lib.rs:28-34 | an identifier yields level `l` if and only if it is `l`'s name, so each level comes from exactly one identifier |
| `Levels.FromIdentInjective` | src/lib.rs:28-34 | distinct accepted identifiers give distinct levels |
| `Levels.OtherSpellingsRejected` | src/lib.rs:28-35 | lower-case and upper-case spellings such as `warn` or `WARN`, and the empty string, are rejected and never fall back to a default |
| `Syntax.GetIdent` | src/lib.rs:48 | a path has an identifier exactly when it has no leading `::` and one segment, and the path is then exactly that identifier |
| `Classify.HasLevelPath` | src/lib.rs:47-53 | true exactly when the list's path is the plain identifier `level`; `a::level` and `::level` are false |
| `Classify.UnwrapMeta` | src/lib.rs:54-59 | a nested meta item is returned unchanged; a literal panics |
| `Classify.FirstLevel` | src/lib.rs:65-68 | reading a `level(...)` list yields `l` exactly when the first item is a meta item whose path is the bare name of `l`; it panics when the list is empty, when the first item is a literal, when the first item's path is not a single identifier, and when the identifier names no level |
| `Classify.OnlyFirstNestedRead` | src/lib.rs:65-68 | items after the first in a `level(...)` list do not affect the result |
| `Classify.LogLevel` | src/lib.rs:61-71 | the loop over the attributes returns exactly the result that the scan specification `LogLevelOf` gives |
| `Classify.LogLevelFirstMatch` | src/lib.rs:61-69 | the first attribute that is unparseable or a `level(...)` list decides the result: the parse panic for the first kind, and the tag read from that list for the second |
| `Classify.LogLevelNoneIff` | src/lib.rs:61-71 | a variant has no level, and no panic, exactly when every attribute parses and none is a `level(...)` list |
| `Classify.LogLevelSkipsPrefix` | src/lib.rs:61-64 | non-list attributes and lists with other paths (`doc`, `allow(...)`) placed before the rest change nothing |
| `Classify.LogLevelIgnoresLater` | src/lib.rs:61-69 | once an attribute has stopped the scan, appending more attributes, including more `level(...)` tags, changes nothing |
| `Classify.MarkedVariants` | src/lib.rs:74-86 | the loop that pushes marked variants returns exactly the result that the specification `MarkedOf` gives |
| `Classify.MarkedOfOkIff` | src/lib.rs:76-77 | the pass succeeds exactly when the tag of every variant reads without panicking |
| `Classify.MarkedOfFirstError` | src/lib.rs:76-77 | the first variant whose tag panics aborts the whole pass with that panic |
| `Classify.MarkedOfAppend` | src/lib.rs:75-85 | classifying `a + b` gives the marks of `a` followed by those of `b`, so declaration order is kept |
| `Classify.MarkedOfMembers` | src/lib.rs:76-83 | on success there are no more marks than variants, and `Marked(l, id)` is present exactly when some variant `id` carries level `l` |
| `Expand.UnwrapEnum` | src/lib.rs:111-117 | returns the variants of an enum; a struct or union panics with the not-an-enum panic |
| `Expand.ImplErrorLevelMacro` | src/lib.rs:88-109 | a non-enum input panics before any attribute is read; on an enum, the expansion succeeds exactly when every variant's tag reads, and otherwise fails with the first tag panic; on success, the generated `error_level` is `Some(Warn)` for every variant, whatever the tags say |
| `Expand.CustomErrorMarks` | tests/simple.rs:23-32 | for the `CustomError` enum of the `it_works` test, the marks are `ErrorA: Warn`, `ErrorB: Info` and `ErrorC: No`, in that order, and the untagged `ErrorD(OuterError)` is not marked |
| `Expand.ItWorks` | tests/simple.rs:36-42 | in that test, `ErrorA` and `ErrorB` both report `Some(Warn)`, although `ErrorB` is tagged `Info` |
| `Expand.UntaggedVariantsAccepted` | tests/simple.rs:66-76 | the `should_not_compile` enum, with untagged `ErrorC` and `ErrorD((String, String))`, expands without any panic |
| `Expand.StructRejected` | src/lib.rs:111-116 | deriving on a struct always fails with the not-an-enum panic |

## Left out

- Token streams: `proc_macro::TokenStream` input and output, and `syn::parse(input).unwrap()` (src/lib.rs:2, 7-14). These are compiler plumbing. The model starts from the already-parsed `DeriveInput`.
- Code generation with `quote!` (src/lib.rs:99-108), including the `println!` in the generated body. The emitted implementation is modelled only by what its `error_level` returns.
- Internals of `syn`. `parse_meta` is modelled as the choice between a parsed `Meta` and `Unparseable`. Literals are opaque tokens. `Ident` comparison is string equality. `get_ident` also requires that the segment has no generic arguments, but the paths of meta items cannot have them, so the model omits that check.
- Variant fields and discriminants are not modelled, because `src/lib.rs` never reads them. Delegation to an inner error, per-variant diagnostics, and the "not delegatable" check are absent from the code, so they are absent from the model too.
- Panic messages. Each panic is identified only by the call that raised it, not by its message text.
- The runtime `ErrorLevel` trait, the logger set-up in the tests, and `log_error` are library glue. The tests are used only as evidence of expected results.

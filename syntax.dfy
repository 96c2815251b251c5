/** The pieces of the parsed Rust syntax tree that the derive macro reads.

    These stand for the `syn` types of the same names. Only the parts the
    macro inspects are kept: a variant's identifier and attributes, the
    shape of an attribute once parsed as a meta item, and whether the
    derive input is an enum. */
module Syntax {
  import opened Outcomes

  /** A path such as `level`, `a::level` or `::level`. */
  datatype Path = Path(leadingColon: bool, segments: seq<string>)

  /** A literal token; its value is never read by the macro. */
  datatype Lit = Lit(token: string)

  /** An attribute body parsed as a meta item. */
  datatype Meta =
    | PathMeta(path: Path)             // #[name]
    | NameValue(path: Path, lit: Lit)  // #[name = lit]
    | List(list: MetaList)             // #[name(item, ...)]

  datatype MetaList = MetaList(path: Path, nested: seq<NestedMeta>)

  /** One item between the parentheses of a meta list. */
  datatype NestedMeta = MetaItem(meta: Meta) | LitItem(lit: Lit)

  /** An attribute attached to a variant; `Unparseable` is an attribute
      whose tokens do not form a meta item (`parse_meta` fails). */
  datatype Attribute = Parsed(meta: Meta) | Unparseable

  datatype Variant = Variant(ident: string, attrs: seq<Attribute>)

  /** The body of the item the macro is derived for. */
  datatype Data = Struct | Enum(variants: seq<Variant>) | Union

  datatype DeriveInput = DeriveInput(ident: string, data: Data)

  /** The path's identifier, if it is a single plain identifier. */
  function GetIdent(p: Path): (r: Option<string>)
    ensures r.Some? <==> !p.leadingColon && |p.segments| == 1
    ensures r.Some? ==> p == Path(false, [r.value])
  {
    if !p.leadingColon && |p.segments| == 1 then Some(p.segments[0]) else None
  }

  /** The path that names a meta item, whatever its kind. */
  function MetaPath(m: Meta): Path {
    match m
    case PathMeta(p) => p
    case NameValue(p, _) => p
    case List(l) => l.path
  }
}

/** The classification pass of the derive macro: reading the `level(...)`
    tag of each variant and collecting the tagged variants in order. */
module Classify {
  import opened Outcomes
  import opened Syntax
  import opened Levels

  /** has_level_path: the list is named by the plain identifier `level`
      (so `a::level`, `::level` and `Level` do not qualify). */
  function HasLevelPath(m: MetaList): (b: bool)
    ensures b <==> m.path == Path(false, ["level"])
  {
    match GetIdent(m.path)
    case Some(ident) => ident == "level"
    case None => false
  }

  /** unwrap_meta: a nested item must be a meta item, not a literal. */
  function UnwrapMeta(n: NestedMeta): (r: Result<Meta>)
    ensures r.Ok? <==> n.MetaItem?
    ensures r.Ok? ==> n == MetaItem(r.value)
    ensures r.Err? ==> r.error == LiteralArgument
  {
    match n
    case MetaItem(m) => Ok(m)
    case LitItem(_) => Err(LiteralArgument)
  }

  /** The level named by the first item of a `level(...)` list. The tag is
      read successfully exactly when that item is a meta item whose path is
      the bare name of a level; the items after it are never looked at. */
  function FirstLevel(list: MetaList): (r: Result<Level>)
    ensures r.Ok? ==>
      |list.nested| > 0 && list.nested[0].MetaItem? &&
      MetaPath(list.nested[0].meta) == Path(false, [Name(r.value)])
    ensures forall l: Level ::
      (|list.nested| > 0 && list.nested[0].MetaItem? &&
       MetaPath(list.nested[0].meta) == Path(false, [Name(l)])) ==> r == Ok(l)
    ensures |list.nested| == 0 ==> r == Err(EmptyLevelList)
    ensures |list.nested| > 0 && list.nested[0].LitItem? ==> r == Err(LiteralArgument)
    ensures (|list.nested| > 0 && list.nested[0].MetaItem? &&
             (MetaPath(list.nested[0].meta).leadingColon || |MetaPath(list.nested[0].meta).segments| != 1))
            ==> r == Err(NotAnIdentifier)
    ensures forall id ::
      (|list.nested| > 0 && list.nested[0].MetaItem? &&
       MetaPath(list.nested[0].meta) == Path(false, [id]) && id !in LevelNames) ==> r == Err(UnknownLevel)
  {
    if |list.nested| == 0 then Err(EmptyLevelList)
    else
      match UnwrapMeta(list.nested[0])
      case Err(e) => Err(e)
      case Ok(meta) =>
        match GetIdent(MetaPath(meta))
        case None => Err(NotAnIdentifier)
        case Some(ident) =>
          FromIdent(ident)
  }

  function Lift(r: Result<Level>): Result<Option<Level>> {
    match r
    case Ok(l) => Ok(Some(l))
    case Err(e) => Err(e)
  }

  /** The attribute ends the scan: it does not parse, or it is a
      `level(...)` list. Every other attribute is skipped. */
  predicate Stops(a: Attribute) {
    a.Unparseable? || (a.meta.List? && HasLevelPath(a.meta.list))
  }

  /** What the scan yields on reaching an attribute that stops it. */
  function Outcome(a: Attribute): Result<Option<Level>>
    requires Stops(a)
  {
    if a.Unparseable? then Err(UnparseableAttribute) else Lift(FirstLevel(a.meta.list))
  }

  /** The result of log_level on a variant with attributes `attrs`. */
  function LogLevelOf(attrs: seq<Attribute>): Result<Option<Level>> {
    if attrs == [] then Ok(None)
    else if Stops(attrs[0]) then Outcome(attrs[0])
    else LogLevelOf(attrs[1..])
  }

  /** log_level: scans the attributes in order. */
  method LogLevel(v: Variant) returns (r: Result<Option<Level>>)
    ensures r == LogLevelOf(v.attrs)
  {
    for i := 0 to |v.attrs|
      invariant LogLevelOf(v.attrs) == LogLevelOf(v.attrs[i..])
    {
      var a := v.attrs[i];
      if a.Unparseable? {
        return Err(UnparseableAttribute);
      }
      if a.meta.List? {
        var list := a.meta.list;
        if !HasLevelPath(list) {
          continue;
        }
        if |list.nested| == 0 {
          return Err(EmptyLevelList);
        }
        var meta := UnwrapMeta(list.nested[0]);
        if meta.Err? {
          return Err(meta.error);
        }
        var ident := GetIdent(MetaPath(meta.value));
        if ident.None? {
          return Err(NotAnIdentifier);
        }
        var level := FromIdent(ident.value);
        if level.Err? {
          return Err(level.error);
        }
        return Ok(Some(level.value));
      }
    }
    return Ok(None);
  }

  /** First match wins: the first attribute that stops the scan decides
      the result, whatever comes after it. */
  lemma {:induction false} LogLevelFirstMatch(attrs: seq<Attribute>, k: nat)
    requires k < |attrs| && Stops(attrs[k])
    requires forall j :: 0 <= j < k ==> !Stops(attrs[j])
    ensures attrs[k].Unparseable? ==> LogLevelOf(attrs) == Err(UnparseableAttribute)
    ensures attrs[k].Parsed? ==> LogLevelOf(attrs) == Lift(FirstLevel(attrs[k].meta.list))
  {
    if k > 0 {
      LogLevelFirstMatch(attrs[1..], k - 1);
    }
  }

  /** A variant has no level (and no error) exactly when no attribute is
      unparseable and none is a `level(...)` list. */
  lemma {:induction false} LogLevelNoneIff(attrs: seq<Attribute>)
    ensures LogLevelOf(attrs) == Ok(None) <==> forall j :: 0 <= j < |attrs| ==> !Stops(attrs[j])
  {
    if attrs != [] {
      LogLevelNoneIff(attrs[1..]);
      if Stops(attrs[0]) {
        assert Outcome(attrs[0]) != Ok(None);
      } else {
        assert forall j :: 1 <= j < |attrs| ==> attrs[j] == attrs[1..][j - 1];
      }
    }
  }

  /** Attributes that do not stop the scan, such as `doc` or `allow(...)`,
      do not interfere, wherever they stand before the tag. */
  lemma {:induction false} LogLevelSkipsPrefix(skipped: seq<Attribute>, rest: seq<Attribute>)
    requires forall j :: 0 <= j < |skipped| ==> !Stops(skipped[j])
    ensures LogLevelOf(skipped + rest) == LogLevelOf(rest)
  {
    if skipped != [] {
      assert (skipped + rest)[0] == skipped[0];
      assert (skipped + rest)[1..] == skipped[1..] + rest;
      assert forall j :: 0 <= j < |skipped[1..]| ==> skipped[1..][j] == skipped[j + 1];
      LogLevelSkipsPrefix(skipped[1..], rest);
    } else {
      assert skipped + rest == rest;
    }
  }

  /** Once an attribute has stopped the scan, later attributes (a second
      `level(...)` among them) have no effect. */
  lemma {:induction false} LogLevelIgnoresLater(attrs: seq<Attribute>, k: nat, later: seq<Attribute>)
    requires k < |attrs| && Stops(attrs[k])
    ensures LogLevelOf(attrs + later) == LogLevelOf(attrs)
  {
    assert (attrs + later)[0] == attrs[0];
    if !Stops(attrs[0]) {
      assert (attrs + later)[1..] == attrs[1..] + later;
      LogLevelIgnoresLater(attrs[1..], k - 1, later);
    }
  }

  /** Only the first item of the `level(...)` list is read. */
  lemma OnlyFirstNestedRead(p: Path, first: NestedMeta, more: seq<NestedMeta>)
    ensures FirstLevel(MetaList(p, [first] + more)) == FirstLevel(MetaList(p, [first]))
  {
  }

  /** One classified variant: its level and its identifier. */
  datatype Marked = Marked(level: Level, variantId: string)

  /** `Ok(ms + rest)` when the remaining variants classify as `rest`. */
  function Prepend(ms: seq<Marked>, r: Result<seq<Marked>>): Result<seq<Marked>> {
    match r
    case Ok(rest) => Ok(ms + rest)
    case Err(e) => Err(e)
  }

  lemma PrependPrepend(ms: seq<Marked>, ns: seq<Marked>, r: Result<seq<Marked>>)
    ensures Prepend(ms, Prepend(ns, r)) == Prepend(ms + ns, r)
  {
    if r.Ok? {
      assert ms + (ns + r.value) == (ms + ns) + r.value;
    }
  }

  /** The result of marked_variants on `variants`. */
  function MarkedOf(variants: seq<Variant>): Result<seq<Marked>> {
    if variants == [] then Ok([])
    else
      match LogLevelOf(variants[0].attrs)
      case Err(e) => Err(e)
      case Ok(None) => MarkedOf(variants[1..])
      case Ok(Some(l)) => Prepend([Marked(l, variants[0].ident)], MarkedOf(variants[1..]))
  }

  /** marked_variants: one pass over the variants, pushing each tagged one. */
  method MarkedVariants(variants: seq<Variant>) returns (r: Result<seq<Marked>>)
    ensures r == MarkedOf(variants)
  {
    var marked: seq<Marked> := [];
    assert variants[0..] == variants;
    assert MarkedOf(variants).Ok? ==> [] + MarkedOf(variants).value == MarkedOf(variants).value;
    for i := 0 to |variants|
      invariant MarkedOf(variants) == Prepend(marked, MarkedOf(variants[i..]))
    {
      var v := variants[i];
      assert variants[i..][0] == v && variants[i..][1..] == variants[i + 1..];
      var level := LogLevel(v);
      if level.Err? {
        return Err(level.error);
      }
      if level.value.Some? {
        PrependPrepend(marked, [Marked(level.value.value, v.ident)], MarkedOf(variants[i + 1..]));
        marked := marked + [Marked(level.value.value, v.ident)];
      }
    }
    assert marked + [] == marked;
    return Ok(marked);
  }

  /** Classification succeeds exactly when every variant's tag reads. */
  lemma {:induction false} MarkedOfOkIff(variants: seq<Variant>)
    ensures MarkedOf(variants).Ok? <==> forall i :: 0 <= i < |variants| ==> LogLevelOf(variants[i].attrs).Ok?
  {
    if variants != [] {
      MarkedOfOkIff(variants[1..]);
      assert forall i :: 1 <= i < |variants| ==> variants[i] == variants[1..][i - 1];
    }
  }

  /** The first variant whose tag does not read aborts the whole pass with
      its own panic; later variants are not examined. */
  lemma {:induction false} MarkedOfFirstError(variants: seq<Variant>, k: nat)
    requires k < |variants| && LogLevelOf(variants[k].attrs).Err?
    requires forall j :: 0 <= j < k ==> LogLevelOf(variants[j].attrs).Ok?
    ensures MarkedOf(variants) == Err(LogLevelOf(variants[k].attrs).error)
  {
    if k > 0 {
      MarkedOfFirstError(variants[1..], k - 1);
    }
  }

  /** Declaration order is kept: classifying `a + b` gives the marks of `a`
      followed by those of `b`, or the first panic. */
  lemma {:induction false} MarkedOfAppend(a: seq<Variant>, b: seq<Variant>)
    ensures MarkedOf(a + b) == if MarkedOf(a).Ok? then Prepend(MarkedOf(a).value, MarkedOf(b)) else MarkedOf(a)
  {
    if a != [] {
      assert (a + b)[0] == a[0];
      assert (a + b)[1..] == a[1..] + b;
      MarkedOfAppend(a[1..], b);
      if LogLevelOf(a[0].attrs).Ok? && LogLevelOf(a[0].attrs).value.Some? && MarkedOf(a[1..]).Ok? {
        PrependPrepend([Marked(LogLevelOf(a[0].attrs).value.value, a[0].ident)], MarkedOf(a[1..]).value, MarkedOf(b));
      }
    } else {
      assert a + b == b;
      assert MarkedOf(b).Ok? ==> [] + MarkedOf(b).value == MarkedOf(b).value;
    }
  }

  /** Some variant is tagged with level `l` and has identifier `id`. */
  ghost predicate CarriesLevel(variants: seq<Variant>, l: Level, id: string) {
    exists i :: 0 <= i < |variants| && variants[i].ident == id && LogLevelOf(variants[i].attrs) == Ok(Some(l))
  }

  lemma CarriesLevelCons(variants: seq<Variant>, l: Level, id: string)
    requires variants != []
    ensures CarriesLevel(variants, l, id) <==>
      (variants[0].ident == id && LogLevelOf(variants[0].attrs) == Ok(Some(l))) || CarriesLevel(variants[1..], l, id)
  {
  }

  /** A successful pass marks exactly the variants that carry a level,
      with that level, and never more marks than variants. */
  lemma {:induction false} MarkedOfMembers(variants: seq<Variant>)
    requires MarkedOf(variants).Ok?
    ensures |MarkedOf(variants).value| <= |variants|
    ensures forall l, id :: Marked(l, id) in MarkedOf(variants).value <==> CarriesLevel(variants, l, id)
  {
    if variants != [] {
      MarkedOfMembers(variants[1..]);
      forall l, id ensures Marked(l, id) in MarkedOf(variants).value <==> CarriesLevel(variants, l, id) {
        CarriesLevelCons(variants, l, id);
      }
    }
  }
}

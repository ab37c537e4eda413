/**
  Annotation expansion (src/ticklist/annotation_iterators.py).

  A declaration is a tree of `Node`s. Each expander inspects one node and
  yields zero or more child nodes; leaf expanders yield a finished
  `FieldData` record. `Resolve` walks the tree: a record is returned as it is;
  any other node goes to the first expander, in list order, that yields
  anything, and its children are resolved in order; a node no expander
  accepts is an error.
 */
module Iterators {
  import opened Wrappers
  import opened Types
  import opened Ticks
  import opened Fields

  /** The node shapes an expander can be handed. `StrValue` is a Python `str`
      object (a `Literal[...]` argument, or one of the strings yielded for
      `bool`); `EnumItem` is one enum member (yielded by an enum class, or a
      `Literal[...]` argument); `Record` is a finished field-data record;
      `NoneType` is the `None` branch of an optional; `Other` is anything else
      (an `Annotated` wrapper, a literal argument other than a string or an
      enum member such as an int, a boolean, `None` or bytes, an arbitrary
      object). */
  datatype Node =
    | BoolType
    | NoneType
    | EnumType(enumClass: string, members: seq<EnumMember>)
    | EnumItem(member: EnumMember)
    | StrType
    | IntType
    | Union(args: seq<Node>)
    | ModelType(model: string)
    | LiteralType(args: seq<Node>)
    | StrValue(s: string)
    | Record(fd: FieldData)
    | Other(description: string)

  /** The `key`, `value` and `default` arguments every expander receives
      unchanged. */
  datatype Context = Context(key: string, value: Value, default: Value)

  /** The expander functions of the module. */
  datatype Expander =
    | BoolTypeIterator
    | EnumTypeIterator
    | EnumItemTypeIterator
    | StrTypeIterator
    | IntTypeIterator
    | UnionTypeIterator
    | ModelTypeIterator
    | LiteralTypeIterator
    | LiteralValueIterator

  /** `ANNOTATION_ITERATORS`, in its order. */
  const AnnotationIterators: seq<Expander> :=
    [BoolTypeIterator, EnumTypeIterator, EnumItemTypeIterator, StrTypeIterator, IntTypeIterator,
     UnionTypeIterator, ModelTypeIterator, LiteralTypeIterator, LiteralValueIterator]

  /** Leaves are parsed with empty metadata: the expanders of this module
      pass no metadata on. */
  const EmptyMetadata: TickAnnotations := map[]

  /** The errors `field_data_from_annotation` raises. */
  datatype ResolveError =
    | Unresolvable(node: Node)                     // ValueError("No FieldDataType found ...")
    | StringAndLiteralNotAllowed(annotation: Node) // StringAndLiteralAnnotationNotAllowed

  /** A size that every expander's children, taken together, fall below. */
  function Size(n: Node): (size: nat)
    decreases n
  {
    match n
    case BoolType => 3
    case EnumType(_, members) => 1 + |members|
    case Union(args) => 1 + SeqSize(args)
    case LiteralType(args) => 1 + SeqSize(args)
    case Record(_) => 0
    case _ => 1
  }

  function SeqSize(ns: seq<Node>): (size: nat)
    decreases ns
  {
    if ns == [] then 0 else Size(ns[0]) + SeqSize(ns[1..])
  }

  /** The members of an enum class as nodes, in declaration order. */
  function EnumItems(members: seq<EnumMember>): (ns: seq<Node>)
    ensures |ns| == |members| && SeqSize(ns) == |members|
    ensures forall i :: 0 <= i < |members| ==> ns[i] == EnumItem(members[i])
  {
    if members == [] then []
    else
      var ns := [EnumItem(members[0])] + EnumItems(members[1..]);
      assert ns[1..] == EnumItems(members[1..]);
      ns
  }

  /** A record as a leaf expander of this module builds it for context
      `ctx`: the `parse` of its terminal's kind with empty metadata. No leaf
      expander here builds a None or a Boolean record. */
  predicate Produced(fd: FieldData, ctx: Context)
  {
    && fd == ParseFor(fd.annotation, ctx.key, ctx.value, ctx.default, EmptyMetadata)
    && !fd.annotation.NoneTerminal? && !fd.annotation.BoolTerminal?
  }

  /** Every record `n` carries is what parsing its terminal in context `ctx`
      gives: true of any declaration, which carries no records at all. */
  predicate RecordsFrom(n: Node, ctx: Context)
    decreases n
  {
    match n
    case Record(fd) => Produced(fd, ctx)
    case Union(args) => forall i :: 0 <= i < |args| ==> RecordsFrom(args[i], ctx)
    case LiteralType(args) => forall i :: 0 <= i < |args| ==> RecordsFrom(args[i], ctx)
    case _ => true
  }

  /** One expander applied to one node: the nodes it yields, in order. */
  function Expand(e: Expander, n: Node, ctx: Context): (children: seq<Node>)
    ensures children != [] ==> SeqSize(children) < Size(n)
    ensures n.Record? ==> children == []
    ensures RecordsFrom(n, ctx) ==> forall i :: 0 <= i < |children| ==> RecordsFrom(children[i], ctx)
  {
    match e
    case BoolTypeIterator =>
      // yields the strings "True" and "False", not booleans
      if n.BoolType? then [StrValue("True"), StrValue("False")] else []
    case EnumTypeIterator =>
      if n.EnumType? then EnumItems(n.members) else []
    case EnumItemTypeIterator =>
      if n.EnumItem? then [Record(ParseEnumValue(n.member, ctx.key, ctx.value, ctx.default, EmptyMetadata))] else []
    case StrTypeIterator =>
      if n.StrType? then [Record(ParseString(ctx.key, ctx.value, ctx.default, EmptyMetadata))] else []
    case IntTypeIterator =>
      if n.IntType? then [Record(ParseInt(ctx.key, ctx.value, ctx.default, EmptyMetadata))] else []
    case UnionTypeIterator =>
      if n.Union? then n.args else []
    case ModelTypeIterator =>
      if n.ModelType? then [Record(ParseModel(n.model, ctx.key, ctx.value, ctx.default, EmptyMetadata))] else []
    case LiteralTypeIterator =>
      if n.LiteralType? then n.args else []
    case LiteralValueIterator =>
      if n.StrValue? then [Record(ParseLiteralValue(n.s, ctx.key, ctx.value, ctx.default, EmptyMetadata))] else []
  }

  /** `_iter_over_annotation`, collected into a sequence. */
  function Resolve(n: Node, ctx: Context, its: seq<Expander>): (r: Result<seq<FieldData>, ResolveError>)
    ensures r.Ok? ==> |r.value| >= 1
    ensures r.Ok? && RecordsFrom(n, ctx) ==>
              forall i :: 0 <= i < |r.value| ==> Produced(r.value[i], ctx)
    decreases Size(n), 1, 0
  {
    if n.Record? then Ok([n.fd]) else Dispatch(n, ctx, its, 0)
  }

  /** The loop over the expanders from position `i` on: the first one that
      yields anything is used exclusively (`found` / `break`); if none does,
      the loop's `else` raises. */
  function Dispatch(n: Node, ctx: Context, its: seq<Expander>, i: nat): (r: Result<seq<FieldData>, ResolveError>)
    requires i <= |its|
    ensures r.Ok? ==> |r.value| >= 1
    ensures r.Ok? && RecordsFrom(n, ctx) ==>
              forall j :: 0 <= j < |r.value| ==> Produced(r.value[j], ctx)
    decreases Size(n), 0, |its| - i
  {
    if i == |its| then Err(Unresolvable(n))
    else
      var children := Expand(its[i], n, ctx);
      if children == [] then Dispatch(n, ctx, its, i + 1)
      else ResolveSeq(children, ctx, its)
  }

  /** Resolving yielded children one after another, concatenating; the first
      failure ends the whole resolution. */
  function ResolveSeq(ns: seq<Node>, ctx: Context, its: seq<Expander>): (r: Result<seq<FieldData>, ResolveError>)
    ensures r.Ok? ==> |r.value| >= |ns|
    ensures r.Ok? && (forall i :: 0 <= i < |ns| ==> RecordsFrom(ns[i], ctx)) ==>
              forall j :: 0 <= j < |r.value| ==> Produced(r.value[j], ctx)
    decreases SeqSize(ns), 2, |ns|
  {
    if ns == [] then Ok([])
    else
      match Resolve(ns[0], ctx, its)
      case Err(e) => Err(e)
      case Ok(head) =>
        match ResolveSeq(ns[1..], ctx, its)
        case Err(e) => Err(e)
        case Ok(tail) => Ok(head + tail)
  }

  predicate HasString(rs: seq<FieldData>)
  {
    exists i :: 0 <= i < |rs| && rs[i].annotation.StrTerminal?
  }

  predicate HasLiteral(rs: seq<FieldData>)
  {
    exists i :: 0 <= i < |rs| && rs[i].annotation.LiteralTerminal?
  }

  /** `field_data_from_annotation`: resolve, then reject a result holding
      both a String and a LiteralValue record. */
  function FieldDataFromAnnotation(annotation: Node, key: string, value: Value, default: Value,
                                   its: seq<Expander>): (r: Result<seq<FieldData>, ResolveError>)
    ensures var resolved := Resolve(annotation, Context(key, value, default), its);
            && (resolved.Err? ==> r == resolved)
            && (resolved.Ok? && HasString(resolved.value) && HasLiteral(resolved.value) ==>
                  r == Err(StringAndLiteralNotAllowed(annotation)))
            && (resolved.Ok? && !(HasString(resolved.value) && HasLiteral(resolved.value)) ==>
                  r == resolved)
    ensures r.Ok? ==> |r.value| >= 1 && !(HasString(r.value) && HasLiteral(r.value))
  {
    match Resolve(annotation, Context(key, value, default), its)
    case Err(e) => Err(e)
    case Ok(fieldData) =>
      if HasString(fieldData) && HasLiteral(fieldData) then Err(StringAndLiteralNotAllowed(annotation))
      else Ok(fieldData)
  }

  // ---------------------------------------------------------------------
  // Dispatch: records, first match, failure

  /** A node that is already a record is yielded as it is; no expander is
      consulted, so the expander list does not matter. */
  lemma RecordYieldedAsIs(fd: FieldData, ctx: Context, its: seq<Expander>)
    ensures Resolve(Record(fd), ctx, its) == Ok([fd])
  {
  }

  /** Expanders before position `i` that yield nothing are skipped. */
  lemma {:induction false} DispatchSkips(n: Node, ctx: Context, its: seq<Expander>, k: nat, i: nat)
    requires k <= i <= |its|
    requires forall j :: k <= j < i ==> Expand(its[j], n, ctx) == []
    ensures Dispatch(n, ctx, its, k) == Dispatch(n, ctx, its, i)
    decreases i - k
  {
    if k < i {
      DispatchSkips(n, ctx, its, k + 1, i);
    }
  }

  /** First match wins: the first expander in list order that yields at least
      one child decides the node, whatever later expanders would yield. */
  lemma FirstMatchWins(n: Node, ctx: Context, its: seq<Expander>, i: nat)
    requires !n.Record? && i < |its|
    requires forall j :: 0 <= j < i ==> Expand(its[j], n, ctx) == []
    requires Expand(its[i], n, ctx) != []
    ensures Resolve(n, ctx, its) == ResolveSeq(Expand(its[i], n, ctx), ctx, its)
  {
    DispatchSkips(n, ctx, its, 0, i);
  }

  /** A node no expander accepts is an error naming that node, never an
      empty result. */
  lemma NoMatchFails(n: Node, ctx: Context, its: seq<Expander>)
    requires !n.Record?
    requires forall j :: 0 <= j < |its| ==> Expand(its[j], n, ctx) == []
    ensures Resolve(n, ctx, its) == Err(Unresolvable(n))
  {
    DispatchSkips(n, ctx, its, 0, |its|);
  }

  // ---------------------------------------------------------------------
  // Order: depth first, left to right

  /** Results of two resolutions run one after the other: the first failure
      wins, otherwise the outputs are concatenated. */
  function Then(x: Result<seq<FieldData>, ResolveError>, y: Result<seq<FieldData>, ResolveError>): (r: Result<seq<FieldData>, ResolveError>)
  {
    match x
    case Err(e) => Err(e)
    case Ok(a) => match y case Err(e) => Err(e) case Ok(b) => Ok(a + b)
  }

  /** Resolving `a + b` is resolving `a`, then `b`: output keeps sibling order. */
  lemma {:induction false} ResolveSeqAppend(a: seq<Node>, b: seq<Node>, ctx: Context, its: seq<Expander>)
    ensures ResolveSeq(a + b, ctx, its) == Then(ResolveSeq(a, ctx, its), ResolveSeq(b, ctx, its))
    decreases |a|
  {
    if a == [] {
      assert a + b == b;
      match ResolveSeq(b, ctx, its)
      case Err(_) =>
      case Ok(tb) => assert [] + tb == tb;
    } else {
      assert (a + b)[0] == a[0];
      assert (a + b)[1..] == a[1..] + b;
      ResolveSeqAppend(a[1..], b, ctx, its);
      match Resolve(a[0], ctx, its)
      case Err(_) =>
      case Ok(h) =>
        match ResolveSeq(a[1..], ctx, its)
        case Err(_) =>
        case Ok(ta) =>
          match ResolveSeq(b, ctx, its)
          case Err(_) =>
          case Ok(tb) => assert h + (ta + tb) == (h + ta) + tb;
    }
  }

  /** A single child resolves to what it resolves to on its own. */
  lemma ResolveSeqSingle(n: Node, ctx: Context, its: seq<Expander>)
    ensures ResolveSeq([n], ctx, its) == Resolve(n, ctx, its)
  {
    assert [n][1..] == [];
    match Resolve(n, ctx, its)
    case Err(_) =>
    case Ok(h) => assert h + [] == h;
  }

  // ---------------------------------------------------------------------
  // The standard chain, node by node

  /** The nodes a leaf expander of the standard chain turns into one record. */
  predicate IsLeaf(n: Node)
  {
    n.EnumItem? || n.StrType? || n.IntType? || n.ModelType? || n.StrValue?
  }

  function LeafTerminal(n: Node): (t: Terminal)
    requires IsLeaf(n)
  {
    match n
    case EnumItem(m) => EnumTerminal(m)
    case StrType => StrTerminal
    case IntType => IntTerminal
    case ModelType(m) => ModelTerminal(m)
    case StrValue(s) => LiteralTerminal(s)
  }

  /** Each leaf (enum member, str, int, model, literal string) yields exactly
      one record, carrying the field's key and parsed in the field's context. */
  lemma ResolveLeaf(n: Node, ctx: Context)
    requires IsLeaf(n)
    ensures Resolve(n, ctx, AnnotationIterators)
         == Ok([ParseFor(LeafTerminal(n), ctx.key, ctx.value, ctx.default, EmptyMetadata)])
    ensures Resolve(n, ctx, AnnotationIterators).value[0].key == ctx.key
  {
    var its := AnnotationIterators;
    var i := match n
      case EnumItem(_) => 2
      case StrType => 3
      case IntType => 4
      case ModelType(_) => 6
      case StrValue(_) => 8;
    FirstMatchWins(n, ctx, its, i);
    var fd := ParseFor(LeafTerminal(n), ctx.key, ctx.value, ctx.default, EmptyMetadata);
    assert Expand(its[i], n, ctx) == [Record(fd)];
    ResolveSeqSingle(Record(fd), ctx, its);
  }

  /** A union is resolved branch by branch, in argument order. */
  lemma ResolveUnion(args: seq<Node>, ctx: Context)
    requires args != []
    ensures Resolve(Union(args), ctx, AnnotationIterators) == ResolveSeq(args, ctx, AnnotationIterators)
  {
    FirstMatchWins(Union(args), ctx, AnnotationIterators, 5);
  }

  /** An enum member's record, in the field's context. */
  function EnumRecord(m: EnumMember, ctx: Context): (fd: FieldData)
  {
    ParseEnumValue(m, ctx.key, ctx.value, ctx.default, EmptyMetadata)
  }

  /** A literal string's record, in the field's context. */
  function LiteralRecord(s: string, ctx: Context): (fd: FieldData)
  {
    ParseLiteralValue(s, ctx.key, ctx.value, ctx.default, EmptyMetadata)
  }

  lemma {:induction false} ResolveEnumItems(members: seq<EnumMember>, ctx: Context)
    ensures ResolveSeq(EnumItems(members), ctx, AnnotationIterators)
         == Ok(seq(|members|, i requires 0 <= i < |members| => EnumRecord(members[i], ctx)))
    decreases |members|
  {
    var its := AnnotationIterators;
    var want := seq(|members|, i requires 0 <= i < |members| => EnumRecord(members[i], ctx));
    if members != [] {
      var ns := EnumItems(members);
      assert ns[1..] == EnumItems(members[1..]);
      ResolveLeaf(EnumItem(members[0]), ctx);
      ResolveEnumItems(members[1..], ctx);
      var rest := seq(|members| - 1, i requires 0 <= i < |members| - 1 => EnumRecord(members[1..][i], ctx));
      assert want == [EnumRecord(members[0], ctx)] + rest;
    }
  }

  /** An enum type yields one EnumValue record per member, in declaration order. */
  lemma ResolveEnum(enumClass: string, members: seq<EnumMember>, ctx: Context)
    requires members != []
    ensures Resolve(EnumType(enumClass, members), ctx, AnnotationIterators)
         == Ok(seq(|members|, i requires 0 <= i < |members| => EnumRecord(members[i], ctx)))
  {
    FirstMatchWins(EnumType(enumClass, members), ctx, AnnotationIterators, 1);
    ResolveEnumItems(members, ctx);
  }

  /** The arguments of a literal type are all strings. */
  predicate AllStrValues(args: seq<Node>)
  {
    forall i :: 0 <= i < |args| ==> args[i].StrValue?
  }

  lemma {:induction false} ResolveStrValues(args: seq<Node>, ctx: Context)
    requires AllStrValues(args)
    ensures ResolveSeq(args, ctx, AnnotationIterators)
         == Ok(seq(|args|, i requires 0 <= i < |args| => LiteralRecord(args[i].s, ctx)))
    decreases |args|
  {
    var want := seq(|args|, i requires 0 <= i < |args| => LiteralRecord(args[i].s, ctx));
    if args != [] {
      ResolveLeaf(args[0], ctx);
      ResolveStrValues(args[1..], ctx);
      var rest := seq(|args| - 1, i requires 0 <= i < |args| - 1 => LiteralRecord(args[1..][i].s, ctx));
      assert want == [LiteralRecord(args[0].s, ctx)] + rest;
    }
  }

  /** A literal type of strings yields one LiteralValue record per value, in
      argument order. */
  lemma ResolveLiteral(args: seq<Node>, ctx: Context)
    requires args != [] && AllStrValues(args)
    ensures Resolve(LiteralType(args), ctx, AnnotationIterators)
         == Ok(seq(|args|, i requires 0 <= i < |args| => LiteralRecord(args[i].s, ctx)))
  {
    FirstMatchWins(LiteralType(args), ctx, AnnotationIterators, 7);
    ResolveStrValues(args, ctx);
  }

  /** A literal whose arguments are enum members yields one EnumValue record
      per member, in argument order, as the enum-item expander accepts each. */
  lemma ResolveLiteralOfEnumMembers(members: seq<EnumMember>, ctx: Context)
    requires members != []
    ensures Resolve(LiteralType(EnumItems(members)), ctx, AnnotationIterators)
         == Ok(seq(|members|, i requires 0 <= i < |members| => EnumRecord(members[i], ctx)))
  {
    FirstMatchWins(LiteralType(EnumItems(members)), ctx, AnnotationIterators, 7);
    ResolveEnumItems(members, ctx);
  }

  /** `Literal["A", "B"]` resolves to one record per literal, in order. */
  lemma LiteralABResolves(ctx: Context)
    ensures Resolve(LiteralType([StrValue("A"), StrValue("B")]), ctx, AnnotationIterators)
         == Ok([LiteralRecord("A", ctx), LiteralRecord("B", ctx)])
  {
    var args := [StrValue("A"), StrValue("B")];
    ResolveLiteral(args, ctx);
    assert seq(|args|, i requires 0 <= i < |args| => LiteralRecord(args[i].s, ctx))
        == [LiteralRecord("A", ctx), LiteralRecord("B", ctx)];
  }

  /** `bool` expands to exactly two children, the strings "True" then
      "False", which the standard chain finishes as LiteralValue records. */
  lemma ResolveBool(ctx: Context)
    ensures Expand(BoolTypeIterator, BoolType, ctx) == [StrValue("True"), StrValue("False")]
    ensures Resolve(BoolType, ctx, AnnotationIterators)
         == Ok([LiteralRecord("True", ctx), LiteralRecord("False", ctx)])
  {
    var its := AnnotationIterators;
    var kids := [StrValue("True"), StrValue("False")];
    assert Expand(its[0], BoolType, ctx) == kids;
    FirstMatchWins(BoolType, ctx, its, 0);
    assert Resolve(BoolType, ctx, its) == ResolveSeq(kids, ctx, its);
    assert [StrValue("True")] + [StrValue("False")] == [StrValue("True"), StrValue("False")];
    ResolveSeqAppend([StrValue("True")], [StrValue("False")], ctx, its);
    ResolveSeqSingle(StrValue("True"), ctx, its);
    ResolveSeqSingle(StrValue("False"), ctx, its);
    ResolveLeaf(StrValue("True"), ctx);
    ResolveLeaf(StrValue("False"), ctx);
    var t, f := LiteralRecord("True", ctx), LiteralRecord("False", ctx);
    assert ResolveSeq([StrValue("True")], ctx, its) == Ok([t]);
    assert ResolveSeq([StrValue("False")], ctx, its) == Ok([f]);
    assert [t] + [f] == [t, f];
  }

  /** Consequence: no default or prior value that is not a string (a
      boolean, the sentinel, the no-default marker) activates either
      alternative of a `bool` field, since only the strings match. */
  lemma BoolFieldIgnoresBooleans(ctx: Context)
    requires !ctx.value.StrVal? && !ctx.default.StrVal?
    ensures var r := Resolve(BoolType, ctx, AnnotationIterators);
            r.Ok? && forall i :: 0 <= i < |r.value| ==> !r.value[i].active
  {
    ResolveBool(ctx);
  }

  /** No expander of the standard chain accepts `None`, so an optional field
      cannot be resolved. */
  lemma OptionalUnresolvable(t: Node, ctx: Context)
    requires IsLeaf(t)
    ensures Resolve(Union([t, NoneType]), ctx, AnnotationIterators) == Err(Unresolvable(NoneType))
  {
    ResolveUnion([t, NoneType], ctx);
    NoMatchFails(NoneType, ctx, AnnotationIterators);
    ResolveLeaf(t, ctx);
    assert [t, NoneType][1..] == [NoneType];
  }

  // ---------------------------------------------------------------------
  // The string-and-literal rule and activation

  /** `Literal[...] | str` is rejected whatever the default and prior value. */
  lemma LiteralOrStrRejected(args: seq<Node>, key: string, value: Value, default: Value)
    requires args != [] && AllStrValues(args)
    ensures FieldDataFromAnnotation(Union([LiteralType(args), StrType]), key, value, default, AnnotationIterators)
         == Err(StringAndLiteralNotAllowed(Union([LiteralType(args), StrType])))
  {
    var ctx := Context(key, value, default);
    var its := AnnotationIterators;
    ResolveUnion([LiteralType(args), StrType], ctx);
    ResolveSeqAppend([LiteralType(args)], [StrType], ctx, its);
    ResolveSeqSingle(LiteralType(args), ctx, its);
    ResolveSeqSingle(StrType, ctx, its);
    assert [LiteralType(args)] + [StrType] == [LiteralType(args), StrType];
    ResolveLiteral(args, ctx);
    ResolveLeaf(StrType, ctx);
    var lits := Resolve(LiteralType(args), ctx, its).value;
    var rs := Resolve(Union([LiteralType(args), StrType]), ctx, its).value;
    assert rs == lits + [ParseString(key, value, default, EmptyMetadata)];
    assert rs[0] == LiteralRecord(args[0].s, ctx);
    assert HasLiteral(rs);
    assert rs[|rs| - 1].annotation.StrTerminal?;
    assert HasString(rs);
  }

  /** Records whose terminals are pairwise different, built in one context,
      without both a String and a LiteralValue record: at most one is active. */
  lemma AtMostOneActive(rs: seq<FieldData>, ctx: Context)
    requires forall i :: 0 <= i < |rs| ==> Produced(rs[i], ctx)
    requires forall i, j :: 0 <= i < j < |rs| ==> rs[i].annotation != rs[j].annotation
    requires !(HasString(rs) && HasLiteral(rs))
    ensures forall i, j :: 0 <= i < |rs| && 0 <= j < |rs| && rs[i].active && rs[j].active ==> i == j
  {
    forall i, j | 0 <= i < |rs| && 0 <= j < |rs| && rs[i].active && rs[j].active
      ensures i == j
    {
      if i != j {
        var t1, t2 := rs[i].annotation, rs[j].annotation;
        assert t1 != t2 by {
          if i < j { } else { }
        }
        var v := if ctx.value == NoValue then ctx.default else ctx.value;
        assert Check(v, t1) && Check(v, t2);
        SharedMatch(v, t1, t2);
        assert false;
      }
    }
  }

  /** A successfully resolved declaration without repeated terminals has at
      most one active record. */
  lemma ResolvedAtMostOneActive(annotation: Node, key: string, value: Value, default: Value, its: seq<Expander>)
    requires RecordsFrom(annotation, Context(key, value, default))
    requires FieldDataFromAnnotation(annotation, key, value, default, its).Ok?
    requires var rs := FieldDataFromAnnotation(annotation, key, value, default, its).value;
             forall i, j :: 0 <= i < j < |rs| ==> rs[i].annotation != rs[j].annotation
    ensures var rs := FieldDataFromAnnotation(annotation, key, value, default, its).value;
            forall i, j :: 0 <= i < |rs| && 0 <= j < |rs| && rs[i].active && rs[j].active ==> i == j
  {
    AtMostOneActive(FieldDataFromAnnotation(annotation, key, value, default, its).value, Context(key, value, default));
  }
}

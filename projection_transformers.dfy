/** Select-projection transformers: a member access on the output of a
    projected subquery is rewritten into the sub-expression of the projection
    that produced that member. Each transformer is an immutable value built by
    a checking constructor, and its Transform step is a pure lookup. */
module ProjectionTransformers {
  import opened Common
  import opened QueryModel

  /** Node kinds a transformer can declare support for. */
  datatype NodeType = MemberAccess | Other

  /** SupportedExpressionTypes: the base class declares member accesses only. */
  function SupportedExpressionTypes(): (r: seq<NodeType>)
    ensures MemberAccess in r && Other !in r && |r| == 1
  {
    [MemberAccess]
  }

  /** Index of the first field of `fields` that initialises member `m`. */
  function FindField(fields: seq<Field>, m: MemberId): (r: Option<nat>)
    ensures r.Some? ==> r.value < |fields| && fields[r.value].member == m
    ensures r.Some? ==> forall j :: 0 <= j < r.value ==> fields[j].member != m
    ensures r.None? <==> forall j :: 0 <= j < |fields| ==> fields[j].member != m
  {
    if |fields| == 0 then None
    else if fields[0].member == m then Some(0)
    else
      var rest := FindField(fields[1..], m);
      if rest.Some? then Some(rest.value + 1) else None
  }

  /** Index of the first assignment binding of `bindings` for member `m`;
      list and member-member bindings are skipped. */
  function FindAssignment(bindings: seq<Binding>, m: MemberId): (r: Option<nat>)
    ensures r.Some? ==> r.value < |bindings| && bindings[r.value].Assignment? && bindings[r.value].member == m
    ensures r.Some? ==> forall j :: 0 <= j < r.value ==> !(bindings[j].Assignment? && bindings[j].member == m)
    ensures r.None? <==> forall j :: 0 <= j < |bindings| ==> !(bindings[j].Assignment? && bindings[j].member == m)
  {
    if |bindings| == 0 then None
    else if bindings[0].Assignment? && bindings[0].member == m then Some(0)
    else
      var rest := FindAssignment(bindings[1..], m);
      if rest.Some? then Some(rest.value + 1) else None
  }

  /** The argument a `new { ... }` gives member `m`, if any. */
  function LookupNew(fields: seq<Field>, m: MemberId): (r: Option<Expr>)
    ensures r.Some? <==> FindField(fields, m).Some?
    ensures r.Some? ==> r.value == fields[FindField(fields, m).value].arg
  {
    var i := FindField(fields, m);
    if i.Some? then Some(fields[i.value].arg) else None
  }

  /** The expression the first assignment binding for `m` assigns, if any. */
  function LookupInit(bindings: seq<Binding>, m: MemberId): (r: Option<Expr>)
    ensures r.Some? <==> FindAssignment(bindings, m).Some?
    ensures r.Some? ==> r.value == bindings[FindAssignment(bindings, m).value].expr
  {
    var i := FindAssignment(bindings, m);
    if i.Some? then Some(bindings[i.value].expr) else None
  }

  /** `e` is one of the expressions a projection node builds from. */
  predicate IsProjectedPart(proj: Expr, e: Expr)
  {
    (proj.New? && exists i :: 0 <= i < |proj.fields| && proj.fields[i].arg == e)
    || (proj.MemberInit? && exists i :: 0 <= i < |proj.bindings| && proj.bindings[i].Assignment? && proj.bindings[i].expr == e)
  }

  /** The base Transform: a member access whose receiver is itself a `new`
      or member-init node is replaced by what that node gave the member;
      anything else comes back unchanged, with no error. */
  function BaseTransform(e: Expr): (r: Expr)
    requires e.Member?
    ensures r == e || IsProjectedPart(e.receiver, r)
    ensures e.receiver.New? && FindField(e.receiver.fields, e.member).Some? ==>
              r == e.receiver.fields[FindField(e.receiver.fields, e.member).value].arg
    ensures e.receiver.MemberInit? && FindAssignment(e.receiver.bindings, e.member).Some? ==>
              r == e.receiver.bindings[FindAssignment(e.receiver.bindings, e.member).value].expr
    ensures !e.receiver.New? && !e.receiver.MemberInit? ==> r == e
    ensures e.receiver.New? && FindField(e.receiver.fields, e.member).None? ==> r == e
    ensures e.receiver.MemberInit? && FindAssignment(e.receiver.bindings, e.member).None? ==> r == e
  {
    var fromNew := if e.receiver.New? then LookupNew(e.receiver.fields, e.member) else None;
    if fromNew.Some? then fromNew.value
    else
      var fromInit := if e.receiver.MemberInit? then LookupInit(e.receiver.bindings, e.member) else None;
      if fromInit.Some? then fromInit.value else e
  }

  /** A constructed transformer: the query-source reference it rewrites and
      the projection that source was selected through. */
  datatype Transformer =
    | NewTransformer(reference: Expr, projection: seq<Field>)
    | InitTransformer(reference: Expr, initProjection: Expr, bindings: seq<Binding>)

  /** SelectProjectionNewExpressionTransformer's constructor: the base class
      rejects a null reference first, then a null projection is rejected. */
  function MakeNewTransformer(reference: Option<Expr>, projection: Option<Expr>): (r: Result<Transformer>)
    requires reference.Some? ==> reference.value.SourceRef?
    requires projection.Some? ==> projection.value.New?
    ensures reference.None? ==> r == Failure(ArgumentNull("querySourceReference"))
    ensures reference.Some? && projection.None? ==> r == Failure(ArgumentNull("newExpression"))
    ensures reference.Some? && projection.Some? ==>
              r == Success(NewTransformer(reference.value, projection.value.fields))
  {
    if reference.None? then Failure(ArgumentNull("querySourceReference"))
    else if projection.None? then Failure(ArgumentNull("newExpression"))
    else Success(NewTransformer(reference.value, projection.value.fields))
  }

  /** SelectProjectionInitExpressionTransformer's constructor, with the same
      two null checks in the same order. */
  function MakeInitTransformer(reference: Option<Expr>, projection: Option<Expr>): (r: Result<Transformer>)
    requires reference.Some? ==> reference.value.SourceRef?
    requires projection.Some? ==> projection.value.MemberInit?
    ensures reference.None? ==> r == Failure(ArgumentNull("querySourceReference"))
    ensures reference.Some? && projection.None? ==> r == Failure(ArgumentNull("initExpression"))
    ensures reference.Some? && projection.Some? ==>
              r == Success(InitTransformer(reference.value, projection.value, projection.value.bindings))
  {
    if reference.None? then Failure(ArgumentNull("querySourceReference"))
    else if projection.None? then Failure(ArgumentNull("initExpression"))
    else Success(InitTransformer(reference.value, projection.value, projection.value.bindings))
  }

  /** The stored projection's own lookup, when the access goes through the
      stored reference. */
  function OwnLookup(t: Transformer, m: MemberId): Option<Expr>
  {
    match t
    case NewTransformer(_, fields) => LookupNew(fields, m)
    case InitTransformer(_, _, bindings) => LookupInit(bindings, m)
  }

  /** The derived Transform: when the receiver equals the stored reference and
      the stored projection gives the member, its expression is returned;
      otherwise the base lookup decides. */
  function Transform(t: Transformer, e: Expr): (r: Expr)
    requires e.Member?
    ensures e.receiver == t.reference && t.NewTransformer? && FindField(t.projection, e.member).Some? ==>
              r == t.projection[FindField(t.projection, e.member).value].arg
    ensures e.receiver == t.reference && t.InitTransformer? && FindAssignment(t.bindings, e.member).Some? ==>
              r == t.bindings[FindAssignment(t.bindings, e.member).value].expr
    ensures e.receiver != t.reference ==> r == BaseTransform(e)
    ensures OwnLookup(t, e.member).None? ==> r == BaseTransform(e)
  {
    if e.receiver == t.reference && OwnLookup(t, e.member).Some? then OwnLookup(t, e.member).value
    else BaseTransform(e)
  }

  /** The result of one Transform step is the input itself, a part of the
      stored projection, or a part of the receiver's own projection node. */
  lemma TransformResultOrigin(t: Transformer, e: Expr)
    requires e.Member?
    ensures var r := Transform(t, e);
      r == e
      || IsProjectedPart(e.receiver, r)
      || (t.NewTransformer? && IsProjectedPart(New(t.projection), r))
      || (t.InitTransformer? && IsProjectedPart(MemberInit(t.initProjection, t.bindings), r))
  {
    var r := Transform(t, e);
    if e.receiver == t.reference && OwnLookup(t, e.member).Some? {
      match t
      case NewTransformer(_, fields) =>
        var i := FindField(fields, e.member).value;
        assert New(fields).fields[i].arg == r;
      case InitTransformer(_, p, bindings) =>
        var i := FindAssignment(bindings, e.member).value;
        assert MemberInit(p, bindings).bindings[i].expr == r;
    }
  }

  /** An access through the stored reference to a member the projection does
      not give comes back unchanged. */
  lemma UnmatchedReferenceUnchanged(t: Transformer, e: Expr)
    requires e.Member? && e.receiver == t.reference && t.reference.SourceRef?
    requires OwnLookup(t, e.member).None?
    ensures Transform(t, e) == e
  {
  }

  /** An idealised bottom-up application over a whole tree: operands first,
      then one Transform step on each member access, the one node type in
      SupportedExpressionTypes. Sub-query models are not entered. */
  function TransformTree(t: Transformer, e: Expr): (r: Expr)
    ensures e.Constant? || e.DataSet? || e.SourceRef? || e.SubQuery? ==> r == e
    ensures e.Coalesce? ==> r.Coalesce?
    ensures e.Node? ==> r.Node? && r.head == e.head
    ensures e.New? ==> r.New?
    decreases e, 1
  {
    match e
    case Constant(_) => e
    case DataSet(_) => e
    case SourceRef(_, _) => e
    case SubQuery(_) => e
    case Member(receiver, m) =>
      Transform(t, Member(TransformTree(t, receiver), m))
    case New(fields) => New(TransformFields(t, fields))
    case MemberInit(ctor, bindings) => MemberInit(TransformTree(t, ctor), TransformBindings(t, bindings))
    case Coalesce(l, r) => Coalesce(TransformTree(t, l), TransformTree(t, r))
    case Node(head, operands) => Node(head, TransformOperands(t, operands))
  }

  function TransformFields(t: Transformer, fields: seq<Field>): (r: seq<Field>)
    ensures |r| == |fields|
    decreases fields
  {
    if |fields| == 0 then []
    else [Field(fields[0].member, TransformTree(t, fields[0].arg))] + TransformFields(t, fields[1..])
  }

  function TransformBindings(t: Transformer, bindings: seq<Binding>): (r: seq<Binding>)
    ensures |r| == |bindings|
    decreases bindings
  {
    if |bindings| == 0 then []
    else
      var b := bindings[0];
      var b' := if b.Assignment? then Assignment(b.member, TransformTree(t, b.expr)) else b;
      [b'] + TransformBindings(t, bindings[1..])
  }

  function TransformOperands(t: Transformer, operands: seq<Operand>): (r: seq<Operand>)
    ensures |r| == |operands|
    decreases operands
  {
    if |operands| == 0 then []
    else [Operand(TransformTree(t, operands[0].expr), operands[0].after)] + TransformOperands(t, operands[1..])
  }

  /** A nested projection `e.Name.FirstName` over `new { Name = new { FirstName =
      c.FirstName, LastName = c.LastName } }` flattens to `c.FirstName`: the
      inner access is rewritten by the stored projection, the outer one by the
      base lookup on the `new` node that came out. */
  lemma NestedProjectionFlattens(outer: SourceId, inner: SourceId)
    ensures
      var c := SourceRef(inner, false);
      var nameNew := New([Field("FirstName", Member(c, "FirstName")), Field("LastName", Member(c, "LastName"))]);
      var t := NewTransformer(SourceRef(outer, false), [Field("Name", nameNew)]);
      TransformTree(t, Member(Member(SourceRef(outer, false), "Name"), "FirstName")) == Member(c, "FirstName")
  {
    var c := SourceRef(inner, false);
    var nameNew := New([Field("FirstName", Member(c, "FirstName")), Field("LastName", Member(c, "LastName"))]);
    var t := NewTransformer(SourceRef(outer, false), [Field("Name", nameNew)]);
    var step1 := Member(SourceRef(outer, false), "Name");
    assert TransformTree(t, SourceRef(outer, false)) == SourceRef(outer, false);
    assert FindField([Field("Name", nameNew)], "Name") == Some(0);
    assert TransformTree(t, step1) == nameNew;
    assert FindField(nameNew.fields, "FirstName") == Some(0);
  }

  /** A typed first projection `new ContactModel { FirstName = c.FirstName,
      LastName = c.LastName }` lets a later `e.LastName` be rewritten to the
      source field `c.LastName`. */
  lemma TypedProjectionRewrites(outer: SourceId, inner: SourceId, ctor: Expr)
    ensures
      var c := SourceRef(inner, false);
      var bindings := [Assignment("FirstName", Member(c, "FirstName")), Assignment("LastName", Member(c, "LastName"))];
      var t := InitTransformer(SourceRef(outer, false), MemberInit(ctor, bindings), bindings);
      TransformTree(t, Member(SourceRef(outer, false), "LastName")) == Member(c, "LastName")
  {
    var c := SourceRef(inner, false);
    var bindings := [Assignment("FirstName", Member(c, "FirstName")), Assignment("LastName", Member(c, "LastName"))];
    assert FindAssignment(bindings[1..], "LastName") == Some(0);
    assert FindAssignment(bindings, "LastName") == Some(1);
  }
}

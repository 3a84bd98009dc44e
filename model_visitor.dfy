/** The analytics query model visitor: it walks a parsed query model (main
    from clause, body clauses, result operators, select clause) and fills a
    query parts aggregator, tracking a visit status for grouping and union
    subqueries. The first half of this module specifies each visit as a
    function on a value snapshot of everything the visitor touches; the
    second half is the visitor object, whose methods are proved to change
    that state exactly as the functions say. */
module ModelVisitor {
  import opened Common
  import opened ExtentNames
  import opened PartsAggregator
  import QM = QueryModel

  /** The visit status. `Normal` is the source's `None`. */
  datatype VisitStatus =
    | Normal
    | InGroupSubquery
    | AfterGroupSubquery
    | InUnionSortSubquery
    | AfterUnionSortSubquery

  /** A key transformer registered for a grouping: the grouping query source
      it reads and the key selector (a single expression or the fields of a
      `new { ... }` key). The transformers' own code is not part of this model. */
  datatype GroupKey =
    | SingleKey(grouping: Option<QM.SourceId>, key: QM.Expr)
    | MultiKey(grouping: Option<QM.SourceId>, fields: seq<QM.Field>)

  /** The grouping expression transformer registry. */
  datatype Registry = Registry(transformers: seq<GroupKey>)

  /** Code the visitor calls but that is not part of this model:
      - render: the analytics expression writer, given the extent name
        provider's state (it reads aliases and the extent prefix);
      - regroup: TransformingExpressionVisitor.Transform with a registry;
      - detectInnerNest: InnerNestDetectingExpressionVisitor over the extents,
        giving the extents as it leaves them (it may turn a nest into an
        INNER NEST) and the predicate it returns;
      - escape: N1QlHelpers.EscapeIdentifier;
      - compileUnion: a fresh N1QL model visitor over a cloned context,
        returning its query text;
      - renderExtent: ExtentPart.AppendToStringBuilder. */
  datatype Collaborators = Collaborators(
    render: (NameTable, QM.Expr) -> string,
    regroup: (Option<Registry>, QM.Expr) -> QM.Expr,
    detectInnerNest: (seq<ExtentPart>, QM.Expr) -> (seq<ExtentPart>, QM.Expr),
    escape: string -> string,
    compileUnion: QM.Model -> string,
    renderExtent: ExtentPart -> string)

  /** Everything a visit reads and writes: the aggregator's parts, the extent
      name provider, the context's grouping query source, and the visitor's
      own status, aggregate flag and grouping registry. */
  datatype VState = VState(
    parts: Parts,
    table: NameTable,
    grouping: Option<QM.SourceId>,
    status: VisitStatus,
    isAggregated: bool,
    registry: Option<Registry>)

  predicate Good(s: VState)
  {
    Flat(s.table)
  }

  // ---------------------------------------------------------------------
  // Helpers of the visit functions

  /** GetAnalyticsExpression: after a grouping subquery the expression is
      first rewritten through the grouping registry. */
  function Rendered(s: VState, e: QM.Expr, c: Collaborators): (r: string)
    ensures s.status != AfterGroupSubquery ==> r == c.render(s.table, e)
    ensures s.status == AfterGroupSubquery ==> r == c.render(s.table, c.regroup(s.registry, e))
  {
    c.render(s.table, if s.status == AfterGroupSubquery then c.regroup(s.registry, e) else e)
  }

  /** Every expression rendered against the same state, in order. */
  function RenderedAll(s: VState, es: seq<QM.Expr>, c: Collaborators): (r: seq<string>)
    ensures |r| == |es| && forall i :: 0 <= i < |es| ==> r[i] == Rendered(s, es[i], c)
  {
    seq(|es|, i requires 0 <= i < |es| => Rendered(s, es[i], c))
  }

  /** GetExtentName: the source's alias, minted on first use. */
  function Named(s: VState, src: QM.SourceId): (r: (VState, string))
    requires Good(s)
    ensures Good(r.0) && r.0 == s.(table := r.0.table)
    ensures (r.0.table, r.1) == ResolveTable(s.table, src)
  {
    var (t, name) := ResolveTable(s.table, src);
    (s.(table := t), name)
  }

  function Linked(s: VState, primary: QM.SourceId, secondary: QM.SourceId): (r: VState)
    requires Good(s)
    ensures Good(r) && r == s.(table := LinkTable(s.table, primary, secondary))
    ensures r.parts == s.parts && r.status == s.status
  {
    s.(table := LinkTable(s.table, primary, secondary))
  }

  function WithExtent(s: VState, part: ExtentPart): VState
  {
    s.(parts := s.parts.(extents := s.parts.extents + [part]))
  }

  function ArgumentsOf(fields: seq<QM.Field>): (r: seq<QM.Expr>)
    ensures |r| == |fields| && forall i :: 0 <= i < |fields| ==> r[i] == fields[i].arg
  {
    seq(|fields|, i requires 0 <= i < |fields| => fields[i].arg)
  }

  /** The hint list of an extent already holds a hint of this kind. */
  predicate HasHintKind(hints: seq<QM.Hint>, kind: QM.HintKind)
  {
    exists i :: 0 <= i < |hints| && hints[i].kind == kind
  }

  /** VisitHintClause on one extent: the first hint creates the list; a
      second hint of the same kind is refused. */
  function WithHint(part: ExtentPart, h: QM.Hint): (r: Result<ExtentPart>)
    ensures r.Failure? <==> part.hints.Some? && HasHintKind(part.hints.value, h.kind)
    ensures r.Failure? ==> r.error == NotSupported("Only one " + h.kind + " is allowed per extent.")
    ensures r.Success? ==> r.value == part.(hints := Some(Elements(part.hints) + [h]))
  {
    if part.hints.None? then
      assert Elements(part.hints) + [h] == [h];
      Success(part.(hints := Some([h])))
    else if HasHintKind(part.hints.value, h.kind) then Failure(NotSupported("Only one " + h.kind + " is allowed per extent."))
    else Success(part.(hints := Some(part.hints.value + [h])))
  }

  /** The hints of a join subquery applied one after the other. */
  function WithHints(part: ExtentPart, hs: seq<QM.Hint>): (r: Result<ExtentPart>)
    ensures r.Success? ==> r.value == part.(hints := r.value.hints)
    decreases |hs|
  {
    if |hs| == 0 then Success(part)
    else
      var p :- WithHint(part, hs[0]);
      WithHints(p, hs[1..])
  }

  /** The first ANSI join extent whose query source is `src`. */
  function FirstAnsiJoin(extents: seq<ExtentPart>, src: QM.SourceId): (r: Option<nat>)
    ensures r.Some? ==> r.value < |extents| && extents[r.value].AnsiJoinPart? && extents[r.value].querySource == src
    ensures r.Some? ==> forall i :: 0 <= i < r.value ==> !(extents[i].AnsiJoinPart? && extents[i].querySource == src)
    ensures r.None? ==> forall i :: 0 <= i < |extents| ==> !(extents[i].AnsiJoinPart? && extents[i].querySource == src)
  {
    if |extents| == 0 then None
    else if extents[0].AnsiJoinPart? && extents[0].querySource == src then Some(0)
    else
      var k := FirstAnsiJoin(extents[1..], src);
      if k.Some? then Some(k.value + 1) else None
  }

  function DirectionText(d: QM.Direction): string
  {
    match d
    case Asc => "ASC"
    case Desc => "DESC"
  }

  function OrderingTexts(s: VState, os: seq<QM.Ordering>, c: Collaborators): (r: seq<string>)
    ensures |r| == |os|
    ensures forall i :: 0 <= i < |os| ==> r[i] == Rendered(s, os[i].expr, c) + " " + DirectionText(os[i].direction)
  {
    seq(|os|, i requires 0 <= i < |os| => Rendered(s, os[i].expr, c) + " " + DirectionText(os[i].direction))
  }

  /** The names GetExtentSelectParameters lists: every extent's item name,
      then every LET part's item name, each in insertion order. */
  function SelectNames(p: Parts): (r: seq<string>)
    ensures |r| == |p.extents| + |p.letParts|
    ensures forall i :: 0 <= i < |p.extents| ==> r[i] == p.extents[i].itemName
    ensures forall j :: 0 <= j < |p.letParts| ==> r[|p.extents| + j] == p.letParts[j].itemName
  {
    seq(|p.extents| + |p.letParts|, i requires 0 <= i < |p.extents| + |p.letParts| =>
      if i < |p.extents| then p.extents[i].itemName else p.letParts[i - |p.extents|].itemName)
  }

  /** GetExtentSelectParameters: every extent's alias, then every LET name,
      separated by ", ". */
  function ExtentSelectParameters(p: Parts): (r: string)
    ensures |p.extents| + |p.letParts| == 0 ==> r == ""
    ensures |p.extents| == 1 && |p.letParts| == 0 ==> r == p.extents[0].itemName
  {
    Join(SelectNames(p), ", ")
  }

  /** A further LET part adds its name at the end of the select list, after
      a separator when the list was not empty. */
  lemma LetNameAppended(p: Parts, lp: LetPart)
    ensures ExtentSelectParameters(p.(letParts := p.letParts + [lp])) ==
      if |p.extents| + |p.letParts| == 0 then lp.itemName
      else ExtentSelectParameters(p) + ", " + lp.itemName
  {
    var p' := p.(letParts := p.letParts + [lp]);
    assert SelectNames(p') == SelectNames(p) + [lp.itemName];
    JoinAppend(SelectNames(p), lp.itemName, ", ");
  }

  /** GetSelectParameters: a query source reference selects "*" once
      aggregated; a `new` or member-init projection after grouping is
      regrouped before it is rendered (and the renderer regroups again). */
  function SelectParameters(s: VState, selector: QM.Expr, c: Collaborators): (r: string)
    ensures selector.SourceRef? && s.isAggregated ==> r == "*"
    ensures !(selector.SourceRef? && s.isAggregated) && s.status != AfterGroupSubquery ==>
      r == c.render(s.table, selector)
    ensures (selector.New? || selector.MemberInit?) && s.status == AfterGroupSubquery ==>
      r == c.render(s.table, c.regroup(s.registry, c.regroup(s.registry, selector)))
  {
    if selector.SourceRef? then
      if s.isAggregated then "*" else Rendered(s, selector, c)
    else if selector.New? || selector.MemberInit? then
      var e := if s.status == AfterGroupSubquery then c.regroup(s.registry, selector) else selector;
      Rendered(s, e, c)
    else Rendered(s, selector, c)
  }

  /** The text " LIMIT n" of AddLimitPart(" LIMIT {0}", n). */
  function LimitClause(n: int): string
  {
    " LIMIT " + IntText(n)
  }

  function OffsetClause(n: int): string
  {
    " OFFSET " + IntText(n)
  }

  /** The where part VisitUseKeysClause formats. */
  function UseKeysText(extentName: string, keys: string): string
  {
    "META(" + extentName + ").id IN " + keys
  }

  // ---------------------------------------------------------------------
  // Body clause visits

  /** VisitWhereClause: a WHERE part, or a HAVING part after a grouping
      subquery. With more than one extent the inner nest detector first sees
      the extents and the predicate, and the extents it leaves are kept. The
      where part is the rendered predicate verbatim (see the findings: the
      source passes it to AddWherePart as a format string). */
  function WhereStep(s: VState, condition: QM.Expr, c: Collaborators): (r: VState)
    ensures s.status != AfterGroupSubquery ==>
      r.parts.havingParts == s.parts.havingParts && |r.parts.whereParts| == |s.parts.whereParts| + 1
      && r.parts.whereParts[..|s.parts.whereParts|] == s.parts.whereParts
    ensures s.status != AfterGroupSubquery && |s.parts.extents| > 1 ==>
      r.parts.extents == c.detectInnerNest(s.parts.extents, condition).0
    ensures s.status == AfterGroupSubquery || |s.parts.extents| <= 1 ==> r.parts.extents == s.parts.extents
    ensures s.status == AfterGroupSubquery ==>
      r.parts.whereParts == s.parts.whereParts && |Elements(r.parts.havingParts)| == |Elements(s.parts.havingParts)| + 1
    ensures r.table == s.table && r.status == s.status && r.parts.queryType == s.parts.queryType
  {
    if s.status != AfterGroupSubquery then
      var (extents, p) := if |s.parts.extents| > 1 then c.detectInnerNest(s.parts.extents, condition)
                          else (s.parts.extents, condition);
      s.(parts := s.parts.(extents := extents, whereParts := s.parts.whereParts + [Rendered(s, p, c)]))
    else
      s.(parts := s.parts.(havingParts := Some(Elements(s.parts.havingParts) + [Rendered(s, condition, c)])))
  }

  /** VisitOrderByClause: ignored inside a grouping subquery; otherwise the
      clause's orderings, "expr ASC|DESC" joined by ", ", go to the front. */
  function OrderByStep(s: VState, os: seq<QM.Ordering>, c: Collaborators): (r: VState)
    ensures s.status == InGroupSubquery ==> r == s
    ensures s.status != InGroupSubquery ==>
      r == s.(parts := s.parts.(orderByParts := OrderByAfter(s.parts.orderByParts, [OrderingTexts(s, os, c)])))
  {
    if s.status == InGroupSubquery then s
    else s.(parts := s.parts.(orderByParts := [Join(OrderingTexts(s, os, c), ", ")] + s.parts.orderByParts))
  }

  /** VisitUseKeysClause: "META(<main extent>).id IN <keys>" as a where part. */
  function UseKeysStep(s: VState, qm: QM.Model, keys: QM.Expr, c: Collaborators): (r: VState)
    requires Good(s)
    ensures Good(r) && r.status == s.status && r.parts == s.parts.(whereParts := r.parts.whereParts)
    ensures |r.parts.whereParts| == |s.parts.whereParts| + 1 && r.parts.whereParts[..|s.parts.whereParts|] == s.parts.whereParts
    ensures NameOf(r.table, qm.mainFrom.id).Some?
    ensures r.parts.whereParts[|s.parts.whereParts|] == UseKeysText(NameOf(r.table, qm.mainFrom.id).value, Rendered(r, keys, c))
  {
    var (s1, name) := Named(s, qm.mainFrom.id);
    s1.(parts := s1.parts.(whereParts := s1.parts.whereParts + [UseKeysText(name, Rendered(s1, keys, c))]))
  }

  /** VisitHintClause on the first extent; with no extent the list indexer throws. */
  function HintStep(s: VState, h: QM.Hint): (r: Result<VState>)
    ensures |s.parts.extents| == 0 ==> r == Failure(ArgumentOutOfRange)
    ensures r.Success? ==> r.value.table == s.table && |r.value.parts.extents| == |s.parts.extents|
  {
    if |s.parts.extents| == 0 then Failure(ArgumentOutOfRange)
    else
      var p :- WithHint(s.parts.extents[0], h);
      Success(s.(parts := s.parts.(extents := s.parts.extents[0 := p])))
  }

  /** VisitMemberFromExpression: an INNER UNNEST of the rendered member. */
  function MemberFrom(s: VState, id: QM.SourceId, e: QM.Expr, c: Collaborators): (r: (VState, ExtentPart))
    requires Good(s)
    ensures Good(r.0) && r.1.JoinPart? && r.1.joinType == InnerUnnest && r.1.querySource == id
  {
    var source := Rendered(s, e, c);
    var (s1, item) := Named(s, id);
    (s1, JoinPart(id, source, item, None, InnerUnnest))
  }

  /** VisitConstantExpressionJoinClause: an ANSI INNER JOIN against a data set. */
  function ConstantJoin(s: VState, j: QM.JoinClause, inner: QM.Expr, c: Collaborators): (r: Result<(VState, ExtentPart)>)
    requires Good(s)
    ensures r.Failure? <==> !inner.DataSet?
    ensures r.Failure? ==> r.error == NotSupported("N1QL Joins Must Be Against IAnalyticsDataSetQueryable")
    ensures r.Success? ==> Good(r.value.0) && r.value.1.AnsiJoinPart? && r.value.1.joinType == InnerJoin
    ensures r.Success? ==> r.value.0 == s.(table := r.value.0.table)
  {
    if !inner.DataSet? then Failure(NotSupported("N1QL Joins Must Be Against IAnalyticsDataSetQueryable"))
    else
      var source := c.escape(inner.name);
      var (s1, item) := Named(s, j.id);
      Success((s1, AnsiJoinPart(j.id, source, item, None, InnerJoin,
                                Rendered(s1, j.outerKey, c), Rendered(s1, j.innerKey, c), None, None)))
  }

  /** A join or nest subquery is acceptable only without result operators
      and over a constant. */
  predicate PlainSubquery(m: QM.Model): (r: bool)
    ensures |m.resultOperators| > 0 ==> !r
    ensures !m.mainFrom.fromExpr.Constant? && !m.mainFrom.fromExpr.DataSet? ==> !r
    ensures |m.resultOperators| == 0 && m.mainFrom.fromExpr.DataSet? ==> r
  {
    |m.resultOperators| == 0 && QM.IsConstant(m.mainFrom.fromExpr)
  }

  /** ParseJoinClause. A filtered subquery puts its where predicates on the
      ON clause and its hints on the join extent. */
  function JoinExtent(s: VState, j: QM.JoinClause, c: Collaborators): (r: Result<(VState, ExtentPart)>)
    requires Good(s)
    ensures r.Success? ==> Good(r.value.0) && r.value.1.AnsiJoinPart? && r.value.1.joinType == InnerJoin
    ensures r.Success? ==> r.value.0 == s.(table := r.value.0.table)
    ensures !QM.IsConstant(j.innerSequence) && !(j.innerSequence.SubQuery? && PlainSubquery(j.innerSequence.model)) ==>
      r == Failure(NotSupported("Unsupported Join Inner Sequence"))
  {
    if QM.IsConstant(j.innerSequence) then ConstantJoin(s, j, j.innerSequence, c)
    else if j.innerSequence.SubQuery? then
      var m := j.innerSequence.model;
      if !PlainSubquery(m) then Failure(NotSupported("Unsupported Join Inner Sequence"))
      else
        var sp :- ConstantJoin(Linked(s, j.id, m.mainFrom.id), j, m.mainFrom.fromExpr, c);
        var predicates := Join(RenderedAll(sp.0, QM.WherePredicates(m.bodyClauses), c), " AND ");
        var part :- WithHints(sp.1.(additionalInnerPredicates := Some(predicates)), QM.Hints(m.bodyClauses));
        Success((sp.0, part))
    else Failure(NotSupported("Unsupported Join Inner Sequence"))
  }

  /** ParseNestJoinClause: a group join becomes a LEFT NEST whose query source
      is the group join, and whose alias is shared with it. */
  function NestJoinExtent(s: VState, j: QM.JoinClause, groupJoin: QM.SourceId, c: Collaborators): (r: Result<(VState, ExtentPart)>)
    requires Good(s)
    ensures r.Success? ==> Good(r.value.0) && r.value.1.AnsiJoinPart? && r.value.1.joinType == LeftNest
    ensures r.Success? ==> r.value.1.querySource == groupJoin && ExtentNames.Linked(r.value.0.table, j.id, groupJoin)
    ensures r.Success? ==> r.value.0 == s.(table := r.value.0.table)
    ensures !QM.IsConstant(j.innerSequence) && !(j.innerSequence.SubQuery? && PlainSubquery(j.innerSequence.model)) ==>
      r == Failure(NotSupported("Unsupported Join Inner Sequence"))
  {
    if QM.IsConstant(j.innerSequence) then
      var sp :- ConstantJoin(s, j, j.innerSequence, c);
      LinkJoins(sp.0.table, j.id, groupJoin);
      Success((Linked(sp.0, j.id, groupJoin), sp.1.(joinType := LeftNest, querySource := groupJoin)))
    else if j.innerSequence.SubQuery? then
      var m := j.innerSequence.model;
      if !PlainSubquery(m) then Failure(NotSupported("Unsupported Join Inner Sequence"))
      else
        var sp :- ConstantJoin(s, j, m.mainFrom.fromExpr, c);
        var s1 := Linked(sp.0, j.id, groupJoin);
        LinkJoins(sp.0.table, j.id, groupJoin);
        var s2 := Linked(s1, j.id, m.mainFrom.id);
        LinkJoins(s1.table, j.id, m.mainFrom.id);
        var predicates := Join(RenderedAll(s2, QM.WherePredicates(m.bodyClauses), c), " AND ");
        var part :- WithHints(sp.1.(joinType := LeftNest, querySource := groupJoin, additionalInnerPredicates := Some(predicates)),
                              QM.Hints(m.bodyClauses));
        Success((s2, part))
    else Failure(NotSupported("Unsupported Join Inner Sequence"))
  }

  /** VisitConstantExpressionNestClause: an ANSI NEST on the nested
      documents' keys, "META(alias).id IN <key selector>". */
  function ConstantNest(s: VState, n: QM.NestClause, inner: QM.Expr, c: Collaborators): (r: Result<(VState, ExtentPart)>)
    requires Good(s)
    ensures r.Failure? <==> !inner.DataSet?
    ensures r.Failure? ==> r.error == NotSupported("N1QL Nests Must Be Against IAnalyticsDataSetQueryable")
    ensures r.Success? ==> Good(r.value.0) && r.value.1.AnsiJoinPart?
    ensures r.Success? ==> r.value.0 == s.(table := r.value.0.table)
    ensures r.Success? ==> r.value.1.joinType == (if n.isLeftOuter then LeftNest else InnerNest)
    ensures r.Success? ==> r.value.1.outerKey == "META(" + r.value.1.itemName + ").id" && r.value.1.operator == Some("IN")
  {
    if !inner.DataSet? then Failure(NotSupported("N1QL Nests Must Be Against IAnalyticsDataSetQueryable"))
    else
      var (s1, item) := Named(s, n.id);
      Success((s1, AnsiJoinPart(n.id, c.escape(inner.name), item, None, if n.isLeftOuter then LeftNest else InnerNest,
                                "META(" + item + ").id", Rendered(s1, n.keySelector, c), Some("IN"), None)))
  }

  /** ParseNestClause. */
  function NestExtent(s: VState, n: QM.NestClause, c: Collaborators): (r: Result<(VState, ExtentPart)>)
    requires Good(s)
    ensures r.Success? ==> Good(r.value.0) && r.value.1.AnsiJoinPart?
    ensures r.Success? ==> r.value.0 == s.(table := r.value.0.table)
    ensures !QM.IsConstant(n.innerSequence) && !(n.innerSequence.SubQuery? && PlainSubquery(n.innerSequence.model)) ==>
      r == Failure(NotSupported("Unsupported Nest Inner Sequence"))
  {
    if QM.IsConstant(n.innerSequence) then ConstantNest(s, n, n.innerSequence, c)
    else if n.innerSequence.SubQuery? then
      var m := n.innerSequence.model;
      if !PlainSubquery(m) then Failure(NotSupported("Unsupported Nest Inner Sequence"))
      else
        var sp :- ConstantNest(s, n, m.mainFrom.fromExpr, c);
        var s1 := Linked(sp.0, n.id, m.mainFrom.id);
        var predicates := Join(RenderedAll(s1, QM.WherePredicates(m.bodyClauses), c), " AND ");
        Success((s1, sp.1.(additionalInnerPredicates := Some(predicates))))
    else Failure(NotSupported("Unsupported Nest Inner Sequence"))
  }

  /** VisitJoinClause: the parsed join extent is added. */
  function JoinStep(s: VState, j: QM.JoinClause, c: Collaborators): (r: Result<VState>)
    requires Good(s)
    ensures r.Success? ==> Good(r.value) && r.value.parts == s.parts.(extents := r.value.parts.extents)
    ensures r.Success? ==> r.value.status == s.status && |r.value.parts.extents| == |s.parts.extents| + 1
  {
    var sp :- JoinExtent(s, j, c);
    Success(WithExtent(sp.0, sp.1))
  }

  /** VisitJoinClause for a group join: the parsed NEST extent is added. */
  function GroupJoinStep(s: VState, j: QM.JoinClause, groupJoin: QM.SourceId, c: Collaborators): (r: Result<VState>)
    requires Good(s)
    ensures r.Success? ==> Good(r.value) && r.value.parts == s.parts.(extents := r.value.parts.extents)
    ensures r.Success? ==> r.value.status == s.status && |r.value.parts.extents| == |s.parts.extents| + 1
  {
    var sp :- NestJoinExtent(s, j, groupJoin, c);
    Success(WithExtent(sp.0, sp.1))
  }

  /** VisitNestClause: the parsed nest extent is added. */
  function NestStep(s: VState, n: QM.NestClause, c: Collaborators): (r: Result<VState>)
    requires Good(s)
    ensures r.Success? ==> Good(r.value) && r.value.parts == s.parts.(extents := r.value.parts.extents)
    ensures r.Success? ==> r.value.status == s.status && |r.value.parts.extents| == |s.parts.extents| + 1
  {
    var sp :- NestExtent(s, n, c);
    Success(WithExtent(sp.0, sp.1))
  }

  // ---------------------------------------------------------------------
  // Result operator visits

  /** Sets the aggregate function and marks the query aggregated. */
  function Aggregated(s: VState, function_: string): VState
  {
    s.(parts := s.parts.(aggregateFunction := Some(function_)), isAggregated := true)
  }

  /** Any: a subquery becomes ANY ... SATISFIES true with a fresh iterator
      name; anything else becomes a main Any query. */
  function AnyStep(s: VState): (r: VState)
    ensures r.parts.queryType == if s.parts.queryType == Subquery then SubqueryAny else MainQueryAny
    ensures r.status == s.status && r.table.prefix == s.table.prefix && r.table.parent == s.table.parent
  {
    if s.parts.queryType == Subquery then
      var (t, name) := UnlinkedTable(s.table);
      s.(parts := s.parts.(queryType := SubqueryAny, subqueryAnyAllExtentName := Some(name)), table := t)
    else s.(parts := s.parts.(queryType := MainQueryAny))
  }

  /** All: the predicate is rendered into the ALL part; in a subquery it is
      rendered with the fresh iterator name as extent prefix, and the prefix
      is reset to null afterwards. */
  function AllStep(s: VState, condition: QM.Expr, c: Collaborators): (r: VState)
    ensures r.parts.queryType == if s.parts.queryType == Subquery then SubqueryAll else MainQueryAll
    ensures r.table.prefix == if s.parts.queryType == Subquery then None else s.table.prefix
    ensures r.status == s.status && r.table.parent == s.table.parent && r.parts.whereAllPart.Some?
  {
    if s.parts.queryType == Subquery then
      var (t, name) := UnlinkedTable(s.table);
      var s1 := s.(parts := s.parts.(queryType := SubqueryAll, subqueryAnyAllExtentName := Some(name)),
                   table := t.(prefix := Some(name + ".")));
      var w := Rendered(s1, condition, c);
      s1.(parts := s1.parts.(whereAllPart := Some(w)), table := s1.table.(prefix := None))
    else
      var s1 := s.(parts := s.parts.(queryType := MainQueryAll));
      s1.(parts := s1.parts.(whereAllPart := Some(Rendered(s1, condition, c))))
  }

  /** The group-by list after adding each text in turn; adding none leaves a
      missing list missing. */
  function GroupByAfter(list: Option<seq<string>>, texts: seq<string>): Option<seq<string>>
  {
    if |texts| == 0 then list else Some(Elements(list) + texts)
  }

  lemma GroupByGrows(list: Option<seq<string>>, texts: seq<string>, text: string)
    ensures GroupByAfter(list, texts + [text]) == Some(Elements(GroupByAfter(list, texts)) + [text])
  {
    if |texts| == 0 {
      assert texts + [text] == [text];
    } else {
      assert Elements(list) + (texts + [text]) == Elements(list) + texts + [text];
    }
  }

  /** VisitGroupResultOperator: one GROUP BY part per key (each argument of a
      `new { ... }` key), a fresh registry holding the key transformer, and
      the element selector's source linked to the grouping source. */
  function GroupStep(s: VState, key: QM.Expr, element: QM.Expr, c: Collaborators): (r: Result<VState>)
    requires Good(s)
    ensures r.Success? ==> Good(r.value) && r.value.status == s.status && r.value.parts.queryType == s.parts.queryType
    ensures r.Success? ==> r.value.parts.selectPart == s.parts.selectPart
    ensures !element.SourceRef? ==> r == Failure(NotSupported("Unsupported GroupResultOperator ElementSelector Type"))
    ensures element.SourceRef? && s.grouping.None? ==> r == Failure(NullReference)
    ensures r.Success? ==>
      (Elements(r.value.parts.groupByParts)
       == Elements(s.parts.groupByParts) + (if key.New? then RenderedAll(s.(registry := Some(Registry([]))), ArgumentsOf(key.fields), c)
                                            else [Rendered(s.(registry := Some(Registry([]))), key, c)]))
  {
    var s1 := GroupKeys(s, key, c);
    if !element.SourceRef? then Failure(NotSupported("Unsupported GroupResultOperator ElementSelector Type"))
    else if s.grouping.None? then Failure(NullReference)
    else Success(Linked(s1, element.source, s.grouping.value))
  }

  /** The key part of VisitGroupResultOperator: the key texts, rendered
      with an empty registry, and the registry holding the key transformer. */
  function GroupKeys(s: VState, key: QM.Expr, c: Collaborators): (r: VState)
    ensures r == s.(parts := s.parts.(groupByParts := r.parts.groupByParts), registry := r.registry)
  {
    var s0 := s.(registry := Some(Registry([])));
    var texts := if key.New? then RenderedAll(s0, ArgumentsOf(key.fields), c) else [Rendered(s0, key, c)];
    var transformer := if key.New? then MultiKey(s.grouping, key.fields) else SingleKey(s.grouping, key);
    s0.(parts := s0.parts.(groupByParts := GroupByAfter(s0.parts.groupByParts, texts)),
        registry := Some(Registry([transformer])))
  }

  /** The operators that only set one text part of the query (ToQueryRequest
      sets none). */
  predicate IsPartOperator(op: QM.ResultOperator)
  {
    op.Take? || op.Skip? || op.First? || op.Single? || op.Distinct? || op.Explain? || op.ToQueryRequest?
  }

  /** Take and Skip write their count; First asks for one row and Single for
      two, so that a second match can be detected. */
  function PartStep(s: VState, op: QM.ResultOperator): (r: VState)
    requires IsPartOperator(op)
    ensures r == s.(parts := s.parts.(limitPart := r.parts.limitPart, offsetPart := r.parts.offsetPart,
                                       distinctPart := r.parts.distinctPart, explainPart := r.parts.explainPart))
  {
    match op
    case Take(n) => s.(parts := s.parts.(limitPart := Some(LimitClause(n as int))))
    case Skip(n) => s.(parts := s.parts.(offsetPart := Some(OffsetClause(n as int))))
    case First => s.(parts := s.parts.(limitPart := Some(LimitClause(1))))
    case Single => s.(parts := s.parts.(limitPart := Some(LimitClause(2))))
    case Distinct => s.(parts := s.parts.(distinctPart := Some("DISTINCT ")))
    case Explain => s.(parts := s.parts.(explainPart := Some("EXPLAIN ")))
    case ToQueryRequest => s
  }

  predicate IsAggregateOperator(op: QM.ResultOperator)
  {
    op.Average? || op.Count? || op.LongCount? || op.Max? || op.Min? || op.Sum?
  }

  /** The N1QL aggregate function of an aggregate operator. */
  function AggregateName(op: QM.ResultOperator): string
    requires IsAggregateOperator(op)
  {
    match op
    case Average => "AVG"
    case Count => "COUNT"
    case LongCount => "COUNT"
    case Max => "MAX"
    case Min => "MIN"
    case Sum => "SUM"
  }

  /** Contains: the rendered item followed by " IN " wraps the query. */
  function ContainsStep(s: VState, item: QM.Expr, c: Collaborators): (r: VState)
    ensures r == s.(parts := s.parts.(wrappingFunctions := r.parts.wrappingFunctions))
    ensures Elements(r.parts.wrappingFunctions) == Elements(s.parts.wrappingFunctions) + [Rendered(s, item, c) + " IN "]
  {
    s.(parts := s.parts.(wrappingFunctions := Some(Elements(s.parts.wrappingFunctions) + [Rendered(s, item, c) + " IN "])))
  }

  /** Union (distinct) and Concat: the second source must be a subquery,
      which is compiled on its own and appended after " UNION " or
      " UNION ALL ". */
  function UnionStep(s: VState, source2: QM.Expr, distinct: bool, c: Collaborators): (r: Result<VState>)
    ensures r.Failure? <==> !source2.SubQuery?
    ensures r.Success? ==> r.value == s.(parts := s.parts.(unionParts := r.value.parts.unionParts))
  {
    if !source2.SubQuery? then
      Failure(NotSupported(if distinct then "Union is only support against query sources."
                           else "Concat is only support against query sources."))
    else
      Success(s.(parts := s.parts.(unionParts := Some(Elements(s.parts.unionParts)
                                                     + [(if distinct then " UNION " else " UNION ALL ") + c.compileUnion(source2.model)]))))
  }

  /** VisitResultOperator. */
  function OperatorStep(s: VState, op: QM.ResultOperator, c: Collaborators): (r: Result<VState>)
    requires Good(s)
    ensures r.Success? ==> Good(r.value) && r.value.status == s.status
    ensures r.Success? && !op.Any? && !op.All? ==> r.value.parts.queryType == s.parts.queryType
    ensures r.Success? ==> r.value.parts.selectPart == s.parts.selectPart
  {
    if IsPartOperator(op) then Success(PartStep(s, op))
    else if IsAggregateOperator(op) then Success(Aggregated(s, AggregateName(op)))
    else QueryOperatorStep(s, op, c)
  }

  /** The result operators that reshape the query, and the refused ones. */
  function QueryOperatorStep(s: VState, op: QM.ResultOperator, c: Collaborators): (r: Result<VState>)
    requires Good(s) && !IsPartOperator(op) && !IsAggregateOperator(op)
    ensures r.Success? ==> Good(r.value) && r.value.status == s.status
    ensures r.Success? && !op.Any? && !op.All? ==> r.value.parts.queryType == s.parts.queryType
    ensures r.Success? ==> r.value.parts.selectPart == s.parts.selectPart
    ensures op.DefaultIfEmpty? ==> r == Failure(NotSupported("DefaultIfEmptyResultOperator is not supported."))
    ensures op.Unmapped? ==> r == Failure(NotSupported(op.typeName + " is not supported."))
  {
    match op
    case Any => Success(AnyStep(s))
    case All(condition) => Success(AllStep(s, condition, c))
    case Contains(item) => Success(ContainsStep(s, item, c))
    case Group(key, element) => GroupStep(s, key, element, c)
    case Union(source2) => UnionStep(s, source2, true, c)
    case Concat(source2) => UnionStep(s, source2, false, c)
    case DefaultIfEmpty => Failure(NotSupported("DefaultIfEmptyResultOperator is not supported."))
    case Unmapped(typeName) => Failure(NotSupported(typeName + " is not supported."))
  }

  /** The result operators from index i on, visited in order. */
  function OperatorsFrom(s: VState, ops: seq<QM.ResultOperator>, i: nat, c: Collaborators): (r: Result<VState>)
    requires Good(s) && i <= |ops|
    ensures r.Success? ==> Good(r.value) && r.value.status == s.status
    ensures r.Success? && (forall j :: i <= j < |ops| ==> !ops[j].Any? && !ops[j].All?) ==>
      r.value.parts.queryType == s.parts.queryType
    ensures r.Success? ==> r.value.parts.selectPart == s.parts.selectPart
    decreases |ops| - i
  {
    if i == |ops| then Success(s)
    else
      var s1 :- OperatorStep(s, ops[i], c);
      OperatorsFrom(s1, ops, i + 1, c)
  }

  /** VisitSelectClause. */
  function SelectStep(s: VState, qm: QM.Model, c: Collaborators): (r: VState)
    requires Good(s)
    ensures Good(r) && r.status == s.status && r.parts.queryType == s.parts.queryType
    ensures r.parts == s.parts.(selectPart := r.parts.selectPart) && r.parts.selectPart.Some?
  {
    if s.parts.queryType == SubqueryAny then
      var (s1, name) := Named(s, qm.mainFrom.id);
      s1.(parts := s1.parts.(selectPart := Some(name)))
    else if s.parts.queryType == SubqueryAll then
      s.(parts := s.parts.(selectPart := Some(ExtentSelectParameters(s.parts))))
    else
      s.(parts := s.parts.(selectPart := Some(SelectParameters(s, qm.selector, c))))
  }

  // ---------------------------------------------------------------------
  // The recursive visits

  /** VisitQueryModel: main from clause, body clauses, result operators, and
      then the select clause, which is skipped inside a grouping subquery and
      for the outer query of a union sort. */
  function VisitModel(s: VState, qm: QM.Model, isSubQuery: bool, c: Collaborators): (r: Result<VState>)
    requires Good(s)
    ensures r.Success? ==> Good(r.value)
    decreases qm, 5
  {
    var s1 :- MainFrom(s, qm, isSubQuery, c);
    var s2 :- BodyFrom(s1, qm, 0, isSubQuery, c);
    var s3 :- OperatorsFrom(s2, qm.resultOperators, 0, c);
    if s3.status != InGroupSubquery && s3.status != AfterUnionSortSubquery then Success(SelectStep(s3, qm, c))
    else Success(s3)
  }

  /** VisitMainFromClause. */
  function MainFrom(s: VState, qm: QM.Model, isSubQuery: bool, c: Collaborators): (r: Result<VState>)
    requires Good(s)
    ensures r.Success? ==> Good(r.value)
    ensures r.Success? && !qm.mainFrom.fromExpr.SubQuery? ==>
      r.value.status == s.status && r.value.parts.selectPart == s.parts.selectPart
    ensures r.Success? && !qm.mainFrom.fromExpr.SubQuery? && !qm.mainFrom.fromExpr.SourceRef? ==>
      r.value.parts.queryType == s.parts.queryType
    decreases qm, 4
  {
    match qm.mainFrom.fromExpr
    case SubQuery(m) => SubQueryFrom(s, qm, m, isSubQuery, c)
    case _ => PlainMainFrom(s, qm.mainFrom, isSubQuery, c)
  }

  /** VisitMainFromClause for every source but a subquery: a data set or a
      constant is a FROM extent, a member of an outer source only in a
      subquery; anything unrecognised adds nothing. */
  function PlainMainFrom(s: VState, f: QM.MainFromClause, isSubQuery: bool, c: Collaborators): (r: Result<VState>)
    requires Good(s) && !f.fromExpr.SubQuery?
    ensures r.Success? ==> Good(r.value) && r.value.status == s.status && r.value.parts.selectPart == s.parts.selectPart
    ensures r.Success? && !f.fromExpr.SourceRef? ==> r.value.parts.queryType == s.parts.queryType
  {
    if f.fromExpr.Member? then MemberMainFrom(s, f, isSubQuery, c)
    else if f.fromExpr.SourceRef? then SourceRefFrom(s, f, c)
    else Success(ExtentMainFrom(s, f, c))
  }

  /** A data set or a constant as the main from clause: one more extent;
      any other source leaves the state as it was. */
  function ExtentMainFrom(s: VState, f: QM.MainFromClause, c: Collaborators): (r: VState)
    requires Good(s)
    ensures Good(r) && r.status == s.status && r.parts.selectPart == s.parts.selectPart && r.parts.queryType == s.parts.queryType
    ensures |r.parts.extents| == |s.parts.extents| + (if f.fromExpr.DataSet? || f.fromExpr.Constant? then 1 else 0)
  {
    match f.fromExpr
    case DataSet(name) => FromExtent(s, f.id, c.escape(name))
    case Constant(_) => ArrayFrom(s, f, c)
    case _ => s
  }

  /** A member of an outer source as the main from clause, which only a
      subquery may have: a FROM extent over the rendered member. */
  function MemberMainFrom(s: VState, f: QM.MainFromClause, isSubQuery: bool, c: Collaborators): (r: Result<VState>)
    requires Good(s) && f.fromExpr.Member?
    ensures r.Failure? <==> !isSubQuery
    ensures r.Failure? ==> r.error == NotSupported("Member Access In The Main From Clause Is Only Supported In Subqueries")
    ensures r.Success? ==> Good(r.value) && r.value.status == s.status && r.value.parts.selectPart == s.parts.selectPart
    ensures r.Success? ==> r.value.parts.queryType == s.parts.queryType && |r.value.parts.extents| == |s.parts.extents| + 1
  {
    if !isSubQuery then Failure(NotSupported("Member Access In The Main From Clause Is Only Supported In Subqueries"))
    else Success(FromExtent(s, f.id, Rendered(s, f.fromExpr, c)))
  }

  /** A main from clause over an earlier query source: the items of a group
      join are an array extent; the grouping source of the enclosing
      grouping subquery turns the query into an aggregate over the group,
      under the group's alias; any other source is refused. */
  function SourceRefFrom(s: VState, f: QM.MainFromClause, c: Collaborators): (r: Result<VState>)
    requires Good(s) && f.fromExpr.SourceRef?
    ensures r.Success? ==> Good(r.value) && r.value.status == s.status && r.value.parts.selectPart == s.parts.selectPart
    ensures r.Success? && !f.fromExpr.isGroupJoin ==>
      r.value.parts.queryType == Aggregate && ExtentNames.Linked(r.value.table, f.fromExpr.source, f.id)
    ensures r.Failure? <==> !f.fromExpr.isGroupJoin && s.grouping != Some(f.fromExpr.source)
    ensures r.Failure? ==> r.error == NotSupported("From Clause Is Referencing An Invalid Query Source")
  {
    var src := f.fromExpr.source;
    if f.fromExpr.isGroupJoin then Success(ArrayFrom(s, f, c))
    else if s.grouping == Some(src) then
      LinkJoins(s.table, src, f.id);
      Success(Linked(s.(parts := s.parts.(queryType := Aggregate)), src, f.id))
    else Failure(NotSupported("From Clause Is Referencing An Invalid Query Source"))
  }

  /** A FROM extent for a main from clause: the given source under the
      clause's alias. */
  function FromExtent(s: VState, id: QM.SourceId, source: string): (r: VState)
    requires Good(s)
    ensures Good(r) && r == s.(parts := s.parts.(extents := r.parts.extents), table := r.table)
    ensures r.parts.extents == s.parts.extents + [FromPart(id, source, Named(s, id).1, None)]
    ensures r.status == s.status && r.parts.selectPart == s.parts.selectPart && r.parts.queryType == s.parts.queryType
  {
    var (s1, item) := Named(s, id);
    WithExtent(s1, FromPart(id, source, item, None))
  }

  /** VisitArrayFromClause: the rendered expression is the extent's source. */
  function ArrayFrom(s: VState, f: QM.MainFromClause, c: Collaborators): (r: VState)
    requires Good(s)
    ensures Good(r) && r.status == s.status && |r.parts.extents| == |s.parts.extents| + 1
    ensures r.parts.selectPart == s.parts.selectPart && r.parts.queryType == s.parts.queryType
  {
    FromExtent(s, f.id, Rendered(s, f.fromExpr, c))
  }

  /** VisitSubQueryFromClause: a grouping subquery is visited in the
      InGroupSubquery status with the outer from clause as grouping source,
      a union subquery in InUnionSortSubquery with the outer alias blanked
      afterwards; any other subquery is refused. */
  function SubQueryFrom(s: VState, qm: QM.Model, m: QM.Model, isSubQuery: bool, c: Collaborators): (r: Result<VState>)
    requires Good(s) && qm.mainFrom.fromExpr == QM.SubQuery(m)
    ensures r.Success? ==> Good(r.value)
    ensures r.Success? ==> r.value.status == if QM.HasGroup(m) then AfterGroupSubquery else AfterUnionSortSubquery
    ensures !QM.HasGroup(m) && !QM.HasUnionOrConcat(m) ==>
      r == Failure(NotSupported("Subqueries In The Main From Clause Are Only Supported For Grouping And Unions"))
    decreases qm, 3
  {
    if QM.HasGroup(m) then GroupingSubQuery(s, qm, m, isSubQuery, c)
    else if QM.HasUnionOrConcat(m) then UnionSortSubQuery(s, qm, m, isSubQuery, c)
    else Failure(NotSupported("Subqueries In The Main From Clause Are Only Supported For Grouping And Unions"))
  }

  /** A grouping subquery: visited in the InGroupSubquery status with the
      outer from clause as the grouping source. */
  function GroupingSubQuery(s: VState, qm: QM.Model, m: QM.Model, isSubQuery: bool, c: Collaborators): (r: Result<VState>)
    requires Good(s) && qm.mainFrom.fromExpr == QM.SubQuery(m)
    ensures r.Success? ==> Good(r.value) && r.value.status == AfterGroupSubquery
    decreases qm, 1
  {
    var s1 :- VisitModel(s.(status := InGroupSubquery, grouping := Some(qm.mainFrom.id)), m, isSubQuery, c);
    Success(s1.(status := AfterGroupSubquery))
  }

  /** A union sort subquery: visited in the InUnionSortSubquery status; the
      outer from clause's alias is blanked afterwards. */
  function UnionSortSubQuery(s: VState, qm: QM.Model, m: QM.Model, isSubQuery: bool, c: Collaborators): (r: Result<VState>)
    requires Good(s) && qm.mainFrom.fromExpr == QM.SubQuery(m)
    ensures r.Success? ==> Good(r.value) && r.value.status == AfterUnionSortSubquery
    ensures r.Success? ==> NameOf(r.value.table, qm.mainFrom.id) == Some("")
    decreases qm, 1
  {
    var s1 :- VisitModel(s.(status := InUnionSortSubquery), m, isSubQuery, c);
    Success(s1.(status := AfterUnionSortSubquery, table := BlankTable(s1.table, qm.mainFrom.id)))
  }

  /** VisitBodyClauses from index i on. Body clauses never change the
      status or the query shape. */
  function BodyFrom(s: VState, qm: QM.Model, i: nat, isSubQuery: bool, c: Collaborators): (r: Result<VState>)
    requires Good(s) && i <= |qm.bodyClauses|
    ensures r.Success? ==> Good(r.value) && r.value.status == s.status && r.value.parts.queryType == s.parts.queryType
    ensures r.Success? ==> r.value.parts.selectPart == s.parts.selectPart
    decreases qm, 4, |qm.bodyClauses| - i
  {
    if i == |qm.bodyClauses| then Success(s)
    else
      var s1 :- BodyClause(s, qm, i, isSubQuery, c);
      BodyFrom(s1, qm, i + 1, isSubQuery, c)
  }

  /** One body clause, dispatched on its kind. */
  function BodyClause(s: VState, qm: QM.Model, i: nat, isSubQuery: bool, c: Collaborators): (r: Result<VState>)
    requires Good(s) && i < |qm.bodyClauses|
    ensures r.Success? ==> Good(r.value) && r.value.status == s.status && r.value.parts.queryType == s.parts.queryType
    ensures r.Success? ==> r.value.parts.selectPart == s.parts.selectPart
    decreases qm, 3
  {
    match qm.bodyClauses[i]
    case AdditionalFrom(_) => AdditionalFrom(s, qm, i, isSubQuery, c)
    case _ => SimpleClause(s, qm, qm.bodyClauses[i], c)
  }

  /** A body clause other than an additional from clause: none of these
      visits a subquery's clauses of its own. */
  function SimpleClause(s: VState, qm: QM.Model, clause: QM.BodyClause, c: Collaborators): (r: Result<VState>)
    requires Good(s) && !clause.AdditionalFrom?
    ensures r.Success? ==> Good(r.value) && r.value.status == s.status && r.value.parts.queryType == s.parts.queryType
    ensures r.Success? ==> r.value.parts.selectPart == s.parts.selectPart
  {
    match clause
    case Where(condition) => Success(WhereStep(s, condition, c))
    case OrderBy(orderings) => Success(OrderByStep(s, orderings, c))
    case Join(j) => JoinStep(s, j, c)
    case GroupJoin(groupJoin, j) => GroupJoinStep(s, j, groupJoin, c)
    case Nest(n) => NestStep(s, n, c)
    case UseKeys(keys) => Success(UseKeysStep(s, qm, keys, c))
    case HintClause(h) => HintStep(s, h)
  }

  /** VisitAdditionalFromClause: a member is unnested, a subquery is an
      unnest or a flattened group join; anything else is refused. */
  function AdditionalFrom(s: VState, qm: QM.Model, i: nat, isSubQuery: bool, c: Collaborators): (r: Result<VState>)
    requires Good(s) && i < |qm.bodyClauses| && qm.bodyClauses[i].AdditionalFrom?
    ensures r.Success? ==> Good(r.value) && r.value.status == s.status && r.value.parts.queryType == s.parts.queryType
    ensures r.Success? ==> r.value.parts.selectPart == s.parts.selectPart
    decreases qm, 2
  {
    var f := qm.bodyClauses[i].from;
    match f.fromExpr
    case SubQuery(m) => SubQueryFromExpression(s, qm, i, m, isSubQuery, c)
    case _ => MemberAdditionalFrom(s, f, c)
  }

  /** An additional from clause that is not a subquery: only a member of an
      earlier source is accepted. */
  function MemberAdditionalFrom(s: VState, f: QM.AdditionalFromClause, c: Collaborators): (r: Result<VState>)
    requires Good(s)
    ensures r.Failure? <==> !f.fromExpr.Member?
    ensures r.Failure? ==> r.error == NotSupported("N1QL Does Not Support This Type Of From Clause")
    ensures r.Success? ==> Good(r.value) && r.value.parts == s.parts.(extents := r.value.parts.extents)
    ensures r.Success? ==> r.value.status == s.status && |r.value.parts.extents| == |s.parts.extents| + 1
  {
    if f.fromExpr.Member? then Success(MemberUnnest(s, f.id, f.fromExpr, c))
    else Failure(NotSupported("N1QL Does Not Support This Type Of From Clause"))
  }

  /** An additional from clause over a member of an earlier source: an
      INNER UNNEST extent under the clause's alias. */
  function MemberUnnest(s: VState, id: QM.SourceId, e: QM.Expr, c: Collaborators): (r: VState)
    requires Good(s)
    ensures Good(r) && r.parts == s.parts.(extents := r.parts.extents) && r.status == s.status
    ensures r.parts.extents == s.parts.extents + [JoinPart(id, Rendered(s, e, c), Named(s, id).1, None, InnerUnnest)]
  {
    var sp := MemberFrom(s, id, e, c);
    WithExtent(sp.0, sp.1)
  }

  /** VisitSubQueryFromExpression. A reference to an earlier group join turns
      its NEST into a LEFT or INNER JOIN (LEFT with DefaultIfEmpty); a member
      is unnested (LEFT with DefaultIfEmpty) and the subquery's body clauses
      are applied to the outer query. */
  function SubQueryFromExpression(s: VState, qm: QM.Model, i: nat, m: QM.Model, isSubQuery: bool, c: Collaborators)
    : (r: Result<VState>)
    requires Good(s) && i < |qm.bodyClauses| && qm.bodyClauses[i].AdditionalFrom?
    requires qm.bodyClauses[i].from.fromExpr == QM.SubQuery(m)
    ensures r.Success? ==> Good(r.value) && r.value.status == s.status && r.value.parts.queryType == s.parts.queryType
    ensures r.Success? ==> r.value.parts.selectPart == s.parts.selectPart
    decreases qm, 1
  {
    var f := qm.bodyClauses[i].from;
    if m.mainFrom.fromExpr.Member? then
      assert qm.bodyClauses[i] in qm.bodyClauses;
      BodyFrom(UnnestFrom(s, m, f.id, c), m, 0, isSubQuery, c)
    else GroupJoinSubQueryFrom(s, m, f.id)
  }

  /** A subquery in an additional from clause whose own source is not a
      member: only a reference to an earlier group join is accepted. */
  function GroupJoinSubQueryFrom(s: VState, m: QM.Model, id: QM.SourceId): (r: Result<VState>)
    requires Good(s)
    ensures !m.mainFrom.fromExpr.SourceRef? ==> r == Failure(NotSupported("N1QL Does Not Support This Type Of From Clause"))
    ensures r.Success? ==> Good(r.value) && r.value.parts == s.parts.(extents := r.value.parts.extents)
    ensures r.Success? ==> r.value.status == s.status && |r.value.parts.extents| == |s.parts.extents|
  {
    if m.mainFrom.fromExpr.SourceRef? then FlattenGroupJoin(s, m, m.mainFrom.fromExpr.source, id)
    else Failure(NotSupported("N1QL Does Not Support This Type Of From Clause"))
  }

  /** A from clause over an earlier group join: the first NEST extent of that
      group join becomes a LEFT JOIN (with DefaultIfEmpty) or an INNER JOIN,
      and the from clause shares its alias. */
  function FlattenGroupJoin(s: VState, m: QM.Model, src: QM.SourceId, id: QM.SourceId): (r: Result<VState>)
    requires Good(s)
    ensures r.Failure? <==> FirstAnsiJoin(s.parts.extents, src).None?
    ensures r.Failure? ==> r.error == NotSupported("N1QL Does Not Support This Type Of From Clause")
    ensures r.Success? ==> Good(r.value) && r.value.parts == s.parts.(extents := r.value.parts.extents)
    ensures r.Success? ==> r.value.status == s.status && |r.value.parts.extents| == |s.parts.extents|
  {
    var k := FirstAnsiJoin(s.parts.extents, src);
    if k.None? then Failure(NotSupported("N1QL Does Not Support This Type Of From Clause"))
    else
      var nest := s.parts.extents[k.value];
      var joined := nest.(joinType := if QM.HasDefaultIfEmpty(m) then LeftJoin else InnerJoin);
      Success(Linked(s.(parts := s.parts.(extents := s.parts.extents[k.value := joined])), nest.querySource, id))
  }

  /** A from clause over a member of the outer query: an UNNEST extent (LEFT
      with DefaultIfEmpty), whose alias the subquery's own from clause shares. */
  function UnnestFrom(s: VState, m: QM.Model, id: QM.SourceId, c: Collaborators): (r: VState)
    requires Good(s)
    ensures Good(r) && r.parts == s.parts.(extents := r.parts.extents) && r.status == s.status
    ensures |r.parts.extents| == |s.parts.extents| + 1 && r.parts.extents[..|s.parts.extents|] == s.parts.extents
    ensures var e := r.parts.extents[|s.parts.extents|];
      e.JoinPart? && e.joinType == if QM.HasDefaultIfEmpty(m) then LeftUnnest else InnerUnnest
  {
    var sp := MemberFrom(s, id, m.mainFrom.fromExpr, c);
    var unnest := sp.1;
    var part := if QM.HasDefaultIfEmpty(m) then JoinPart(unnest.querySource, unnest.source, unnest.itemName, unnest.hints, LeftUnnest)
                else unnest;
    Linked(WithExtent(sp.0, part), id, m.mainFrom.id)
  }

  /** The state a new visitor starts in over a given context. */
  function InitialState(table: NameTable, grouping: Option<QM.SourceId>, isSubQuery: bool): VState
  {
    VState(Initial.(queryType := if isSubQuery then Subquery else Select), table, grouping, Normal, false, None)
  }

  // ---------------------------------------------------------------------
  // Properties of the visits

  /** The formats the visitor hands to AddWherePart, AddLimitPart and
      AddOffsetPart produce the texts the visit functions record. */
  lemma UseKeysFormat(extentName: string, keys: string)
    ensures StringFormat("META({0}).id IN {1}", [extentName, keys]) == Success(UseKeysText(extentName, keys))
  {
    var zero, one := "{" + [Digit(0)] + "}", "{" + [Digit(1)] + "}";
    assert zero == "{0}" && one == "{1}";
    var open, middle := "META(", ").id IN ";
    assert "META({0}).id IN {1}" == open + zero + middle + one;
    TwoItemFormat(open, middle, extentName, keys);
  }

  /** A format of two literals each followed by an item yields the literals
      with the two arguments in place. */
  lemma TwoItemFormat(p: string, q: string, a: string, b: string)
    requires BraceFree(p) && BraceFree(q)
    ensures StringFormat(p + "{0}" + q + "{1}", [a, b]) == Success(p + a + q + b)
  {
    var zero, one := "{" + [Digit(0)] + "}", "{" + [Digit(1)] + "}";
    assert zero == "{0}" && one == "{1}";
    var tail := one + "";
    assert p + "{0}" + q + "{1}" == p + (zero + (q + tail));
    FormatLiteral(p, zero + (q + tail), [a, b]);
    FormatItem(0, q + tail, [a, b]);
    FormatLiteral(q, tail, [a, b]);
    FormatItem(1, "", [a, b]);
    assert p + (a + (q + (b + ""))) == p + a + q + b;
  }

  lemma CountFormat(prefix: string, n: int)
    requires BraceFree(prefix)
    ensures StringFormat(prefix + "{0}", [IntText(n)]) == Success(prefix + IntText(n))
  {
    assert prefix + "{0}" == prefix + ("{" + [Digit(0)] + "}" + "");
    FormatLiteral(prefix, "{" + [Digit(0)] + "}" + "", [IntText(n)]);
    FormatItem(0, "", [IntText(n)]);
    assert IntText(n) + "" == IntText(n);
  }

  /** The where part as the source writes it: the rendered predicate is used
      as the format string of string.Format, with no arguments. */
  function WherePartAsWritten(rendered: string): (r: Result<string>)
    ensures BraceFree(rendered) ==> r == Success(rendered)
  {
    var r := StringFormat(rendered, []);
    assert BraceFree(rendered) ==> r == Success(rendered) by {
      if BraceFree(rendered) { FormatBraceFree(rendered); }
    }
    r
  }

  /** A predicate comparing with a string literal that holds a brace renders
      to text that string.Format rejects, so the where clause throws. */
  lemma BracedLiteralRejected()
    ensures WherePartAsWritten("`Extent1`.name = '{x}'").Failure?
    ensures WherePartAsWritten("`Extent1`.name = '{x}'").error == Format
  {
    var literal := "`Extent1`.name = '";
    assert BraceFree(literal);
    assert "`Extent1`.name = '{x}'" == literal + "{x}'";
    FormatLiteral(literal, "{x}'", []);
    assert LeadingDigits("{x}'"[1..]) == 0;
  }

  /** The intended where part: the rendered predicate as the argument of a
      "{0}" format, which yields it verbatim whatever characters it holds. */
  function WherePart(rendered: string): (r: Result<string>)
    ensures r == Success(rendered)
  {
    FormatVerbatim(rendered);
    StringFormat("{0}", [rendered])
  }

  /** The texts of the counting operators. */
  lemma CountOperatorTexts(s: VState, n: Int32)
    ensures PartStep(s, QM.Take(n)).parts.limitPart == Some(" LIMIT " + IntText(n as int))
    ensures PartStep(s, QM.Skip(n)).parts.offsetPart == Some(" OFFSET " + IntText(n as int))
    ensures PartStep(s, QM.First).parts.limitPart == Some(" LIMIT 1")
    ensures PartStep(s, QM.Single).parts.limitPart == Some(" LIMIT 2")
  {
    assert Digit(1) == '1' && Digit(2) == '2';
    assert NatText(1) == "1" && NatText(2) == "2";
    assert LimitClause(1) == " LIMIT " + "1" == " LIMIT 1";
    assert LimitClause(2) == " LIMIT " + "2" == " LIMIT 2";
  }

  /** Distinct and Explain set their marker texts and ToQueryRequest changes
      nothing else. */
  lemma MarkerOperatorTexts(s: VState, c: Collaborators)
    requires Good(s)
    ensures OperatorStep(s, QM.Distinct, c) == Success(s.(parts := s.parts.(distinctPart := Some("DISTINCT "))))
    ensures OperatorStep(s, QM.Explain, c) == Success(s.(parts := s.parts.(explainPart := Some("EXPLAIN "))))
    ensures OperatorStep(s, QM.ToQueryRequest, c) == Success(s)
  {
    assert IsPartOperator(QM.Distinct) && IsPartOperator(QM.Explain) && IsPartOperator(QM.ToQueryRequest);
  }

  /** Each aggregate operator sets its SQL++ function and marks the query
      aggregated, and changes nothing else. */
  lemma AggregateOperatorTexts(s: VState, c: Collaborators)
    requires Good(s)
    ensures OperatorStep(s, QM.Average, c) == Success(Aggregated(s, "AVG"))
    ensures OperatorStep(s, QM.Count, c) == Success(Aggregated(s, "COUNT"))
    ensures OperatorStep(s, QM.LongCount, c) == Success(Aggregated(s, "COUNT"))
    ensures OperatorStep(s, QM.Max, c) == Success(Aggregated(s, "MAX"))
    ensures OperatorStep(s, QM.Min, c) == Success(Aggregated(s, "MIN"))
    ensures OperatorStep(s, QM.Sum, c) == Success(Aggregated(s, "SUM"))
    ensures Aggregated(s, "AVG") == s.(parts := s.parts.(aggregateFunction := Some("AVG")), isAggregated := true)
  {
    assert !IsPartOperator(QM.Average) && !IsPartOperator(QM.Count) && !IsPartOperator(QM.LongCount);
    assert !IsPartOperator(QM.Max) && !IsPartOperator(QM.Min) && !IsPartOperator(QM.Sum);
    assert IsAggregateOperator(QM.Average) && IsAggregateOperator(QM.Count) && IsAggregateOperator(QM.LongCount);
    assert IsAggregateOperator(QM.Max) && IsAggregateOperator(QM.Min) && IsAggregateOperator(QM.Sum);
  }

  /** Union appends " UNION " and Concat " UNION ALL " before the compiled
      second query; a second source that is not a subquery is refused. */
  lemma UnionTexts(s: VState, source2: QM.Expr, c: Collaborators)
    ensures source2.SubQuery? ==>
      && UnionStep(s, source2, true, c).Success?
      && Elements(UnionStep(s, source2, true, c).value.parts.unionParts)
         == Elements(s.parts.unionParts) + [" UNION " + c.compileUnion(source2.model)]
      && Elements(UnionStep(s, source2, false, c).value.parts.unionParts)
         == Elements(s.parts.unionParts) + [" UNION ALL " + c.compileUnion(source2.model)]
    ensures !source2.SubQuery? ==>
      && UnionStep(s, source2, true, c) == Failure(NotSupported("Union is only support against query sources."))
      && UnionStep(s, source2, false, c) == Failure(NotSupported("Concat is only support against query sources."))
  {
  }

  /** The first hint of a kind is accepted; a second one of the same kind on
      the same extent is refused. */
  lemma SecondHintRefused(part: ExtentPart, h: QM.Hint, again: QM.Hint)
    requires part.hints.None? || !HasHintKind(part.hints.value, h.kind)
    requires again.kind == h.kind
    ensures WithHint(part, h).Success?
    ensures WithHint(WithHint(part, h).value, again).Failure?
  {
    var p := WithHint(part, h).value;
    assert p.hints.value[|p.hints.value| - 1] == h;
  }

  /** A grouping subquery in the main from clause never visits its own select
      clause: the select part is left as it was. */
  lemma GroupSubquerySkipsSelect(s: VState, qm: QM.Model, m: QM.Model, isSubQuery: bool, c: Collaborators)
    requires Good(s) && qm.mainFrom.fromExpr == QM.SubQuery(m) && QM.HasGroup(m)
    requires !m.mainFrom.fromExpr.SubQuery?
    ensures SubQueryFrom(s, qm, m, isSubQuery, c).Success? ==>
      SubQueryFrom(s, qm, m, isSubQuery, c).value.parts.selectPart == s.parts.selectPart
  {
    var s0 := s.(status := InGroupSubquery, grouping := Some(qm.mainFrom.id));
    assert SubQueryFrom(s, qm, m, isSubQuery, c) == GroupingSubQuery(s, qm, m, isSubQuery, c);
    var v := VisitModel(s0, m, isSubQuery, c);
    if v.Success? {
      var r1 := MainFrom(s0, m, isSubQuery, c);
      var r2 := BodyFrom(r1.value, m, 0, isSubQuery, c);
      var r3 := OperatorsFrom(r2.value, m.resultOperators, 0, c);
      assert r3.value.status == InGroupSubquery;
      assert v == r3;
      assert GroupingSubQuery(s, qm, m, isSubQuery, c) == Success(v.value.(status := AfterGroupSubquery));
    } else {
      assert GroupingSubQuery(s, qm, m, isSubQuery, c).Failure?;
    }
  }

  /** After a union sort subquery the outer select clause is skipped: the
      select part is the one the union subquery produced. */
  lemma UnionSortKeepsInnerSelect(s: VState, qm: QM.Model, m: QM.Model, isSubQuery: bool, c: Collaborators)
    requires Good(s) && qm.mainFrom.fromExpr == QM.SubQuery(m) && !QM.HasGroup(m)
    ensures VisitModel(s, qm, isSubQuery, c).Success? ==>
      && SubQueryFrom(s, qm, m, isSubQuery, c).Success?
      && VisitModel(s, qm, isSubQuery, c).value.parts.selectPart == SubQueryFrom(s, qm, m, isSubQuery, c).value.parts.selectPart
  {
    var r1 := MainFrom(s, qm, isSubQuery, c);
    if r1.Success? {
      var r2 := BodyFrom(r1.value, qm, 0, isSubQuery, c);
      if r2.Success? {
        var r3 := OperatorsFrom(r2.value, qm.resultOperators, 0, c);
        if r3.Success? {
          assert r3.value.status == AfterUnionSortSubquery;
          assert VisitModel(s, qm, isSubQuery, c) == r3;
        }
      }
    }
  }

  /** A subquery whose main from clause is a data set and whose result
      operators include neither Any nor All keeps the Subquery shape, so its
      text is the select statement in parentheses. */
  lemma SubqueryParenthesised(table: NameTable, grouping: Option<QM.SourceId>, qm: QM.Model, c: Collaborators)
    requires Flat(table) && qm.mainFrom.fromExpr.DataSet?
    requires forall j :: 0 <= j < |qm.resultOperators| ==> !qm.resultOperators[j].Any? && !qm.resultOperators[j].All?
    ensures var r := VisitModel(InitialState(table, grouping, true), qm, true, c);
      r.Success? ==>
        && r.value.parts.queryType == Subquery
        && QueryText(r.value.parts, c.renderExtent) == Success("(" + SelectCore(r.value.parts, c.renderExtent) + ")")
  {
    var s0 := InitialState(table, grouping, true);
    var r1 := MainFrom(s0, qm, true, c);
    if r1.Success? {
      var r2 := BodyFrom(r1.value, qm, 0, true, c);
      if r2.Success? {
        var r3 := OperatorsFrom(r2.value, qm.resultOperators, 0, c);
        if r3.Success? {
          assert r3.value.status == Normal && r3.value.parts.queryType == Subquery;
          var p := SelectStep(r3.value, qm, c).parts;
          assert VisitModel(s0, qm, true, c) == Success(SelectStep(r3.value, qm, c));
          assert SelectQueryText(p, c.renderExtent) == "(" + SelectCore(p, c.renderExtent) + ")";
        }
      }
    }
  }

  // ---------------------------------------------------------------------
  // The visitor object

  /** A void visit matches its specification: it throws exactly when the
      specification fails, with the same exception, and otherwise leaves the
      state the specification computes. */
  predicate Matches(r: Outcome, spec: Result<VState>, now: VState)
  {
    && (r.Pass? <==> spec.Success?)
    && (r.Fail? ==> r.error == spec.error)
    && (spec.Success? ==> now == spec.value)
  }

  /** The same for a visit that returns the extent it built. */
  predicate MatchesPart(r: Result<ExtentPart>, spec: Result<(VState, ExtentPart)>, now: VState)
  {
    && (r.Success? <==> spec.Success?)
    && (r.Failure? ==> r.error == spec.error)
    && (spec.Success? ==> now == spec.value.0 && r.value == spec.value.1)
  }

  /** N1QlQueryGenerationContext: the extent name provider and the grouping
      query source shared by a visitor and its subquery visitors. */
  class GenerationContext {
    const names: ExtentNameProvider
    var groupingQuerySource: Option<QM.SourceId>

    constructor ()
      ensures fresh(names) && names.Valid() && names.Table() == NameTable(map[], map[], 0, None)
      ensures groupingQuerySource == None
    {
      names := new ExtentNameProvider();
      groupingQuerySource := None;
    }
  }

  class QueryModelVisitor {
    const context: GenerationContext
    const aggregator: QueryPartsAggregator
    const isSubQuery: bool
    const c: Collaborators
    var isAggregated: bool
    var status: VisitStatus
    var registry: Option<Registry>

    function State(): VState
      reads this, aggregator, context, context.names
    {
      VState(aggregator.Snapshot(), context.names.Table(), context.groupingQuerySource, status, isAggregated, registry)
    }

    ghost predicate Valid()
      reads this, context, context.names
    {
      context.names.Valid()
    }

    /** A subquery visitor starts in the Subquery shape. */
    constructor (context: GenerationContext, isSubQuery: bool, c: Collaborators)
      requires context.names.Valid()
      ensures Valid() && fresh(aggregator)
      ensures this.context == context && this.isSubQuery == isSubQuery && this.c == c
      ensures State() == InitialState(context.names.Table(), context.groupingQuerySource, isSubQuery)
    {
      this.context := context;
      this.isSubQuery := isSubQuery;
      this.c := c;
      isAggregated := false;
      status := Normal;
      registry := None;
      aggregator := new QueryPartsAggregator();
      new;
      if isSubQuery {
        aggregator.queryType := Subquery;
      }
    }

    /** GetQuery: the aggregator's query for the shape reached. */
    method GetQuery() returns (r: Result<string>)
      ensures r == QueryText(aggregator.Snapshot(), c.renderExtent)
    {
      r := aggregator.BuildN1QlQuery(c.renderExtent);
    }

    method GetAnalyticsExpression(e: QM.Expr) returns (text: string)
      ensures text == Rendered(State(), e, c)
    {
      var rewritten := if status == AfterGroupSubquery then c.regroup(registry, e) else e;
      text := c.render(context.names.Table(), rewritten);
    }

    method GetExtentName(src: QM.SourceId) returns (name: string)
      requires Valid()
      modifies context.names
      ensures Valid()
      ensures (State(), name) == Named(old(State()), src)
    {
      name := context.names.GetExtentName(src);
    }

    method VisitQueryModel(qm: QM.Model) returns (r: Outcome)
      requires Valid()
      modifies this, aggregator, context, context.names
      ensures Valid()
      ensures Matches(r, VisitModel(old(State()), qm, isSubQuery, c), State())
      decreases qm, 5
    {
      r := VisitMainFromClause(qm);
      if r.Fail? {
        return;
      }
      r := VisitBodyClauses(qm);
      if r.Fail? {
        return;
      }
      r := VisitResultOperators(qm);
      if r.Fail? {
        return;
      }
      if status != InGroupSubquery && status != AfterUnionSortSubquery {
        VisitSelectClause(qm);
      }
    }

    method VisitMainFromClause(qm: QM.Model) returns (r: Outcome)
      requires Valid()
      modifies this, aggregator, context, context.names
      ensures Valid()
      ensures Matches(r, MainFrom(old(State()), qm, isSubQuery, c), State())
      decreases qm, 4
    {
      match qm.mainFrom.fromExpr {
        case SubQuery(m) =>
          r := VisitSubQueryFromClause(qm, m);
        case _ =>
          r := VisitPlainMainFromClause(qm.mainFrom);
      }
    }

    method VisitPlainMainFromClause(f: QM.MainFromClause) returns (r: Outcome)
      requires Valid() && !f.fromExpr.SubQuery?
      modifies aggregator, context.names
      ensures Valid()
      ensures Matches(r, PlainMainFrom(old(State()), f, isSubQuery, c), State())
    {
      if f.fromExpr.Member? {
        r := VisitMemberMainFromClause(f);
      } else if f.fromExpr.SourceRef? {
        r := VisitSourceRefFromClause(f);
      } else {
        VisitExtentMainFromClause(f);
        r := Pass;
      }
    }

    method VisitExtentMainFromClause(f: QM.MainFromClause)
      requires Valid()
      modifies aggregator, context.names
      ensures Valid()
      ensures State() == ExtentMainFrom(old(State()), f, c)
    {
      match f.fromExpr {
        case DataSet(name) =>
          AddFromExtent(f.id, c.escape(name));
        case Constant(_) =>
          VisitArrayFromClause(f);
        case _ =>
      }
    }

    method VisitMemberMainFromClause(f: QM.MainFromClause) returns (r: Outcome)
      requires Valid() && f.fromExpr.Member?
      modifies aggregator, context.names
      ensures Valid()
      ensures Matches(r, MemberMainFrom(old(State()), f, isSubQuery, c), State())
    {
      if !isSubQuery {
        return Fail(NotSupported("Member Access In The Main From Clause Is Only Supported In Subqueries"));
      }
      var source := GetAnalyticsExpression(f.fromExpr);
      AddFromExtent(f.id, source);
      r := Pass;
    }

    method VisitSourceRefFromClause(f: QM.MainFromClause) returns (r: Outcome)
      requires Valid() && f.fromExpr.SourceRef?
      modifies aggregator, context.names
      ensures Valid()
      ensures Matches(r, SourceRefFrom(old(State()), f, c), State())
    {
      var src := f.fromExpr.source;
      if f.fromExpr.isGroupJoin {
        VisitArrayFromClause(f);
        r := Pass;
      } else if context.groupingQuerySource == Some(src) {
        aggregator.queryType := Aggregate;
        context.names.LinkExtents(src, f.id);
        r := Pass;
      } else {
        r := Fail(NotSupported("From Clause Is Referencing An Invalid Query Source"));
      }
    }

    /** A FROM extent over the given source, under the clause's alias. */
    method AddFromExtent(id: QM.SourceId, source: string)
      requires Valid()
      modifies aggregator, context.names
      ensures Valid()
      ensures State() == FromExtent(old(State()), id, source)
    {
      var item := GetExtentName(id);
      aggregator.AddExtent(FromPart(id, source, item, None));
    }

    method VisitArrayFromClause(f: QM.MainFromClause)
      requires Valid()
      modifies aggregator, context.names
      ensures Valid()
      ensures State() == ArrayFrom(old(State()), f, c)
    {
      var source := GetAnalyticsExpression(f.fromExpr);
      AddFromExtent(f.id, source);
    }

    method VisitSubQueryFromClause(qm: QM.Model, m: QM.Model) returns (r: Outcome)
      requires Valid() && qm.mainFrom.fromExpr == QM.SubQuery(m)
      modifies this, aggregator, context, context.names
      ensures Valid()
      ensures Matches(r, SubQueryFrom(old(State()), qm, m, isSubQuery, c), State())
      decreases qm, 3
    {
      if QM.HasGroup(m) {
        r := VisitGroupingSubQuery(qm, m);
      } else if QM.HasUnionOrConcat(m) {
        r := VisitUnionSortSubQuery(qm, m);
      } else {
        r := Fail(NotSupported("Subqueries In The Main From Clause Are Only Supported For Grouping And Unions"));
      }
    }

    method VisitGroupingSubQuery(qm: QM.Model, m: QM.Model) returns (r: Outcome)
      requires Valid() && qm.mainFrom.fromExpr == QM.SubQuery(m)
      modifies this, aggregator, context, context.names
      ensures Valid()
      ensures Matches(r, GroupingSubQuery(old(State()), qm, m, isSubQuery, c), State())
      decreases qm, 1
    {
      status := InGroupSubquery;
      context.groupingQuerySource := Some(qm.mainFrom.id);
      r := VisitQueryModel(m);
      if r.Fail? {
        return;
      }
      status := AfterGroupSubquery;
    }

    method VisitUnionSortSubQuery(qm: QM.Model, m: QM.Model) returns (r: Outcome)
      requires Valid() && qm.mainFrom.fromExpr == QM.SubQuery(m)
      modifies this, aggregator, context, context.names
      ensures Valid()
      ensures Matches(r, UnionSortSubQuery(old(State()), qm, m, isSubQuery, c), State())
      decreases qm, 1
    {
      status := InUnionSortSubquery;
      r := VisitQueryModel(m);
      if r.Fail? {
        return;
      }
      status := AfterUnionSortSubquery;
      context.names.SetBlankExtentName(qm.mainFrom.id);
    }

    method VisitBodyClauses(qm: QM.Model) returns (r: Outcome)
      requires Valid()
      modifies this, aggregator, context, context.names
      ensures Valid()
      ensures Matches(r, BodyFrom(old(State()), qm, 0, isSubQuery, c), State())
      decreases qm, 4
    {
      for i := 0 to |qm.bodyClauses|
        invariant Valid()
        invariant BodyFrom(old(State()), qm, 0, isSubQuery, c) == BodyFrom(State(), qm, i, isSubQuery, c)
      {
        ghost var before := State();
        r := VisitBodyClause(qm, i);
        if r.Fail? {
          return;
        }
      }
      r := Pass;
    }

    /** A body clause's Accept: the visit for its kind. */
    method VisitBodyClause(qm: QM.Model, i: nat) returns (r: Outcome)
      requires Valid() && i < |qm.bodyClauses|
      modifies this, aggregator, context, context.names
      ensures Valid()
      ensures Matches(r, BodyClause(old(State()), qm, i, isSubQuery, c), State())
      decreases qm, 3
    {
      if qm.bodyClauses[i].AdditionalFrom? {
        r := VisitAdditionalFromClause(qm, i);
      } else {
        r := VisitSimpleClause(qm, qm.bodyClauses[i]);
      }
    }

    method VisitSimpleClause(qm: QM.Model, clause: QM.BodyClause) returns (r: Outcome)
      requires Valid() && !clause.AdditionalFrom?
      modifies aggregator, context.names
      ensures Valid()
      ensures Matches(r, SimpleClause(old(State()), qm, clause, c), State())
    {
      match clause {
        case Where(condition) =>
          VisitWhereClause(condition);
          r := Pass;
        case OrderBy(orderings) =>
          VisitOrderByClause(orderings);
          r := Pass;
        case Join(j) =>
          r := VisitJoinClause(j);
        case GroupJoin(groupJoin, j) =>
          r := VisitGroupJoinClause(j, groupJoin);
        case Nest(n) =>
          r := VisitNestClause(n);
        case UseKeys(keys) =>
          VisitUseKeysClause(qm, keys);
          r := Pass;
        case HintClause(h) =>
          r := VisitHintClause(h);
      }
    }

    /** VisitWhereClause; the rendered predicate goes through a "{0}" format
        so that braces in it are kept verbatim. */
    method VisitWhereClause(condition: QM.Expr)
      requires Valid()
      modifies aggregator
      ensures State() == WhereStep(old(State()), condition, c)
    {
      if status != AfterGroupSubquery {
        var p := condition;
        if |aggregator.extents| > 1 {
          var detected := c.detectInnerNest(aggregator.extents, p);
          aggregator.extents := detected.0;
          p := detected.1;
        }
        var text := GetAnalyticsExpression(p);
        FormatVerbatim(text);
        var added := aggregator.AddWherePart("{0}", [text]);
      } else {
        var text := GetAnalyticsExpression(condition);
        aggregator.AddHavingPart(text);
      }
    }

    method VisitOrderByClause(orderings: seq<QM.Ordering>)
      requires Valid()
      modifies aggregator
      ensures State() == OrderByStep(old(State()), orderings, c)
    {
      if status == InGroupSubquery {
        return;
      }
      var texts: seq<string> := [];
      for k := 0 to |orderings|
        invariant State() == old(State())
        invariant texts == OrderingTexts(State(), orderings[..k], c)
      {
        var e := GetAnalyticsExpression(orderings[k].expr);
        texts := texts + [e + " " + DirectionText(orderings[k].direction)];
      }
      assert orderings[..|orderings|] == orderings;
      aggregator.AddOrderByPart(texts);
    }

    method VisitUseKeysClause(qm: QM.Model, keys: QM.Expr)
      requires Valid()
      modifies aggregator, context.names
      ensures Valid()
      ensures State() == UseKeysStep(old(State()), qm, keys, c)
    {
      var name := GetExtentName(qm.mainFrom.id);
      var keysText := GetAnalyticsExpression(keys);
      UseKeysFormat(name, keysText);
      var added := aggregator.AddWherePart("META({0}).id IN {1}", [name, keysText]);
    }

    /** VisitHintClause on the first extent, which is updated in place. */
    method VisitHintClause(h: QM.Hint) returns (r: Outcome)
      requires Valid()
      modifies aggregator
      ensures Matches(r, HintStep(old(State()), h), State())
    {
      if |aggregator.extents| == 0 {
        return Fail(ArgumentOutOfRange);
      }
      var hinted := WithHint(aggregator.extents[0], h);
      if hinted.Failure? {
        return Fail(hinted.error);
      }
      aggregator.extents := aggregator.extents[0 := hinted.value];
      r := Pass;
    }

    /** The hints of a join subquery, applied to the join extent in order. */
    method ApplyHints(part: ExtentPart, hs: seq<QM.Hint>) returns (r: Result<ExtentPart>)
      ensures r == WithHints(part, hs)
    {
      var p := part;
      for k := 0 to |hs|
        invariant WithHints(part, hs) == WithHints(p, hs[k..])
      {
        assert hs[k..][0] == hs[k] && hs[k..][1..] == hs[k + 1..];
        var hinted := WithHint(p, hs[k]);
        if hinted.Failure? {
          return Failure(hinted.error);
        }
        p := hinted.value;
      }
      r := Success(p);
    }

    /** The where predicates of a join or nest subquery, rendered and joined
        with " AND ". */
    method RenderWherePredicates(m: QM.Model) returns (text: string)
      ensures text == Join(RenderedAll(State(), QM.WherePredicates(m.bodyClauses), c), " AND ")
    {
      var predicates := QM.WherePredicates(m.bodyClauses);
      var texts: seq<string> := [];
      for k := 0 to |predicates|
        invariant texts == RenderedAll(State(), predicates[..k], c)
      {
        var e := GetAnalyticsExpression(predicates[k]);
        texts := texts + [e];
      }
      assert predicates[..|predicates|] == predicates;
      text := Join(texts, " AND ");
    }

    method VisitMemberFromExpression(id: QM.SourceId, e: QM.Expr) returns (part: ExtentPart)
      requires Valid()
      modifies context.names
      ensures Valid()
      ensures (State(), part) == MemberFrom(old(State()), id, e, c)
    {
      var source := GetAnalyticsExpression(e);
      var item := GetExtentName(id);
      part := JoinPart(id, source, item, None, InnerUnnest);
    }

    method VisitAdditionalFromClause(qm: QM.Model, i: nat) returns (r: Outcome)
      requires Valid() && i < |qm.bodyClauses| && qm.bodyClauses[i].AdditionalFrom?
      modifies this, aggregator, context, context.names
      ensures Valid()
      ensures Matches(r, AdditionalFrom(old(State()), qm, i, isSubQuery, c), State())
      decreases qm, 2
    {
      var f := qm.bodyClauses[i].from;
      if f.fromExpr.SubQuery? {
        r := VisitSubQueryFromExpression(qm, i, f.fromExpr.model);
      } else {
        r := VisitMemberAdditionalFrom(f);
      }
    }

    method VisitMemberAdditionalFrom(f: QM.AdditionalFromClause) returns (r: Outcome)
      requires Valid()
      modifies aggregator, context.names
      ensures Valid()
      ensures Matches(r, MemberAdditionalFrom(old(State()), f, c), State())
    {
      if f.fromExpr.Member? {
        AddMemberUnnest(f.id, f.fromExpr);
        r := Pass;
      } else {
        r := Fail(NotSupported("N1QL Does Not Support This Type Of From Clause"));
      }
    }

    method AddMemberUnnest(id: QM.SourceId, e: QM.Expr)
      requires Valid()
      modifies aggregator, context.names
      ensures Valid()
      ensures State() == MemberUnnest(old(State()), id, e, c)
    {
      var part := VisitMemberFromExpression(id, e);
      aggregator.AddExtent(part);
    }

    method VisitSubQueryFromExpression(qm: QM.Model, i: nat, m: QM.Model) returns (r: Outcome)
      requires Valid() && i < |qm.bodyClauses| && qm.bodyClauses[i].AdditionalFrom?
      requires qm.bodyClauses[i].from.fromExpr == QM.SubQuery(m)
      modifies this, aggregator, context, context.names
      ensures Valid()
      ensures Matches(r, SubQueryFromExpression(old(State()), qm, i, m, isSubQuery, c), State())
      decreases qm, 1
    {
      var f := qm.bodyClauses[i].from;
      if m.mainFrom.fromExpr.Member? {
        AddUnnest(m, f.id);
        assert qm.bodyClauses[i] in qm.bodyClauses;
        r := VisitBodyClauses(m);
      } else {
        r := VisitGroupJoinSubQueryFrom(m, f.id);
      }
    }

    method VisitGroupJoinSubQueryFrom(m: QM.Model, id: QM.SourceId) returns (r: Outcome)
      requires Valid()
      modifies aggregator, context.names
      ensures Valid()
      ensures Matches(r, GroupJoinSubQueryFrom(old(State()), m, id), State())
    {
      if m.mainFrom.fromExpr.SourceRef? {
        r := FlattenGroupJoinClause(m, m.mainFrom.fromExpr.source, id);
      } else {
        r := Fail(NotSupported("N1QL Does Not Support This Type Of From Clause"));
      }
    }

    /** The NEST of an earlier group join becomes a LEFT or INNER JOIN in place. */
    method FlattenGroupJoinClause(m: QM.Model, src: QM.SourceId, id: QM.SourceId) returns (r: Outcome)
      requires Valid()
      modifies aggregator, context.names
      ensures Valid()
      ensures Matches(r, FlattenGroupJoin(old(State()), m, src, id), State())
    {
      var k := FirstAnsiJoin(aggregator.extents, src);
      if k.None? {
        return Fail(NotSupported("N1QL Does Not Support This Type Of From Clause"));
      }
      var nest := aggregator.extents[k.value];
      aggregator.extents := aggregator.extents[k.value := nest.(joinType := if QM.HasDefaultIfEmpty(m) then LeftJoin else InnerJoin)];
      context.names.LinkExtents(nest.querySource, id);
      r := Pass;
    }

    /** An UNNEST extent over a member of the outer query. */
    method AddUnnest(m: QM.Model, id: QM.SourceId)
      requires Valid()
      modifies aggregator, context.names
      ensures Valid()
      ensures State() == UnnestFrom(old(State()), m, id, c)
    {
      var part := VisitMemberFromExpression(id, m.mainFrom.fromExpr);
      if QM.HasDefaultIfEmpty(m) {
        part := JoinPart(part.querySource, part.source, part.itemName, part.hints, LeftUnnest);
      }
      aggregator.AddExtent(part);
      context.names.LinkExtents(id, m.mainFrom.id);
    }

    method VisitConstantExpressionJoinClause(j: QM.JoinClause, inner: QM.Expr) returns (r: Result<ExtentPart>)
      requires Valid()
      modifies context.names
      ensures Valid()
      ensures MatchesPart(r, ConstantJoin(old(State()), j, inner, c), State())
    {
      if !inner.DataSet? {
        return Failure(NotSupported("N1QL Joins Must Be Against IAnalyticsDataSetQueryable"));
      }
      var source := c.escape(inner.name);
      var item := GetExtentName(j.id);
      var outerKey := GetAnalyticsExpression(j.outerKey);
      var innerKey := GetAnalyticsExpression(j.innerKey);
      r := Success(AnsiJoinPart(j.id, source, item, None, InnerJoin, outerKey, innerKey, None, None));
    }

    method ParseJoinClause(j: QM.JoinClause) returns (r: Result<ExtentPart>)
      requires Valid()
      modifies context.names
      ensures Valid()
      ensures MatchesPart(r, JoinExtent(old(State()), j, c), State())
    {
      if QM.IsConstant(j.innerSequence) {
        r := VisitConstantExpressionJoinClause(j, j.innerSequence);
      } else if j.innerSequence.SubQuery? {
        var m := j.innerSequence.model;
        if !PlainSubquery(m) {
          return Failure(NotSupported("Unsupported Join Inner Sequence"));
        }
        context.names.LinkExtents(j.id, m.mainFrom.id);
        r := VisitConstantExpressionJoinClause(j, m.mainFrom.fromExpr);
        if r.Failure? {
          return;
        }
        var predicates := RenderWherePredicates(m);
        r := ApplyHints(r.value.(additionalInnerPredicates := Some(predicates)), QM.Hints(m.bodyClauses));
      } else {
        r := Failure(NotSupported("Unsupported Join Inner Sequence"));
      }
    }

    method VisitJoinClause(j: QM.JoinClause) returns (r: Outcome)
      requires Valid()
      modifies aggregator, context.names
      ensures Valid()
      ensures Matches(r, JoinStep(old(State()), j, c), State())
    {
      var part := ParseJoinClause(j);
      if part.Failure? {
        return Fail(part.error);
      }
      aggregator.AddExtent(part.value);
      r := Pass;
    }

    method ParseNestJoinClause(j: QM.JoinClause, groupJoin: QM.SourceId) returns (r: Result<ExtentPart>)
      requires Valid()
      modifies context.names
      ensures Valid()
      ensures MatchesPart(r, NestJoinExtent(old(State()), j, groupJoin, c), State())
    {
      if QM.IsConstant(j.innerSequence) {
        r := VisitConstantExpressionJoinClause(j, j.innerSequence);
        if r.Failure? {
          return;
        }
        r := Success(r.value.(joinType := LeftNest, querySource := groupJoin));
        context.names.LinkExtents(j.id, groupJoin);
      } else if j.innerSequence.SubQuery? {
        var m := j.innerSequence.model;
        if !PlainSubquery(m) {
          return Failure(NotSupported("Unsupported Join Inner Sequence"));
        }
        var joined := VisitConstantExpressionJoinClause(j, m.mainFrom.fromExpr);
        if joined.Failure? {
          return joined;
        }
        var part := joined.value.(joinType := LeftNest, querySource := groupJoin);
        context.names.LinkExtents(j.id, groupJoin);
        context.names.LinkExtents(j.id, m.mainFrom.id);
        var predicates := RenderWherePredicates(m);
        r := ApplyHints(part.(additionalInnerPredicates := Some(predicates)), QM.Hints(m.bodyClauses));
      } else {
        r := Failure(NotSupported("Unsupported Join Inner Sequence"));
      }
    }

    /** VisitJoinClause for a group join: the NEST extent is added. */
    method VisitGroupJoinClause(j: QM.JoinClause, groupJoin: QM.SourceId) returns (r: Outcome)
      requires Valid()
      modifies aggregator, context.names
      ensures Valid()
      ensures Matches(r, GroupJoinStep(old(State()), j, groupJoin, c), State())
    {
      var part := ParseNestJoinClause(j, groupJoin);
      if part.Failure? {
        return Fail(part.error);
      }
      aggregator.AddExtent(part.value);
      r := Pass;
    }

    method VisitConstantExpressionNestClause(n: QM.NestClause, inner: QM.Expr) returns (r: Result<ExtentPart>)
      requires Valid()
      modifies context.names
      ensures Valid()
      ensures MatchesPart(r, ConstantNest(old(State()), n, inner, c), State())
    {
      if !inner.DataSet? {
        return Failure(NotSupported("N1QL Nests Must Be Against IAnalyticsDataSetQueryable"));
      }
      var item := GetExtentName(n.id);
      var keyText := GetAnalyticsExpression(n.keySelector);
      r := Success(AnsiJoinPart(n.id, c.escape(inner.name), item, None, if n.isLeftOuter then LeftNest else InnerNest,
                                "META(" + item + ").id", keyText, Some("IN"), None));
    }

    method ParseNestClause(n: QM.NestClause) returns (r: Result<ExtentPart>)
      requires Valid()
      modifies context.names
      ensures Valid()
      ensures MatchesPart(r, NestExtent(old(State()), n, c), State())
    {
      if QM.IsConstant(n.innerSequence) {
        r := VisitConstantExpressionNestClause(n, n.innerSequence);
      } else if n.innerSequence.SubQuery? {
        var m := n.innerSequence.model;
        if !PlainSubquery(m) {
          return Failure(NotSupported("Unsupported Nest Inner Sequence"));
        }
        r := VisitConstantExpressionNestClause(n, m.mainFrom.fromExpr);
        if r.Failure? {
          return;
        }
        context.names.LinkExtents(n.id, m.mainFrom.id);
        var predicates := RenderWherePredicates(m);
        r := Success(r.value.(additionalInnerPredicates := Some(predicates)));
      } else {
        r := Failure(NotSupported("Unsupported Nest Inner Sequence"));
      }
    }

    method VisitNestClause(n: QM.NestClause) returns (r: Outcome)
      requires Valid()
      modifies aggregator, context.names
      ensures Valid()
      ensures Matches(r, NestStep(old(State()), n, c), State())
    {
      var part := ParseNestClause(n);
      if part.Failure? {
        return Fail(part.error);
      }
      aggregator.AddExtent(part.value);
      r := Pass;
    }

    method VisitResultOperators(qm: QM.Model) returns (r: Outcome)
      requires Valid()
      modifies this, aggregator, context.names
      ensures Valid()
      ensures Matches(r, OperatorsFrom(old(State()), qm.resultOperators, 0, c), State())
    {
      var ops := qm.resultOperators;
      for i := 0 to |ops|
        invariant Valid()
        invariant OperatorsFrom(old(State()), ops, 0, c) == OperatorsFrom(State(), ops, i, c)
      {
        r := VisitResultOperator(ops[i]);
        if r.Fail? {
          return;
        }
      }
      r := Pass;
    }

    method VisitResultOperator(op: QM.ResultOperator) returns (r: Outcome)
      requires Valid()
      modifies this, aggregator, context.names
      ensures Valid()
      ensures Matches(r, OperatorStep(old(State()), op, c), State())
    {
      if IsPartOperator(op) {
        VisitPartOperator(op);
        r := Pass;
      } else if IsAggregateOperator(op) {
        VisitAggregateOperator(AggregateName(op));
        r := Pass;
      } else {
        r := VisitQueryOperator(op);
      }
    }

    method VisitQueryOperator(op: QM.ResultOperator) returns (r: Outcome)
      requires Valid() && !IsPartOperator(op) && !IsAggregateOperator(op)
      modifies this, aggregator, context.names
      ensures Valid()
      ensures Matches(r, QueryOperatorStep(old(State()), op, c), State())
    {
      match op {
        case Any =>
          VisitAnyOperator();
          r := Pass;
        case All(condition) =>
          VisitAllOperator(condition);
          r := Pass;
        case Contains(item) =>
          VisitContainsOperator(item);
          r := Pass;
        case Group(key, element) =>
          r := VisitGroupResultOperator(key, element);
        case Union(source2) =>
          r := VisitUnionOperator(source2, true);
        case Concat(source2) =>
          r := VisitUnionOperator(source2, false);
        case DefaultIfEmpty =>
          r := Fail(NotSupported("DefaultIfEmptyResultOperator is not supported."));
        case Unmapped(typeName) =>
          r := Fail(NotSupported(typeName + " is not supported."));
      }
    }

    /** Take, Skip, First, Single, Distinct, Explain and ToQueryRequest. */
    method VisitPartOperator(op: QM.ResultOperator)
      requires IsPartOperator(op)
      modifies aggregator
      ensures State() == PartStep(old(State()), op)
    {
      match op {
        case Take(n) =>
          AddLimit(n);
        case Skip(n) =>
          AddOffset(n);
        case First =>
          AddLimit(1);
        case Single =>
          AddLimit(2);
        case Distinct =>
          aggregator.AddDistinctPart("DISTINCT ");
        case Explain =>
          aggregator.explainPart := Some("EXPLAIN ");
        case ToQueryRequest =>
      }
    }

    /** AddLimitPart(" LIMIT {0}", n). */
    method AddLimit(n: Int32)
      modifies aggregator
      ensures State() == old(State()).(parts := old(State()).parts.(limitPart := Some(LimitClause(n as int))))
    {
      CountFormat(" LIMIT ", n as int);
      assert " LIMIT " + "{0}" == " LIMIT {0}";
      var added := aggregator.AddLimitPart(" LIMIT {0}", n);
    }

    /** AddOffsetPart(" OFFSET {0}", n). */
    method AddOffset(n: Int32)
      modifies aggregator
      ensures State() == old(State()).(parts := old(State()).parts.(offsetPart := Some(OffsetClause(n as int))))
    {
      CountFormat(" OFFSET ", n as int);
      assert " OFFSET " + "{0}" == " OFFSET {0}";
      var added := aggregator.AddOffsetPart(" OFFSET {0}", n);
    }

    /** Average, Count, LongCount, Max, Min and Sum. */
    method VisitAggregateOperator(function_: string)
      modifies this, aggregator
      ensures State() == Aggregated(old(State()), function_)
    {
      aggregator.aggregateFunction := Some(function_);
      isAggregated := true;
    }

    method VisitAnyOperator()
      requires Valid()
      modifies aggregator, context.names
      ensures Valid()
      ensures State() == AnyStep(old(State()))
    {
      aggregator.queryType := if aggregator.queryType == Subquery then SubqueryAny else MainQueryAny;
      if aggregator.queryType == SubqueryAny {
        var name := context.names.GetUnlinkedExtentName();
        aggregator.subqueryAnyAllExtentName := Some(name);
      }
    }

    method VisitAllOperator(condition: QM.Expr)
      requires Valid()
      modifies aggregator, context.names
      ensures Valid()
      ensures State() == AllStep(old(State()), condition, c)
    {
      if aggregator.queryType == Subquery {
        VisitSubqueryAllOperator(condition);
      } else {
        aggregator.queryType := MainQueryAll;
        var w := GetAnalyticsExpression(condition);
        aggregator.whereAllPart := Some(w);
      }
    }

    /** All in a subquery: the predicate is rendered against a fresh
        iterator name as extent prefix, which is reset to null afterwards. */
    method VisitSubqueryAllOperator(condition: QM.Expr)
      requires Valid() && aggregator.queryType == Subquery
      modifies aggregator, context.names
      ensures Valid()
      ensures State() == AllStep(old(State()), condition, c)
    {
      aggregator.queryType := SubqueryAll;
      var name := context.names.GetUnlinkedExtentName();
      aggregator.subqueryAnyAllExtentName := Some(name);
      context.names.SetPrefix(Some(name + "."));
      var w := GetAnalyticsExpression(condition);
      aggregator.whereAllPart := Some(w);
      context.names.SetPrefix(None);
    }

    method VisitContainsOperator(item: QM.Expr)
      modifies aggregator
      ensures State() == ContainsStep(old(State()), item, c)
    {
      var text := GetAnalyticsExpression(item);
      aggregator.AddWrappingFunction(text + " IN ");
    }

    /** Union and Concat: only a subquery can be the second source. */
    method VisitUnionOperator(source2: QM.Expr, distinct: bool) returns (r: Outcome)
      modifies aggregator
      ensures Matches(r, UnionStep(old(State()), source2, distinct, c), State())
    {
      if !source2.SubQuery? {
        return Fail(NotSupported(if distinct then "Union is only support against query sources."
                                 else "Concat is only support against query sources."));
      }
      VisitUnion(source2.model, distinct);
      r := Pass;
    }

    /** VisitUnion: the second query is compiled on its own and appended
        after " UNION " (distinct) or " UNION ALL ". */
    method VisitUnion(m: QM.Model, distinct: bool)
      modifies aggregator
      ensures aggregator.Snapshot() == old(aggregator.Snapshot()).(unionParts :=
        Some(Elements(old(aggregator.unionParts)) + [(if distinct then " UNION " else " UNION ALL ") + c.compileUnion(m)]))
    {
      var unionQuery := c.compileUnion(m);
      aggregator.AddUnionPart((if distinct then " UNION " else " UNION ALL ") + unionQuery);
    }

    method VisitGroupResultOperator(key: QM.Expr, element: QM.Expr) returns (r: Outcome)
      requires Valid()
      modifies this, aggregator, context.names
      ensures Valid()
      ensures Matches(r, GroupStep(old(State()), key, element, c), State())
    {
      VisitGroupKeys(key);
      if !element.SourceRef? {
        return Fail(NotSupported("Unsupported GroupResultOperator ElementSelector Type"));
      }
      if context.groupingQuerySource.None? {
        return Fail(NullReference);
      }
      context.names.LinkExtents(element.source, context.groupingQuerySource.value);
      r := Pass;
    }

    /** The GROUP BY parts of the key and the registry of its transformer. */
    method VisitGroupKeys(key: QM.Expr)
      modifies this, aggregator
      ensures State() == GroupKeys(old(State()), key, c)
    {
      registry := Some(Registry([]));
      ghost var s0 := State();
      if key.New? {
        var arguments := ArgumentsOf(key.fields);
        for k := 0 to |arguments|
          invariant State() == s0.(parts := s0.parts.(groupByParts := GroupByAfter(s0.parts.groupByParts, RenderedAll(s0, arguments[..k], c))))
        {
          var text := GetAnalyticsExpression(arguments[k]);
          assert RenderedAll(s0, arguments[..k + 1], c) == RenderedAll(s0, arguments[..k], c) + [text];
          GroupByGrows(s0.parts.groupByParts, RenderedAll(s0, arguments[..k], c), text);
          aggregator.AddGroupByPart(text);
        }
        assert arguments[..|arguments|] == arguments;
        registry := Some(Registry([MultiKey(context.groupingQuerySource, key.fields)]));
      } else {
        var text := GetAnalyticsExpression(key);
        aggregator.AddGroupByPart(text);
        registry := Some(Registry([SingleKey(context.groupingQuerySource, key)]));
      }
    }

    method VisitSelectClause(qm: QM.Model)
      requires Valid()
      modifies aggregator, context.names
      ensures Valid()
      ensures State() == SelectStep(old(State()), qm, c)
    {
      if aggregator.queryType == SubqueryAny {
        var name := GetExtentName(qm.mainFrom.id);
        aggregator.selectPart := Some(name);
      } else if aggregator.queryType == SubqueryAll {
        aggregator.selectPart := Some(ExtentSelectParameters(aggregator.Snapshot()));
      } else {
        aggregator.selectPart := Some(SelectParameters(State(), qm.selector, c));
      }
    }
  }
}

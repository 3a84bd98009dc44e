/** The query parts aggregator: an accumulator of text fragments (select
    part, extents, LET parts, WHERE, GROUP BY, HAVING, ORDER BY, LIMIT,
    OFFSET, DISTINCT, EXPLAIN, UNION and the ALL predicate) and the builder
    that assembles them into one query string according to the query shape. */
module PartsAggregator {
  import opened Common
  import QueryModel

  /** N1QlQueryType. The enumeration's other members, if any, are not part of
      this model; `Unlisted` stands for any value the builder does not handle. */
  datatype QueryType =
    | Select
    | Subquery
    | SubqueryAny
    | SubqueryAll
    | MainQueryAny
    | MainQueryAll
    | Aggregate
    | Unlisted(name: string)

  datatype JoinType = InnerJoin | LeftJoin | InnerNest | LeftNest | InnerUnnest | LeftUnnest

  /** One extent of the FROM chain. Its rendering (AppendToStringBuilder) is
      not part of this model and is passed to the builders as a function. */
  datatype ExtentPart =
    | FromPart(querySource: QueryModel.SourceId, source: string, itemName: string, hints: Option<seq<QueryModel.Hint>>)
    | JoinPart(querySource: QueryModel.SourceId, source: string, itemName: string, hints: Option<seq<QueryModel.Hint>>,
               joinType: JoinType)
    | AnsiJoinPart(querySource: QueryModel.SourceId, source: string, itemName: string, hints: Option<seq<QueryModel.Hint>>,
                   joinType: JoinType, outerKey: string, innerKey: string,
                   operator: Option<string>, additionalInnerPredicates: Option<string>)

  datatype LetPart = LetPart(itemName: string, value: string)

  /** The aggregator's state as a value. A `None` list is a list property
      that was never created. */
  datatype Parts = Parts(
    selectPart: Option<string>,
    extents: seq<ExtentPart>,
    letParts: seq<LetPart>,
    whereParts: seq<string>,
    orderByParts: seq<string>,
    groupByParts: Option<seq<string>>,
    havingParts: Option<seq<string>>,
    limitPart: Option<string>,
    offsetPart: Option<string>,
    distinctPart: Option<string>,
    explainPart: Option<string>,
    whereAllPart: Option<string>,
    subqueryAnyAllExtentName: Option<string>,
    wrappingFunctions: Option<seq<string>>,
    aggregateFunction: Option<string>,
    unionParts: Option<seq<string>>,
    queryType: QueryType)

  /** The state a new aggregator starts in. */
  const Initial := Parts(None, [], [], [], [], None, None, None, None, None, None, None, None, None, None, None, Select)

  /** The elements of a lazily created list; a missing list has none. */
  function Elements<T>(list: Option<seq<T>>): seq<T>
  {
    if list.Some? then list.value else []
  }

  // ---------------------------------------------------------------------
  // Specification of the builders

  /** The extents rendered one after the other, in insertion order. */
  function ExtentsText(extents: seq<ExtentPart>, render: ExtentPart -> string): string
  {
    if |extents| == 0 then ""
    else ExtentsText(extents[..|extents| - 1], render) + render(extents[|extents| - 1])
  }

  function LetItem(l: LetPart): string
  {
    l.itemName + " = " + l.value
  }

  function LetItems(lets: seq<LetPart>): (r: seq<string>)
    ensures |r| == |lets| && forall i :: 0 <= i < |lets| ==> r[i] == LetItem(lets[i])
  {
    seq(|lets|, i requires 0 <= i < |lets| => LetItem(lets[i]))
  }

  /** The LET clause as the for loop of ApplyLetParts writes it: " LET " before
      the first binding, ", " before every later one. */
  function LetText(lets: seq<LetPart>): string
  {
    if |lets| == 0 then ""
    else LetText(lets[..|lets| - 1]) + (if |lets| == 1 then " LET " else ", ") + LetItem(lets[|lets| - 1])
  }

  /** A list clause: the keyword and the joined parts, or nothing at all for a
      missing or empty list. */
  function ListClause(keyword: string, parts: Option<seq<string>>, sep: string): string
  {
    if parts.Some? && |parts.value| > 0 then keyword + Join(parts.value, sep) else ""
  }

  /** A marker part (EXPLAIN, DISTINCT) is written only when it has a
      non-blank value. */
  function Marker(part: Option<string>): string
  {
    if !IsNullOrWhiteSpace(part) then part.value else ""
  }

  /** What follows "SELECT VALUE ": the select part, after DISTINCT, inside
      the aggregate function when one is set. */
  function Projection(distinctPart: Option<string>, aggregateFunction: Option<string>, selectPart: Option<string>): string
  {
    if !IsNullOrEmpty(aggregateFunction) then aggregateFunction.value + "(" + Marker(distinctPart) + Text(selectPart) + ")"
    else Marker(distinctPart) + Text(selectPart)
  }

  /** OFFSET is written only when a LIMIT is set as well. */
  function OffsetText(limitPart: Option<string>, offsetPart: Option<string>): string
  {
    if limitPart.Some? && offsetPart.Some? then offsetPart.value else ""
  }

  function Opening(queryType: QueryType, extentName: Option<string>): string
  {
    match queryType
    case Subquery => "("
    case SubqueryAny => "ANY " + Text(extentName) + " IN ("
    case SubqueryAll => "EVERY " + Text(extentName) + " IN ("
    case _ => ""
  }

  function Closing(queryType: QueryType, whereAllPart: Option<string>): string
  {
    match queryType
    case Subquery => ")"
    case SubqueryAny => ") SATISFIES true END"
    case SubqueryAll => ") SATISFIES " + Text(whereAllPart) + " END"
    case _ => ""
  }

  /** EXPLAIN, "SELECT VALUE " and the projection. */
  function HeadText(explainPart: Option<string>, distinctPart: Option<string>, aggregateFunction: Option<string>,
                    selectPart: Option<string>): string
  {
    Marker(explainPart) + "SELECT VALUE " + Projection(distinctPart, aggregateFunction, selectPart)
  }

  /** Extents, LET and WHERE: the part the select and the main Any/All
      templates share. */
  function MainBody(extents: seq<ExtentPart>, letParts: seq<LetPart>, whereParts: seq<string>,
                    render: ExtentPart -> string): string
  {
    ExtentsText(extents, render) + LetText(letParts) + ListClause(" WHERE ", Some(whereParts), " AND ")
  }

  /** GROUP BY and HAVING. */
  function GroupingText(groupByParts: Option<seq<string>>, havingParts: Option<seq<string>>): string
  {
    ListClause(" GROUP BY ", groupByParts, ", ") + ListClause(" HAVING ", havingParts, " AND ")
  }

  /** UNION parts, ORDER BY, LIMIT and OFFSET, which close a select statement. */
  function TrailText(unionParts: Option<seq<string>>, orderByParts: seq<string>,
                     limitPart: Option<string>, offsetPart: Option<string>): string
  {
    Concat(Elements(unionParts)) + ListClause(" ORDER BY ", Some(orderByParts), ", ")
    + Text(limitPart) + OffsetText(limitPart, offsetPart)
  }

  /** The select statement proper, between the subquery wrappers, in the
      order EXPLAIN, SELECT VALUE, extents, LET, WHERE, GROUP BY, HAVING,
      unions, ORDER BY, LIMIT, OFFSET. */
  function SelectCore(p: Parts, render: ExtentPart -> string): string
  {
    HeadText(p.explainPart, p.distinctPart, p.aggregateFunction, p.selectPart)
    + MainBody(p.extents, p.letParts, p.whereParts, render)
    + GroupingText(p.groupByParts, p.havingParts)
    + TrailText(p.unionParts, p.orderByParts, p.limitPart, p.offsetPart)
  }

  /** BuildSelectQuery. */
  function SelectQueryText(p: Parts, render: ExtentPart -> string): string
  {
    Opening(p.queryType, p.subqueryAnyAllExtentName) + SelectCore(p, render) + Closing(p.queryType, p.whereAllPart)
  }

  /** The negated ALL predicate, ANDed to the WHERE clause or opening one. */
  function NotClause(whereParts: seq<string>, whereAllPart: Option<string>): string
  {
    (if |whereParts| > 0 then " AND" else " WHERE") + " NOT (" + Text(whereAllPart) + ")"
  }

  /** BuildMainAnyAllQuery. */
  function MainAnyAllText(p: Parts, render: ExtentPart -> string): string
  {
    "SELECT VALUE " + (if p.queryType == MainQueryAny then "true" else "false")
    + MainBody(p.extents, p.letParts, p.whereParts, render)
    + (if p.queryType == MainQueryAll then NotClause(p.whereParts, p.whereAllPart) else "")
    + " LIMIT 1"
  }

  /** BuildAggregate. */
  function AggregateText(p: Parts): string
  {
    Text(p.aggregateFunction) + "(" + Text(p.selectPart) + ")"
  }

  /** BuildN1QlQuery: the template chosen by the query shape; a shape the
      switch does not list throws InvalidOperationException. */
  function QueryText(p: Parts, render: ExtentPart -> string): (r: Result<string>)
    ensures r.Failure? <==> p.queryType.Unlisted?
    ensures r.Failure? ==> r.error == InvalidOperation("Unsupported N1QlQueryType: " + p.queryType.name)
  {
    match p.queryType
    case Select => Success(SelectQueryText(p, render))
    case Subquery => Success(SelectQueryText(p, render))
    case SubqueryAny => Success(SelectQueryText(p, render))
    case SubqueryAll => Success(SelectQueryText(p, render))
    case MainQueryAny => Success(MainAnyAllText(p, render))
    case MainQueryAll => Success(MainAnyAllText(p, render))
    case Aggregate => Success(AggregateText(p))
    case Unlisted(name) => Failure(InvalidOperation("Unsupported N1QlQueryType: " + name))
  }

  /** The order-by list after visiting order-by clauses with the given
      orderings, one clause after another, each inserted at the front. */
  function OrderByAfter(initial: seq<string>, groups: seq<seq<string>>): seq<string>
  {
    if |groups| == 0 then initial
    else [Join(groups[|groups| - 1], ", ")] + OrderByAfter(initial, groups[..|groups| - 1])
  }

  // ---------------------------------------------------------------------
  // Properties of the builders

  /** Extents render in insertion order: the text of a concatenation is the
      concatenation of the texts. */
  lemma {:induction false} ExtentsTextConcat(a: seq<ExtentPart>, b: seq<ExtentPart>, render: ExtentPart -> string)
    ensures ExtentsText(a + b, render) == ExtentsText(a, render) + ExtentsText(b, render)
    decreases |b|
  {
    if |b| == 0 {
      assert a + b == a;
    } else {
      assert (a + b)[..|a + b| - 1] == a + b[..|b| - 1];
      ExtentsTextConcat(a, b[..|b| - 1], render);
    }
  }

  /** LET bindings render as " LET a = v, b = w, ..." in insertion order. */
  lemma {:induction false} LetTextJoined(lets: seq<LetPart>)
    ensures LetText(lets) == if lets == [] then "" else " LET " + Join(LetItems(lets), ", ")
  {
    if |lets| > 1 {
      var init := lets[..|lets| - 1];
      LetTextJoined(init);
      assert LetItems(lets) == LetItems(init) + [LetItem(lets[|lets| - 1])];
      JoinAppend(LetItems(init), LetItem(lets[|lets| - 1]), ", ");
    } else if |lets| == 1 {
      assert lets[..0] == [];
      assert LetItems(lets) == [LetItem(lets[0])];
    }
  }

  /** Adding one more part to a list clause appends the separator and the
      part; the first part introduces the keyword. */
  lemma ListClauseGrows(keyword: string, parts: seq<string>, x: string, sep: string)
    ensures ListClause(keyword, Some(parts + [x]), sep)
         == if parts == [] then keyword + x else ListClause(keyword, Some(parts), sep) + sep + x
  {
    JoinAppend(parts, x, sep);
  }

  /** A list that was never created and an empty one render alike: no keyword. */
  lemma EmptyListsOmitted(p: Parts, render: ExtentPart -> string)
    ensures SelectQueryText(p.(groupByParts := Some([])), render) == SelectQueryText(p.(groupByParts := None), render)
    ensures SelectQueryText(p.(havingParts := Some([])), render) == SelectQueryText(p.(havingParts := None), render)
    ensures SelectQueryText(p.(unionParts := Some([])), render) == SelectQueryText(p.(unionParts := None), render)
    ensures ListClause(" WHERE ", Some([]), " AND ") == ""
  {
    assert GroupingText(Some([]), p.havingParts) == GroupingText(None, p.havingParts);
    assert GroupingText(p.groupByParts, Some([])) == GroupingText(p.groupByParts, None);
    assert TrailText(Some([]), p.orderByParts, p.limitPart, p.offsetPart)
        == TrailText(None, p.orderByParts, p.limitPart, p.offsetPart);
  }

  /** Without a LIMIT the OFFSET fragment has no effect on any shape. */
  lemma OffsetRequiresLimit(p: Parts, render: ExtentPart -> string)
    requires p.limitPart.None?
    ensures QueryText(p, render) == QueryText(p.(offsetPart := None), render)
  {
    assert TrailText(p.unionParts, p.orderByParts, None, p.offsetPart)
        == TrailText(p.unionParts, p.orderByParts, None, None);
  }

  /** LIMIT and OFFSET close the select statement, LIMIT first. */
  lemma LimitThenOffset(p: Parts, render: ExtentPart -> string)
    requires p.limitPart.Some? && p.offsetPart.Some?
    ensures SelectCore(p, render)
         == SelectCore(p.(limitPart := None, offsetPart := None), render) + p.limitPart.value + p.offsetPart.value
  {
    var q := p.(limitPart := None, offsetPart := None);
    var u := Concat(Elements(p.unionParts)) + ListClause(" ORDER BY ", Some(p.orderByParts), ", ");
    var l, o := p.limitPart.value, p.offsetPart.value;
    assert TrailText(p.unionParts, p.orderByParts, None, None) == u + "" + "";
    assert u + "" + "" == u;
    assert TrailText(p.unionParts, p.orderByParts, p.limitPart, p.offsetPart) == u + l + o;
    var a := HeadText(p.explainPart, p.distinctPart, p.aggregateFunction, p.selectPart)
             + MainBody(p.extents, p.letParts, p.whereParts, render) + GroupingText(p.groupByParts, p.havingParts);
    assert SelectCore(p, render) == a + (u + l + o);
    assert SelectCore(q, render) == a + u;
    Assoc3(a, u, l, o);
  }

  /** The subquery shapes wrap the plain select statement. */
  lemma ShapesWrapSelect(p: Parts, render: ExtentPart -> string)
    ensures var s := SelectQueryText(p.(queryType := Select), render);
      && (p.queryType == Subquery ==> QueryText(p, render) == Success("(" + s + ")"))
      && (p.queryType == SubqueryAny ==>
            QueryText(p, render) == Success("ANY " + Text(p.subqueryAnyAllExtentName) + " IN (" + s + ") SATISFIES true END"))
      && (p.queryType == SubqueryAll ==>
            QueryText(p, render) == Success("EVERY " + Text(p.subqueryAnyAllExtentName) + " IN (" + s + ") SATISFIES "
                                            + Text(p.whereAllPart) + " END"))
  {
    var q := p.(queryType := Select);
    var s := SelectCore(p, render);
    assert SelectCore(q, render) == s;
    assert SelectQueryText(q, render) == "" + s + "";
    assert "" + s + "" == s;
    var o := Opening(p.queryType, p.subqueryAnyAllExtentName);
    if p.queryType == SubqueryAll {
      var w := Text(p.whereAllPart);
      Assoc3(o + s, ") SATISFIES ", w, " END");
    } else if p.queryType == SubqueryAny {
      assert o + s + ") SATISFIES true END" == SelectQueryText(p, render);
    } else if p.queryType == Subquery {
      assert "(" + s + ")" == SelectQueryText(p, render);
    }
  }

  /** A main Any/All query depends only on the shape, the extents, the LET
      and WHERE parts and the ALL predicate: select, GROUP BY, HAVING, UNION,
      ORDER BY, LIMIT, OFFSET, DISTINCT and EXPLAIN are ignored. */
  lemma MainAnyAllIgnoresRest(p: Parts, q: Parts, render: ExtentPart -> string)
    requires p.queryType == MainQueryAny || p.queryType == MainQueryAll
    requires q.queryType == p.queryType && q.extents == p.extents && q.letParts == p.letParts
    requires q.whereParts == p.whereParts && q.whereAllPart == p.whereAllPart
    ensures QueryText(p, render) == QueryText(q, render)
  {
  }

  /** Main Any and All queries share their body; All adds the negated
      predicate, ANDed to an existing WHERE clause or opening one; both end
      in " LIMIT 1". */
  lemma MainAnyAllShapes(p: Parts, render: ExtentPart -> string)
    ensures var b := MainBody(p.extents, p.letParts, p.whereParts, render);
      && QueryText(p.(queryType := MainQueryAny), render) == Success("SELECT VALUE true" + b + " LIMIT 1")
      && QueryText(p.(queryType := MainQueryAll), render)
         == Success("SELECT VALUE false" + b + NotClause(p.whereParts, p.whereAllPart) + " LIMIT 1")
    ensures |p.whereParts| > 0 ==> NotClause(p.whereParts, p.whereAllPart) == " AND NOT (" + Text(p.whereAllPart) + ")"
    ensures |p.whereParts| == 0 ==> NotClause(p.whereParts, p.whereAllPart) == " WHERE NOT (" + Text(p.whereAllPart) + ")"
  {
    var b := MainBody(p.extents, p.letParts, p.whereParts, render);
    var n := NotClause(p.whereParts, p.whereAllPart);
    var t := "SELECT VALUE " + "true" + b;
    assert t + "" == t;
    assert MainAnyAllText(p.(queryType := MainQueryAny), render) == t + " LIMIT 1";
    assert "SELECT VALUE " + "true" == "SELECT VALUE true";
    assert "SELECT VALUE " + "false" == "SELECT VALUE false";
    assert " AND" + " NOT (" == " AND NOT (";
    assert " WHERE" + " NOT (" == " WHERE NOT (";
  }

  /** The Aggregate shape is the function applied to the select part, and
      nothing else of the state matters. */
  lemma AggregateShape(p: Parts, q: Parts, render: ExtentPart -> string)
    requires p.queryType == Aggregate && q.queryType == Aggregate
    requires q.aggregateFunction == p.aggregateFunction && q.selectPart == p.selectPart
    ensures QueryText(p, render) == QueryText(q, render)
    ensures QueryText(p, render) == Success(Text(p.aggregateFunction) + "(" + Text(p.selectPart) + ")")
  {
  }

  /** In the select shapes a set aggregate function wraps DISTINCT and the
      select part; an empty one leaves them bare. */
  lemma AggregateInSelect(distinctPart: Option<string>, aggregateFunction: Option<string>, selectPart: Option<string>)
    ensures aggregateFunction.Some? && aggregateFunction.value != "" ==>
      Projection(distinctPart, aggregateFunction, selectPart)
      == aggregateFunction.value + "(" + Projection(distinctPart, None, selectPart) + ")"
    ensures IsNullOrEmpty(aggregateFunction) ==>
      Projection(distinctPart, aggregateFunction, selectPart) == Projection(distinctPart, None, selectPart)
  {
  }

  /** The last order-by clause visited is emitted first; the orderings of one
      clause keep their order, joined with ", ". */
  lemma {:induction false} OrderByReversed(initial: seq<string>, groups: seq<seq<string>>)
    ensures var r := OrderByAfter(initial, groups);
      && |r| == |groups| + |initial|
      && (forall i :: 0 <= i < |groups| ==> r[i] == Join(groups[|groups| - 1 - i], ", "))
      && r[|groups|..] == initial
  {
    if |groups| > 0 {
      var init := groups[..|groups| - 1];
      OrderByReversed(initial, init);
      var r := OrderByAfter(initial, groups);
      var rest := OrderByAfter(initial, init);
      assert r == [Join(groups[|groups| - 1], ", ")] + rest;
      forall i | 1 <= i < |groups|
        ensures r[i] == Join(groups[|groups| - 1 - i], ", ")
      {
        assert r[i] == rest[i - 1];
        assert init[|init| - 1 - (i - 1)] == groups[|groups| - 1 - i];
      }
      assert r[|groups|..] == rest[|init|..];
    }
  }

  /** The key-list query of AnalyticsGeneration/SelectTests.cs:130-142, assembled from its parts. */
  lemma UseKeysScenario(e: ExtentPart, render: ExtentPart -> string)
    requires render(e) == " FROM `contacts` as `Extent1`"
    ensures QueryText(Initial.(selectPart := Some("`Extent1`"), extents := [e],
                               whereParts := ["META(`Extent1`).id IN ['abc', 'def']"]), render)
         == Success("SELECT VALUE `Extent1`" + " FROM `contacts` as `Extent1`" + " WHERE "
                    + "META(`Extent1`).id IN ['abc', 'def']")
  {
    var p := Initial.(selectPart := Some("`Extent1`"), extents := [e],
                      whereParts := ["META(`Extent1`).id IN ['abc', 'def']"]);
    var w := "META(`Extent1`).id IN ['abc', 'def']";
    var f := " FROM `contacts` as `Extent1`";
    var h := "SELECT VALUE `Extent1`";
    ScenarioHead();
    ScenarioBody(e, render, w);
    assert GroupingText(None, None) == "" + "";
    assert TrailText(None, [], None, None) == "" + "" + "" + "";
    var c := h + (f + " WHERE " + w) + "" + "";
    assert SelectCore(p, render) == c;
    assert c == h + f + " WHERE " + w;
    assert SelectQueryText(p, render) == "" + c + "";
    assert "" + c + "" == c;
    assert QueryText(p, render) == Success(SelectQueryText(p, render));
  }

  lemma ScenarioHead()
    ensures HeadText(None, None, None, Some("`Extent1`")) == "SELECT VALUE `Extent1`"
  {
    assert Projection(None, None, Some("`Extent1`")) == "" + "`Extent1`";
    assert "" + "SELECT VALUE " + ("" + "`Extent1`") == "SELECT VALUE `Extent1`";
  }

  lemma ScenarioBody(e: ExtentPart, render: ExtentPart -> string, w: string)
    ensures MainBody([e], [], [w], render) == render(e) + " WHERE " + w
  {
    assert [e][..0] == [];
    assert ExtentsText([e], render) == "" + render(e);
    assert Join([w], " AND ") == w;
    assert LetText([]) == "";
  }

  // ---------------------------------------------------------------------
  // The aggregator object

  /** Regrouping of appended text, used by the builders' proofs. */
  lemma Assoc3(a: string, b: string, c: string, d: string)
    ensures a + b + c + d == a + (b + c + d)
  {
  }

  lemma Assoc4(a: string, b: string, c: string, d: string, e: string)
    ensures a + b + c + d + e == a + (b + c + d + e)
  {
  }

  class QueryPartsAggregator {
    var selectPart: Option<string>
    var extents: seq<ExtentPart>
    var letParts: seq<LetPart>
    var whereParts: seq<string>
    var orderByParts: seq<string>
    var groupByParts: Option<seq<string>>
    var havingParts: Option<seq<string>>
    var limitPart: Option<string>
    var offsetPart: Option<string>
    var distinctPart: Option<string>
    var explainPart: Option<string>
    var whereAllPart: Option<string>
    var subqueryAnyAllExtentName: Option<string>
    var wrappingFunctions: Option<seq<string>>
    var aggregateFunction: Option<string>
    var unionParts: Option<seq<string>>
    var queryType: QueryType

    function Snapshot(): Parts
      reads this
    {
      Parts(selectPart, extents, letParts, whereParts, orderByParts, groupByParts, havingParts,
            limitPart, offsetPart, distinctPart, explainPart, whereAllPart, subqueryAnyAllExtentName,
            wrappingFunctions, aggregateFunction, unionParts, queryType)
    }

    constructor ()
      ensures Snapshot() == Initial
    {
      selectPart, extents, letParts, whereParts, orderByParts := None, [], [], [], [];
      groupByParts, havingParts, limitPart, offsetPart, distinctPart := None, None, None, None, None;
      explainPart, whereAllPart, subqueryAnyAllExtentName, wrappingFunctions := None, None, None, None;
      aggregateFunction, unionParts, queryType := None, None, Select;
    }

    /** AddWherePart: the formatted text is appended; a format the arguments
        do not fit throws FormatException and nothing changes. */
    method AddWherePart(format: string, args: seq<string>) returns (r: Outcome)
      modifies this
      ensures r.Pass? <==> StringFormat(format, args).Success?
      ensures r.Fail? ==> r.error == Format && Snapshot() == old(Snapshot())
      ensures r.Pass? ==> Snapshot() == old(Snapshot()).(whereParts := old(whereParts) + [StringFormat(format, args).value])
    {
      var text := StringFormat(format, args);
      if text.Failure? {
        return Fail(text.error);
      }
      whereParts := whereParts + [text.value];
      r := Pass;
    }

    method AddExtent(part: ExtentPart)
      modifies this
      ensures Snapshot() == old(Snapshot()).(extents := old(extents) + [part])
    {
      extents := extents + [part];
    }

    method AddLetPart(part: LetPart)
      modifies this
      ensures Snapshot() == old(Snapshot()).(letParts := old(letParts) + [part])
    {
      letParts := letParts + [part];
    }

    method AddDistinctPart(value: string)
      modifies this
      ensures Snapshot() == old(Snapshot()).(distinctPart := Some(value))
    {
      distinctPart := Some(value);
    }

    /** AddGroupByPart: creates the list on first use, then appends. */
    method AddGroupByPart(value: string)
      modifies this
      ensures Snapshot() == old(Snapshot()).(groupByParts := Some(Elements(old(groupByParts)) + [value]))
    {
      if groupByParts.None? {
        groupByParts := Some([]);
      }
      groupByParts := Some(groupByParts.value + [value]);
    }

    method AddHavingPart(value: string)
      modifies this
      ensures Snapshot() == old(Snapshot()).(havingParts := Some(Elements(old(havingParts)) + [value]))
    {
      if havingParts.None? {
        havingParts := Some([]);
      }
      havingParts := Some(havingParts.value + [value]);
    }

    method AddWrappingFunction(function_: string)
      modifies this
      ensures Snapshot() == old(Snapshot()).(wrappingFunctions := Some(Elements(old(wrappingFunctions)) + [function_]))
    {
      if wrappingFunctions.None? {
        wrappingFunctions := Some([]);
      }
      wrappingFunctions := Some(wrappingFunctions.value + [function_]);
    }

    method AddUnionPart(unionPart: string)
      modifies this
      ensures Snapshot() == old(Snapshot()).(unionParts := Some(Elements(old(unionParts)) + [unionPart]))
    {
      if unionParts.None? {
        unionParts := Some([]);
      }
      unionParts := Some(unionParts.value + [unionPart]);
    }

    /** AddOffsetPart: the offset text is the format applied to the count. */
    method AddOffsetPart(format: string, count: Int32) returns (r: Outcome)
      modifies this
      ensures r.Pass? <==> StringFormat(format, [IntText(count as int)]).Success?
      ensures r.Fail? ==> Snapshot() == old(Snapshot())
      ensures r.Pass? ==> Snapshot() == old(Snapshot()).(offsetPart := Some(StringFormat(format, [IntText(count as int)]).value))
    {
      var text := StringFormat(format, [IntText(count as int)]);
      if text.Failure? {
        return Fail(text.error);
      }
      offsetPart := Some(text.value);
      r := Pass;
    }

    /** AddLimitPart: the limit text is the format applied to the count. */
    method AddLimitPart(format: string, count: Int32) returns (r: Outcome)
      modifies this
      ensures r.Pass? <==> StringFormat(format, [IntText(count as int)]).Success?
      ensures r.Fail? ==> Snapshot() == old(Snapshot())
      ensures r.Pass? ==> Snapshot() == old(Snapshot()).(limitPart := Some(StringFormat(format, [IntText(count as int)]).value))
    {
      var text := StringFormat(format, [IntText(count as int)]);
      if text.Failure? {
        return Fail(text.error);
      }
      limitPart := Some(text.value);
      r := Pass;
    }

    /** AddOrderByPart: the joined orderings go to the front of the list. */
    method AddOrderByPart(orderings: seq<string>)
      modifies this
      ensures Snapshot() == old(Snapshot()).(orderByParts := [Join(orderings, ", ")] + old(orderByParts))
      ensures orderByParts == OrderByAfter(old(orderByParts), [orderings])
    {
      orderByParts := [Join(orderings, ", ")] + orderByParts;
    }

    /** ApplyLetParts: appends the LET clause to the text built so far. */
    method ApplyLetParts(sb: string) returns (r: string)
      ensures r == sb + LetText(letParts)
    {
      r := sb;
      for i := 0 to |letParts|
        invariant r == sb + LetText(letParts[..i])
      {
        assert letParts[..i + 1][..i] == letParts[..i];
        r := r + (if i == 0 then " LET " else ", ");
        r := r + letParts[i].itemName + " = " + letParts[i].value;
      }
      assert letParts[..|letParts|] == letParts;
    }

    /** The main extent followed by every other extent, in insertion order. */
    method AppendExtents(sb: string, render: ExtentPart -> string) returns (r: string)
      ensures r == sb + ExtentsText(extents, render)
    {
      r := sb;
      for i := 0 to |extents|
        invariant r == sb + ExtentsText(extents[..i], render)
      {
        assert extents[..i + 1][..i] == extents[..i];
        r := r + render(extents[i]);
      }
      assert extents[..|extents|] == extents;
    }

    /** EXPLAIN, "SELECT VALUE " and the projection, appended to sb. */
    method AppendHead(sb: string) returns (r: string)
      ensures r == sb + HeadText(explainPart, distinctPart, aggregateFunction, selectPart)
    {
      r := sb;
      if !IsNullOrWhiteSpace(explainPart) {
        r := r + explainPart.value;
      }
      ghost var explained := r;
      r := r + "SELECT VALUE ";
      var distinct := if !IsNullOrWhiteSpace(distinctPart) then distinctPart.value else "";
      var projection;
      if !IsNullOrEmpty(aggregateFunction) {
        projection := aggregateFunction.value + "(" + distinct + Text(selectPart) + ")";
      } else {
        projection := distinct + Text(selectPart);
      }
      assert explained == sb + Marker(explainPart);
      assert projection == Projection(distinctPart, aggregateFunction, selectPart);
      r := r + projection;
      Assoc3(sb, Marker(explainPart), "SELECT VALUE ", projection);
    }

    /** The WHERE clause, appended to sb when there are where parts. */
    method AppendWhere(sb: string) returns (r: string)
      ensures r == sb + ListClause(" WHERE ", Some(whereParts), " AND ")
    {
      r := sb;
      if |whereParts| > 0 {
        r := r + (" WHERE " + Join(whereParts, " AND "));
      }
    }

    /** GROUP BY and HAVING, each appended when its list exists and is not empty. */
    method AppendGrouping(sb: string) returns (r: string)
      ensures r == sb + GroupingText(groupByParts, havingParts)
    {
      r := sb;
      if groupByParts.Some? && |groupByParts.value| > 0 {
        r := r + (" GROUP BY " + Join(groupByParts.value, ", "));
      }
      ghost var grouped := r;
      if havingParts.Some? && |havingParts.value| > 0 {
        r := r + (" HAVING " + Join(havingParts.value, " AND "));
      }
      assert grouped == sb + ListClause(" GROUP BY ", groupByParts, ", ");
      assert r == grouped + ListClause(" HAVING ", havingParts, " AND ");
    }

    /** The union parts, ORDER BY, LIMIT and, after a LIMIT only, OFFSET. */
    method AppendTrail(sb: string) returns (r: string)
      ensures r == sb + TrailText(unionParts, orderByParts, limitPart, offsetPart)
    {
      r := sb;
      if unionParts.Some? {
        r := r + Concat(unionParts.value);
      }
      ghost var unions := r;
      if |orderByParts| > 0 {
        r := r + (" ORDER BY " + Join(orderByParts, ", "));
      }
      ghost var ordered := r;
      if limitPart.Some? {
        r := r + limitPart.value;
      }
      ghost var limited := r;
      if limitPart.Some? && offsetPart.Some? {
        r := r + offsetPart.value;
      }
      assert unions == sb + Concat(Elements(unionParts));
      assert ordered == unions + ListClause(" ORDER BY ", Some(orderByParts), ", ");
      assert limited == ordered + Text(limitPart);
      assert r == limited + OffsetText(limitPart, offsetPart);
      Assoc4(sb, Concat(Elements(unionParts)), ListClause(" ORDER BY ", Some(orderByParts), ", "),
             Text(limitPart), OffsetText(limitPart, offsetPart));
    }

    method BuildSelectQuery(render: ExtentPart -> string) returns (q: string)
      ensures q == SelectQueryText(Snapshot(), render)
    {
      var sb := OpeningText();
      ghost var opening := sb;
      sb := AppendHead(sb);
      ghost var head := sb;
      sb := AppendExtents(sb, render);
      sb := ApplyLetParts(sb);
      sb := AppendWhere(sb);
      Assoc3(head, ExtentsText(extents, render), LetText(letParts), ListClause(" WHERE ", Some(whereParts), " AND "));
      ghost var body := sb;
      sb := AppendGrouping(sb);
      sb := AppendTrail(sb);
      Assoc4(opening, HeadText(explainPart, distinctPart, aggregateFunction, selectPart),
             MainBody(extents, letParts, whereParts, render), GroupingText(groupByParts, havingParts),
             TrailText(unionParts, orderByParts, limitPart, offsetPart));
      assert sb == opening + SelectCore(Snapshot(), render);
      q := AppendClosing(sb);
      assert SelectQueryText(Snapshot(), render) == opening + SelectCore(Snapshot(), render) + Closing(queryType, whereAllPart);
    }

    /** The subquery wrappers' opening text. */
    method OpeningText() returns (r: string)
      ensures r == Opening(queryType, subqueryAnyAllExtentName)
    {
      r := "";
      if queryType == Subquery {
        r := "(";
      } else if queryType == SubqueryAny {
        r := "ANY " + Text(subqueryAnyAllExtentName) + " IN (";
      } else if queryType == SubqueryAll {
        r := "EVERY " + Text(subqueryAnyAllExtentName) + " IN (";
      }
    }

    /** The subquery wrappers' closing text, appended to sb. */
    method AppendClosing(sb: string) returns (r: string)
      ensures r == sb + Closing(queryType, whereAllPart)
    {
      r := sb;
      if queryType == Subquery {
        r := r + ")";
      } else if queryType == SubqueryAny {
        r := r + ") SATISFIES true END";
      } else if queryType == SubqueryAll {
        r := r + (") SATISFIES " + Text(whereAllPart) + " END");
      }
    }

    method BuildMainAnyAllQuery(render: ExtentPart -> string) returns (q: string)
      ensures q == MainAnyAllText(Snapshot(), render)
    {
      var sb := "SELECT VALUE " + (if queryType == MainQueryAny then "true" else "false");
      ghost var start := sb;
      sb := AppendExtents(sb, render);
      sb := ApplyLetParts(sb);
      var hasWhereClause := |whereParts| > 0;
      sb := AppendWhere(sb);
      Assoc3(start, ExtentsText(extents, render), LetText(letParts), ListClause(" WHERE ", Some(whereParts), " AND "));
      if queryType == MainQueryAll {
        sb := sb + (" " + (if hasWhereClause then "AND" else "WHERE") + " NOT (" + Text(whereAllPart) + ")");
        assert " " + "AND" == " AND" && " " + "WHERE" == " WHERE";
      }
      sb := sb + " LIMIT 1";
      q := sb;
    }

    method BuildAggregate() returns (q: string)
      ensures q == AggregateText(Snapshot())
    {
      q := Text(aggregateFunction) + "(" + Text(selectPart) + ")";
    }

    method BuildN1QlQuery(render: ExtentPart -> string) returns (r: Result<string>)
      ensures r == QueryText(Snapshot(), render)
    {
      match queryType {
        case Select =>
          var q := BuildSelectQuery(render);
          r := Success(q);
        case Subquery =>
          var q := BuildSelectQuery(render);
          r := Success(q);
        case SubqueryAny =>
          var q := BuildSelectQuery(render);
          r := Success(q);
        case SubqueryAll =>
          var q := BuildSelectQuery(render);
          r := Success(q);
        case MainQueryAny =>
          var q := BuildMainAnyAllQuery(render);
          r := Success(q);
        case MainQueryAll =>
          var q := BuildMainAnyAllQuery(render);
          r := Success(q);
        case Aggregate =>
          var q := BuildAggregate();
          r := Success(q);
        case Unlisted(name) =>
          r := Failure(InvalidOperation("Unsupported N1QlQueryType: " + name));
      }
    }
  }
}

# Analytics query generation, modelled in Dafny

This project models the text-assembly half of the Couchbase Linq provider's
Analytics (SQL++) query generator. An already parsed LINQ query model is
walked by the analytics query model visitor, which fills a query parts
aggregator with text fragments (select part, extents, LET, WHERE, GROUP BY,
HAVING, ORDER BY, LIMIT, OFFSET, DISTINCT, EXPLAIN, UNION, the ALL
predicate); the aggregator then assembles one query string from a template
chosen by the query shape. Around that core sit the analytics expression
writer (a coalesce chain becomes one `if_missing_or_null(...)` call, a
subquery is compiled by a nested model visitor), the select-projection
transformers that rewrite member accesses on a projected subquery, the
`[DataSet]` attribute and the default data set name provider with its cache.

Files and modules:

- `common.dfy` (`Common`): optional values, results carrying the exceptions
  the generator throws, `String.Join`, decimal integer text, `string.Format`
  over plain `{n}` items.
- `query_model.dfy` (`QueryModel`): the parsed query model and the
  expression tree the visitors read.
- `data_sets.dfy` (`DataSets`): `DataSetAttribute` and
  `DefaultDataSetNameProvider` (a class whose cache is a `map`).
- `projection_transformers.dfy` (`ProjectionTransformers`): the base,
  `New` and `Init` select-projection transformers, as pure functions.
- `extent_names.dfy` (`ExtentNames`): the extent name provider the visitor
  consults (link, resolve, blank, mint, prefix), as a value and as a class.
- `parts_aggregator.dfy` (`PartsAggregator`): the aggregator as a class with
  one field per property, its adders and builders as methods proved against
  the template functions, and the lemmas about the templates.
- `model_visitor.dfy` (`ModelVisitor`): every visit as a function on a value
  snapshot of the state it touches (aggregator parts, name table, grouping
  source, visit status, aggregate flag, grouping registry), and the visitor
  class whose methods are proved to change that state exactly as the
  functions say, throwing exactly when they fail. The visitor's own checks
  are the only source of failure there: rendering an expression and
  compiling a union are total collaborators (see "Left out").
- `expression_visitor.dfy` (`ExpressionVisitor`): the expression writer as a
  class over the shared generation context, with the coalesce `while` loop,
  specified by a function on the written text.

Code the modelled classes call but whose source is not part of this model
(the base N1QL expression writer, `ExtentPart.AppendToStringBuilder`,
`N1QlHelpers.EscapeIdentifier`, `TransformingExpressionVisitor` with the
key transformers, `InnerNestDetectingExpressionVisitor`, and the N1QL
model visitor used for unions) enters as function-valued parameters
(`ModelVisitor.Collaborators`, the writer's `leaf` function).

## Model

| member | source | states |
|---|---|---|
| Common.StringFormat | Src/Couchbase.Linq/QueryGeneration/AnalyticsQueryPartsAggregator.cs:60-63 | string.Format as AddWherePart calls it: every failure is a FormatException |
| Common.FormatLiteral | Src/Couchbase.Linq/QueryGeneration/AnalyticsQueryPartsAggregator.cs:60-63 | brace-free literal text is copied in front of the rest of the output |
| Common.FormatItem | Src/Couchbase.Linq/QueryGeneration/AnalyticsQueryPartsAggregator.cs:60-63 | an item "{d}" is replaced by the d-th argument |
| Common.FormatVerbatim | Src/Couchbase.Linq/QueryGeneration/AnalyticsQueryPartsAggregator.cs:60-63 | "{0}" with one argument yields that argument unchanged, whatever braces it holds |
| Common.FormatBraceFree | Src/Couchbase.Linq/QueryGeneration/AnalyticsQueryPartsAggregator.cs:60-63 | brace-free text formatted with no arguments comes back unchanged |
| DataSets.NewDataSetAttribute | Src/Couchbase.Linq/Analytics/DataSetAttribute.cs:10-18 | construction fails exactly for a null or empty name, with ArgumentException("Value cannot be null or empty.", "name"); otherwise Name equals the argument |
| DataSets.WhiteSpaceNameAccepted | Src/Couchbase.Linq/Analytics/DataSetAttribute.cs:12-15 | a name of spaces only is accepted although it is null-or-white-space |
| DataSets.FindAttribute | Src/Couchbase.Linq/Analytics/DefaultDataSetNameProvider.cs:21 | the attribute declared on the type wins; none is found only when neither the type nor its base chain declares one; a found attribute has a valid name |
| DataSets.FindAttributeNearest | Src/Couchbase.Linq/Analytics/DefaultDataSetNameProvider.cs:21 | an attribute on an ancestor is found when no nearer type declares one (inherit: true) |
| DataSets.DataSetNameOf | Src/Couchbase.Linq/Analytics/DefaultDataSetNameProvider.cs:21-23 | the attribute's name when there is one, else the type's simple name; never empty when an attribute supplies it |
| DataSets.DefaultDataSetNameProvider.constructor | Src/Couchbase.Linq/Analytics/DefaultDataSetNameProvider.cs:9-10 | the cache starts empty |
| DataSets.DefaultDataSetNameProvider.GetDataSetName | Src/Couchbase.Linq/Analytics/DefaultDataSetNameProvider.cs:12-25 | null type: ArgumentNullException("type") and no cache change; otherwise the attribute-or-type name; a hit leaves the cache alone, a miss adds exactly that type |
| DataSets.RepeatedLookup | Src/Couchbase.Linq/Analytics/DefaultDataSetNameProvider.cs:19-24 | two calls for one type return the same name and leave one cache entry for it |
| ProjectionTransformers.SupportedExpressionTypes | Src/Couchbase.Linq/QueryGeneration/ExpressionTransformers/SelectProjectionExpressionTransformerBase.cs:21-30 | exactly one supported node type, member access |
| ProjectionTransformers.FindField | Src/Couchbase.Linq/QueryGeneration/ExpressionTransformers/SelectProjectionExpressionTransformerBase.cs:57-63 | the lowest index whose member matches, or none exactly when no member matches |
| ProjectionTransformers.FindAssignment | Src/Couchbase.Linq/QueryGeneration/ExpressionTransformers/SelectProjectionExpressionTransformerBase.cs:69-79 | the lowest assignment binding for the member; list and member bindings never match; none exactly when no assignment matches |
| ProjectionTransformers.LookupNew | Src/Couchbase.Linq/QueryGeneration/ExpressionTransformers/SelectProjectionNewExpressionTransformer.cs:41-47 | the argument at the first matching member index, present exactly when a member matches |
| ProjectionTransformers.LookupInit | Src/Couchbase.Linq/QueryGeneration/ExpressionTransformers/SelectProjectionInitExpressionTransformer.cs:41-51 | the expression of the first matching assignment binding, present exactly when one matches |
| ProjectionTransformers.BaseTransform | Src/Couchbase.Linq/QueryGeneration/ExpressionTransformers/SelectProjectionExpressionTransformerBase.cs:52-83 | a New receiver gives the first matching argument, a MemberInit receiver the first matching assignment; no match or another receiver returns the input; the result is the input or a part of its receiver |
| ProjectionTransformers.MakeNewTransformer | Src/Couchbase.Linq/QueryGeneration/ExpressionTransformers/SelectProjectionNewExpressionTransformer.cs:26-35 | null reference: ArgumentNullException("querySourceReference") first; then null projection: ArgumentNullException("newExpression"); else the stored pair |
| ProjectionTransformers.MakeInitTransformer | Src/Couchbase.Linq/QueryGeneration/ExpressionTransformers/SelectProjectionInitExpressionTransformer.cs:26-35 | the same two null checks in the same order, with "initExpression" |
| ProjectionTransformers.Transform | Src/Couchbase.Linq/QueryGeneration/ExpressionTransformers/SelectProjectionNewExpressionTransformer.cs:37-51 | through the stored reference a matching member gives the stored projection's part; any other receiver or no match falls back to the base lookup |
| ProjectionTransformers.TransformResultOrigin | Src/Couchbase.Linq/QueryGeneration/ExpressionTransformers/SelectProjectionExpressionTransformerBase.cs:52-83 | a step returns the input, a part of the receiver's projection, or a part of the stored projection |
| ProjectionTransformers.UnmatchedReferenceUnchanged | Src/Couchbase.Linq/QueryGeneration/ExpressionTransformers/SelectProjectionInitExpressionTransformer.cs:37-55 | an access through the reference to a member the projection lacks comes back unchanged |
| ProjectionTransformers.NestedProjectionFlattens | Src/Couchbase.Linq.UnitTests/QueryGeneration/SelectTests.cs:161-184 | e.Name.FirstName over new { Name = new { FirstName = c.FirstName, ... } } rewrites to c.FirstName |
| ProjectionTransformers.TypedProjectionRewrites | Src/Couchbase.Linq.UnitTests/QueryGeneration/SelectTests.cs:83-106 | a typed first projection rewrites a later e.LastName to the source field c.LastName |
| ProjectionTransformers.TransformTree | Src/Couchbase.Linq/QueryGeneration/ExpressionTransformers/SelectProjectionExpressionTransformerBase.cs:21-30 | the whole-tree traversal applies Transform to member accesses only: leaves and subqueries come back unchanged, and coalesce, operator and `new` nodes keep their kind and operator |
| ExtentNames.MintedName | Src/Couchbase.Linq.UnitTests/AnalyticsGeneration/SelectTests.cs:24-25 | a fresh alias is a non-empty back-quoted name such as `Extent1` |
| ExtentNames.LinkTable | Src/Couchbase.Linq/QueryGeneration/AnalyticsQueryModelVisitor.cs:625 | a link keeps the table well formed and changes neither the counter nor the prefix |
| ExtentNames.LinkJoins | Src/Couchbase.Linq/QueryGeneration/AnalyticsQueryModelVisitor.cs:147-148 | after LinkExtents both sources share one alias, the primary's when it had one, and every earlier link still holds |
| ExtentNames.LinkKeepsOthers | Src/Couchbase.Linq/QueryGeneration/AnalyticsQueryModelVisitor.cs:658 | a source in neither class keeps its alias and its class |
| ExtentNames.ResolveTable | Src/Couchbase.Linq/QueryGeneration/AnalyticsQueryModelVisitor.cs:992-995 | the existing alias with no change, or a freshly minted one recorded for the source's class; other classes keep their alias |
| ExtentNames.ResolveIdempotent | Src/Couchbase.Linq/QueryGeneration/AnalyticsQueryModelVisitor.cs:992-995 | resolving a source twice gives the same alias and mints nothing more |
| ExtentNames.UnlinkedTable | Src/Couchbase.Linq/QueryGeneration/AnalyticsQueryModelVisitor.cs:390 | a fresh alias tied to no source; every source keeps its alias |
| ExtentNames.BlankTable | Src/Couchbase.Linq/QueryGeneration/AnalyticsQueryModelVisitor.cs:199 | the source's class resolves to the empty alias; other classes keep theirs |
| ExtentNames.ExtentNameProvider.constructor | Src/Couchbase.Linq/Execution/AnalyticsQueryExecutor.cs:154-160 | an empty table with no prefix |
| ExtentNames.ExtentNameProvider.LinkExtents | Src/Couchbase.Linq/QueryGeneration/AnalyticsQueryModelVisitor.cs:730-731 | the provider's new table is LinkTable of the old one |
| ExtentNames.ExtentNameProvider.GetExtentName | Src/Couchbase.Linq/QueryGeneration/AnalyticsQueryModelVisitor.cs:211 | alias and new table are ResolveTable of the old table |
| ExtentNames.ExtentNameProvider.GetUnlinkedExtentName | Src/Couchbase.Linq/QueryGeneration/AnalyticsQueryModelVisitor.cs:406 | alias and new table are UnlinkedTable of the old table |
| ExtentNames.ExtentNameProvider.SetBlankExtentName | Src/Couchbase.Linq/QueryGeneration/AnalyticsQueryModelVisitor.cs:199 | the new table is BlankTable of the old one |
| ExtentNames.ExtentNameProvider.SetPrefix | Src/Couchbase.Linq/QueryGeneration/AnalyticsQueryModelVisitor.cs:409-416 | only the prefix changes |
| PartsAggregator.QueryText | Src/Couchbase.Linq/QueryGeneration/AnalyticsQueryPartsAggregator.cs:286-314 | fails exactly for a shape the switch does not list, with InvalidOperationException naming it |
| PartsAggregator.ExtentsTextConcat | Src/Couchbase.Linq/QueryGeneration/AnalyticsQueryPartsAggregator.cs:178-187 | extents render in insertion order |
| PartsAggregator.LetTextJoined | Src/Couchbase.Linq/QueryGeneration/AnalyticsQueryPartsAggregator.cs:106-114 | LET parts render as " LET a = v, b = w" in insertion order, nothing when there are none |
| PartsAggregator.ListClauseGrows | Src/Couchbase.Linq/QueryGeneration/AnalyticsQueryPartsAggregator.cs:191-202 | the first part brings the keyword, every later one its separator |
| PartsAggregator.EmptyListsOmitted | Src/Couchbase.Linq/QueryGeneration/AnalyticsQueryPartsAggregator.cs:191-207 | an empty and a never-created GROUP BY, HAVING or UNION list render alike, with no keyword; an empty WHERE list renders nothing |
| PartsAggregator.OffsetRequiresLimit | Src/Couchbase.Linq/QueryGeneration/AnalyticsQueryPartsAggregator.cs:213-220 | without a LIMIT the OFFSET part changes no shape's text |
| PartsAggregator.LimitThenOffset | Src/Couchbase.Linq/QueryGeneration/AnalyticsQueryPartsAggregator.cs:213-220 | LIMIT then OFFSET close the select statement, after everything else |
| PartsAggregator.ShapesWrapSelect | Src/Couchbase.Linq/QueryGeneration/AnalyticsQueryPartsAggregator.cs:144-155 | Subquery, SubqueryAny and SubqueryAll wrap the plain select text in "( )", "ANY x IN ( ) SATISFIES true END" and "EVERY x IN ( ) SATISFIES p END" |
| PartsAggregator.MainAnyAllIgnoresRest | Src/Couchbase.Linq/QueryGeneration/AnalyticsQueryPartsAggregator.cs:242-280 | a main Any/All query depends only on extents, LET, WHERE and the ALL predicate |
| PartsAggregator.MainAnyAllShapes | Src/Couchbase.Linq/QueryGeneration/AnalyticsQueryPartsAggregator.cs:242-280 | "SELECT VALUE true" or "SELECT VALUE false", the shared body, for All " AND NOT (p)" or " WHERE NOT (p)", always " LIMIT 1" |
| PartsAggregator.AggregateShape | Src/Couchbase.Linq/QueryGeneration/AnalyticsQueryPartsAggregator.cs:281-284 | the Aggregate shape is exactly function(select part) and reads nothing else |
| PartsAggregator.AggregateInSelect | Src/Couchbase.Linq/QueryGeneration/AnalyticsQueryPartsAggregator.cs:164-170 | in select shapes a set aggregate function wraps DISTINCT and the select part; an empty one leaves them bare |
| PartsAggregator.OrderByReversed | Src/Couchbase.Linq/QueryGeneration/AnalyticsQueryPartsAggregator.cs:326-329 | the last order-by clause added comes first; orderings of one clause keep their order, joined by ", " |
| PartsAggregator.UseKeysScenario | Src/Couchbase.Linq.UnitTests/AnalyticsGeneration/SelectTests.cs:130-142 | the key-list test's parts assemble to its expected query text |
| PartsAggregator.QueryPartsAggregator.constructor | Src/Couchbase.Linq/QueryGeneration/AnalyticsQueryPartsAggregator.cs:14-20 | every part starts unset or empty, the shape Select |
| PartsAggregator.QueryPartsAggregator.AddWherePart | Src/Couchbase.Linq/QueryGeneration/AnalyticsQueryPartsAggregator.cs:60-63 | the formatted text is appended to WHERE and nothing else changes; a bad format throws FormatException and changes nothing |
| PartsAggregator.QueryPartsAggregator.AddExtent | Src/Couchbase.Linq/QueryGeneration/AnalyticsQueryPartsAggregator.cs:65-68 | appends the extent, nothing else changes |
| PartsAggregator.QueryPartsAggregator.AddLetPart | Src/Couchbase.Linq/QueryGeneration/AnalyticsQueryPartsAggregator.cs:70-73 | appends the LET part, nothing else changes |
| PartsAggregator.QueryPartsAggregator.AddDistinctPart | Src/Couchbase.Linq/QueryGeneration/AnalyticsQueryPartsAggregator.cs:75-78 | sets DISTINCT only |
| PartsAggregator.QueryPartsAggregator.AddGroupByPart | Src/Couchbase.Linq/QueryGeneration/AnalyticsQueryPartsAggregator.cs:83-91 | creates the GROUP BY list on first use, then appends; nothing else changes |
| PartsAggregator.QueryPartsAggregator.AddHavingPart | Src/Couchbase.Linq/QueryGeneration/AnalyticsQueryPartsAggregator.cs:96-104 | creates the HAVING list on first use, then appends; nothing else changes |
| PartsAggregator.QueryPartsAggregator.AddWrappingFunction | Src/Couchbase.Linq/QueryGeneration/AnalyticsQueryPartsAggregator.cs:116-124 | creates the wrapping-function list on first use, then appends; nothing else changes |
| PartsAggregator.QueryPartsAggregator.AddUnionPart | Src/Couchbase.Linq/QueryGeneration/AnalyticsQueryPartsAggregator.cs:126-134 | creates the union list on first use, then appends; nothing else changes |
| PartsAggregator.QueryPartsAggregator.AddOffsetPart | Src/Couchbase.Linq/QueryGeneration/AnalyticsQueryPartsAggregator.cs:316-319 | the offset is the format applied to the count; a bad format changes nothing |
| PartsAggregator.QueryPartsAggregator.AddLimitPart | Src/Couchbase.Linq/QueryGeneration/AnalyticsQueryPartsAggregator.cs:321-324 | the limit is the format applied to the count; a bad format changes nothing |
| PartsAggregator.QueryPartsAggregator.AddOrderByPart | Src/Couchbase.Linq/QueryGeneration/AnalyticsQueryPartsAggregator.cs:326-329 | the joined orderings go to the front of the list, nothing else changes |
| PartsAggregator.QueryPartsAggregator.ApplyLetParts | Src/Couchbase.Linq/QueryGeneration/AnalyticsQueryPartsAggregator.cs:106-114 | the loop appends exactly the LET clause LetTextJoined describes |
| PartsAggregator.QueryPartsAggregator.AppendExtents | Src/Couchbase.Linq/QueryGeneration/AnalyticsQueryPartsAggregator.cs:178-187 | the loop appends every extent's text in insertion order |
| PartsAggregator.QueryPartsAggregator.AppendHead | Src/Couchbase.Linq/QueryGeneration/AnalyticsQueryPartsAggregator.cs:157-176 | EXPLAIN, "SELECT VALUE " and the projection are appended |
| PartsAggregator.QueryPartsAggregator.AppendWhere | Src/Couchbase.Linq/QueryGeneration/AnalyticsQueryPartsAggregator.cs:191-194 | the WHERE clause joined by " AND " is appended, nothing for no parts |
| PartsAggregator.QueryPartsAggregator.AppendGrouping | Src/Couchbase.Linq/QueryGeneration/AnalyticsQueryPartsAggregator.cs:195-202 | GROUP BY and HAVING are appended, each only when its list is non-empty |
| PartsAggregator.QueryPartsAggregator.AppendTrail | Src/Couchbase.Linq/QueryGeneration/AnalyticsQueryPartsAggregator.cs:204-220 | unions, ORDER BY, LIMIT and, after a LIMIT only, OFFSET are appended |
| PartsAggregator.QueryPartsAggregator.BuildSelectQuery | Src/Couchbase.Linq/QueryGeneration/AnalyticsQueryPartsAggregator.cs:140-236 | the text is the select template over the current parts |
| PartsAggregator.QueryPartsAggregator.OpeningText | Src/Couchbase.Linq/QueryGeneration/AnalyticsQueryPartsAggregator.cs:144-155 | the opening text of the current subquery shape |
| PartsAggregator.QueryPartsAggregator.AppendClosing | Src/Couchbase.Linq/QueryGeneration/AnalyticsQueryPartsAggregator.cs:222-233 | the closing text of the current subquery shape is appended |
| PartsAggregator.QueryPartsAggregator.BuildMainAnyAllQuery | Src/Couchbase.Linq/QueryGeneration/AnalyticsQueryPartsAggregator.cs:242-280 | the text is the main Any/All template over the current parts |
| PartsAggregator.QueryPartsAggregator.BuildAggregate | Src/Couchbase.Linq/QueryGeneration/AnalyticsQueryPartsAggregator.cs:281-284 | the text is the aggregate template over the current parts |
| PartsAggregator.QueryPartsAggregator.BuildN1QlQuery | Src/Couchbase.Linq/QueryGeneration/AnalyticsQueryPartsAggregator.cs:286-314 | the result is QueryText of the current parts, including its error case |
| ModelVisitor.RenderedAll | Src/Couchbase.Linq/QueryGeneration/AnalyticsQueryModelVisitor.cs:742-745 | each expression is rendered by GetAnalyticsExpression against the same state, in order |
| ModelVisitor.Named | Src/Couchbase.Linq/QueryGeneration/AnalyticsQueryModelVisitor.cs:992-995 | GetExtentName: only the name table changes, as the provider resolves the source |
| ModelVisitor.Linked | Src/Couchbase.Linq/QueryGeneration/AnalyticsQueryModelVisitor.cs:147-148 | LinkExtents through the context: only the name table changes |
| ModelVisitor.ArgumentsOf | Src/Couchbase.Linq/QueryGeneration/AnalyticsQueryModelVisitor.cs:503-507 | the arguments of a new { ... } key, one per field, in order |
| ModelVisitor.WithHint | Src/Couchbase.Linq/QueryGeneration/AnalyticsQueryModelVisitor.cs:220-232 | the first hint creates the list, later hints append; a hint whose kind is already present throws NotSupportedException("Only one <kind> is allowed per extent.") |
| ModelVisitor.WithHints | Src/Couchbase.Linq/QueryGeneration/AnalyticsQueryModelVisitor.cs:747-750 | applying a subquery's hints changes only the extent's hint list |
| ModelVisitor.FirstAnsiJoin | Src/Couchbase.Linq/QueryGeneration/AnalyticsQueryModelVisitor.cs:646-647 | the first ANSI join extent over the source, or none exactly when there is none |
| ModelVisitor.OrderingTexts | Src/Couchbase.Linq/QueryGeneration/AnalyticsQueryModelVisitor.cs:552-556 | each ordering is its rendered expression followed by " ASC" or " DESC" |
| ModelVisitor.SelectNames | Src/Couchbase.Linq/QueryGeneration/AnalyticsQueryModelVisitor.cs:308-316 | the extents' item names in order, followed by the LET parts' item names in order, and nothing else |
| ModelVisitor.ExtentSelectParameters | Src/Couchbase.Linq/QueryGeneration/AnalyticsQueryModelVisitor.cs:308-317 | no extents and no LET parts select the empty list; a lone extent selects exactly its item name |
| ModelVisitor.LetNameAppended | Src/Couchbase.Linq/QueryGeneration/AnalyticsQueryModelVisitor.cs:312-316 | one more LET part adds ", " and its name at the end of the select list, or is the whole list when the list was empty |
| ModelVisitor.SelectParameters | Src/Couchbase.Linq/QueryGeneration/AnalyticsQueryModelVisitor.cs:274-302 | an aggregated query source reference selects "*"; outside a grouping subquery every other selector is rendered unchanged; after a grouping subquery a `new` or member-init selector is regrouped before GetAnalyticsExpression regroups it again |
| ModelVisitor.Rendered | Src/Couchbase.Linq/QueryGeneration/AnalyticsQueryModelVisitor.cs:979-990 | outside a grouping subquery the expression is rendered as is; after one it is first rewritten through the grouping registry (the contract is the function's definition) |
| ModelVisitor.PlainSubquery | Src/Couchbase.Linq/QueryGeneration/AnalyticsQueryModelVisitor.cs:722-727 | a join or nest subquery with a result operator, or whose main from is not a constant, is refused; one over a data set with no result operator is accepted |
| ModelVisitor.WherePartAsWritten | Src/Couchbase.Linq/QueryGeneration/AnalyticsQueryModelVisitor.cs:332 | the as-written where part: a brace-free predicate comes back unchanged; BracedLiteralRejected gives the input it fails on |
| ModelVisitor.WhereStep | Src/Couchbase.Linq/QueryGeneration/AnalyticsQueryModelVisitor.cs:319-340 | a WHERE part is added after the old ones, or after a grouping subquery a HAVING part and never a WHERE part; with more than one extent the extents become those the inner nest detector leaves, otherwise they are kept; status, shape and names are unchanged |
| ModelVisitor.OrderByStep | Src/Couchbase.Linq/QueryGeneration/AnalyticsQueryModelVisitor.cs:544-561 | inside a grouping subquery nothing changes; otherwise the clause's orderings go to the front of ORDER BY |
| ModelVisitor.UseKeysStep | Src/Couchbase.Linq/QueryGeneration/AnalyticsQueryModelVisitor.cs:207-213 | one more WHERE part "META(alias).id IN keys", the alias being the one the main from clause resolves to; nothing else in the parts changes |
| ModelVisitor.HintStep | Src/Couchbase.Linq/QueryGeneration/AnalyticsQueryModelVisitor.cs:215-218 | with no extent the indexer throws; otherwise only the first extent's hints change |
| ModelVisitor.MemberFrom | Src/Couchbase.Linq/QueryGeneration/AnalyticsQueryModelVisitor.cs:672-682 | an INNER UNNEST extent for the additional from clause |
| ModelVisitor.ConstantJoin | Src/Couchbase.Linq/QueryGeneration/AnalyticsQueryModelVisitor.cs:778-803 | fails exactly when the inner sequence is not a data set, with "N1QL Joins Must Be Against IAnalyticsDataSetQueryable"; otherwise an ANSI INNER JOIN extent and only names change |
| ModelVisitor.JoinExtent | Src/Couchbase.Linq/QueryGeneration/AnalyticsQueryModelVisitor.cs:715-769 | an ANSI INNER JOIN extent; an inner sequence that is neither a constant nor a plain subquery is refused with "Unsupported Join Inner Sequence" |
| ModelVisitor.NestJoinExtent | Src/Couchbase.Linq/QueryGeneration/AnalyticsQueryModelVisitor.cs:928-975 | a LEFT NEST extent whose query source is the group join and whose alias is shared with the join clause; the same refusal as a join |
| ModelVisitor.ConstantNest | Src/Couchbase.Linq/QueryGeneration/AnalyticsQueryModelVisitor.cs:890-918 | fails exactly when the inner sequence is not a data set; otherwise a NEST (LEFT when outer) on "META(alias).id IN" the key selector |
| ModelVisitor.NestExtent | Src/Couchbase.Linq/QueryGeneration/AnalyticsQueryModelVisitor.cs:820-882 | an ANSI nest extent; an unsupported inner sequence is refused with "Unsupported Nest Inner Sequence" |
| ModelVisitor.JoinStep | Src/Couchbase.Linq/QueryGeneration/AnalyticsQueryModelVisitor.cs:697-706 | one more extent and nothing else in the parts changes |
| ModelVisitor.GroupJoinStep | Src/Couchbase.Linq/QueryGeneration/AnalyticsQueryModelVisitor.cs:688-695 | one more extent and nothing else in the parts changes |
| ModelVisitor.NestStep | Src/Couchbase.Linq/QueryGeneration/AnalyticsQueryModelVisitor.cs:809-812 | one more extent and nothing else in the parts changes |
| ModelVisitor.AnyStep | Src/Couchbase.Linq/QueryGeneration/AnalyticsQueryModelVisitor.cs:379-392 | Subquery becomes SubqueryAny, anything else MainQueryAny; status, prefix and links are kept |
| ModelVisitor.AllStep | Src/Couchbase.Linq/QueryGeneration/AnalyticsQueryModelVisitor.cs:393-418 | Subquery becomes SubqueryAll, anything else MainQueryAll; the ALL predicate is set; in a subquery the prefix ends as null |
| ModelVisitor.GroupByGrows | Src/Couchbase.Linq/QueryGeneration/AnalyticsQueryModelVisitor.cs:505-507 | each key text adds one GROUP BY part at the end |
| ModelVisitor.GroupStep | Src/Couchbase.Linq/QueryGeneration/AnalyticsQueryModelVisitor.cs:492-538 | one GROUP BY part per key (per argument of a new { ... } key); an element selector that is not a source reference throws NotSupportedException; a missing grouping source throws NullReferenceException |
| ModelVisitor.GroupKeys | Src/Couchbase.Linq/QueryGeneration/AnalyticsQueryModelVisitor.cs:499-524 | only the GROUP BY list and the registry change |
| ModelVisitor.PartStep | Src/Couchbase.Linq/QueryGeneration/AnalyticsQueryModelVisitor.cs:344-378 | Take, Skip, First, Single, Distinct, Explain and ToQueryRequest change only the LIMIT, OFFSET, DISTINCT and EXPLAIN parts |
| ModelVisitor.ContainsStep | Src/Couchbase.Linq/QueryGeneration/AnalyticsQueryModelVisitor.cs:419-424 | the rendered item followed by " IN " is appended to the wrapping functions, nothing else changes |
| ModelVisitor.UnionStep | Src/Couchbase.Linq/QueryGeneration/AnalyticsQueryModelVisitor.cs:454-471 | fails exactly when the second source is not a subquery; otherwise only the union parts change |
| ModelVisitor.OperatorStep | Src/Couchbase.Linq/QueryGeneration/AnalyticsQueryModelVisitor.cs:342-478 | a result operator keeps the status and the select part; only Any and All change the shape |
| ModelVisitor.QueryOperatorStep | Src/Couchbase.Linq/QueryGeneration/AnalyticsQueryModelVisitor.cs:379-475 | DefaultIfEmpty and unmapped operators throw NotSupportedException naming them; the others keep status and select part |
| ModelVisitor.OperatorsFrom | Src/Couchbase.Linq/QueryGeneration/AnalyticsQueryModelVisitor.cs:90 | operators visited in order keep status and select part; without Any or All the shape too |
| ModelVisitor.SelectStep | Src/Couchbase.Linq/QueryGeneration/AnalyticsQueryModelVisitor.cs:234-258 | only the select part is set |
| ModelVisitor.VisitModel | Src/Couchbase.Linq/QueryGeneration/AnalyticsQueryModelVisitor.cs:85-103 | main from clause, body clauses, result operators, then the select clause unless inside a grouping subquery or after a union sort subquery |
| ModelVisitor.MainFrom | Src/Couchbase.Linq/QueryGeneration/AnalyticsQueryModelVisitor.cs:106-163 | a main from clause other than a subquery keeps status and select part, and, unless it references a source, the shape |
| ModelVisitor.PlainMainFrom | Src/Couchbase.Linq/QueryGeneration/AnalyticsQueryModelVisitor.cs:108-160 | the same for every main from clause but a subquery |
| ModelVisitor.ExtentMainFrom | Src/Couchbase.Linq/QueryGeneration/AnalyticsQueryModelVisitor.cs:108-116 | a data set or a constant adds one FROM extent; any other source adds none |
| ModelVisitor.MemberMainFrom | Src/Couchbase.Linq/QueryGeneration/AnalyticsQueryModelVisitor.cs:117-129 | refused exactly outside a subquery, with "Member Access In The Main From Clause Is Only Supported In Subqueries"; otherwise one more extent |
| ModelVisitor.SourceRefFrom | Src/Couchbase.Linq/QueryGeneration/AnalyticsQueryModelVisitor.cs:134-154 | a group join source is an array extent; the enclosing grouping source makes the query an Aggregate linked to the group's alias; any other source throws "From Clause Is Referencing An Invalid Query Source" |
| ModelVisitor.FromExtent | Src/Couchbase.Linq/QueryGeneration/AnalyticsQueryModelVisitor.cs:108-116 | the new FROM extent carries the clause's alias; nothing else in the parts changes |
| ModelVisitor.ArrayFrom | Src/Couchbase.Linq/QueryGeneration/AnalyticsQueryModelVisitor.cs:165-172 | one more extent, select part and shape kept |
| ModelVisitor.SubQueryFrom | Src/Couchbase.Linq/QueryGeneration/AnalyticsQueryModelVisitor.cs:174-205 | a grouping subquery ends in AfterGroupSubquery, a union subquery in AfterUnionSortSubquery; any other subquery throws NotSupportedException |
| ModelVisitor.GroupingSubQuery | Src/Couchbase.Linq/QueryGeneration/AnalyticsQueryModelVisitor.cs:176-186 | the grouping subquery ends in AfterGroupSubquery |
| ModelVisitor.UnionSortSubQuery | Src/Couchbase.Linq/QueryGeneration/AnalyticsQueryModelVisitor.cs:187-200 | the union subquery ends in AfterUnionSortSubquery and the outer alias is blank |
| ModelVisitor.BodyFrom | Src/Couchbase.Linq/QueryGeneration/AnalyticsQueryModelVisitor.cs:88 | body clauses never change status, shape or select part |
| ModelVisitor.BodyClause | Src/Couchbase.Linq/QueryGeneration/AnalyticsQueryModelVisitor.cs:88 | one body clause never changes status, shape or select part |
| ModelVisitor.SimpleClause | Src/Couchbase.Linq/QueryGeneration/AnalyticsQueryModelVisitor.cs:319-340 | a where, order-by, key or hint clause never changes status, shape or select part |
| ModelVisitor.AdditionalFrom | Src/Couchbase.Linq/QueryGeneration/AnalyticsQueryModelVisitor.cs:567-592 | an additional from clause never changes status, shape or select part |
| ModelVisitor.MemberAdditionalFrom | Src/Couchbase.Linq/QueryGeneration/AnalyticsQueryModelVisitor.cs:567-592 | refused exactly when the source is not a member access, with "N1QL Does Not Support This Type Of From Clause"; otherwise one more extent |
| ModelVisitor.MemberUnnest | Src/Couchbase.Linq/QueryGeneration/AnalyticsQueryModelVisitor.cs:575-576 | exactly one INNER UNNEST extent over the rendered member, under the clause's alias |
| ModelVisitor.SubQueryFromExpression | Src/Couchbase.Linq/QueryGeneration/AnalyticsQueryModelVisitor.cs:600-634 | a subquery additional from clause never changes status, shape or select part |
| ModelVisitor.GroupJoinSubQueryFrom | Src/Couchbase.Linq/QueryGeneration/AnalyticsQueryModelVisitor.cs:604-610 | a main from clause that is not a source reference is refused; otherwise the extent count is unchanged |
| ModelVisitor.FlattenGroupJoin | Src/Couchbase.Linq/QueryGeneration/AnalyticsQueryModelVisitor.cs:643-664 | refused exactly when no ANSI join extent has the referenced source; otherwise the extent count is unchanged |
| ModelVisitor.UnnestFrom | Src/Couchbase.Linq/QueryGeneration/AnalyticsQueryModelVisitor.cs:611-626 | one more UNNEST extent at the end, LEFT when the subquery has DefaultIfEmpty, INNER otherwise |
| ModelVisitor.UseKeysFormat | Src/Couchbase.Linq/QueryGeneration/AnalyticsQueryModelVisitor.cs:207-213 | the key format gives "META(alias).id IN keys" |
| ModelVisitor.TwoItemFormat | Src/Couchbase.Linq/QueryGeneration/AnalyticsQueryModelVisitor.cs:207-213 | a two-item format substitutes both arguments in place |
| ModelVisitor.CountFormat | Src/Couchbase.Linq/QueryGeneration/AnalyticsQueryModelVisitor.cs:344-353 | " LIMIT {0}" and " OFFSET {0}" give the count's decimal text |
| ModelVisitor.BracedLiteralRejected | Src/Couchbase.Linq/QueryGeneration/AnalyticsQueryModelVisitor.cs:332 | the as-written WHERE part throws FormatException for a predicate holding a literal '{x}' |
| ModelVisitor.WherePart | Src/Couchbase.Linq/QueryGeneration/AnalyticsQueryModelVisitor.cs:332 | the corrected WHERE part is the rendered predicate itself, for every predicate |
| ModelVisitor.CountOperatorTexts | Src/Couchbase.Linq/QueryGeneration/AnalyticsQueryModelVisitor.cs:344-366 | Take gives " LIMIT n", Skip " OFFSET n", First " LIMIT 1", Single " LIMIT 2" |
| ModelVisitor.MarkerOperatorTexts | Src/Couchbase.Linq/QueryGeneration/AnalyticsQueryModelVisitor.cs:367-378 | Distinct sets "DISTINCT ", Explain sets "EXPLAIN ", ToQueryRequest changes nothing; nothing else changes |
| ModelVisitor.AggregateOperatorTexts | Src/Couchbase.Linq/QueryGeneration/AnalyticsQueryModelVisitor.cs:429-453 | Average, Count, LongCount, Max, Min and Sum set AVG, COUNT, COUNT, MAX, MIN and SUM and mark the query aggregated; nothing else changes |
| ModelVisitor.UnionTexts | Src/Couchbase.Linq/QueryGeneration/AnalyticsQueryModelVisitor.cs:454-488 | Union appends " UNION " and Concat " UNION ALL " before the compiled query; a non-subquery source throws |
| ModelVisitor.SecondHintRefused | Src/Couchbase.Linq/QueryGeneration/AnalyticsQueryModelVisitor.cs:220-232 | a first hint is accepted and a second of the same kind on that extent is refused |
| ModelVisitor.GroupSubquerySkipsSelect | Src/Couchbase.Linq/QueryGeneration/AnalyticsQueryModelVisitor.cs:92-102 | a grouping subquery never writes the select part |
| ModelVisitor.UnionSortKeepsInnerSelect | Src/Couchbase.Linq/QueryGeneration/AnalyticsQueryModelVisitor.cs:92-102 | after a union sort subquery the outer select clause is skipped |
| ModelVisitor.SubqueryParenthesised | Src/Couchbase.Linq/QueryGeneration/AnalyticsQueryModelVisitor.cs:73-76 | a subquery over a data set without Any or All keeps the Subquery shape and its text is the select statement in parentheses |
| ModelVisitor.GenerationContext.constructor | Src/Couchbase.Linq/Execution/AnalyticsQueryExecutor.cs:154-160 | a fresh context with an empty name table and no grouping source |
| ModelVisitor.QueryModelVisitor.constructor | Src/Couchbase.Linq/QueryGeneration/AnalyticsQueryModelVisitor.cs:68-77 | a fresh aggregator in the initial state, the Subquery shape when in subquery mode |
| ModelVisitor.QueryModelVisitor.GetQuery | Src/Couchbase.Linq/QueryGeneration/AnalyticsQueryModelVisitor.cs:79-82 | the query text of the aggregator's parts |
| ModelVisitor.QueryModelVisitor.GetAnalyticsExpression | Src/Couchbase.Linq/QueryGeneration/AnalyticsQueryModelVisitor.cs:979-990 | the expression regrouped after a grouping subquery, then rendered; rendering is total here, so it never throws (see Left out) |
| ModelVisitor.QueryModelVisitor.GetExtentName | Src/Couchbase.Linq/QueryGeneration/AnalyticsQueryModelVisitor.cs:992-995 | state and alias are Named of the old state |
| ModelVisitor.QueryModelVisitor.VisitQueryModel | Src/Couchbase.Linq/QueryGeneration/AnalyticsQueryModelVisitor.cs:85-103 | throws exactly when VisitModel fails, with its exception; otherwise leaves VisitModel's state |
| ModelVisitor.QueryModelVisitor.VisitMainFromClause | Src/Couchbase.Linq/QueryGeneration/AnalyticsQueryModelVisitor.cs:106-163 | matches MainFrom |
| ModelVisitor.QueryModelVisitor.VisitPlainMainFromClause | Src/Couchbase.Linq/QueryGeneration/AnalyticsQueryModelVisitor.cs:108-160 | matches PlainMainFrom |
| ModelVisitor.QueryModelVisitor.VisitExtentMainFromClause | Src/Couchbase.Linq/QueryGeneration/AnalyticsQueryModelVisitor.cs:108-116 | leaves ExtentMainFrom's state |
| ModelVisitor.QueryModelVisitor.VisitMemberMainFromClause | Src/Couchbase.Linq/QueryGeneration/AnalyticsQueryModelVisitor.cs:117-129 | matches MemberMainFrom |
| ModelVisitor.QueryModelVisitor.VisitSourceRefFromClause | Src/Couchbase.Linq/QueryGeneration/AnalyticsQueryModelVisitor.cs:134-154 | matches SourceRefFrom |
| ModelVisitor.QueryModelVisitor.AddFromExtent | Src/Couchbase.Linq/QueryGeneration/AnalyticsQueryModelVisitor.cs:108-116 | leaves FromExtent's state |
| ModelVisitor.QueryModelVisitor.VisitArrayFromClause | Src/Couchbase.Linq/QueryGeneration/AnalyticsQueryModelVisitor.cs:165-172 | leaves ArrayFrom's state |
| ModelVisitor.QueryModelVisitor.VisitSubQueryFromClause | Src/Couchbase.Linq/QueryGeneration/AnalyticsQueryModelVisitor.cs:174-205 | matches SubQueryFrom |
| ModelVisitor.QueryModelVisitor.VisitGroupingSubQuery | Src/Couchbase.Linq/QueryGeneration/AnalyticsQueryModelVisitor.cs:176-186 | matches GroupingSubQuery |
| ModelVisitor.QueryModelVisitor.VisitUnionSortSubQuery | Src/Couchbase.Linq/QueryGeneration/AnalyticsQueryModelVisitor.cs:187-200 | matches UnionSortSubQuery |
| ModelVisitor.QueryModelVisitor.VisitBodyClauses | Src/Couchbase.Linq/QueryGeneration/AnalyticsQueryModelVisitor.cs:88 | matches BodyFrom from the first clause |
| ModelVisitor.QueryModelVisitor.VisitBodyClause | Src/Couchbase.Linq/QueryGeneration/AnalyticsQueryModelVisitor.cs:88 | matches BodyClause |
| ModelVisitor.QueryModelVisitor.VisitSimpleClause | Src/Couchbase.Linq/QueryGeneration/AnalyticsQueryModelVisitor.cs:319-340 | matches SimpleClause |
| ModelVisitor.QueryModelVisitor.VisitWhereClause | Src/Couchbase.Linq/QueryGeneration/AnalyticsQueryModelVisitor.cs:319-340 | leaves WhereStep's state, which uses the corrected where part (see Findings and Left out) |
| ModelVisitor.QueryModelVisitor.VisitOrderByClause | Src/Couchbase.Linq/QueryGeneration/AnalyticsQueryModelVisitor.cs:544-561 | leaves OrderByStep's state |
| ModelVisitor.QueryModelVisitor.VisitUseKeysClause | Src/Couchbase.Linq/QueryGeneration/AnalyticsQueryModelVisitor.cs:207-213 | leaves UseKeysStep's state |
| ModelVisitor.QueryModelVisitor.VisitHintClause | Src/Couchbase.Linq/QueryGeneration/AnalyticsQueryModelVisitor.cs:215-218 | matches HintStep |
| ModelVisitor.QueryModelVisitor.ApplyHints | Src/Couchbase.Linq/QueryGeneration/AnalyticsQueryModelVisitor.cs:747-750 | the extent WithHints gives, or its exception |
| ModelVisitor.QueryModelVisitor.RenderWherePredicates | Src/Couchbase.Linq/QueryGeneration/AnalyticsQueryModelVisitor.cs:742-745 | the subquery's where predicates rendered in order and joined by " AND " |
| ModelVisitor.QueryModelVisitor.VisitMemberFromExpression | Src/Couchbase.Linq/QueryGeneration/AnalyticsQueryModelVisitor.cs:672-682 | state and extent are MemberFrom of the old state |
| ModelVisitor.QueryModelVisitor.VisitAdditionalFromClause | Src/Couchbase.Linq/QueryGeneration/AnalyticsQueryModelVisitor.cs:567-592 | matches AdditionalFrom |
| ModelVisitor.QueryModelVisitor.VisitMemberAdditionalFrom | Src/Couchbase.Linq/QueryGeneration/AnalyticsQueryModelVisitor.cs:571-578 | matches MemberAdditionalFrom |
| ModelVisitor.QueryModelVisitor.AddMemberUnnest | Src/Couchbase.Linq/QueryGeneration/AnalyticsQueryModelVisitor.cs:575-576 | leaves MemberUnnest's state |
| ModelVisitor.QueryModelVisitor.VisitSubQueryFromExpression | Src/Couchbase.Linq/QueryGeneration/AnalyticsQueryModelVisitor.cs:600-634 | matches SubQueryFromExpression |
| ModelVisitor.QueryModelVisitor.VisitGroupJoinSubQueryFrom | Src/Couchbase.Linq/QueryGeneration/AnalyticsQueryModelVisitor.cs:604-610 | matches GroupJoinSubQueryFrom |
| ModelVisitor.QueryModelVisitor.FlattenGroupJoinClause | Src/Couchbase.Linq/QueryGeneration/AnalyticsQueryModelVisitor.cs:643-664 | matches FlattenGroupJoin |
| ModelVisitor.QueryModelVisitor.AddUnnest | Src/Couchbase.Linq/QueryGeneration/AnalyticsQueryModelVisitor.cs:611-626 | leaves UnnestFrom's state |
| ModelVisitor.QueryModelVisitor.VisitConstantExpressionJoinClause | Src/Couchbase.Linq/QueryGeneration/AnalyticsQueryModelVisitor.cs:778-803 | matches ConstantJoin |
| ModelVisitor.QueryModelVisitor.ParseJoinClause | Src/Couchbase.Linq/QueryGeneration/AnalyticsQueryModelVisitor.cs:715-769 | matches JoinExtent |
| ModelVisitor.QueryModelVisitor.VisitJoinClause | Src/Couchbase.Linq/QueryGeneration/AnalyticsQueryModelVisitor.cs:697-706 | matches JoinStep |
| ModelVisitor.QueryModelVisitor.ParseNestJoinClause | Src/Couchbase.Linq/QueryGeneration/AnalyticsQueryModelVisitor.cs:928-975 | matches NestJoinExtent |
| ModelVisitor.QueryModelVisitor.VisitGroupJoinClause | Src/Couchbase.Linq/QueryGeneration/AnalyticsQueryModelVisitor.cs:688-695 | matches GroupJoinStep |
| ModelVisitor.QueryModelVisitor.VisitConstantExpressionNestClause | Src/Couchbase.Linq/QueryGeneration/AnalyticsQueryModelVisitor.cs:890-918 | matches ConstantNest |
| ModelVisitor.QueryModelVisitor.ParseNestClause | Src/Couchbase.Linq/QueryGeneration/AnalyticsQueryModelVisitor.cs:820-882 | matches NestExtent |
| ModelVisitor.QueryModelVisitor.VisitNestClause | Src/Couchbase.Linq/QueryGeneration/AnalyticsQueryModelVisitor.cs:809-812 | matches NestStep |
| ModelVisitor.QueryModelVisitor.VisitResultOperators | Src/Couchbase.Linq/QueryGeneration/AnalyticsQueryModelVisitor.cs:90 | matches OperatorsFrom from the first operator |
| ModelVisitor.QueryModelVisitor.VisitResultOperator | Src/Couchbase.Linq/QueryGeneration/AnalyticsQueryModelVisitor.cs:342-478 | matches OperatorStep |
| ModelVisitor.QueryModelVisitor.VisitQueryOperator | Src/Couchbase.Linq/QueryGeneration/AnalyticsQueryModelVisitor.cs:379-475 | matches QueryOperatorStep |
| ModelVisitor.QueryModelVisitor.VisitPartOperator | Src/Couchbase.Linq/QueryGeneration/AnalyticsQueryModelVisitor.cs:344-378 | leaves PartStep's state |
| ModelVisitor.QueryModelVisitor.AddLimit | Src/Couchbase.Linq/QueryGeneration/AnalyticsQueryModelVisitor.cs:344-348 | only the LIMIT part changes, to " LIMIT n" |
| ModelVisitor.QueryModelVisitor.AddOffset | Src/Couchbase.Linq/QueryGeneration/AnalyticsQueryModelVisitor.cs:349-353 | only the OFFSET part changes, to " OFFSET n" |
| ModelVisitor.QueryModelVisitor.VisitAggregateOperator | Src/Couchbase.Linq/QueryGeneration/AnalyticsQueryModelVisitor.cs:429-453 | sets the aggregate function and marks the query aggregated |
| ModelVisitor.QueryModelVisitor.VisitAnyOperator | Src/Couchbase.Linq/QueryGeneration/AnalyticsQueryModelVisitor.cs:379-392 | leaves AnyStep's state |
| ModelVisitor.QueryModelVisitor.VisitAllOperator | Src/Couchbase.Linq/QueryGeneration/AnalyticsQueryModelVisitor.cs:393-418 | leaves AllStep's state |
| ModelVisitor.QueryModelVisitor.VisitSubqueryAllOperator | Src/Couchbase.Linq/QueryGeneration/AnalyticsQueryModelVisitor.cs:398-417 | leaves AllStep's state, with the prefix set for the predicate and reset to null |
| ModelVisitor.QueryModelVisitor.VisitContainsOperator | Src/Couchbase.Linq/QueryGeneration/AnalyticsQueryModelVisitor.cs:419-424 | leaves ContainsStep's state |
| ModelVisitor.QueryModelVisitor.VisitUnionOperator | Src/Couchbase.Linq/QueryGeneration/AnalyticsQueryModelVisitor.cs:454-471 | matches UnionStep |
| ModelVisitor.QueryModelVisitor.VisitUnion | Src/Couchbase.Linq/QueryGeneration/AnalyticsQueryModelVisitor.cs:480-488 | only the union parts change, by the separator and the compiled query |
| ModelVisitor.QueryModelVisitor.VisitGroupResultOperator | Src/Couchbase.Linq/QueryGeneration/AnalyticsQueryModelVisitor.cs:492-538 | matches GroupStep |
| ModelVisitor.QueryModelVisitor.VisitGroupKeys | Src/Couchbase.Linq/QueryGeneration/AnalyticsQueryModelVisitor.cs:499-524 | leaves GroupKeys's state |
| ModelVisitor.QueryModelVisitor.VisitSelectClause | Src/Couchbase.Linq/QueryGeneration/AnalyticsQueryModelVisitor.cs:234-258 | leaves SelectStep's state |
| ExpressionVisitor.Written | Src/Couchbase.Linq/QueryGeneration/AnalyticsExpressionTreeVisitor.cs:14-62 | a write only appends to the text written so far |
| ExpressionVisitor.ChainWritten | Src/Couchbase.Linq/QueryGeneration/AnalyticsExpressionTreeVisitor.cs:30-47 | the chain's arguments only append to the text |
| ExpressionVisitor.OperandsWritten | Src/Couchbase.Linq/QueryGeneration/AnalyticsExpressionTreeVisitor.cs:14-19 | a generic node's operands only append to the text |
| ExpressionVisitor.CoalesceArgs | Src/Couchbase.Linq/QueryGeneration/AnalyticsExpressionTreeVisitor.cs:28-46 | a coalesce has at least one argument |
| ExpressionVisitor.ArgumentCount | Src/Couchbase.Linq/QueryGeneration/AnalyticsExpressionTreeVisitor.cs:31-47 | N coalesce operators on the right spine give N + 1 arguments |
| ExpressionVisitor.ChainOfLeaves | Src/Couchbase.Linq/QueryGeneration/AnalyticsExpressionTreeVisitor.cs:31-47 | the loop writes ", " before each remaining argument of the chain |
| ExpressionVisitor.CoalesceFlattened | Src/Couchbase.Linq/QueryGeneration/AnalyticsExpressionTreeVisitor.cs:24-52 | a right-nested chain over leaves is one if_missing_or_null call whose arguments are the chain's operands left to right, joined by ", " |
| ExpressionVisitor.LeftCoalesceNested | Src/Couchbase.Linq/QueryGeneration/AnalyticsExpressionTreeVisitor.cs:28 | a coalesce in the left operand becomes a nested call, the outer call's first argument |
| ExpressionVisitor.SubQueryParenthesised | Src/Couchbase.Linq/QueryGeneration/AnalyticsExpressionTreeVisitor.cs:54-62 | a subquery over a data set without Any or All is written as a parenthesised query |
| ExpressionVisitor.ExpressionWriter.constructor | Src/Couchbase.Linq/QueryGeneration/AnalyticsExpressionTreeVisitor.cs:9-12 | a writer over the context with no text written |
| ExpressionVisitor.ExpressionWriter.Visit | Src/Couchbase.Linq/QueryGeneration/AnalyticsExpressionTreeVisitor.cs:14-62 | throws exactly when Written fails, with its exception; otherwise leaves Written's text and names |
| ExpressionVisitor.ExpressionWriter.VisitCoalesceExpression | Src/Couchbase.Linq/QueryGeneration/AnalyticsExpressionTreeVisitor.cs:24-52 | the while loop writes exactly what Written specifies for the coalesce |
| ExpressionVisitor.ExpressionWriter.VisitNode | Src/Couchbase.Linq/QueryGeneration/AnalyticsExpressionTreeVisitor.cs:14-19 | matches Written for a generic node |
| ExpressionVisitor.ExpressionWriter.VisitSubQuery | Src/Couchbase.Linq/QueryGeneration/AnalyticsExpressionTreeVisitor.cs:54-62 | appends the subquery text compiled over the shared context, or throws its exception |
| ExpressionVisitor.SubQueryText | Src/Couchbase.Linq/QueryGeneration/AnalyticsExpressionTreeVisitor.cs:54-62 | a subquery visitor in subquery mode over the same names and grouping source; it fails with the visitor's exception, else with the builder's, else gives the names, grouping source and query text afterwards |
| ExpressionVisitor.Compiler | Src/Couchbase.Linq/QueryGeneration/AnalyticsExpressionTreeVisitor.cs:56-59 | the writer's subquery compiler is SubQueryText over the visitor's collaborators (the contract is its definition) |
| ExpressionVisitor.GetAnalyticsExpression | Src/Couchbase.Linq/QueryGeneration/AnalyticsExpressionTreeVisitor.cs:14-19 | the text of a fresh writer's Written, and the context's names and grouping query source afterwards; the same exception when it fails |

## Left out

- Query execution, the cluster connection, serializer lookup and result parsing (`Execution/AnalyticsQueryExecutor.cs`): I/O, outside the generator.
- The global `DataSetNameProvider.Current` holder: a static mutable slot with no logic.
- Thread safety of the provider's `ConcurrentDictionary`: the cache is a sequential `map`; concurrent `GetOrAdd` races are not modelled.
- Logging (`_log.Debug`) and a null generation context passed to the visitor's constructor.
- The extent name provider's own source is not part of this model; `ExtentNames` models the behaviour the visitor relies on (link, resolve, blank, mint `Extent<n>`, prefix) and is specified, not checked against code.
- `ExtentPart.AppendToStringBuilder`, `N1QlHelpers.EscapeIdentifier`, the base `N1QlExpressionTreeVisitor`, `InnerNestDetectingExpressionVisitor`, `TransformingExpressionVisitor` with `KeyExpressionTransfomer` and `MultiKeyExpressionTransfomer`, and `N1QlQueryModelVisitor` with `CloneForUnion` are not part of this model; they are uninterpreted function parameters.
- ModelVisitor.Rendered: the render collaborator is total, so an exception the expression writer raises while the model visitor renders an expression is not modelled: a nested subquery the visitor refuses (one with a DefaultIfEmpty operator, say) or a node the base writer does not support. The "fails exactly when" contracts of ConstantJoin, ConstantNest, MemberMainFrom, MemberAdditionalFrom, UnionStep, VisitModel and VisitQueryModel therefore cover only the visitor's own throws. The writer's own failures are modelled separately by `ExpressionVisitor.Written` and `ExpressionVisitor.GetAnalyticsExpression`.
- ModelVisitor.QueryModelVisitor.GetAnalyticsExpression: never throws, because rendering is total in the model (see ModelVisitor.Rendered); the source passes on the writer's exceptions at `AnalyticsQueryModelVisitor.cs:989`.
- ModelVisitor.QueryModelVisitor.VisitUnion: the union's compiled query is a total collaborator, so an exception from the union model's own visit (`AnalyticsQueryModelVisitor.cs:480-488`) is not modelled.
- ModelVisitor.Rendered: expression rendering inside the model visitor is a pure function of the name table, so aliases a rendered expression would mint, and a subquery rendered inside a predicate, do not update the visitor's name table or the context's grouping query source; the expression writer in `ExpressionVisitor` models that update on its own.
- ModelVisitor.WhereStep: states how many WHERE or HAVING parts there are and that nothing else changes; the text of the new part is the collaborator's rendering, which carries no further property.
- ModelVisitor.QueryModelVisitor.VisitWhereClause: the visit adds the corrected where part, the rendered predicate verbatim (`WherePart`), and not what `AnalyticsQueryModelVisitor.cs:332` does: the source uses the predicate as a `string.Format` format string, which throws FormatException on a brace in a literal and halves a doubled brace. That behaviour is modelled only by `WherePartAsWritten` and `BracedLiteralRejected` (see Findings); VisitModel and VisitQueryModel never throw it.
- ModelVisitor.WhereStep: the inner nest detector is an uninterpreted collaborator; the model stores the extents it returns, but says nothing about how it changes them. It also follows the corrected where part, as VisitWhereClause does, rather than the format-string behaviour at `AnalyticsQueryModelVisitor.cs:332`.
- ModelVisitor.SelectStep: states that only the select part changes; what the select text is, given the collaborator renderings, is stated by SelectParameters, ExtentSelectParameters and LetNameAppended.
- ModelVisitor.VisitModel: states only that the name table stays well formed; the clause order and the skipped select clause are stated by GroupSubquerySkipsSelect, UnionSortKeepsInnerSelect and SubqueryParenthesised.
- `Convert.ToInt32` on a rendered Take or Skip count: the count is taken as an `Int32` argument; the string-to-integer conversion and its exceptions are not modelled.
- The non-ANSI branches of `ParseJoinClause` (`AnalyticsQueryModelVisitor.cs:752-761`) and `ParseNestClause` (`AnalyticsQueryModelVisitor.cs:847-874`): unreachable, since the constant join and nest visits always return an ANSI part.
- The Expression node the writer's visit methods return (`AnalyticsExpressionTreeVisitor.cs:51, 61`): it is always the input node, and only the written text is modelled.
- Common.StringFormat: recognises "{{", "}}" and plain "{n}" items only; an item with an alignment or a format suffix ("{0,5}", "{0:x}"), which .NET accepts, is treated as malformed. The generator's own formats use plain items only.
- The `WrappingFunctions` list is filled but no builder reads it, so Contains has no effect on the query text in the model either.
- ProjectionTransformers.BaseTransform: a `NewExpression` whose `Members` list is null (a `new T(args)` constructor call with no member list) cannot be represented, since `New` always carries its fields; the source reads `Members.Count` there (`SelectProjectionExpressionTransformerBase.cs:57`, `SelectProjectionNewExpressionTransformer.cs:41`) and would throw NullReferenceException, which the model does not.
- ProjectionTransformers.Transform: the same null `Members` case is not represented. Only the single-node step is modelled; the traversal Remotion performs is the idealised bottom-up `TransformTree`, which does not enter subquery models.

## Findings

| source | as written | input that shows it | evidently intended | confidence | as-written member | corrected member |
|---|---|---|---|---|---|---|
| Src/Couchbase.Linq/QueryGeneration/AnalyticsQueryModelVisitor.cs:332 | the rendered predicate is passed to `AddWherePart` (`AnalyticsQueryPartsAggregator.cs:60-63`) as the `string.Format` format string, with no arguments | a where predicate comparing with the string literal `'{x}'` renders as ``` `Extent1`.name = '{x}' ```, and formatting it throws FormatException | the predicate added verbatim, e.g. `AddWherePart("{0}", predicate)` | not executed | `ModelVisitor.BracedLiteralRejected` | `ModelVisitor.WherePart` |

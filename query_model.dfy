/** The parsed query model the generator consumes: clauses, result operators
    and the value expressions inside them. It is built by the LINQ parser,
    which is not part of this model, and is only read here. */
module QueryModel {
  import Common

  /** Identity of one query source (a from, join, group-join or nest clause). */
  type SourceId = nat

  /** Identity of a CLR member (a property or field). */
  type MemberId = string

  /** The type name of a hint clause; two hints clash when their types are equal. */
  type HintKind = string

  datatype Hint = Hint(kind: HintKind, text: string)

  /** One constructor argument of a `new { ... }` expression together with the
      member it initialises. */
  datatype Field = Field(member: MemberId, arg: Expr)

  /** A member binding of a member-init expression `new T { ... }`. Only
      assignments carry an expression the projection lookups may return. */
  datatype Binding =
    | Assignment(member: MemberId, expr: Expr)
    | ListBinding(member: MemberId)
    | MemberMemberBinding(member: MemberId)

  /** An operand of a generic operator node followed by the text the base
      renderer writes after it. */
  datatype Operand = Operand(expr: Expr, after: string)

  /** Value expressions. `Node` stands for every operator the base expression
      renderer handles itself: it writes `head`, then each operand followed
      by its trailing text, visiting operands through the same renderer. */
  datatype Expr =
    | Constant(text: string)
    | DataSet(name: string)
    | SourceRef(source: SourceId, isGroupJoin: bool)
    | Member(receiver: Expr, member: MemberId)
    | New(fields: seq<Field>)
    | MemberInit(ctor: Expr, bindings: seq<Binding>)
    | Coalesce(left: Expr, right: Expr)
    | SubQuery(model: Model)
    | Node(head: string, operands: seq<Operand>)

  /** ExpressionType.Constant covers both literal constants and data-set queryables. */
  predicate IsConstant(e: Expr)
  {
    e.Constant? || e.DataSet?
  }

  datatype MainFromClause = MainFromClause(id: SourceId, fromExpr: Expr)

  datatype AdditionalFromClause = AdditionalFromClause(id: SourceId, fromExpr: Expr)

  datatype JoinClause = JoinClause(id: SourceId, innerSequence: Expr, outerKey: Expr, innerKey: Expr)

  datatype NestClause = NestClause(id: SourceId, innerSequence: Expr, keySelector: Expr, isLeftOuter: bool)

  datatype Direction = Asc | Desc

  datatype Ordering = Ordering(expr: Expr, direction: Direction)

  datatype BodyClause =
    | Where(condition: Expr)
    | OrderBy(orderings: seq<Ordering>)
    | AdditionalFrom(from: AdditionalFromClause)
    | Join(join: JoinClause)
    | GroupJoin(groupJoinId: SourceId, join: JoinClause)
    | Nest(nest: NestClause)
    | UseKeys(keys: Expr)
    | HintClause(hint: Hint)

  datatype ResultOperator =
    | Take(count: Common.Int32)
    | Skip(count: Common.Int32)
    | First
    | Single
    | Distinct
    | Explain
    | ToQueryRequest
    | Any
    | All(condition: Expr)
    | Contains(item: Expr)
    | Group(keySelector: Expr, elementSelector: Expr)
    | Average
    | Count
    | LongCount
    | Max
    | Min
    | Sum
    | Union(source2: Expr)
    | Concat(source2: Expr)
    | DefaultIfEmpty
    | Unmapped(typeName: string)

  datatype Model = Model(
    mainFrom: MainFromClause,
    bodyClauses: seq<BodyClause>,
    resultOperators: seq<ResultOperator>,
    selector: Expr)

  /** `ResultOperators.Any(p => p is GroupResultOperator)`. */
  predicate HasGroup(m: Model)
  {
    exists i :: 0 <= i < |m.resultOperators| && m.resultOperators[i].Group?
  }

  /** `ResultOperators.Any(p => p is UnionResultOperator || p is ConcatResultOperator)`. */
  predicate HasUnionOrConcat(m: Model)
  {
    exists i :: 0 <= i < |m.resultOperators| && (m.resultOperators[i].Union? || m.resultOperators[i].Concat?)
  }

  /** `ResultOperators.OfType<DefaultIfEmptyResultOperator>().Any()`. */
  predicate HasDefaultIfEmpty(m: Model)
  {
    exists i :: 0 <= i < |m.resultOperators| && m.resultOperators[i].DefaultIfEmpty?
  }

  /** The predicates of the where clauses among `clauses`, in order. */
  function WherePredicates(clauses: seq<BodyClause>): (r: seq<Expr>)
    ensures |r| <= |clauses|
  {
    if |clauses| == 0 then []
    else (if clauses[0].Where? then [clauses[0].condition] else []) + WherePredicates(clauses[1..])
  }

  /** The hints among `clauses`, in order. */
  function Hints(clauses: seq<BodyClause>): (r: seq<Hint>)
    ensures |r| <= |clauses|
  {
    if |clauses| == 0 then []
    else (if clauses[0].HintClause? then [clauses[0].hint] else []) + Hints(clauses[1..])
  }
}

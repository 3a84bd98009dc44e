/** AnalyticsExpressionTreeVisitor: the expression writer of the analytics
    generator. It overrides two visits of the base N1QL expression writer: a
    coalesce chain becomes one if_missing_or_null(...) call, and a subquery
    is compiled by a fresh model visitor in subquery mode. Every other node
    is written by the base writer, which is not part of this model: the
    leaves it writes are the `leaf` function, and `Node` is a generic
    operator whose operands the base writer visits through this writer. */
module ExpressionVisitor {
  import opened Common
  import QM = QueryModel
  import opened ExtentNames
  import opened PartsAggregator
  import ModelVisitor

  /** Name tables the provider can hold: representatives are never linked. */
  type Table = t: NameTable | Flat(t) witness NameTable(map[], map[], 0, None)

  /** What a write reads and changes: the context's extent names and
      grouping source (a subquery may mint aliases and set the grouping
      source) and the text written so far. */
  datatype WState = WState(table: Table, grouping: Option<QM.SourceId>, text: string)

  /** Compiling a subquery over the shared context: the names and grouping
      source afterwards and the query text, or the exception raised. */
  type SubQueryCompiler = (Table, Option<QM.SourceId>, QM.Model) -> Result<(Table, Option<QM.SourceId>, string)>

  /** The analytics function a coalesce chain is written as, with its
      opening parenthesis. */
  const OpenCall := "if_missing_or_null("

  /** The nodes the base writer writes on its own. */
  predicate IsLeaf(e: QM.Expr)
  {
    !e.Coalesce? && !e.SubQuery? && !e.Node?
  }

  /** The text written for an expression, appended to the state's text. */
  function Written(s: WState, e: QM.Expr, leaf: (NameTable, QM.Expr) -> string, sub: SubQueryCompiler)
    : (r: Result<WState>)
    ensures r.Success? ==> |r.value.text| >= |s.text| && r.value.text[..|s.text|] == s.text
    decreases e, 1
  {
    match e
    case Coalesce(left, right) =>
      var s1 :- Written(s.(text := s.text + OpenCall), left, leaf, sub);
      var s2 :- ChainWritten(s1, right, leaf, sub);
      Success(s2.(text := s2.text + ")"))
    case SubQuery(m) =>
      var (t, g, q) :- sub(s.table, s.grouping, m);
      Success(WState(t, g, s.text + q))
    case Node(head, _) => OperandsWritten(s.(text := s.text + head), e, 0, leaf, sub)
    case _ => Success(s.(text := s.text + leaf(s.table, e)))
  }

  /** The right operand of a coalesce: each further coalesce on the right
      spine contributes its left operand as one more argument; the last
      right operand is the final argument. */
  function ChainWritten(s: WState, right: QM.Expr, leaf: (NameTable, QM.Expr) -> string, sub: SubQueryCompiler)
    : (r: Result<WState>)
    ensures r.Success? ==> |r.value.text| >= |s.text| && r.value.text[..|s.text|] == s.text
    decreases right, 2
  {
    var s0 := s.(text := s.text + ", ");
    if right.Coalesce? then
      var s1 :- Written(s0, right.left, leaf, sub);
      ChainWritten(s1, right.right, leaf, sub)
    else Written(s0, right, leaf, sub)
  }

  /** The operands of a generic node from index i on, each followed by its
      trailing text. */
  function OperandsWritten(s: WState, node: QM.Expr, i: nat, leaf: (NameTable, QM.Expr) -> string,
                           sub: SubQueryCompiler): (r: Result<WState>)
    requires node.Node? && i <= |node.operands|
    ensures r.Success? ==> |r.value.text| >= |s.text| && r.value.text[..|s.text|] == s.text
    decreases node, 0, |node.operands| - i
  {
    if i == |node.operands| then Success(s)
    else
      assert node.operands[i] in node.operands;
      var s1 :- Written(s, node.operands[i].expr, leaf, sub);
      OperandsWritten(s1.(text := s1.text + node.operands[i].after), node, i + 1, leaf, sub)
  }

  /** VisitSubQuery's compiler: a subquery visitor over the same context
      visits the subquery and builds its query; a visit that throws, or a
      query shape the builder refuses, fails the whole write. */
  function SubQueryText(t: Table, grouping: Option<QM.SourceId>, m: QM.Model, c: ModelVisitor.Collaborators)
    : (r: Result<(Table, Option<QM.SourceId>, string)>)
    ensures var v := ModelVisitor.VisitModel(ModelVisitor.InitialState(t, grouping, true), m, true, c);
      && (v.Failure? ==> r == Failure(v.error))
      && (v.Success? && QueryText(v.value.parts, c.renderExtent).Failure? ==>
            r == Failure(QueryText(v.value.parts, c.renderExtent).error))
      && (r.Success? ==> v.Success? && r.value == (v.value.table, v.value.grouping, QueryText(v.value.parts, c.renderExtent).value))
  {
    var v :- ModelVisitor.VisitModel(ModelVisitor.InitialState(t, grouping, true), m, true, c);
    var q :- QueryText(v.parts, c.renderExtent);
    Success((v.table, v.grouping, q))
  }

  /** The compiler the writer uses, over the model visitor's collaborators. */
  function Compiler(c: ModelVisitor.Collaborators): (r: SubQueryCompiler)
    ensures forall t, grouping, m :: r(t, grouping, m) == SubQueryText(t, grouping, m, c)
  {
    (t, grouping, m) => SubQueryText(t, grouping, m, c)
  }

  // ---------------------------------------------------------------------
  // Properties of the writer

  /** The arguments of the if_missing_or_null call a coalesce becomes: its
      left operand, then the left operands down the right spine, then the
      last right operand. */
  function CoalesceArgs(e: QM.Expr): (r: seq<QM.Expr>)
    ensures |r| >= 1
  {
    if e.Coalesce? then [e.left] + CoalesceArgs(e.right) else [e]
  }

  /** Number of coalesce operators on the right spine. */
  function SpineLength(e: QM.Expr): nat
  {
    if e.Coalesce? then 1 + SpineLength(e.right) else 0
  }

  /** N coalesce operators chained to the right give N + 1 arguments. */
  lemma {:induction false} ArgumentCount(e: QM.Expr)
    ensures |CoalesceArgs(e)| == SpineLength(e) + 1
  {
    if e.Coalesce? {
      ArgumentCount(e.right);
    }
  }

  /** The base writer's text for each of a list of leaves. */
  function LeafTexts(t: NameTable, es: seq<QM.Expr>, leaf: (NameTable, QM.Expr) -> string): (r: seq<string>)
    ensures |r| == |es| && forall i :: 0 <= i < |es| ==> r[i] == leaf(t, es[i])
  {
    seq(|es|, i requires 0 <= i < |es| => leaf(t, es[i]))
  }

  /** A leaf is written by the base writer alone. */
  lemma LeafWritten(s: WState, x: QM.Expr, leaf: (NameTable, QM.Expr) -> string, sub: SubQueryCompiler)
    requires IsLeaf(x)
    ensures Written(s, x, leaf, sub) == Success(s.(text := s.text + leaf(s.table, x)))
  {
  }

  /** Joining a first part before at least one more puts one separator
      between them. */
  lemma JoinFront(x: string, rest: seq<string>, sep: string)
    requires |rest| >= 1
    ensures Join([x] + rest, sep) == x + sep + Join(rest, sep)
  {
    assert ([x] + rest)[0] == x;
    assert ([x] + rest)[1..] == rest;
  }

  /** The leaf texts of a chain: the left operand's text, then the rest. */
  lemma ArgsFront(t: NameTable, e: QM.Expr, leaf: (NameTable, QM.Expr) -> string)
    requires e.Coalesce?
    ensures LeafTexts(t, CoalesceArgs(e), leaf) == [leaf(t, e.left)] + LeafTexts(t, CoalesceArgs(e.right), leaf)
  {
    var args := CoalesceArgs(e);
    var rest := CoalesceArgs(e.right);
    assert args == [e.left] + rest;
    var texts := LeafTexts(t, args, leaf);
    var restTexts := LeafTexts(t, rest, leaf);
    var front := [leaf(t, e.left)] + restTexts;
    assert |texts| == |front|;
    forall i | 0 <= i < |texts|
      ensures texts[i] == front[i]
    {
      if i > 0 {
        assert args[i] == rest[i - 1];
      }
    }
  }

  /** The chain after the left operand: ", " before each remaining argument. */
  lemma {:induction false} ChainOfLeaves(s: WState, right: QM.Expr, leaf: (NameTable, QM.Expr) -> string,
                                         sub: SubQueryCompiler)
    requires forall a | a in CoalesceArgs(right) :: IsLeaf(a)
    ensures ChainWritten(s, right, leaf, sub)
         == Success(s.(text := s.text + ", " + Join(LeafTexts(s.table, CoalesceArgs(right), leaf), ", ")))
    decreases right
  {
    var s0 := s.(text := s.text + ", ");
    if right.Coalesce? {
      assert right.left in CoalesceArgs(right);
      var x := leaf(s.table, right.left);
      LeafWritten(s0, right.left, leaf, sub);
      var s1 := s0.(text := s0.text + x);
      ChainOfLeaves(s1, right.right, leaf, sub);
      var rest := LeafTexts(s.table, CoalesceArgs(right.right), leaf);
      var j := Join(rest, ", ");
      ArgsFront(s.table, right, leaf);
      JoinFront(x, rest, ", ");
      assert s.text + ", " + x + ", " + j == s.text + ", " + (x + ", " + j);
    } else {
      assert right in CoalesceArgs(right);
      LeafWritten(s0, right, leaf, sub);
      assert LeafTexts(s.table, CoalesceArgs(right), leaf) == [leaf(s.table, right)];
      JoinSmall(leaf(s.table, right), "", ", ");
    }
  }

  /** The if_missing_or_null call over the given argument texts. */
  function CallText(args: seq<string>): string
  {
    OpenCall + Join(args, ", ") + ")"
  }

  /** A right-nested coalesce chain over leaves is written as exactly one
      if_missing_or_null call whose arguments are the chain's operands, left
      to right, separated by ", ". */
  lemma CoalesceFlattened(s: WState, e: QM.Expr, leaf: (NameTable, QM.Expr) -> string, sub: SubQueryCompiler)
    requires e.Coalesce?
    requires forall a | a in CoalesceArgs(e) :: IsLeaf(a)
    ensures Written(s, e, leaf, sub) == Success(s.(text := s.text + CallText(LeafTexts(s.table, CoalesceArgs(e), leaf))))
  {
    var s0 := s.(text := s.text + OpenCall);
    assert e.left in CoalesceArgs(e);
    var x := leaf(s.table, e.left);
    LeafWritten(s0, e.left, leaf, sub);
    var s1 := s0.(text := s0.text + x);
    assert forall a | a in CoalesceArgs(e.right) :: a in CoalesceArgs(e);
    ChainOfLeaves(s1, e.right, leaf, sub);
    var rest := LeafTexts(s.table, CoalesceArgs(e.right), leaf);
    ArgsFront(s.table, e, leaf);
    CallFront(s.text, x, rest);
  }

  /** Regrouping of a call's text appended to earlier text. */
  lemma Regroup(pre: string, open: string, x: string, sep: string, y: string, close: string)
    ensures pre + open + x + sep + y + close == pre + (open + (x + sep + y) + close)
  {
  }

  /** The text of a call whose first argument is followed by more. */
  lemma CallFront(pre: string, x: string, rest: seq<string>)
    requires |rest| >= 1
    ensures pre + OpenCall + x + ", " + Join(rest, ", ") + ")" == pre + CallText([x] + rest)
  {
    JoinFront(x, rest, ", ");
    Regroup(pre, OpenCall, x, ", ", Join(rest, ", "), ")");
  }

  /** Only the right spine is flattened: a coalesce as the left operand is
      written as a call of its own, which is the first argument of the
      outer call. */
  lemma LeftCoalesceNested(s: WState, a: QM.Expr, b: QM.Expr, x: QM.Expr, leaf: (NameTable, QM.Expr) -> string,
                           sub: SubQueryCompiler)
    requires IsLeaf(a) && IsLeaf(b) && IsLeaf(x)
    ensures var t := s.table;
      Written(s, QM.Coalesce(QM.Coalesce(a, b), x), leaf, sub)
      == Success(s.(text := s.text + CallText([CallText([leaf(t, a), leaf(t, b)]), leaf(t, x)])))
  {
    var t := s.table;
    var inner := QM.Coalesce(a, b);
    var s0 := s.(text := s.text + OpenCall);
    assert CoalesceArgs(inner) == [a, b];
    assert LeafTexts(t, [a, b], leaf) == [leaf(t, a), leaf(t, b)];
    CoalesceFlattened(s0, inner, leaf, sub);
    var call := CallText([leaf(t, a), leaf(t, b)]);
    var s1 := s0.(text := s0.text + call);
    assert Written(s0, inner, leaf, sub) == Success(s1);
    var s2 := s1.(text := s1.text + ", " + leaf(t, x));
    LeafWritten(s1.(text := s1.text + ", "), x, leaf, sub);
    assert ChainWritten(s1, x, leaf, sub) == Success(s2);
    JoinSmall(call, leaf(t, x), ", ");
    Regroup(s.text, OpenCall, call, ", ", leaf(t, x), ")");
  }

  /** A subquery is compiled to its parenthesised select statement when its
      source is a data set and it has no Any or All operator. */
  lemma SubQueryParenthesised(t: Table, grouping: Option<QM.SourceId>, m: QM.Model, c: ModelVisitor.Collaborators)
    requires m.mainFrom.fromExpr.DataSet?
    requires forall j :: 0 <= j < |m.resultOperators| ==> !m.resultOperators[j].Any? && !m.resultOperators[j].All?
    ensures var r := SubQueryText(t, grouping, m, c);
      r.Success? ==> |r.value.2| >= 2 && r.value.2[0] == '(' && r.value.2[|r.value.2| - 1] == ')'
  {
    ModelVisitor.SubqueryParenthesised(t, grouping, m, c);
    var v := ModelVisitor.VisitModel(ModelVisitor.InitialState(t, grouping, true), m, true, c);
    if v.Success? {
      var q := "(" + SelectCore(v.value.parts, c.renderExtent) + ")";
      assert QueryText(v.value.parts, c.renderExtent) == Success(q);
      assert q[0] == '(' && q[|q| - 1] == ')';
    }
  }

  // ---------------------------------------------------------------------
  // The writer object

  /** A write matches its specification: it throws exactly when the
      specification fails, with the same exception, and otherwise leaves the
      state the specification computes. */
  predicate Matches(r: Outcome, spec: Result<WState>, now: WState)
  {
    && (r.Pass? <==> spec.Success?)
    && (r.Fail? ==> r.error == spec.error)
    && (spec.Success? ==> now == spec.value)
  }

  class ExpressionWriter {
    const context: ModelVisitor.GenerationContext
    const leaf: (NameTable, QM.Expr) -> string
    const c: ModelVisitor.Collaborators
    /** The expression text built so far (the writer's StringBuilder). */
    var text: string

    function State(): WState
      requires Valid()
      reads this, context, context.names
    {
      WState(context.names.Table(), context.groupingQuerySource, text)
    }

    ghost predicate Valid()
      reads context, context.names
    {
      context.names.Valid()
    }

    constructor (context: ModelVisitor.GenerationContext, leaf: (NameTable, QM.Expr) -> string, c: ModelVisitor.Collaborators)
      ensures this.context == context && this.leaf == leaf && this.c == c && text == ""
    {
      this.context := context;
      this.leaf := leaf;
      this.c := c;
      text := "";
    }

    /** Visit: the node's kind chooses the visit. */
    method Visit(e: QM.Expr) returns (r: Outcome)
      requires Valid()
      modifies this, context, context.names
      ensures Valid()
      ensures Matches(r, Written(old(State()), e, leaf, Compiler(c)), State())
      decreases e, 1
    {
      match e {
        case Coalesce(_, _) =>
          r := VisitCoalesceExpression(e);
        case SubQuery(m) =>
          r := VisitSubQuery(m);
        case Node(_, _) =>
          r := VisitNode(e);
        case _ =>
          text := text + leaf(context.names.Table(), e);
          r := Pass;
      }
    }

    /** VisitCoalesceExpression: the left operand, then the right operand
      followed down its chain of coalesce operators, one argument per pass. */
    method VisitCoalesceExpression(e: QM.Expr) returns (r: Outcome)
      requires Valid() && e.Coalesce?
      modifies this, context, context.names
      ensures Valid()
      ensures Matches(r, Written(old(State()), e, leaf, Compiler(c)), State())
      decreases e, 0
    {
      text := text + OpenCall;
      r := Visit(e.left);
      if r.Fail? {
        return;
      }
      ghost var chainStart := State();
      var right: Option<QM.Expr> := Some(e.right);
      while right.Some?
        invariant Valid()
        invariant right.Some? ==> right.value < e
        invariant (if right.Some? then ChainWritten(State(), right.value, leaf, Compiler(c)) else Success(State()))
               == ChainWritten(chainStart, e.right, leaf, Compiler(c))
        decreases right.Some?, if right.Some? then right.value else e
      {
        text := text + ", ";
        if right.value.Coalesce? {
          r := Visit(right.value.left);
          if r.Fail? {
            return;
          }
          right := Some(right.value.right);
        } else {
          r := Visit(right.value);
          if r.Fail? {
            return;
          }
          right := None;
        }
      }
      text := text + ")";
      r := Pass;
    }

    /** A generic node: its head, then each operand and its trailing text. */
    method VisitNode(e: QM.Expr) returns (r: Outcome)
      requires Valid() && e.Node?
      modifies this, context, context.names
      ensures Valid()
      ensures Matches(r, Written(old(State()), e, leaf, Compiler(c)), State())
      decreases e, 0
    {
      text := text + e.head;
      for i := 0 to |e.operands|
        invariant Valid()
        invariant OperandsWritten(State(), e, i, leaf, Compiler(c)) == Written(old(State()), e, leaf, Compiler(c))
      {
        assert e.operands[i] in e.operands;
        r := Visit(e.operands[i].expr);
        if r.Fail? {
          return;
        }
        text := text + e.operands[i].after;
      }
      r := Pass;
    }

    /** VisitSubQuery: a fresh model visitor in subquery mode over the same
      context; its query text is appended. */
    method VisitSubQuery(m: QM.Model) returns (r: Outcome)
      requires Valid()
      modifies this, context, context.names
      ensures Valid()
      ensures Matches(r, Written(old(State()), QM.SubQuery(m), leaf, Compiler(c)), State())
    {
      var visitor := new ModelVisitor.QueryModelVisitor(context, true, c);
      var outcome := visitor.VisitQueryModel(m);
      if outcome.Fail? {
        return outcome;
      }
      var query := visitor.GetQuery();
      if query.Failure? {
        return Fail(query.error);
      }
      text := text + query.value;
      r := Pass;
    }
  }

  /** GetAnalyticsExpression: a new writer over the context writes the
      expression and its text is returned. */
  method GetAnalyticsExpression(e: QM.Expr, context: ModelVisitor.GenerationContext,
                                leaf: (NameTable, QM.Expr) -> string, c: ModelVisitor.Collaborators)
    returns (r: Result<string>)
    requires context.names.Valid()
    modifies context, context.names
    ensures context.names.Valid()
    ensures var spec := Written(WState(old(context.names.Table()), old(context.groupingQuerySource), ""), e, leaf, Compiler(c));
      && (r.Success? <==> spec.Success?)
      && (r.Failure? ==> r.error == spec.error)
      && (spec.Success? ==> r.value == spec.value.text && context.names.Table() == spec.value.table
                            && context.groupingQuerySource == spec.value.grouping)
  {
    var writer := new ExpressionWriter(context, leaf, c);
    var outcome := writer.Visit(e);
    if outcome.Fail? {
      return Failure(outcome.error);
    }
    r := Success(writer.text);
  }
}

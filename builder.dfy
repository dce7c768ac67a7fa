/** How Query turns a token tree into its state: processAST and the process* helpers it calls,
    stated as functions over the query state. A thrown IllegalArgumentException is an
    UnknownNode failure and a NullPointerException is a NullReference failure. */
module Builder {
  import opened Wrappers
  import opened Tokens
  import opened QueryModel

  datatype BuildError =
    | UnknownNode(kind: Kind, text: string)   // "Unknown AST node: ..."
    | NullReference                           // a null AST, child or Function was dereferenced
    | NotAStatement                           // "Expected: a SQL SELECT statement"

  type Aliases = map<Option<string>, AbstractTable>

  /** `ast.getFirstChild().getText()`. */
  function LeafText(n: Node): Result<string, BuildError>
  {
    if n.children == [] then Failure(NullReference) else Success(n.children[0].text)
  }

  /** The function kind an arithmetic operator token selects. */
  function OperatorKind(k: Kind): Option<FunctionKind>
  {
    if k.Plus? then Some(FunctionKind.Plus)
    else if k.Minus? then Some(FunctionKind.Minus)
    else if k.Asterisk? then Some(Multiply)
    else if k.Divide? then Some(FunctionKind.Divide)
    else if k.Power? then Some(FunctionKind.Power)
    else if k.Percent? then Some(Modulo)
    else None
  }

  /** The function kind an aggregate keyword token selects. */
  function AggregateKind(k: Kind): Option<FunctionKind>
  {
    if k.LiteralCount? then Some(Count)
    else if k.LiteralMax? then Some(Max)
    else if k.LiteralMin? then Some(Min)
    else if k.LiteralSum? then Some(Sum)
    else if k.LiteralAvg? then Some(Avg)
    else None
  }

  /** The whole constructor Query(String) after parsing: the root must be a statement. */
  function Build(root: Node): (r: Result<QueryState, BuildError>)
    ensures r == Failure(NotAStatement) <==> !root.kind.SqlStatement?
  {
    if !root.kind.SqlStatement? then Failure(NotAStatement)
    else TopLevel(EmptyQuery(), root.children)
  }

  /** processAST: handle this top-level node, then its following siblings, and only then, if
      this node is the SELECT list, its items. */
  function TopLevel(q: QueryState, chain: seq<Node>): (r: Result<QueryState, BuildError>)
    ensures r.Failure? ==> r.error != NotAStatement
    decreases ChainSize(chain), 1
  {
    if chain == [] then Failure(NullReference)
    else
      var n := chain[0];
      var afterNode :- TopLevelNode(q, n);
      var afterRest :- if |chain| == 1 then Success(afterNode) else TopLevel(afterNode, chain[1..]);
      if n.kind.SelectList? then SelectListOf(afterRest, n.children) else Success(afterRest)
  }

  /** The switch of processAST for one node. */
  function TopLevelNode(q: QueryState, n: Node): (r: Result<QueryState, BuildError>)
    ensures r.Failure? ==> r.error != NotAStatement
    decreases NodeSize(n), 0
  {
    var k := n.kind;
    if k.LiteralSelect? || k.LiteralFrom? || k.Semi? || k.OpenParen? || k.CloseParen?
       || k.SelectList? || k.WhereClause? then Success(q)
    else if k.FromList? then FromListOf(q, n.children)
    else Failure(UnknownNode(k, n.text))
  }

  /** processFromList. */
  function FromListOf(q: QueryState, chain: seq<Node>): (r: Result<QueryState, BuildError>)
    ensures r.Failure? ==> r.error != NotAStatement
    decreases ChainSize(chain), 2
  {
    if chain == [] then Failure(NullReference) else FromItems(q, chain)
  }

  /** The loop of processFromList over the remaining siblings. */
  function FromItems(q: QueryState, chain: seq<Node>): (r: Result<QueryState, BuildError>)
    ensures r.Failure? ==> r.error != NotAStatement
    decreases ChainSize(chain), 1
  {
    if chain == [] then Success(q)
    else
      var next :- FromItem(q, chain[0]);
      FromItems(next, chain[1..])
  }

  /** The switch of processFromList for one node. */
  function FromItem(q: QueryState, n: Node): (r: Result<QueryState, BuildError>)
    ensures r.Failure? ==> r.error != NotAStatement
    decreases NodeSize(n), 0
  {
    var k := n.kind;
    if k.LiteralFrom? || k.Comma? then Success(q)
    else if k.Table? then (var t :- NewTable(n.children); Success(WithFrom(q, t)))
    else if k.SubQuery? then (var t :- NewSubQuery(n.children); Success(WithFrom(q, t)))
    else Failure(UnknownNode(k, n.text))
  }

  /** processNewTable, without the final addFrom. */
  function NewTable(chain: seq<Node>): (r: Result<AbstractTable, BuildError>)
    ensures r.Failure? ==> r.error != NotAStatement
    decreases ChainSize(chain), 2
  {
    if chain == [] then Failure(NullReference) else TableParts(chain, None, None)
  }

  function TableParts(chain: seq<Node>, name: Option<string>, alias: Option<string>): (r: Result<AbstractTable, BuildError>)
    ensures r.Failure? ==> r.error != NotAStatement
    decreases ChainSize(chain), 1
  {
    if chain == [] then Success(AbstractTable.Table(name, alias))
    else
      var n, k := chain[0], chain[0].kind;
      if k.LiteralAs? then TableParts(chain[1..], name, alias)
      else if k.TableName? then (var s :- LeafText(n); TableParts(chain[1..], Some(s), alias))
      else if k.TableAlias? then (var s :- LeafText(n); TableParts(chain[1..], name, Some(s)))
      else Failure(UnknownNode(k, n.text))
  }

  /** processNewSubQuery, without the final addFrom: the statement is built into a fresh Query. */
  function NewSubQuery(chain: seq<Node>): (r: Result<AbstractTable, BuildError>)
    ensures r.Failure? ==> r.error != NotAStatement
    decreases ChainSize(chain), 3
  {
    if chain == [] then Failure(NullReference) else SubQueryParts(chain, [], None)
  }

  /** `statement` is the child chain of the last SQL_STATEMENT seen ([] while none, i.e. null). */
  function SubQueryParts(chain: seq<Node>, statement: seq<Node>, alias: Option<string>): (r: Result<AbstractTable, BuildError>)
    ensures r.Failure? ==> r.error != NotAStatement
    decreases ChainSize(chain) + ChainSize(statement), 2
  {
    if chain == [] then
      var inner :- TopLevel(EmptyQuery(), statement);
      Success(AbstractTable.SubQuery(inner, alias))
    else
      var n, k := chain[0], chain[0].kind;
      if k.LiteralAs? || k.OpenParen? || k.CloseParen? then SubQueryParts(chain[1..], statement, alias)
      else if k.SqlStatement? then SubQueryParts(chain[1..], n.children, alias)
      else if k.TableAlias? then (var s :- LeafText(n); SubQueryParts(chain[1..], statement, Some(s)))
      else Failure(UnknownNode(k, n.text))
  }

  /** processSelectList. */
  function SelectListOf(q: QueryState, chain: seq<Node>): (r: Result<QueryState, BuildError>)
    ensures r.Failure? ==> r.error != NotAStatement
    decreases ChainSize(chain), 2
  {
    if chain == [] then Failure(NullReference) else SelectItems(q, chain)
  }

  /** The loop of processSelectList over the remaining siblings. */
  function SelectItems(q: QueryState, chain: seq<Node>): (r: Result<QueryState, BuildError>)
    ensures r.Failure? ==> r.error != NotAStatement
    decreases ChainSize(chain), 1
  {
    if chain == [] then Success(q)
    else
      var next :- SelectItem(q, chain[0]);
      SelectItems(next, chain[1..])
  }

  /** The switch of processSelectList for one node. */
  function SelectItem(q: QueryState, n: Node): (r: Result<QueryState, BuildError>)
    ensures r.Failure? ==> r.error != NotAStatement
    decreases NodeSize(n), 0
  {
    var k := n.kind;
    if k.Comma? then Success(q)
    else if k.SelectValue? then (var sv :- NewSelect(q.aliasToTable, n.children); Success(WithSelect(q, sv)))
    else Failure(UnknownNode(k, n.text))
  }

  /** processNewSelect, without the final addSelect. */
  function NewSelect(aliases: Aliases, chain: seq<Node>): (r: Result<SelectValue, BuildError>)
    ensures r.Failure? ==> r.error != NotAStatement
    decreases ChainSize(chain), 2
  {
    if chain == [] then Failure(NullReference) else SelectParts(aliases, chain, None, None)
  }

  function SelectParts(aliases: Aliases, chain: seq<Node>, v: Option<Value>, alias: Option<string>): (r: Result<SelectValue, BuildError>)
    ensures r.Failure? ==> r.error != NotAStatement
    decreases ChainSize(chain), 1
  {
    if chain == [] then Success(SelectValue.SelectValue(v, alias))
    else
      var n, k := chain[0], chain[0].kind;
      if k.LiteralAs? then SelectParts(aliases, chain[1..], v, alias)
      else if k.FieldAlias? then (var s :- LeafText(n); SelectParts(aliases, chain[1..], v, Some(s)))
      else if IsValueKind(k) then (var v' :- AbstractValue(aliases, n); SelectParts(aliases, chain[1..], v', alias))
      else Failure(UnknownNode(k, n.text))
  }

  /** processNewAbstractValue: None is the null an operator-less arithmetic node yields. */
  function AbstractValue(aliases: Aliases, n: Node): (r: Result<Option<Value>, BuildError>)
    ensures r.Failure? ==> r.error != NotAStatement
    decreases NodeSize(n), 0
  {
    var k := n.kind;
    if k.Field? then (var f :- FieldOf(aliases, n.children); Success(Some(f)))
    else if k.Constant? then (var s :- LeafText(n); Success(Some(Value.Constant(s))))
    else if k.UnsafeFunction? then NewUnsafeFunction(aliases, n.children)
    else if k.SafeFunction? then NewSafeFunction(aliases, n.children)
    else Failure(UnknownNode(k, n.text))
  }

  /** processNewField: the table is whatever the alias map holds for the alias, possibly null. */
  function FieldOf(aliases: Aliases, chain: seq<Node>): (r: Result<Value, BuildError>)
    ensures r.Failure? ==> r.error != NotAStatement
    decreases ChainSize(chain), 2
  {
    if chain == [] then Failure(NullReference) else FieldParts(aliases, chain, None, None)
  }

  function FieldParts(aliases: Aliases, chain: seq<Node>, table: Option<string>, field: Option<string>): (r: Result<Value, BuildError>)
    ensures r.Failure? ==> r.error != NotAStatement
    decreases ChainSize(chain), 1
  {
    if chain == [] then Success(Value.Field(field, Lookup(aliases, table)))
    else
      var n, k := chain[0], chain[0].kind;
      if k.Dot? then FieldParts(aliases, chain[1..], table, field)
      else if k.TableAlias? then (var s :- LeafText(n); FieldParts(aliases, chain[1..], Some(s), field))
      else if k.FieldName? then (var s :- LeafText(n); FieldParts(aliases, chain[1..], table, Some(s)))
      else Failure(UnknownNode(k, n.text))
  }

  /** processNewUnsafeFunction. */
  function NewUnsafeFunction(aliases: Aliases, chain: seq<Node>): (r: Result<Option<Value>, BuildError>)
    ensures r.Failure? ==> r.error != NotAStatement
    decreases ChainSize(chain), 2
  {
    if chain == [] then Failure(NullReference) else UnsafeParts(aliases, chain, None, None, [])
  }

  /** `first` is firstObj, `kind` is the type of retval (None while gotType is false) and
      `operands` its operand list. */
  function UnsafeParts(aliases: Aliases, chain: seq<Node>, first: Option<Value>, kind: Option<FunctionKind>,
                       operands: seq<Option<Value>>): (r: Result<Option<Value>, BuildError>)
    ensures r.Failure? ==> r.error != NotAStatement
    decreases ChainSize(chain), 1
  {
    if chain == [] then
      Success(if kind.None? then None else Some(Function(kind.value, operands)))
    else
      var n, k := chain[0], chain[0].kind;
      if k.OpenParen? || k.CloseParen? then UnsafeParts(aliases, chain[1..], first, kind, operands)
      else if IsValueKind(k) then
        var v :- AbstractValue(aliases, n);
        if kind.None? then UnsafeParts(aliases, chain[1..], v, kind, operands)
        else UnsafeParts(aliases, chain[1..], first, kind, operands + [v])
      else if OperatorKind(k).Some? then
        if kind.None? then UnsafeParts(aliases, chain[1..], first, OperatorKind(k), [first])
        else UnsafeParts(aliases, chain[1..], first, kind, operands)
      else Failure(UnknownNode(k, n.text))
  }

  /** processNewSafeFunction. */
  function NewSafeFunction(aliases: Aliases, chain: seq<Node>): (r: Result<Option<Value>, BuildError>)
    ensures r.Failure? ==> r.error != NotAStatement
    decreases ChainSize(chain), 2
  {
    if chain == [] then Failure(NullReference) else SafeParts(aliases, chain, None, [])
  }

  /** An operand is evaluated before `retval.add` dereferences retval, so an operand that
      fails reports its own error even when no keyword has been seen yet. */
  function SafeParts(aliases: Aliases, chain: seq<Node>, kind: Option<FunctionKind>,
                     operands: seq<Option<Value>>): (r: Result<Option<Value>, BuildError>)
    ensures r.Failure? ==> r.error != NotAStatement
    decreases ChainSize(chain), 1
  {
    if chain == [] then
      Success(if kind.None? then None else Some(Function(kind.value, operands)))
    else
      var n, k := chain[0], chain[0].kind;
      if k.OpenParen? || k.CloseParen? || k.Asterisk? then SafeParts(aliases, chain[1..], kind, operands)
      else if IsValueKind(k) then
        var v :- AbstractValue(aliases, n);
        if kind.None? then Failure(NullReference)
        else SafeParts(aliases, chain[1..], kind, operands + [v])
      else if AggregateKind(k).Some? then
        if kind.None? then SafeParts(aliases, chain[1..], AggregateKind(k), operands)
        else SafeParts(aliases, chain[1..], kind, operands)
      else Failure(UnknownNode(k, n.text))
  }
}

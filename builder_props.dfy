/** Properties of the builder: what each stage may change, the order in which processAST
    handles the FROM and SELECT lists, which token trees are rejected, and what each
    process* function computes on the trees it accepts, stated against reference definitions
    that read the token sequence from the end. */
module BuilderProperties {
  import opened Wrappers
  import opened Tokens
  import opened QueryModel
  import opened Builder

  // ---------------------------------------------------------------------------------------
  // What each stage may change

  /** `a` is a prefix of `b`. */
  predicate PrefixOf<T(==)>(a: seq<T>, b: seq<T>)
  {
    |a| <= |b| && b[..|a|] == a
  }

  /** The FROM list only adds tables (with their aliases) and keeps the alias map consistent. */
  predicate FromStep(q: QueryState, r: QueryState)
  {
    q.from <= r.from
    && r.(from := q.from, aliasToTable := q.aliasToTable) == q
    && (AliasMapConsistent(q) ==> AliasMapConsistent(r))
  }

  /** The SELECT list only appends to the select list. */
  predicate SelectStep(q: QueryState, r: QueryState)
  {
    PrefixOf(q.select, r.select) && r.(select := q.select) == q
  }

  /** A statement only adds tables and select items; WHERE and every other clause are untouched. */
  predicate StatementStep(q: QueryState, r: QueryState)
  {
    q.from <= r.from && PrefixOf(q.select, r.select)
    && r.(select := q.select, from := q.from, aliasToTable := q.aliasToTable) == q
    && (AliasMapConsistent(q) ==> AliasMapConsistent(r))
  }

  lemma {:induction false} FromItemsStep(q: QueryState, chain: seq<Node>)
    ensures FromItems(q, chain).Success? ==> FromStep(q, FromItems(q, chain).value)
    decreases |chain|
  {
    if chain != [] && FromItem(q, chain[0]).Success? {
      var next := FromItem(q, chain[0]).value;
      assert FromStep(q, next) by {
        var n := chain[0];
        if n.kind.Table? || n.kind.SubQuery? {
          var t := if n.kind.Table? then NewTable(n.children).value else NewSubQuery(n.children).value;
          assert next == WithFrom(q, t);
          if AliasMapConsistent(q) {
            WithFromConsistent(q, t);
          }
        }
      }
      FromItemsStep(next, chain[1..]);
    }
  }

  lemma {:induction false} SelectItemsStep(q: QueryState, chain: seq<Node>)
    ensures SelectItems(q, chain).Success? ==> SelectStep(q, SelectItems(q, chain).value)
    decreases |chain|
  {
    if chain != [] && SelectItem(q, chain[0]).Success? {
      var next := SelectItem(q, chain[0]).value;
      assert SelectStep(q, next);
      SelectItemsStep(next, chain[1..]);
      if SelectItems(q, chain).Success? {
        var r := SelectItems(q, chain).value;
        assert r.select[..|next.select|] == next.select;
        assert r.select[..|q.select|] == next.select[..|q.select|];
      }
    }
  }

  lemma {:induction false} StatementStepTrans(a: QueryState, b: QueryState, c: QueryState)
    requires StatementStep(a, b) && StatementStep(b, c)
    ensures StatementStep(a, c)
  {
    assert c.select[..|a.select|] == c.select[..|b.select|][..|a.select|];
  }

  /** processAST adds tables and select items and nothing else; in particular the WHERE
      clause is skipped, and GROUP BY, HAVING, ORDER BY, LIMIT, OFFSET and the two flags are
      never set by the builder. */
  lemma {:induction false} TopLevelStep(q: QueryState, chain: seq<Node>)
    ensures TopLevel(q, chain).Success? ==> StatementStep(q, TopLevel(q, chain).value)
    decreases |chain|
  {
    if chain != [] && TopLevel(q, chain).Success? {
      var n := chain[0];
      var a := TopLevelNode(q, n).value;
      assert StatementStep(q, a) by {
        assert q.select[..|q.select|] == q.select;
        if n.kind.FromList? {
          assert TopLevelNode(q, n) == FromListOf(q, n.children);
          assert a == FromItems(q, n.children).value;
          FromItemsStep(q, n.children);
        } else {
          assert a == q;
        }
      }
      var b := if |chain| == 1 then a else TopLevel(a, chain[1..]).value;
      assert StatementStep(a, b) by {
        if |chain| > 1 {
          TopLevelStep(a, chain[1..]);
        }
      }
      StatementStepTrans(q, a, b);
      if n.kind.SelectList? {
        var r := SelectListOf(b, n.children).value;
        SelectItemsStep(b, n.children);
        assert b.from <= r.from;
        StatementStepTrans(q, b, r);
      }
    }
  }

  /** What a parsed statement holds: tables and select items only, with the alias map in step
      with the FROM set. */
  lemma BuildResult(root: Node)
    ensures Build(root).Success? ==>
      var q := Build(root).value;
      q.where == {} && q.groupBy == {} && q.having == {} && q.orderBy == []
      && q.limit == 0 && q.offset == 0 && !q.explain && !q.distinct
      && AliasMapConsistent(q)
  {
    if root.kind.SqlStatement? {
      TopLevelStep(EmptyQuery(), root.children);
      EmptyQueryConsistent();
    }
  }

  // ---------------------------------------------------------------------------------------
  // Order of processing in processAST

  /** The first phase: every top-level node's own switch, left to right (FROM lists are
      processed here; SELECT lists are only noted). */
  function FromPhase(q: QueryState, chain: seq<Node>): Result<QueryState, BuildError>
    decreases |chain|
  {
    if chain == [] then Success(q)
    else
      var next :- TopLevelNode(q, chain[0]);
      FromPhase(next, chain[1..])
  }

  /** The second phase: the SELECT lists, from the last one to the first. */
  function SelectPhase(q: QueryState, chain: seq<Node>): Result<QueryState, BuildError>
  {
    if chain == [] then Success(q)
    else
      var next :- SelectPhase(q, chain[1..]);
      if chain[0].kind.SelectList? then SelectListOf(next, chain[0].children) else Success(next)
  }

  /** processAST handles every FROM list (and rejects every unknown top-level node) before it
      looks at any SELECT list, so a select item resolves its table alias against every table
      of the statement, including tables listed after it. */
  lemma {:induction false} TwoPhase(q: QueryState, chain: seq<Node>)
    requires chain != []
    ensures TopLevel(q, chain) == (var mid :- FromPhase(q, chain); SelectPhase(mid, chain))
    decreases |chain|
  {
    var n := chain[0];
    match TopLevelNode(q, n)
    case Failure(_) =>
    case Success(a) =>
      if |chain| > 1 {
        TwoPhase(a, chain[1..]);
      }
  }

  // ---------------------------------------------------------------------------------------
  // Rejected trees

  predicate TopLevelKind(k: Kind)
  {
    k.LiteralSelect? || k.LiteralFrom? || k.Semi? || k.OpenParen? || k.CloseParen?
    || k.SelectList? || k.FromList? || k.WhereClause?
  }

  /** A top-level node of any other kind anywhere in the statement makes processAST fail. */
  lemma {:induction false} TopLevelRejectsUnknown(q: QueryState, chain: seq<Node>, i: nat)
    requires i < |chain| && !TopLevelKind(chain[i].kind)
    ensures TopLevel(q, chain).Failure?
    decreases |chain|
  {
    if i > 0 && TopLevelNode(q, chain[0]).Success? {
      TopLevelRejectsUnknown(TopLevelNode(q, chain[0]).value, chain[1..], i - 1);
    }
  }

  /** A FROM-list node that is not FROM, a comma, a table or a subquery makes it fail. */
  lemma {:induction false} FromItemsRejectsUnknown(q: QueryState, chain: seq<Node>, i: nat)
    requires i < |chain|
    requires var k := chain[i].kind; !(k.LiteralFrom? || k.Comma? || k.Table? || k.SubQuery?)
    ensures FromItems(q, chain).Failure?
    decreases |chain|
  {
    if i > 0 && FromItem(q, chain[0]).Success? {
      FromItemsRejectsUnknown(FromItem(q, chain[0]).value, chain[1..], i - 1);
    }
  }

  /** An empty SELECT or FROM list is a null child: processAST fails. */
  lemma EmptyListsFail(q: QueryState, n: Node)
    requires n.kind.SelectList? || n.kind.FromList?
    requires n.children == []
    ensures TopLevel(q, [n]) == Failure(NullReference)
  {
    if n.kind.SelectList? {
      assert TopLevelNode(q, n) == Success(q);
    } else {
      assert TopLevelNode(q, n) == Failure(NullReference);
    }
  }

  /** An empty statement is a null AST. */
  lemma EmptyStatementFails(root: Node)
    requires root.kind.SqlStatement? && root.children == []
    ensures Build(root) == Failure(NullReference)
  {
  }

  // ---------------------------------------------------------------------------------------
  // Reference definitions: the last token of a kind, read from the end of the sequence

  /** What `pick` yields for the last node it picks, or `d` when it picks none. */
  function LastOf<T>(chain: seq<Node>, pick: Node -> Option<T>, d: T): T
    decreases |chain|
  {
    if chain == [] then d
    else
      match pick(chain[|chain| - 1])
      case Some(x) => x
      case None => LastOf(chain[..|chain| - 1], pick, d)
  }

  /** Everything `pick` yields, in sequence order. */
  function Picks<T>(chain: seq<Node>, pick: Node -> Option<T>): seq<T>
    decreases |chain|
  {
    if chain == [] then []
    else
      (match pick(chain[0]) case Some(x) => [x] case None => []) + Picks(chain[1..], pick)
  }

  /** `d` after the loop body has seen `n`: what `pick` yields for it, or `d` unchanged. */
  function Update<T>(n: Node, pick: Node -> Option<T>, d: T): T
  {
    match pick(n)
    case Some(x) => x
    case None => d
  }

  /** The text under a node of kind `k`. */
  function Leaf(k: Kind): Node -> Option<Option<string>>
  {
    (n: Node) => if n.kind == k && n.children != [] then Some(Some(n.children[0].text)) else None
  }

  /** The text under the last node of kind `k`, None (null) when there is none. */
  function LastLeaf(chain: seq<Node>, k: Kind): Option<string>
  {
    LastOf(chain, Leaf(k), None)
  }

  /** The value a value node builds, None when it builds none (or fails). */
  function ValueOf(aliases: Aliases, n: Node): Option<Value>
  {
    match AbstractValue(aliases, n)
    case Success(v) => v
    case Failure(_) => None
  }

  function ValuePick(aliases: Aliases): Node -> Option<Option<Value>>
  {
    (n: Node) => if IsValueKind(n.kind) then Some(ValueOf(aliases, n)) else None
  }

  function StatementPick(): Node -> Option<seq<Node>>
  {
    (n: Node) => if n.kind.SqlStatement? then Some(n.children) else None
  }

  /** Every node of the sequence satisfies `ok`. */
  predicate All(chain: seq<Node>, ok: Node -> bool)
  {
    forall i :: 0 <= i < |chain| ==> ok(chain[i])
  }

  /** A value node that builds without error. */
  predicate BuildsValue(aliases: Aliases, n: Node)
  {
    IsValueKind(n.kind) && AbstractValue(aliases, n).Success?
  }

  predicate HasText(n: Node)
  {
    n.children != []
  }

  lemma {:induction false} LastOfCons<T>(chain: seq<Node>, pick: Node -> Option<T>, d: T)
    requires chain != []
    ensures LastOf(chain, pick, d) == LastOf(chain[1..], pick, Update(chain[0], pick, d))
    decreases |chain|
  {
    var m := |chain| - 1;
    if m > 0 && pick(chain[m]).None? {
      LastOfCons(chain[..m], pick, d);
      assert chain[..m][1..] == chain[1..][..m - 1];
    }
  }

  lemma AllCons(chain: seq<Node>, ok: Node -> bool)
    requires chain != []
    ensures All(chain, ok) <==> ok(chain[0]) && All(chain[1..], ok)
  {
    if ok(chain[0]) && All(chain[1..], ok) {
      forall i | 0 <= i < |chain|
        ensures ok(chain[i])
      {
        if i > 0 {
          assert chain[i] == chain[1..][i - 1];
        }
      }
    }
  }

  lemma ValuePicksCons(aliases: Aliases, chain: seq<Node>)
    requires chain != []
    ensures Picks(chain, ValuePick(aliases))
         == (if IsValueKind(chain[0].kind) then [ValueOf(aliases, chain[0])] else []) + Picks(chain[1..], ValuePick(aliases))
  {
    if IsValueKind(chain[0].kind) {
      assert ValuePick(aliases)(chain[0]) == Some(ValueOf(aliases, chain[0]));
    } else {
      assert ValuePick(aliases)(chain[0]) == None;
    }
  }

  // ---------------------------------------------------------------------------------------
  // processNewTable

  /** The tokens processNewTable accepts: AS, and TABLE_NAME or TABLE_ALIAS with its text. */
  predicate TableToken(n: Node)
  {
    n.kind.LiteralAs? || ((n.kind.TableName? || n.kind.TableAlias?) && HasText(n))
  }

  lemma {:induction false} TablePartsSpec(chain: seq<Node>, name: Option<string>, alias: Option<string>)
    ensures TableParts(chain, name, alias).Success? <==> All(chain, TableToken)
    ensures TableParts(chain, name, alias).Success? ==>
      TableParts(chain, name, alias).value
        == AbstractTable.Table(LastOf(chain, Leaf(TableName), name), LastOf(chain, Leaf(TableAlias), alias))
    decreases |chain|
  {
    if chain != [] {
      var n := chain[0];
      AllCons(chain, TableToken);
      LastOfCons(chain, Leaf(TableName), name);
      LastOfCons(chain, Leaf(TableAlias), alias);
      TablePartsSpec(chain[1..], Update(n, Leaf(TableName), name), Update(n, Leaf(TableAlias), alias));
    }
  }

  /** A table node is accepted exactly when it holds only AS, TABLE_NAME and TABLE_ALIAS nodes
      (each name and alias with its text child), and the table takes the last name and the
      last alias given, each null when none is given. */
  lemma NewTableSpec(chain: seq<Node>)
    ensures NewTable(chain).Success? <==> chain != [] && All(chain, TableToken)
    ensures NewTable(chain).Success? ==>
      NewTable(chain).value == AbstractTable.Table(LastLeaf(chain, TableName), LastLeaf(chain, TableAlias))
  {
    TablePartsSpec(chain, None, None);
  }

  // ---------------------------------------------------------------------------------------
  // processNewField

  /** The tokens processNewField accepts: dots, and TABLE_ALIAS or FIELD_NAME with its text. */
  predicate FieldToken(n: Node)
  {
    n.kind.Dot? || ((n.kind.TableAlias? || n.kind.FieldName?) && HasText(n))
  }

  lemma {:induction false} FieldPartsSpec(aliases: Aliases, chain: seq<Node>, table: Option<string>, field: Option<string>)
    ensures FieldParts(aliases, chain, table, field).Success? <==> All(chain, FieldToken)
    ensures FieldParts(aliases, chain, table, field).Success? ==>
      FieldParts(aliases, chain, table, field).value
        == Value.Field(LastOf(chain, Leaf(FieldName), field), Lookup(aliases, LastOf(chain, Leaf(TableAlias), table)))
    decreases |chain|
  {
    if chain != [] {
      var n := chain[0];
      AllCons(chain, FieldToken);
      LastOfCons(chain, Leaf(FieldName), field);
      LastOfCons(chain, Leaf(TableAlias), table);
      FieldPartsSpec(aliases, chain[1..], Update(n, Leaf(TableAlias), table), Update(n, Leaf(FieldName), field));
    }
  }

  /** A field node is accepted exactly when it holds only dots, TABLE_ALIAS and FIELD_NAME
      nodes (each with its text child); the field takes the last name given and whatever table
      the alias map holds for the last alias given. */
  lemma FieldSpec(aliases: Aliases, chain: seq<Node>)
    ensures FieldOf(aliases, chain).Success? <==> chain != [] && All(chain, FieldToken)
    ensures FieldOf(aliases, chain).Success? ==>
      FieldOf(aliases, chain).value
        == Value.Field(LastLeaf(chain, FieldName), Lookup(aliases, LastLeaf(chain, TableAlias)))
  {
    FieldPartsSpec(aliases, chain, None, None);
  }

  /** An alias that no table of the FROM list carries is not an error: the field's table is
      null. */
  lemma FieldUnknownAlias(aliases: Aliases, chain: seq<Node>)
    requires FieldOf(aliases, chain).Success?
    requires LastLeaf(chain, TableAlias) !in aliases
    ensures FieldOf(aliases, chain).value == Value.Field(LastLeaf(chain, FieldName), None)
  {
    FieldSpec(aliases, chain);
  }

  /** A field without a table alias resolves through the null key of the alias map: to
      whatever table the map holds for the null alias. */
  lemma FieldWithoutAlias(aliases: Aliases, chain: seq<Node>)
    requires FieldOf(aliases, chain).Success?
    requires forall i :: 0 <= i < |chain| ==> !chain[i].kind.TableAlias?
    ensures FieldOf(aliases, chain).value == Value.Field(LastLeaf(chain, FieldName), Lookup(aliases, None))
  {
    FieldSpec(aliases, chain);
    NoLeaf(chain, TableAlias);
  }

  lemma {:induction false} NoLeaf(chain: seq<Node>, k: Kind)
    requires forall i :: 0 <= i < |chain| ==> chain[i].kind != k
    ensures LastLeaf(chain, k) == None
    decreases |chain|
  {
    if chain != [] {
      var m := |chain| - 1;
      NoLeaf(chain[..m], k);
    }
  }

  // ---------------------------------------------------------------------------------------
  // processNewAbstractValue

  /** A value node is dispatched on its token type: any type other than FIELD, CONSTANT,
      UNSAFE_FUNCTION or SAFE_FUNCTION is rejected with the node's type and text; a constant is
      its child's text (a constant without a child is a null dereference); a field is the
      last FIELD_NAME with the table of the last TABLE_ALIAS; a function is what the function
      builders give for the node's children. */
  lemma AbstractValueSpec(aliases: Aliases, n: Node)
    ensures !IsValueKind(n.kind) ==> AbstractValue(aliases, n) == Failure(UnknownNode(n.kind, n.text))
    ensures n.kind.Constant? ==>
      AbstractValue(aliases, n) == if n.children == [] then Failure(NullReference)
                                   else Success(Some(Value.Constant(n.children[0].text)))
    ensures n.kind.Field? ==>
      (AbstractValue(aliases, n).Success? <==> n.children != [] && All(n.children, FieldToken))
    ensures n.kind.Field? && AbstractValue(aliases, n).Success? ==>
      AbstractValue(aliases, n).value
        == Some(Value.Field(LastLeaf(n.children, FieldName), Lookup(aliases, LastLeaf(n.children, TableAlias))))
    ensures n.kind.UnsafeFunction? ==> AbstractValue(aliases, n) == NewUnsafeFunction(aliases, n.children)
    ensures n.kind.SafeFunction? ==> AbstractValue(aliases, n) == NewSafeFunction(aliases, n.children)
  {
    if n.kind.Field? {
      FieldSpec(aliases, n.children);
    }
  }

  // ---------------------------------------------------------------------------------------
  // processNewSelect

  /** The tokens processNewSelect accepts: AS, FIELD_ALIAS with its text, and values that build. */
  predicate SelectToken(aliases: Aliases, n: Node)
  {
    n.kind.LiteralAs? || (n.kind.FieldAlias? && HasText(n)) || BuildsValue(aliases, n)
  }

  function SelectTokens(aliases: Aliases): Node -> bool
  {
    (n: Node) => SelectToken(aliases, n)
  }

  lemma {:induction false} SelectPartsSpec(aliases: Aliases, chain: seq<Node>, v: Option<Value>, alias: Option<string>)
    ensures SelectParts(aliases, chain, v, alias).Success? <==> All(chain, SelectTokens(aliases))
    ensures SelectParts(aliases, chain, v, alias).Success? ==>
      SelectParts(aliases, chain, v, alias).value
        == SelectValue.SelectValue(LastOf(chain, ValuePick(aliases), v), LastOf(chain, Leaf(FieldAlias), alias))
    decreases |chain|
  {
    if chain != [] {
      var n := chain[0];
      AllCons(chain, SelectTokens(aliases));
      LastOfCons(chain, ValuePick(aliases), v);
      LastOfCons(chain, Leaf(FieldAlias), alias);
      SelectPartsSpec(aliases, chain[1..], Update(n, ValuePick(aliases), v), Update(n, Leaf(FieldAlias), alias));
    }
  }

  /** A select item is accepted exactly when it holds only AS, FIELD_ALIAS (with its text) and
      value nodes that build; it takes the last value given (null when none) and the last
      alias given (null when none). */
  lemma NewSelectSpec(aliases: Aliases, chain: seq<Node>)
    ensures NewSelect(aliases, chain).Success? <==> chain != [] && All(chain, SelectTokens(aliases))
    ensures NewSelect(aliases, chain).Success? ==>
      NewSelect(aliases, chain).value
        == SelectValue.SelectValue(LastOf(chain, ValuePick(aliases), None), LastLeaf(chain, FieldAlias))
  {
    SelectPartsSpec(aliases, chain, None, None);
  }

  // ---------------------------------------------------------------------------------------
  // processSelectList

  /** The nodes processSelectList accepts: commas, and select items that build. */
  predicate SelectListToken(aliases: Aliases, n: Node)
  {
    n.kind.Comma? || (n.kind.SelectValue? && NewSelect(aliases, n.children).Success?)
  }

  function SelectListTokens(aliases: Aliases): Node -> bool
  {
    (n: Node) => SelectListToken(aliases, n)
  }

  /** The select item a SELECT_VALUE node builds. */
  function SelectItemPick(aliases: Aliases): Node -> Option<SelectValue>
  {
    (n: Node) => if n.kind.SelectValue? && NewSelect(aliases, n.children).Success?
                 then Some(NewSelect(aliases, n.children).value) else None
  }

  /** One node of the SELECT list: a comma changes nothing, a select item is appended. */
  lemma SelectItemSpec(q: QueryState, n: Node)
    ensures SelectItem(q, n).Success? <==> SelectListToken(q.aliasToTable, n)
    ensures SelectItem(q, n).Success? ==>
      SelectItem(q, n).value == q.(select := q.select + Picks([n], SelectItemPick(q.aliasToTable)))
  {
    var pick := SelectItemPick(q.aliasToTable);
    assert Picks([n], pick) == (match pick(n) case Some(x) => [x] case None => []) + Picks([n][1..], pick);
    if n.kind.SelectValue? && NewSelect(q.aliasToTable, n.children).Success? {
      assert pick(n) == Some(NewSelect(q.aliasToTable, n.children).value);
    } else {
      assert pick(n) == None;
      assert q.select + [] == q.select;
    }
  }

  /** The SELECT list is accepted exactly when every node is a comma or a select item that
      builds. */
  lemma {:induction false} SelectItemsAccepts(q: QueryState, chain: seq<Node>)
    ensures SelectItems(q, chain).Success? <==> All(chain, SelectListTokens(q.aliasToTable))
    decreases |chain|
  {
    if chain != [] {
      var n := chain[0];
      AllCons(chain, SelectListTokens(q.aliasToTable));
      SelectItemSpec(q, n);
      if SelectItem(q, n).Success? {
        var next := SelectItem(q, n).value;
        SelectItemsAccepts(next, chain[1..]);
      }
    }
  }

  /** An accepted SELECT list appends the items of its SELECT_VALUE nodes, each once and in
      list order, all resolved against the alias map on entry (SelectItemsStep: and it changes
      nothing else). */
  lemma {:induction false} SelectItemsSpec(q: QueryState, chain: seq<Node>)
    requires SelectItems(q, chain).Success?
    ensures SelectItems(q, chain).value.select == q.select + Picks(chain, SelectItemPick(q.aliasToTable))
    decreases |chain|
  {
    if chain == [] {
      assert q.select + [] == q.select;
    } else {
      var n, pick := chain[0], SelectItemPick(q.aliasToTable);
      SelectItemSpec(q, n);
      var next := SelectItem(q, n).value;
      assert SelectItemPick(next.aliasToTable) == pick;
      SelectItemsSpec(next, chain[1..]);
      assert Picks(chain, pick) == Picks([n], pick) + Picks(chain[1..], pick);
    }
  }

  /** processSelectList: an empty list is a null dereference; otherwise as SelectItemsSpec. */
  lemma SelectListSpec(q: QueryState, chain: seq<Node>)
    ensures SelectListOf(q, chain).Success? <==> chain != [] && All(chain, SelectListTokens(q.aliasToTable))
    ensures SelectListOf(q, chain).Success? ==>
      SelectListOf(q, chain).value == q.(select := q.select + Picks(chain, SelectItemPick(q.aliasToTable)))
  {
    SelectItemsAccepts(q, chain);
    if SelectListOf(q, chain).Success? {
      SelectItemsSpec(q, chain);
      SelectItemsStep(q, chain);
    }
  }

  /** A node other than a comma or a select item anywhere in the SELECT list makes it fail. */
  lemma SelectItemsRejectsUnknown(q: QueryState, chain: seq<Node>, i: nat)
    requires i < |chain| && !chain[i].kind.Comma? && !chain[i].kind.SelectValue?
    ensures SelectItems(q, chain).Failure?
  {
    SelectItemsAccepts(q, chain);
    assert !SelectListTokens(q.aliasToTable)(chain[i]);
  }

  // ---------------------------------------------------------------------------------------
  // processNewSubQuery

  /** The tokens processNewSubQuery accepts: AS, parentheses, SQL_STATEMENT, and TABLE_ALIAS
      with its text. */
  predicate SubQueryToken(n: Node)
  {
    n.kind.LiteralAs? || n.kind.OpenParen? || n.kind.CloseParen? || n.kind.SqlStatement?
    || (n.kind.TableAlias? && HasText(n))
  }

  lemma {:induction false} SubQueryPartsSpec(chain: seq<Node>, statement: seq<Node>, alias: Option<string>)
    ensures !All(chain, SubQueryToken) ==> SubQueryParts(chain, statement, alias).Failure?
    ensures All(chain, SubQueryToken) ==>
      SubQueryParts(chain, statement, alias)
        == (var inner :- TopLevel(EmptyQuery(), LastOf(chain, StatementPick(), statement));
            Success(AbstractTable.SubQuery(inner, LastOf(chain, Leaf(TableAlias), alias))))
    decreases |chain|
  {
    if chain != [] {
      var n := chain[0];
      AllCons(chain, SubQueryToken);
      LastOfCons(chain, StatementPick(), statement);
      LastOfCons(chain, Leaf(TableAlias), alias);
      SubQueryPartsSpec(chain[1..], Update(n, StatementPick(), statement), Update(n, Leaf(TableAlias), alias));
    }
  }

  /** A subquery node is accepted when it holds only AS, parentheses, SQL_STATEMENT and
      TABLE_ALIAS (with its text); it is the query built from the last statement, under the
      last alias given. */
  lemma NewSubQuerySpec(chain: seq<Node>)
    ensures chain == [] || !All(chain, SubQueryToken) ==> NewSubQuery(chain).Failure?
    ensures chain != [] && All(chain, SubQueryToken) ==>
      NewSubQuery(chain)
        == (var inner :- TopLevel(EmptyQuery(), LastOf(chain, StatementPick(), []));
            Success(AbstractTable.SubQuery(inner, LastLeaf(chain, TableAlias))))
  {
    SubQueryPartsSpec(chain, [], None);
  }

  lemma {:induction false} NoStatement(chain: seq<Node>)
    requires forall i :: 0 <= i < |chain| ==> !chain[i].kind.SqlStatement?
    ensures LastOf(chain, StatementPick(), []) == []
    decreases |chain|
  {
    if chain != [] {
      NoStatement(chain[..|chain| - 1]);
    }
  }

  /** A subquery without a statement fails on the null statement. */
  lemma SubQueryWithoutStatement(chain: seq<Node>)
    requires chain != [] && All(chain, SubQueryToken)
    requires forall i :: 0 <= i < |chain| ==> !chain[i].kind.SqlStatement?
    ensures NewSubQuery(chain) == Failure(NullReference)
  {
    NewSubQuerySpec(chain);
    NoStatement(chain);
  }

  /** A subquery is built into a fresh Query: its tables, select items and alias map come from
      its own statement only, so the aliases of the enclosing query are not in scope inside it. */
  lemma SubQueryOwnScope(chain: seq<Node>)
    ensures NewSubQuery(chain).Success? ==>
      NewSubQuery(chain).value.SubQuery?
      && StatementStep(EmptyQuery(), NewSubQuery(chain).value.query)
      && AliasMapConsistent(NewSubQuery(chain).value.query)
  {
    NewSubQuerySpec(chain);
    if NewSubQuery(chain).Success? {
      TopLevelStep(EmptyQuery(), LastOf(chain, StatementPick(), []));
      EmptyQueryConsistent();
    }
  }

  // ---------------------------------------------------------------------------------------
  // processFromList

  /** The nodes processFromList accepts: FROM, commas, and tables and subqueries that build. */
  predicate FromListToken(n: Node)
  {
    n.kind.LiteralFrom? || n.kind.Comma?
    || (n.kind.Table? && NewTable(n.children).Success?)
    || (n.kind.SubQuery? && NewSubQuery(n.children).Success?)
  }

  function FromListTokens(): Node -> bool
  {
    (n: Node) => FromListToken(n)
  }

  /** The table a TABLE or SUBQUERY node builds. */
  function FromItemPick(): Node -> Option<AbstractTable>
  {
    (n: Node) =>
      if n.kind.Table? && NewTable(n.children).Success? then Some(NewTable(n.children).value)
      else if n.kind.SubQuery? && NewSubQuery(n.children).Success? then Some(NewSubQuery(n.children).value)
      else None
  }

  /** The table a node registers under `alias`. */
  function AliasPick(alias: Option<string>): Node -> Option<Option<AbstractTable>>
  {
    (n: Node) =>
      match FromItemPick()(n)
      case Some(t) => if t.alias == alias then Some(Some(t)) else None
      case None => None
  }

  function Elements<T>(s: seq<T>): set<T>
  {
    set x | x in s
  }

  /** The FROM list is accepted exactly when every node is FROM, a comma, or a table or
      subquery that builds. It adds the tables those nodes build to the FROM set, and each
      alias then maps to the last of them that carries it (or to what it mapped to before
      when none does); nothing else changes. */
  lemma {:induction false} FromItemsSpec(q: QueryState, chain: seq<Node>)
    ensures FromItems(q, chain).Success? <==> All(chain, FromListTokens())
    ensures FromItems(q, chain).Success? ==>
      var r := FromItems(q, chain).value;
      && r.from == q.from + Elements(Picks(chain, FromItemPick()))
      && (forall a :: Lookup(r.aliasToTable, a) == LastOf(chain, AliasPick(a), Lookup(q.aliasToTable, a)))
      && r.(from := q.from, aliasToTable := q.aliasToTable) == q
    decreases |chain|
  {
    if chain == [] {
      assert Elements<AbstractTable>([]) == {};
    } else {
      var n, pick := chain[0], FromItemPick();
      AllCons(chain, FromListTokens());
      if FromItem(q, n).Success? {
        var next := FromItem(q, n).value;
        FromItemsSpec(next, chain[1..]);
        if FromItems(q, chain).Success? {
          var r := FromItems(q, chain).value;
          assert r == FromItems(next, chain[1..]).value;
          var rest := Picks(chain[1..], pick);
          if pick(n).Some? {
            var t := pick(n).value;
            assert next == WithFrom(q, t);
            assert Picks(chain, pick) == [t] + rest;
            assert Elements([t] + rest) == {t} + Elements(rest);
          } else {
            assert next == q;
            assert Picks(chain, pick) == rest;
          }
          forall a
            ensures Lookup(r.aliasToTable, a) == LastOf(chain, AliasPick(a), Lookup(q.aliasToTable, a))
          {
            LastOfCons(chain, AliasPick(a), Lookup(q.aliasToTable, a));
          }
        }
      }
    }
  }

  /** processFromList: an empty list is a null dereference; otherwise as FromItemsSpec. */
  lemma FromListSpec(q: QueryState, chain: seq<Node>)
    ensures FromListOf(q, chain).Success? <==> chain != [] && All(chain, FromListTokens())
    ensures FromListOf(q, chain).Success? ==>
      FromListOf(q, chain).value.from == q.from + Elements(Picks(chain, FromItemPick()))
  {
    FromItemsSpec(q, chain);
  }

  // ---------------------------------------------------------------------------------------
  // processNewUnsafeFunction

  /** The tokens processNewUnsafeFunction accepts: parentheses, operators and values that build. */
  predicate UnsafeToken(aliases: Aliases, n: Node)
  {
    n.kind.OpenParen? || n.kind.CloseParen? || OperatorKind(n.kind).Some? || BuildsValue(aliases, n)
  }

  function UnsafeTokens(aliases: Aliases): Node -> bool
  {
    (n: Node) => UnsafeToken(aliases, n)
  }

  /** Once the operator is known, every further value is appended and further operators are
      ignored. */
  lemma {:induction false} UnsafeAfterOperator(aliases: Aliases, chain: seq<Node>, first: Option<Value>,
                                               kind: Option<FunctionKind>, operands: seq<Option<Value>>)
    requires kind.Some?
    ensures UnsafeParts(aliases, chain, first, kind, operands).Success? <==> All(chain, UnsafeTokens(aliases))
    ensures UnsafeParts(aliases, chain, first, kind, operands).Success? ==>
      UnsafeParts(aliases, chain, first, kind, operands).value
        == Some(Function(kind.value, operands + Picks(chain, ValuePick(aliases))))
    decreases |chain|
  {
    if chain != [] {
      var n, k := chain[0], chain[0].kind;
      AllCons(chain, UnsafeTokens(aliases));
      ValuePicksCons(aliases, chain);
      var whole := UnsafeParts(aliases, chain, first, kind, operands);
      if k.OpenParen? || k.CloseParen? || OperatorKind(k).Some? {
        assert whole == UnsafeParts(aliases, chain[1..], first, kind, operands);
        assert Picks(chain, ValuePick(aliases)) == Picks(chain[1..], ValuePick(aliases));
        UnsafeAfterOperator(aliases, chain[1..], first, kind, operands);
      } else if IsValueKind(k) {
        match AbstractValue(aliases, n)
        case Failure(e) =>
          assert whole == Failure(e);
        case Success(v) =>
          assert whole == UnsafeParts(aliases, chain[1..], first, kind, operands + [v]);
          UnsafeAfterOperator(aliases, chain[1..], first, kind, operands + [v]);
          assert operands + [v] + Picks(chain[1..], ValuePick(aliases)) == operands + Picks(chain, ValuePick(aliases));
      } else {
        assert whole.Failure?;
      }
    } else {
      assert operands + Picks(chain, ValuePick(aliases)) == operands;
    }
  }

  /** Before the operator, each value replaces firstObj; the first operator picks the kind
      and opens the operand list with firstObj. */
  lemma {:induction false} UnsafeBeforeOperator(aliases: Aliases, pre: seq<Node>, op: Node, post: seq<Node>,
                                                first: Option<Value>, operands: seq<Option<Value>>)
    requires forall i :: 0 <= i < |pre| ==> OperatorKind(pre[i].kind).None?
    requires OperatorKind(op.kind).Some?
    ensures UnsafeParts(aliases, pre + [op] + post, first, None, operands).Success? <==>
      All(pre + [op] + post, UnsafeTokens(aliases))
    ensures UnsafeParts(aliases, pre + [op] + post, first, None, operands).Success? ==>
      UnsafeParts(aliases, pre + [op] + post, first, None, operands).value
        == Some(Function(OperatorKind(op.kind).value,
                         [LastOf(pre, ValuePick(aliases), first)] + Picks(post, ValuePick(aliases))))
    decreases |pre|
  {
    var chain := pre + [op] + post;
    AllCons(chain, UnsafeTokens(aliases));
    if pre == [] {
      assert chain[1..] == post;
      UnsafeAfterOperator(aliases, post, first, OperatorKind(op.kind), [first]);
    } else {
      var n := pre[0];
      assert chain[1..] == pre[1..] + [op] + post;
      LastOfCons(pre, ValuePick(aliases), first);
      UnsafeBeforeOperator(aliases, pre[1..], op, post, Update(n, ValuePick(aliases), first), operands);
    }
  }

  lemma {:induction false} UnsafeNoOperator(aliases: Aliases, chain: seq<Node>, first: Option<Value>,
                                            operands: seq<Option<Value>>)
    requires forall i :: 0 <= i < |chain| ==> OperatorKind(chain[i].kind).None?
    ensures UnsafeParts(aliases, chain, first, None, operands).Success? <==> All(chain, UnsafeTokens(aliases))
    ensures UnsafeParts(aliases, chain, first, None, operands).Success? ==>
      UnsafeParts(aliases, chain, first, None, operands).value == None
    decreases |chain|
  {
    if chain != [] {
      AllCons(chain, UnsafeTokens(aliases));
      UnsafeNoOperator(aliases, chain[1..], Update(chain[0], ValuePick(aliases), first), operands);
    }
  }

  /** An arithmetic node with an operator builds the Function of its first operator; its
      operands are the last value before that operator (null when there is none) followed by
      every value after it, whatever further operators appear. */
  lemma UnsafeFunctionSpec(aliases: Aliases, pre: seq<Node>, op: Node, post: seq<Node>)
    requires forall i :: 0 <= i < |pre| ==> OperatorKind(pre[i].kind).None?
    requires OperatorKind(op.kind).Some?
    ensures NewUnsafeFunction(aliases, pre + [op] + post).Success? <==> All(pre + [op] + post, UnsafeTokens(aliases))
    ensures NewUnsafeFunction(aliases, pre + [op] + post).Success? ==>
      NewUnsafeFunction(aliases, pre + [op] + post).value
        == Some(Function(OperatorKind(op.kind).value,
                         [LastOf(pre, ValuePick(aliases), None)] + Picks(post, ValuePick(aliases))))
  {
    UnsafeBeforeOperator(aliases, pre, op, post, None, []);
  }

  /** An arithmetic node without an operator builds no Function: the result is null. */
  lemma UnsafeFunctionWithoutOperator(aliases: Aliases, chain: seq<Node>)
    requires forall i :: 0 <= i < |chain| ==> OperatorKind(chain[i].kind).None?
    ensures NewUnsafeFunction(aliases, chain).Success? <==> chain != [] && All(chain, UnsafeTokens(aliases))
    ensures NewUnsafeFunction(aliases, chain).Success? ==> NewUnsafeFunction(aliases, chain).value == None
  {
    UnsafeNoOperator(aliases, chain, None, []);
  }

  // ---------------------------------------------------------------------------------------
  // processNewSafeFunction

  /** Parentheses and `*`, which processNewSafeFunction skips. */
  predicate SafeSkipped(n: Node)
  {
    n.kind.OpenParen? || n.kind.CloseParen? || n.kind.Asterisk?
  }

  /** The tokens processNewSafeFunction accepts once its keyword is known. */
  predicate SafeToken(aliases: Aliases, n: Node)
  {
    SafeSkipped(n) || AggregateKind(n.kind).Some? || BuildsValue(aliases, n)
  }

  function SafeTokens(aliases: Aliases): Node -> bool
  {
    (n: Node) => SafeToken(aliases, n)
  }

  /** Once the keyword is known, every value is appended and further keywords are ignored. */
  lemma {:induction false} SafeAfterKeyword(aliases: Aliases, chain: seq<Node>, kind: Option<FunctionKind>,
                                            operands: seq<Option<Value>>)
    requires kind.Some?
    ensures SafeParts(aliases, chain, kind, operands).Success? <==> All(chain, SafeTokens(aliases))
    ensures SafeParts(aliases, chain, kind, operands).Success? ==>
      SafeParts(aliases, chain, kind, operands).value
        == Some(Function(kind.value, operands + Picks(chain, ValuePick(aliases))))
    decreases |chain|
  {
    if chain != [] {
      var n, k := chain[0], chain[0].kind;
      AllCons(chain, SafeTokens(aliases));
      ValuePicksCons(aliases, chain);
      var whole := SafeParts(aliases, chain, kind, operands);
      if k.OpenParen? || k.CloseParen? || k.Asterisk? || AggregateKind(k).Some? {
        assert whole == SafeParts(aliases, chain[1..], kind, operands);
        assert Picks(chain, ValuePick(aliases)) == Picks(chain[1..], ValuePick(aliases));
        SafeAfterKeyword(aliases, chain[1..], kind, operands);
      } else if IsValueKind(k) {
        match AbstractValue(aliases, n)
        case Failure(e) =>
          assert whole == Failure(e);
        case Success(v) =>
          assert whole == SafeParts(aliases, chain[1..], kind, operands + [v]);
          SafeAfterKeyword(aliases, chain[1..], kind, operands + [v]);
          assert operands + [v] + Picks(chain[1..], ValuePick(aliases)) == operands + Picks(chain, ValuePick(aliases));
      } else {
        assert whole.Failure?;
      }
    } else {
      assert operands + Picks(chain, ValuePick(aliases)) == operands;
    }
  }

  /** Parentheses and `*` before the keyword are skipped; the keyword picks the kind. */
  lemma {:induction false} SafeKeywordFirst(aliases: Aliases, pre: seq<Node>, kw: Node, post: seq<Node>,
                                            operands: seq<Option<Value>>)
    requires All(pre, SafeSkipped)
    requires AggregateKind(kw.kind).Some?
    ensures SafeParts(aliases, pre + [kw] + post, None, operands) == SafeParts(aliases, post, AggregateKind(kw.kind), operands)
    decreases |pre|
  {
    var chain := pre + [kw] + post;
    if pre == [] {
      assert chain[1..] == post;
    } else {
      AllCons(pre, SafeSkipped);
      assert chain[1..] == pre[1..] + [kw] + post;
      SafeKeywordFirst(aliases, pre[1..], kw, post, operands);
    }
  }

  /** A value before the keyword is still evaluated first, so its own error is reported; when
      it builds, adding it to the not yet created Function fails on the null reference. */
  lemma {:induction false} SafeValueFirst(aliases: Aliases, pre: seq<Node>, v: Node, post: seq<Node>,
                                          operands: seq<Option<Value>>)
    requires All(pre, SafeSkipped)
    requires IsValueKind(v.kind)
    ensures SafeParts(aliases, pre + [v] + post, None, operands)
         == if AbstractValue(aliases, v).Failure? then Failure(AbstractValue(aliases, v).error) else Failure(NullReference)
    decreases |pre|
  {
    var chain := pre + [v] + post;
    if pre != [] {
      AllCons(pre, SafeSkipped);
      assert chain[1..] == pre[1..] + [v] + post;
      SafeValueFirst(aliases, pre[1..], v, post, operands);
    }
  }

  /** A node that is neither skipped, an aggregate keyword nor a value, met before the
      keyword, is rejected with its type and text. */
  lemma {:induction false} SafeRejectsFirst(aliases: Aliases, pre: seq<Node>, u: Node, post: seq<Node>)
    requires All(pre, SafeSkipped)
    requires !SafeSkipped(u) && AggregateKind(u.kind).None? && !IsValueKind(u.kind)
    ensures SafeParts(aliases, pre + [u] + post, None, []) == Failure(UnknownNode(u.kind, u.text))
    decreases |pre|
  {
    var chain := pre + [u] + post;
    if pre != [] {
      AllCons(pre, SafeSkipped);
      assert chain[1..] == pre[1..] + [u] + post;
      SafeRejectsFirst(aliases, pre[1..], u, post);
    }
  }

  /** A chain of only parentheses and `*` gives null. */
  lemma {:induction false} SafeOnlySkipped(aliases: Aliases, chain: seq<Node>, operands: seq<Option<Value>>)
    requires All(chain, SafeSkipped)
    ensures SafeParts(aliases, chain, None, operands) == Success(None)
    decreases |chain|
  {
    if chain != [] {
      AllCons(chain, SafeSkipped);
      SafeOnlySkipped(aliases, chain[1..], operands);
    }
  }

  /** An aggregate call builds the Function of its keyword over every value after it. */
  lemma SafeFunctionSpec(aliases: Aliases, pre: seq<Node>, kw: Node, post: seq<Node>)
    requires All(pre, SafeSkipped)
    requires AggregateKind(kw.kind).Some?
    ensures NewSafeFunction(aliases, pre + [kw] + post).Success? <==> All(post, SafeTokens(aliases))
    ensures NewSafeFunction(aliases, pre + [kw] + post).Success? ==>
      NewSafeFunction(aliases, pre + [kw] + post).value
        == Some(Function(AggregateKind(kw.kind).value, Picks(post, ValuePick(aliases))))
  {
    SafeKeywordFirst(aliases, pre, kw, post, []);
    SafeAfterKeyword(aliases, post, AggregateKind(kw.kind), []);
    assert [] + Picks(post, ValuePick(aliases)) == Picks(post, ValuePick(aliases));
  }

  /** `COUNT(*)` is a COUNT Function without operands. */
  lemma CountStar(aliases: Aliases)
    ensures NewSafeFunction(aliases, [Node(LiteralCount, "count", []), Node(Kind.OpenParen, "(", []),
                                      Node(Kind.Asterisk, "*", []), Node(Kind.CloseParen, ")", [])])
         == Success(Some(Function(Count, [])))
  {
    var post := [Node(Kind.OpenParen, "(", []), Node(Kind.Asterisk, "*", []), Node(Kind.CloseParen, ")", [])];
    assert [Node(LiteralCount, "count", [])] + post == [] + [Node(LiteralCount, "count", [])] + post;
    SafeFunctionSpec(aliases, [], Node(LiteralCount, "count", []), post);
    assert Picks(post[2..], ValuePick(aliases)) == [];
    assert Picks(post[1..], ValuePick(aliases)) == [];
    assert Picks(post, ValuePick(aliases)) == [];
  }
}

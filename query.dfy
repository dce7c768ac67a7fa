/** The Query object: its mutable clause state, the mutators, collectionToSQLString and the
    builder methods, each proved against the functions of QueryModel, Serializer and Builder. */
module QueryObject {
  import opened Wrappers
  import opened Tokens
  import opened QueryModel
  import opened Builder
  import opened Serializer

  /** A builder method ends as its specification says: with the same error, or without error
      and in exactly the specified state. After an error the state is unspecified (the
      half-built object is discarded by the caller). */
  predicate Reflects(spec: Result<QueryState, BuildError>, err: Option<BuildError>, now: QueryState)
  {
    match spec
    case Success(s) => err == None && now == s
    case Failure(e) => err == Some(e)
  }

  /** The specified state after an item built by `spec` is added with addFrom. */
  function AddedFrom(q: QueryState, spec: Result<AbstractTable, BuildError>): Result<QueryState, BuildError>
  {
    match spec
    case Success(t) => Success(WithFrom(q, t))
    case Failure(e) => Failure(e)
  }

  /** The specified state after an item built by `spec` is added with addSelect. */
  function AddedSelect(q: QueryState, spec: Result<SelectValue, BuildError>): Result<QueryState, BuildError>
  {
    match spec
    case Success(sv) => Success(WithSelect(q, sv))
    case Failure(e) => Failure(e)
  }

  class Query {
    var select: seq<SelectValue>
    var from: set<AbstractTable>
    var where: set<Constraint>
    var groupBy: set<Value>
    var having: set<Constraint>
    var orderBy: seq<Value>
    var limit: Int32
    var offset: Int32
    var explain: bool
    var distinct: bool
    var aliasToTable: map<Option<string>, AbstractTable>

    function State(): QueryState
      reads this
    {
      QueryState(select, from, where, groupBy, having, orderBy, limit, offset, explain, distinct, aliasToTable)
    }

    /** Every collection empty, LIMIT and OFFSET 0, both flags false. */
    constructor ()
      ensures State() == EmptyQuery()
    {
      select := [];
      from := {};
      where := {};
      groupBy := {};
      having := {};
      orderBy := [];
      limit := 0;
      offset := 0;
      explain := false;
      distinct := false;
      aliasToTable := map[];
    }

    /** The part of Query(String) after parsing: the root must be a SQL statement, whose
        children are then processed into a new Query. */
    static method FromTokens(root: Node) returns (q: Query, err: Option<BuildError>)
      ensures fresh(q)
      ensures Reflects(Build(root), err, q.State())
    {
      q := new Query();
      if !root.kind.SqlStatement? {
        err := Some(NotAStatement);
        return;
      }
      err := q.ProcessAST(root.children);
    }

    method SetDistinct(distinct: bool)
      modifies this
      ensures State() == old(State()).(distinct := distinct)
    {
      this.distinct := distinct;
    }

    method SetExplain(explain: bool)
      modifies this
      ensures State() == old(State()).(explain := explain)
    {
      this.explain := explain;
    }

    method AddSelect(obj: SelectValue)
      modifies this
      ensures State() == WithSelect(old(State()), obj)
    {
      select := select + [obj];
    }

    method AddFrom(obj: AbstractTable)
      modifies this
      ensures State() == WithFrom(old(State()), obj)
    {
      from := from + {obj};
      aliasToTable := aliasToTable[obj.alias := obj];
    }

    method AddWhere(obj: Constraint)
      modifies this
      ensures State() == old(State()).(where := old(where) + {obj})
    {
      where := where + {obj};
    }

    method AddGroupBy(obj: Value)
      modifies this
      ensures State() == old(State()).(groupBy := old(groupBy) + {obj})
    {
      groupBy := groupBy + {obj};
    }

    method AddHaving(obj: Constraint)
      modifies this
      ensures State() == old(State()).(having := old(having) + {obj})
    {
      having := having + {obj};
    }

    method AddOrderBy(obj: Value)
      modifies this
      ensures State() == old(State()).(orderBy := old(orderBy) + [obj])
    {
      orderBy := orderBy + [obj];
    }

    method SetLimitOffset(limit: Int32, offset: Int32)
      modifies this
      ensures State() == old(State()).(limit := limit, offset := offset)
    {
      this.limit := limit;
      this.offset := offset;
    }

    /** collectionToSQLString over the collection in iteration order. */
    static method CollectionToSQLString<T>(c: seq<T>, render: T -> string, comma: string) returns (retval: string)
      ensures retval == Join(Render(c, render), comma)
    {
      retval := "";
      var needComma := false;
      var i := 0;
      while i < |c|
        invariant 0 <= i <= |c|
        invariant needComma == (i > 0)
        invariant retval == Join(Render(c[..i], render), comma)
      {
        var o := c[i];
        if needComma {
          retval := retval + comma;
        }
        needComma := true;
        retval := retval + render(o);
        assert Render(c[..i + 1], render) == Render(c[..i], render) + [render(o)];
        JoinSnoc(Render(c[..i], render), render(o), comma);
        i := i + 1;
      }
      assert c[..i] == c;
    }

    /** processAST. */
    method ProcessAST(chain: seq<Node>) returns (err: Option<BuildError>)
      modifies this
      decreases ChainSize(chain), 1
      ensures Reflects(TopLevel(old(State()), chain), err, State())
    {
      if chain == [] {
        return Some(NullReference);
      }
      var ast := chain[0];
      var processSelect := false;
      var k := ast.kind;
      if k.LiteralSelect? || k.LiteralFrom? || k.Semi? || k.OpenParen? || k.CloseParen? || k.WhereClause? {
      } else if k.SelectList? {
        processSelect := true;
      } else if k.FromList? {
        assert TopLevelNode(State(), ast) == FromListOf(State(), ast.children);
        err := ProcessFromList(ast.children);
        if err.Some? {
          return;
        }
      } else {
        assert TopLevelNode(State(), ast) == Failure(UnknownNode(ast.kind, ast.text));
        return Some(UnknownNode(ast.kind, ast.text));
      }
      assert TopLevelNode(old(State()), ast) == Success(State());
      if |chain| > 1 {
        err := ProcessAST(chain[1..]);
        if err.Some? {
          return;
        }
      }
      if processSelect {
        err := ProcessSelectList(ast.children);
        if err.Some? {
          return;
        }
      }
      err := None;
    }

    /** processFromList. */
    method ProcessFromList(chain: seq<Node>) returns (err: Option<BuildError>)
      modifies this
      decreases ChainSize(chain), 2
      ensures Reflects(FromListOf(old(State()), chain), err, State())
    {
      if chain == [] {
        return Some(NullReference);
      }
      var rest := chain;
      while rest != []
        invariant ChainSize(rest) <= ChainSize(chain)
        invariant FromListOf(old(State()), chain) == FromItems(State(), rest)
        decreases |rest|
      {
        var ast := rest[0];
        var k := ast.kind;
        ghost var before := State();
        if k.LiteralFrom? || k.Comma? {
        } else if k.Table? {
          err := ProcessNewTable(ast.children);
          if err.Some? {
            return;
          }
        } else if k.SubQuery? {
          err := ProcessNewSubQuery(ast.children);
          if err.Some? {
            return;
          }
        } else {
          assert FromItem(before, ast) == Failure(UnknownNode(ast.kind, ast.text));
          return Some(UnknownNode(ast.kind, ast.text));
        }
        assert FromItem(before, ast) == Success(State());
        rest := rest[1..];
      }
      err := None;
    }

    /** processNewTable. */
    method ProcessNewTable(chain: seq<Node>) returns (err: Option<BuildError>)
      modifies this
      decreases ChainSize(chain), 2
      ensures Reflects(AddedFrom(old(State()), NewTable(chain)), err, State())
    {
      if chain == [] {
        return Some(NullReference);
      }
      var tableName: Option<string> := None;
      var tableAlias: Option<string> := None;
      var rest := chain;
      while rest != []
        invariant NewTable(chain) == TableParts(rest, tableName, tableAlias)
        decreases |rest|
      {
        var ast := rest[0];
        var k := ast.kind;
        if k.LiteralAs? {
        } else if k.TableName? {
          if ast.children == [] {
            return Some(NullReference);
          }
          tableName := Some(ast.children[0].text);
        } else if k.TableAlias? {
          if ast.children == [] {
            return Some(NullReference);
          }
          tableAlias := Some(ast.children[0].text);
        } else {
          assert TableParts(rest, tableName, tableAlias) == Failure(UnknownNode(ast.kind, ast.text));
          return Some(UnknownNode(ast.kind, ast.text));
        }
        rest := rest[1..];
      }
      AddFrom(AbstractTable.Table(tableName, tableAlias));
      err := None;
    }

    /** processNewSubQuery: the statement is built into a new Query, which is then added to
        this one's FROM list under the subquery's alias. */
    method ProcessNewSubQuery(chain: seq<Node>) returns (err: Option<BuildError>)
      modifies this
      decreases ChainSize(chain), 3
      ensures Reflects(AddedFrom(old(State()), NewSubQuery(chain)), err, State())
    {
      if chain == [] {
        return Some(NullReference);
      }
      var subquery: seq<Node> := [];
      var alias: Option<string> := None;
      var rest := chain;
      while rest != []
        invariant ChainSize(rest) + ChainSize(subquery) <= ChainSize(chain)
        invariant NewSubQuery(chain) == SubQueryParts(rest, subquery, alias)
        decreases |rest|
      {
        var ast := rest[0];
        var k := ast.kind;
        if k.LiteralAs? || k.OpenParen? || k.CloseParen? {
        } else if k.SqlStatement? {
          subquery := ast.children;
        } else if k.TableAlias? {
          if ast.children == [] {
            return Some(NullReference);
          }
          alias := Some(ast.children[0].text);
        } else {
          assert SubQueryParts(rest, subquery, alias) == Failure(UnknownNode(ast.kind, ast.text));
          return Some(UnknownNode(ast.kind, ast.text));
        }
        rest := rest[1..];
      }
      var q := new Query();
      err := q.ProcessAST(subquery);
      if err.Some? {
        return;
      }
      AddFrom(AbstractTable.SubQuery(q.State(), alias));
    }

    /** processSelectList. */
    method ProcessSelectList(chain: seq<Node>) returns (err: Option<BuildError>)
      modifies this
      decreases ChainSize(chain), 2
      ensures Reflects(SelectListOf(old(State()), chain), err, State())
    {
      if chain == [] {
        return Some(NullReference);
      }
      var rest := chain;
      while rest != []
        invariant ChainSize(rest) <= ChainSize(chain)
        invariant SelectListOf(old(State()), chain) == SelectItems(State(), rest)
        decreases |rest|
      {
        var ast := rest[0];
        var k := ast.kind;
        ghost var before := State();
        if k.Comma? {
        } else if k.SelectValue? {
          err := ProcessNewSelect(ast.children);
          if err.Some? {
            return;
          }
        } else {
          assert SelectItem(before, ast) == Failure(UnknownNode(ast.kind, ast.text));
          return Some(UnknownNode(ast.kind, ast.text));
        }
        assert SelectItem(before, ast) == Success(State());
        rest := rest[1..];
      }
      err := None;
    }

    /** processNewSelect. */
    method ProcessNewSelect(chain: seq<Node>) returns (err: Option<BuildError>)
      modifies this
      decreases ChainSize(chain), 2
      ensures Reflects(AddedSelect(old(State()), NewSelect(old(aliasToTable), chain)), err, State())
    {
      if chain == [] {
        return Some(NullReference);
      }
      var v: Option<Value> := None;
      var alias: Option<string> := None;
      var rest := chain;
      while rest != []
        invariant ChainSize(rest) <= ChainSize(chain)
        invariant State() == old(State())
        invariant NewSelect(aliasToTable, chain) == SelectParts(aliasToTable, rest, v, alias)
        decreases |rest|
      {
        var ast := rest[0];
        var k := ast.kind;
        if k.LiteralAs? {
        } else if k.FieldAlias? {
          if ast.children == [] {
            return Some(NullReference);
          }
          alias := Some(ast.children[0].text);
        } else if IsValueKind(k) {
          var r := ProcessNewAbstractValue(ast);
          if r.Failure? {
            return Some(r.error);
          }
          v := r.value;
        } else {
          assert SelectParts(aliasToTable, rest, v, alias) == Failure(UnknownNode(ast.kind, ast.text));
          return Some(UnknownNode(ast.kind, ast.text));
        }
        rest := rest[1..];
      }
      AddSelect(SelectValue.SelectValue(v, alias));
      err := None;
    }

    /** processNewAbstractValue. */
    method ProcessNewAbstractValue(ast: Node) returns (r: Result<Option<Value>, BuildError>)
      decreases NodeSize(ast), 0
      ensures r == AbstractValue(aliasToTable, ast)
    {
      var k := ast.kind;
      if k.Field? {
        var f := ProcessNewField(ast.children);
        r := if f.Failure? then Failure(f.error) else Success(Some(f.value));
      } else if k.Constant? {
        r := if ast.children == [] then Failure(NullReference)
             else Success(Some(Value.Constant(ast.children[0].text)));
      } else if k.UnsafeFunction? {
        r := ProcessNewUnsafeFunction(ast.children);
      } else if k.SafeFunction? {
        r := ProcessNewSafeFunction(ast.children);
      } else {
        r := Failure(UnknownNode(ast.kind, ast.text));
      }
    }

    /** processNewField. */
    method ProcessNewField(chain: seq<Node>) returns (r: Result<Value, BuildError>)
      decreases ChainSize(chain), 2
      ensures r == FieldOf(aliasToTable, chain)
    {
      if chain == [] {
        return Failure(NullReference);
      }
      var table: Option<string> := None;
      var field: Option<string> := None;
      var rest := chain;
      while rest != []
        invariant FieldOf(aliasToTable, chain) == FieldParts(aliasToTable, rest, table, field)
        decreases |rest|
      {
        var ast := rest[0];
        var k := ast.kind;
        if k.Dot? {
        } else if k.TableAlias? {
          if ast.children == [] {
            return Failure(NullReference);
          }
          table := Some(ast.children[0].text);
        } else if k.FieldName? {
          if ast.children == [] {
            return Failure(NullReference);
          }
          field := Some(ast.children[0].text);
        } else {
          assert FieldParts(aliasToTable, rest, table, field) == Failure(UnknownNode(ast.kind, ast.text));
          return Failure(UnknownNode(ast.kind, ast.text));
        }
        rest := rest[1..];
      }
      r := Success(Value.Field(field, Lookup(aliasToTable, table)));
    }

    /** processNewUnsafeFunction; `kind` is None exactly while gotType is false. */
    method ProcessNewUnsafeFunction(chain: seq<Node>) returns (r: Result<Option<Value>, BuildError>)
      decreases ChainSize(chain), 2
      ensures r == NewUnsafeFunction(aliasToTable, chain)
    {
      if chain == [] {
        return Failure(NullReference);
      }
      var firstObj: Option<Value> := None;
      var kind: Option<FunctionKind> := None;
      var operands: seq<Option<Value>> := [];
      var rest := chain;
      while rest != []
        invariant ChainSize(rest) <= ChainSize(chain)
        invariant NewUnsafeFunction(aliasToTable, chain) == UnsafeParts(aliasToTable, rest, firstObj, kind, operands)
        decreases |rest|
      {
        var ast := rest[0];
        var k := ast.kind;
        if k.OpenParen? || k.CloseParen? {
        } else if IsValueKind(k) {
          var v := ProcessNewAbstractValue(ast);
          if v.Failure? {
            return Failure(v.error);
          }
          if kind.None? {
            firstObj := v.value;
          } else {
            operands := operands + [v.value];
          }
        } else if OperatorKind(k).Some? {
          if kind.None? {
            kind := OperatorKind(k);
            operands := [firstObj];
          }
        } else {
          assert UnsafeParts(aliasToTable, rest, firstObj, kind, operands) == Failure(UnknownNode(ast.kind, ast.text));
          return Failure(UnknownNode(ast.kind, ast.text));
        }
        rest := rest[1..];
      }
      r := Success(if kind.None? then None else Some(Function(kind.value, operands)));
    }

    /** processNewSafeFunction; `kind` is None exactly while gotType is false (and retval null). */
    method ProcessNewSafeFunction(chain: seq<Node>) returns (r: Result<Option<Value>, BuildError>)
      decreases ChainSize(chain), 2
      ensures r == NewSafeFunction(aliasToTable, chain)
    {
      if chain == [] {
        return Failure(NullReference);
      }
      var kind: Option<FunctionKind> := None;
      var operands: seq<Option<Value>> := [];
      var rest := chain;
      while rest != []
        invariant ChainSize(rest) <= ChainSize(chain)
        invariant NewSafeFunction(aliasToTable, chain) == SafeParts(aliasToTable, rest, kind, operands)
        decreases |rest|
      {
        var ast := rest[0];
        var k := ast.kind;
        if k.OpenParen? || k.CloseParen? || k.Asterisk? {
        } else if IsValueKind(k) {
          var v := ProcessNewAbstractValue(ast);
          if v.Failure? {
            return Failure(v.error);
          }
          if kind.None? {
            return Failure(NullReference);
          }
          operands := operands + [v.value];
        } else if AggregateKind(k).Some? {
          if kind.None? {
            kind := AggregateKind(k);
          }
        } else {
          assert SafeParts(aliasToTable, rest, kind, operands) == Failure(UnknownNode(ast.kind, ast.text));
          return Failure(UnknownNode(ast.kind, ast.text));
        }
        rest := rest[1..];
      }
      r := Success(if kind.None? then None else Some(Function(kind.value, operands)));
    }
  }
}

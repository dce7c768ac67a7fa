/** The object model of a parsed SQL SELECT: values, tables, projection items and the state of
    a Query (its clause collections, LIMIT/OFFSET, flags and the alias map used while building). */
module QueryModel {
  import opened Wrappers

  /** Java `int`. */
  newtype Int32 = x: int | -0x8000_0000 <= x < 0x8000_0000

  /** The operator constants of Function: arithmetic (infix) and aggregate (call syntax). */
  datatype FunctionKind = Plus | Minus | Multiply | Divide | Power | Modulo
                        | Count | Max | Min | Sum | Avg

  /** An AbstractValue. A Field keeps the table it was resolved to, or None when its alias was
      unknown; a Function operand is None when the builder produced a null value for it. */
  datatype Value =
    | Field(name: Option<string>, table: Option<AbstractTable>)
    | Constant(text: string)
    | Function(kind: FunctionKind, operands: seq<Option<Value>>)

  /** An AbstractTable: a base table or a subquery, each with an alias (null when absent). */
  datatype AbstractTable =
    | Table(name: Option<string>, alias: Option<string>)
    | SubQuery(query: QueryState, alias: Option<string>)

  /** A projection item: a value (null when none was given) and an optional output alias. */
  datatype SelectValue = SelectValue(value: Option<Value>, alias: Option<string>)

  /** An AbstractConstraint. Its subclasses are not part of this model, so a constraint is an
      opaque identity that the query only stores and hands to the renderer. */
  datatype Constraint = Constraint(id: nat)

  /** Everything a Query object holds. */
  datatype QueryState = QueryState(
    select: seq<SelectValue>,
    from: set<AbstractTable>,
    where: set<Constraint>,
    groupBy: set<Value>,
    having: set<Constraint>,
    orderBy: seq<Value>,
    limit: Int32,
    offset: Int32,
    explain: bool,
    distinct: bool,
    aliasToTable: map<Option<string>, AbstractTable>)

  /** The state of `new Query()`. */
  function EmptyQuery(): QueryState
  {
    QueryState([], {}, {}, {}, {}, [], 0, 0, false, false, map[])
  }

  /** addSelect: append to the select list. */
  function WithSelect(q: QueryState, sv: SelectValue): QueryState
  {
    q.(select := q.select + [sv])
  }

  /** addFrom: insert into the from set and map the table's alias to it. */
  function WithFrom(q: QueryState, t: AbstractTable): QueryState
  {
    q.(from := q.from + {t}, aliasToTable := q.aliasToTable[t.alias := t])
  }

  /** `aliasToTable.get(alias)`. */
  function Lookup(aliases: map<Option<string>, AbstractTable>, alias: Option<string>): Option<AbstractTable>
  {
    if alias in aliases then Some(aliases[alias]) else None
  }

  /** The alias map and the from set are in step: every entry points at a table of `from` that
      carries that alias, and every table of `from` has its alias mapped. */
  predicate AliasMapConsistent(q: QueryState)
  {
    (forall a :: a in q.aliasToTable ==> q.aliasToTable[a] in q.from && q.aliasToTable[a].alias == a)
    && (forall t :: t in q.from ==> t.alias in q.aliasToTable)
  }

  lemma EmptyQueryConsistent()
    ensures AliasMapConsistent(EmptyQuery())
  {
  }

  /** addFrom keeps every earlier table, adds the new one, resolves its alias to it and leaves
      every other alias and every other clause as it was. */
  lemma WithFromResolves(q: QueryState, t: AbstractTable)
    ensures WithFrom(q, t).from == q.from + {t}
    ensures Lookup(WithFrom(q, t).aliasToTable, t.alias) == Some(t)
    ensures forall a :: a != t.alias ==> Lookup(WithFrom(q, t).aliasToTable, a) == Lookup(q.aliasToTable, a)
    ensures WithFrom(q, t).(from := q.from, aliasToTable := q.aliasToTable) == q
  {
  }

  /** addFrom preserves the agreement between the alias map and the from set. */
  lemma WithFromConsistent(q: QueryState, t: AbstractTable)
    requires AliasMapConsistent(q)
    ensures AliasMapConsistent(WithFrom(q, t))
  {
    var r := WithFrom(q, t);
    forall a | a in r.aliasToTable
      ensures r.aliasToTable[a] in r.from && r.aliasToTable[a].alias == a
    {
      if a != t.alias {
        assert r.aliasToTable[a] == q.aliasToTable[a];
      }
    }
  }

  /** Two tables with the same alias: both stay in the from set and the later one wins the alias. */
  lemma WithFromSameAlias(q: QueryState, t1: AbstractTable, t2: AbstractTable)
    requires t1.alias == t2.alias
    ensures t1 in WithFrom(WithFrom(q, t1), t2).from && t2 in WithFrom(WithFrom(q, t1), t2).from
    ensures Lookup(WithFrom(WithFrom(q, t1), t2).aliasToTable, t1.alias) == Some(t2)
  {
  }

  /** addSelect appends at the end and keeps the earlier items in order. */
  lemma WithSelectAppends(q: QueryState, sv: SelectValue)
    ensures |WithSelect(q, sv).select| == |q.select| + 1
    ensures WithSelect(q, sv).select[..|q.select|] == q.select
    ensures WithSelect(q, sv).select[|q.select|] == sv
    ensures WithSelect(q, sv).(select := q.select) == q
  {
  }
}

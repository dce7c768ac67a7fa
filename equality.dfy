/** Query.equals. As written it compares this query's offset with the other query's limit;
    the comparison that was evidently meant, offset with offset, is EqualsIntended. */
module Equality {
  import opened QueryModel
  import opened Serializer

  /** Query.equals as written: the elements of the collections are compared by their own
      equals, which this model takes to be structural equality. */
  predicate Equals(a: QueryState, b: QueryState)
    ensures Equals(a, b) <==> EqualsIntended(a, b.(offset := b.limit))
  {
    a.select == b.select && a.from == b.from && a.where == b.where
    && a.groupBy == b.groupBy && a.having == b.having && a.orderBy == b.orderBy
    && a.limit == b.limit && a.offset == b.limit
    && a.explain == b.explain && a.distinct == b.distinct
  }

  /** Query.equals with the offset compared against the other query's offset. */
  predicate EqualsIntended(a: QueryState, b: QueryState)
    ensures EqualsIntended(a, b) <==> Observable(a) == Observable(b)
  {
    a.select == b.select && a.from == b.from && a.where == b.where
    && a.groupBy == b.groupBy && a.having == b.having && a.orderBy == b.orderBy
    && a.limit == b.limit && a.offset == b.offset
    && a.explain == b.explain && a.distinct == b.distinct
  }

  /** The part of a query that equals looks at: everything but the builder's alias map. */
  function Observable(q: QueryState): QueryState
  {
    q.(aliasToTable := map[])
  }

  // ---------------------------------------------------------------------------------------
  // The code as written

  /** As written, a query equals itself only when its offset happens to equal its limit. */
  lemma EqualsReflexiveIff(q: QueryState)
    ensures Equals(q, q) <==> q.offset == q.limit
  {
  }

  /** As written, equals is not symmetric in its offset and limit. */
  lemma EqualsAsymmetry(a: QueryState, b: QueryState)
    requires EqualsIntended(a.(offset := b.offset), b)
    ensures Equals(a, b) <==> a.offset == b.limit
    ensures Equals(b, a) <==> b.offset == a.limit
  {
  }

  /** `SELECT ... LIMIT 10 OFFSET 5`. */
  function LimitTenOffsetFive(): QueryState
  {
    EmptyQuery().(limit := 10, offset := 5)
  }

  /** The empty query with LIMIT 10 and OFFSET 10, and the same query without OFFSET. */
  function LimitTenOffsetTen(): QueryState
  {
    EmptyQuery().(limit := 10, offset := 10)
  }

  function LimitTenOnly(): QueryState
  {
    EmptyQuery().(limit := 10)
  }

  /** As written: a query with LIMIT 10 OFFSET 5 is not equal to itself. */
  lemma EqualsNotReflexive()
    ensures !Equals(LimitTenOffsetFive(), LimitTenOffsetFive())
    ensures EqualsIntended(LimitTenOffsetFive(), LimitTenOffsetFive())
  {
    EqualsReflexiveIff(LimitTenOffsetFive());
  }

  /** As written: a query with OFFSET 10 equals one without OFFSET (but not the other way
      round), although their SQL strings differ. */
  lemma EqualsIgnoresOffset(r: Renderer)
    ensures Equals(LimitTenOffsetTen(), LimitTenOnly())
    ensures !Equals(LimitTenOnly(), LimitTenOffsetTen())
    ensures !EqualsIntended(LimitTenOffsetTen(), LimitTenOnly())
    ensures SQLString(LimitTenOffsetTen(), r, Iteration([], [], [], []))
         != SQLString(LimitTenOnly(), r, Iteration([], [], [], []))
  {
    var a, b, it := LimitTenOffsetTen(), LimitTenOnly(), Iteration([], [], [], []);
    var items := ItemsOf(a, r, it);
    assert ItemsOf(b, r, it) == items;
    assert IntToString(10) == "10";
    assert LimitPart(a) == " LIMIT 10 OFFSET 10";
    assert LimitPart(b) == " LIMIT 10";
    var front := ExplainPart(a) + SelectPart(a, items) + FromPart(a, items) + WherePart(a, items)
                 + GroupByPart(a, items) + OrderByPart(a, items);
    assert SQLString(a, r, it) == front + LimitPart(a);
    assert SQLString(b, r, it) == front + LimitPart(b);
    assert |SQLString(a, r, it)| != |SQLString(b, r, it)|;
  }

  /** Where the other query's offset equals its limit, the code as written and the intended
      comparison agree. */
  lemma EqualsAgreesWhenOffsetIsLimit(a: QueryState, b: QueryState)
    requires b.offset == b.limit
    ensures Equals(a, b) <==> EqualsIntended(a, b)
  {
  }

  // ---------------------------------------------------------------------------------------
  // The intended comparison

  /** The intended comparison is an equivalence. */
  lemma EqualsIntendedIsEquivalence(a: QueryState, b: QueryState, c: QueryState)
    ensures EqualsIntended(a, a)
    ensures EqualsIntended(a, b) ==> EqualsIntended(b, a)
    ensures EqualsIntended(a, b) && EqualsIntended(b, c) ==> EqualsIntended(a, c)
  {
  }

  /** Equal queries render to the same SQL under the same renderers and iteration orders. */
  lemma EqualsIntendedSameSQL(a: QueryState, b: QueryState, r: Renderer, it: Iteration)
    requires EqualsIntended(a, b)
    requires Iterates(it, a)
    ensures Iterates(it, b)
    ensures SQLString(a, r, it) == SQLString(b, r, it)
  {
    assert ItemsOf(a, r, it) == ItemsOf(b, r, it);
  }

  /** The FROM collection is a set: adding two tables in either order gives equal queries. */
  lemma FromOrderIrrelevant(q: QueryState, t1: AbstractTable, t2: AbstractTable)
    ensures EqualsIntended(WithFrom(WithFrom(q, t1), t2), WithFrom(WithFrom(q, t2), t1))
  {
  }

  /** The SELECT collection is a list: two different items added in the two orders give
      queries that are not equal. */
  lemma SelectOrderMatters(q: QueryState, s1: SelectValue, s2: SelectValue)
    requires s1 != s2
    ensures !EqualsIntended(WithSelect(WithSelect(q, s1), s2), WithSelect(WithSelect(q, s2), s1))
  {
    var n := |q.select|;
    assert WithSelect(WithSelect(q, s1), s2).select[n] == s1;
    assert WithSelect(WithSelect(q, s2), s1).select[n] == s2;
  }
}

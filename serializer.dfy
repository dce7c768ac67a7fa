/** Query.getSQLString and collectionToSQLString. How a single Field, Table, SelectValue or
    constraint renders is defined in classes that are not part of this model, so it is a
    parameter (Renderer); so is the order in which a HashSet hands out its elements
    (Iteration). */
module Serializer {
  import opened QueryModel

  datatype Renderer = Renderer(
    selectValue: SelectValue -> string,
    table: AbstractTable -> string,
    value: Value -> string,
    constraint: Constraint -> string)

  /** One iteration order for each unordered clause. */
  datatype Iteration = Iteration(
    from: seq<AbstractTable>,
    where: seq<Constraint>,
    groupBy: seq<Value>,
    having: seq<Constraint>)

  /** `s` visits every element of `c` exactly once. */
  predicate Enumerates<T>(s: seq<T>, c: set<T>)
  {
    (set i | 0 <= i < |s| :: s[i]) == c && (forall i, j :: 0 <= i < j < |s| ==> s[i] != s[j])
  }

  predicate Iterates(it: Iteration, q: QueryState)
  {
    Enumerates(it.from, q.from) && Enumerates(it.where, q.where)
    && Enumerates(it.groupBy, q.groupBy) && Enumerates(it.having, q.having)
  }

  /** Every item's own SQL string, in iteration order. */
  function Render<T>(items: seq<T>, f: T -> string): seq<string>
  {
    seq(|items|, i requires 0 <= i < |items| => f(items[i]))
  }

  /** What collectionToSQLString computes: the parts with `sep` between consecutive ones. */
  function Join(parts: seq<string>, sep: string): string
  {
    if parts == [] then ""
    else if |parts| == 1 then parts[0]
    else parts[0] + sep + Join(parts[1..], sep)
  }

  function Concat(parts: seq<string>): string
  {
    if parts == [] then "" else parts[0] + Concat(parts[1..])
  }

  /** Java's Integer.toString. */
  function IntToString(n: int): string
  {
    if n < 0 then "-" + NatToString(-n) else NatToString(n)
  }

  function NatToString(n: nat): string
  {
    if n < 10 then [Digit(n)] else NatToString(n / 10) + [Digit(n % 10)]
  }

  function Digit(d: nat): char
    requires d < 10
  {
    "0123456789"[d]
  }

  /** The joined item lists of every clause, as getSQLString passes them to
      collectionToSQLString: WHERE and HAVING joined with " AND ", the others with ", ". */
  datatype ClauseItems = ClauseItems(
    select: string, from: string, where: string, groupBy: string, having: string, orderBy: string)

  function ItemsOf(q: QueryState, r: Renderer, it: Iteration): ClauseItems
    requires Iterates(it, q)
  {
    ClauseItems(
      Join(Render(q.select, r.selectValue), ", "),
      Join(Render(it.from, r.table), ", "),
      Join(Render(it.where, r.constraint), " AND "),
      Join(Render(it.groupBy, r.value), ", "),
      Join(Render(it.having, r.constraint), " AND "),
      Join(Render(q.orderBy, r.value), ", "))
  }

  /** getSQLString. Every statement starts with its keyword: EXPLAIN when set, then SELECT,
      then DISTINCT when set, then the select list. */
  function SQLString(q: QueryState, r: Renderer, it: Iteration): (sql: string)
    requires Iterates(it, q)
    ensures (if q.explain then "EXPLAIN " else "") + "SELECT " + (if q.distinct then "DISTINCT " else "")
            + ItemsOf(q, r, it).select <= sql
  {
    Skeleton(q, ItemsOf(q, r, it))
  }

  /** The expression of getSQLString, with each collectionToSQLString call replaced by its
      text; each parenthesised conditional of the expression is one function below. */
  function Skeleton(q: QueryState, items: ClauseItems): (s: string)
    ensures ExplainPart(q) + SelectPart(q, items) <= s
  {
    ExplainPart(q) + SelectPart(q, items) + FromPart(q, items) + WherePart(q, items)
    + GroupByPart(q, items) + OrderByPart(q, items) + LimitPart(q)
  }

  function ExplainPart(q: QueryState): string
  {
    if q.explain then "EXPLAIN " else ""
  }

  function SelectPart(q: QueryState, items: ClauseItems): string
  {
    "SELECT " + (if q.distinct then "DISTINCT " else "") + items.select
  }

  function FromPart(q: QueryState, items: ClauseItems): string
  {
    if q.from == {} then "" else " FROM " + items.from
  }

  function WherePart(q: QueryState, items: ClauseItems): string
  {
    if q.where == {} then "" else " WHERE " + items.where
  }

  /** HAVING is inside the GROUP BY conditional. */
  function GroupByPart(q: QueryState, items: ClauseItems): string
  {
    if q.groupBy == {} then ""
    else " GROUP BY " + items.groupBy + (if q.having == {} then "" else " HAVING " + items.having)
  }

  function OrderByPart(q: QueryState, items: ClauseItems): string
  {
    if q.orderBy == [] then "" else " ORDER BY " + items.orderBy
  }

  /** OFFSET is inside the LIMIT conditional. */
  function LimitPart(q: QueryState): string
  {
    if q.limit == 0 then ""
    else " LIMIT " + IntToString(q.limit as int) + (if q.offset == 0 then "" else " OFFSET " + IntToString(q.offset as int))
  }

  // ---------------------------------------------------------------------------------------
  // collectionToSQLString: exactly one separator between consecutive items, none around them.

  lemma JoinEmpty(sep: string)
    ensures Join([], sep) == ""
  {
  }

  lemma JoinSingle(p: string, sep: string)
    ensures Join([p], sep) == p
  {
  }

  /** Appending one item adds one separator and the item at the end: the loop of
      collectionToSQLString. */
  lemma {:induction false} JoinSnoc(parts: seq<string>, p: string, sep: string)
    ensures Join(parts + [p], sep) == if parts == [] then p else Join(parts, sep) + sep + p
  {
    if |parts| >= 2 {
      assert (parts + [p])[1..] == parts[1..] + [p];
      JoinSnoc(parts[1..], p, sep);
    } else if |parts| == 1 {
      assert parts + [p] == [parts[0], p];
    }
  }

  /** Cutting the list anywhere inside it cuts the text at one separator. */
  lemma {:induction false} JoinSplit(parts: seq<string>, k: nat, sep: string)
    requires 0 < k < |parts|
    ensures Join(parts, sep) == Join(parts[..k], sep) + sep + Join(parts[k..], sep)
  {
    if k == 1 {
      assert parts[..1] == [parts[0]];
      assert parts[k..] == parts[1..];
    } else {
      JoinSplit(parts[1..], k - 1, sep);
      assert parts[1..][..k - 1] == parts[..k][1..];
      assert parts[1..][k - 1..] == parts[k..];
    }
  }

  function TotalLength(parts: seq<string>): nat
  {
    if parts == [] then 0 else |parts[0]| + TotalLength(parts[1..])
  }

  /** The text is the items and |parts| - 1 separators, nothing more. */
  lemma {:induction false} JoinLength(parts: seq<string>, sep: string)
    requires parts != []
    ensures |Join(parts, sep)| == TotalLength(parts) + (|parts| - 1) * |sep|
  {
    if |parts| > 1 {
      JoinLength(parts[1..], sep);
    }
  }

  /** The text starts with the first item and ends with the last one. */
  lemma {:induction false} JoinEnds(parts: seq<string>, sep: string)
    requires parts != []
    ensures parts[0] <= Join(parts, sep)
    ensures |parts[|parts| - 1]| <= |Join(parts, sep)|
    ensures Join(parts, sep)[|Join(parts, sep)| - |parts[|parts| - 1]|..] == parts[|parts| - 1]
  {
    if |parts| > 1 {
      JoinEnds(parts[1..], sep);
      assert parts[1..][|parts[1..]| - 1] == parts[|parts| - 1];
      var rest := Join(parts[1..], sep);
      var last := parts[|parts| - 1];
      assert Join(parts, sep) == (parts[0] + sep) + rest;
      assert rest[|rest| - |last|..] == last;
    }
  }

  // ---------------------------------------------------------------------------------------
  // The clause skeleton of getSQLString.

  /** The clauses getSQLString can emit, each with the text it carries. */
  datatype Clause =
    | ExplainClause
    | SelectClause(distinct: bool, items: string)
    | FromClause(items: string)
    | WhereClause(items: string)
    | GroupByClause(items: string)
    | HavingClause(items: string)
    | OrderByClause(items: string)
    | LimitClause(count: Int32)
    | OffsetClause(count: Int32)

  /** The position of each clause in the fixed skeleton. */
  function Rank(c: Clause): nat
  {
    match c
    case ExplainClause => 0
    case SelectClause(_, _) => 1
    case FromClause(_) => 2
    case WhereClause(_) => 3
    case GroupByClause(_) => 4
    case HavingClause(_) => 5
    case OrderByClause(_) => 6
    case LimitClause(_) => 7
    case OffsetClause(_) => 8
  }

  function ClauseText(c: Clause): string
  {
    match c
    case ExplainClause => "EXPLAIN "
    case SelectClause(d, s) => "SELECT " + (if d then "DISTINCT " else "") + s
    case FromClause(s) => " FROM " + s
    case WhereClause(s) => " WHERE " + s
    case GroupByClause(s) => " GROUP BY " + s
    case HavingClause(s) => " HAVING " + s
    case OrderByClause(s) => " ORDER BY " + s
    case LimitClause(n) => " LIMIT " + IntToString(n as int)
    case OffsetClause(n) => " OFFSET " + IntToString(n as int)
  }

  function Texts(cs: seq<Clause>): seq<string>
  {
    seq(|cs|, i requires 0 <= i < |cs| => ClauseText(cs[i]))
  }

  function Optional(present: bool, c: Clause): seq<Clause>
  {
    if present then [c] else []
  }

  /** The clauses of a query, flat: the clause of each rank, kept when its gate is open. */
  function Clauses(q: QueryState, items: ClauseItems): seq<Clause>
  {
    Prefix(q, items, 9)
  }

  ghost predicate Present(cs: seq<Clause>, rank: nat)
  {
    exists c :: c in cs && Rank(c) == rank
  }

  predicate InSkeletonOrder(cs: seq<Clause>)
  {
    forall i, j :: 0 <= i < j < |cs| ==> Rank(cs[i]) < Rank(cs[j])
  }

  lemma {:induction false} ConcatAppend(a: seq<string>, b: seq<string>)
    ensures Concat(a + b) == Concat(a) + Concat(b)
  {
    if a != [] {
      assert (a + b)[0] == a[0];
      assert (a + b)[1..] == a[1..] + b;
      ConcatAppend(a[1..], b);
    } else {
      assert a + b == b;
    }
  }

  lemma TextsAppend(a: seq<Clause>, b: seq<Clause>)
    ensures Texts(a + b) == Texts(a) + Texts(b)
  {
  }

  lemma ConcatTexts(a: seq<Clause>, b: seq<Clause>)
    ensures Concat(Texts(a + b)) == Concat(Texts(a)) + Concat(Texts(b))
  {
    TextsAppend(a, b);
    ConcatAppend(Texts(a), Texts(b));
  }

  /** The text an optional clause contributes. */
  function OptionalText(present: bool, c: Clause): string
  {
    if present then ClauseText(c) else ""
  }

  lemma TextSnoc(cs: seq<Clause>, present: bool, c: Clause)
    ensures Concat(Texts(cs + Optional(present, c))) == Concat(Texts(cs)) + OptionalText(present, c)
  {
    ConcatTexts(cs, Optional(present, c));
    if present {
      assert Texts([c]) == [ClauseText(c)];
    } else {
      assert Texts([]) == [];
    }
  }

  /** The prefixes of the clause list, one clause at a time. */
  function Prefix(q: QueryState, t: ClauseItems, k: nat): seq<Clause>
    requires k <= 9
    decreases k
  {
    if k == 0 then [] else Prefix(q, t, k - 1) + Optional(Gate(q, k - 1), ClauseAt(q, t, k - 1))
  }

  /** Whether the clause of rank k is emitted: HAVING and OFFSET also need the gate of the
      clause they are nested in. */
  function Gate(q: QueryState, k: nat): bool
  {
    match k
    case 0 => q.explain
    case 1 => true
    case 2 => q.from != {}
    case 3 => q.where != {}
    case 4 => q.groupBy != {}
    case 5 => q.groupBy != {} && q.having != {}
    case 6 => q.orderBy != []
    case 7 => q.limit != 0
    case _ => q.limit != 0 && q.offset != 0
  }

  /** The clause of rank k. */
  function ClauseAt(q: QueryState, t: ClauseItems, k: nat): (c: Clause)
    requires k <= 8
    ensures Rank(c) == k
  {
    match k
    case 0 => ExplainClause
    case 1 => SelectClause(q.distinct, t.select)
    case 2 => FromClause(t.from)
    case 3 => WhereClause(t.where)
    case 4 => GroupByClause(t.groupBy)
    case 5 => HavingClause(t.having)
    case 6 => OrderByClause(t.orderBy)
    case 7 => LimitClause(q.limit)
    case _ => OffsetClause(q.offset)
  }

  /** getSQLString is the concatenation of the texts of the present clauses, in skeleton
      order: the nested HAVING and OFFSET conditions are exactly the flat ones of Clauses. */
  lemma SQLStringIsClauses(q: QueryState, r: Renderer, it: Iteration)
    requires Iterates(it, q)
    ensures SQLString(q, r, it) == Concat(Texts(Clauses(q, ItemsOf(q, r, it))))
  {
    SkeletonIsClauses(q, ItemsOf(q, r, it));
  }

  lemma SkeletonIsClauses(q: QueryState, t: ClauseItems)
    ensures Skeleton(q, t) == Concat(Texts(Clauses(q, t)))
  {
    var k := 0;
    while k < 9
      invariant k <= 9
      invariant Concat(Texts(Prefix(q, t, k))) == SkeletonUpTo(q, t, k)
    {
      TextSnoc(Prefix(q, t, k), Gate(q, k), ClauseAt(q, t, k));
      k := k + 1;
    }
    SkeletonUpToNine(q, t);
  }

  lemma Associative(a: string, b: string, c: string)
    ensures a + (b + c) == a + b + c
  {
  }

  lemma SkeletonUpToNine(q: QueryState, t: ClauseItems)
    ensures Skeleton(q, t) == SkeletonUpTo(q, t, 9)
  {
    var t4 := OptionalText(Gate(q, 4), ClauseAt(q, t, 4));
    var t5 := OptionalText(Gate(q, 5), ClauseAt(q, t, 5));
    var t7 := OptionalText(Gate(q, 7), ClauseAt(q, t, 7));
    var t8 := OptionalText(Gate(q, 8), ClauseAt(q, t, 8));
    assert SkeletonUpTo(q, t, 1) == ExplainPart(q);
    assert SkeletonUpTo(q, t, 2) == ExplainPart(q) + SelectPart(q, t);
    assert SkeletonUpTo(q, t, 3) == SkeletonUpTo(q, t, 2) + FromPart(q, t);
    assert SkeletonUpTo(q, t, 4) == SkeletonUpTo(q, t, 3) + WherePart(q, t);
    assert SkeletonUpTo(q, t, 6) == SkeletonUpTo(q, t, 4) + t4 + t5;
    assert GroupByPart(q, t) == t4 + t5;
    Associative(SkeletonUpTo(q, t, 4), t4, t5);
    assert SkeletonUpTo(q, t, 7) == SkeletonUpTo(q, t, 6) + OrderByPart(q, t);
    assert SkeletonUpTo(q, t, 9) == SkeletonUpTo(q, t, 7) + t7 + t8;
    assert LimitPart(q) == t7 + t8;
    Associative(SkeletonUpTo(q, t, 7), t7, t8);
  }

  /** The texts of the first k clauses, left to right. */
  function SkeletonUpTo(q: QueryState, t: ClauseItems, k: nat): string
    requires k <= 9
  {
    if k == 0 then "" else SkeletonUpTo(q, t, k - 1) + OptionalText(Gate(q, k - 1), ClauseAt(q, t, k - 1))
  }

  lemma {:induction false} AppendInOrder(cs: seq<Clause>, bound: nat, present: bool, c: Clause)
    requires InSkeletonOrder(cs) && forall d :: d in cs ==> Rank(d) < bound
    requires bound <= Rank(c)
    ensures InSkeletonOrder(cs + Optional(present, c))
    ensures forall d :: d in cs + Optional(present, c) ==> Rank(d) < Rank(c) + 1
  {
    var s := cs + Optional(present, c);
    forall i, j | 0 <= i < j < |s| ensures Rank(s[i]) < Rank(s[j]) {
      if j >= |cs| {
        assert s[j] == c && s[i] in cs;
      }
    }
  }

  /** The clauses come in the fixed order EXPLAIN, SELECT, FROM, WHERE, GROUP BY, HAVING,
      ORDER BY, LIMIT, OFFSET, with SELECT always there and every other one at most once. */
  lemma ClausesInOrder(q: QueryState, t: ClauseItems)
    ensures InSkeletonOrder(Clauses(q, t))
    ensures SelectClause(q.distinct, t.select) in Clauses(q, t)
  {
    var k := 0;
    while k < 9
      invariant k <= 9
      invariant InSkeletonOrder(Prefix(q, t, k))
      invariant forall d :: d in Prefix(q, t, k) ==> Rank(d) < k
    {
      AppendInOrder(Prefix(q, t, k), k, Gate(q, k), ClauseAt(q, t, k));
      k := k + 1;
    }
    assert Prefix(q, t, 2) == Prefix(q, t, 1) + [ClauseAt(q, t, 1)];
    PrefixGrows(q, t, 2, 9);
  }

  lemma {:induction false} PrefixGrows(q: QueryState, t: ClauseItems, j: nat, k: nat)
    requires j <= k <= 9
    ensures forall c :: c in Prefix(q, t, j) ==> c in Prefix(q, t, k)
  {
    if j < k {
      PrefixGrows(q, t, j, k - 1);
    }
  }

  lemma {:induction false} PresentSnoc(cs: seq<Clause>, present: bool, c: Clause, rank: nat)
    ensures Present(cs + Optional(present, c), rank) <==> Present(cs, rank) || (present && Rank(c) == rank)
  {
    if present && Rank(c) == rank {
      assert c in cs + Optional(present, c);
    }
    if Present(cs, rank) {
      var d :| d in cs && Rank(d) == rank;
      assert d in cs + Optional(present, c);
    }
  }

  /** Which clauses are present: FROM, WHERE, GROUP BY and ORDER BY exactly when their
      collection is non-empty, EXPLAIN exactly when the flag is set, HAVING only under a
      non-empty GROUP BY, LIMIT when the limit is not 0 and OFFSET only with a LIMIT; the
      SELECT clause carries the distinct flag. */
  lemma ClausePresence(q: QueryState, t: ClauseItems)
    ensures Present(Clauses(q, t), 0) <==> q.explain
    ensures Present(Clauses(q, t), 1)
    ensures Present(Clauses(q, t), 2) <==> q.from != {}
    ensures Present(Clauses(q, t), 3) <==> q.where != {}
    ensures Present(Clauses(q, t), 4) <==> q.groupBy != {}
    ensures Present(Clauses(q, t), 5) <==> q.groupBy != {} && q.having != {}
    ensures Present(Clauses(q, t), 6) <==> q.orderBy != []
    ensures Present(Clauses(q, t), 7) <==> q.limit != 0
    ensures Present(Clauses(q, t), 8) <==> q.limit != 0 && q.offset != 0
  {
    PresentIffGate(q, t, 9);
    assert Present(Clauses(q, t), 0) <==> Gate(q, 0);
    assert Present(Clauses(q, t), 1) <==> Gate(q, 1);
    assert Present(Clauses(q, t), 2) <==> Gate(q, 2);
    assert Present(Clauses(q, t), 3) <==> Gate(q, 3);
    assert Present(Clauses(q, t), 4) <==> Gate(q, 4);
    assert Present(Clauses(q, t), 5) <==> Gate(q, 5);
    assert Present(Clauses(q, t), 6) <==> Gate(q, 6);
    assert Present(Clauses(q, t), 7) <==> Gate(q, 7);
    assert Present(Clauses(q, t), 8) <==> Gate(q, 8);
  }

  lemma {:induction false} PresentIffGate(q: QueryState, t: ClauseItems, k: nat)
    requires k <= 9
    ensures forall j: nat :: Present(Prefix(q, t, k), j) <==> j < k && Gate(q, j)
  {
    if k > 0 {
      PresentIffGate(q, t, k - 1);
      forall j: nat ensures Present(Prefix(q, t, k), j) <==> j < k && Gate(q, j) {
        PresentSnoc(Prefix(q, t, k - 1), Gate(q, k - 1), ClauseAt(q, t, k - 1), j);
      }
    } else {
      forall j: nat ensures !Present(Prefix(q, t, 0), j) {
      }
    }
  }

  /** Every clause of a prefix is the clause of its own rank, below the prefix length. */
  lemma {:induction false} PrefixClausesAt(q: QueryState, t: ClauseItems, k: nat)
    requires k <= 9
    ensures forall c :: c in Prefix(q, t, k) ==> Rank(c) < k && c == ClauseAt(q, t, Rank(c))
  {
    if k > 0 {
      PrefixClausesAt(q, t, k - 1);
    }
  }

  /** The SELECT clause is the only one at rank 1 and carries the distinct flag. */
  lemma SelectClauseCarriesDistinct(q: QueryState, t: ClauseItems)
    ensures forall c :: c in Clauses(q, t) && Rank(c) == 1 ==> c == SelectClause(q.distinct, t.select)
  {
    PrefixClausesAt(q, t, 9);
  }

  // ---------------------------------------------------------------------------------------
  // Consequences of the nesting of the conditionals

  /** OFFSET is written only inside LIMIT: without a limit the offset does not show. */
  lemma OffsetNeedsLimit(q: QueryState, r: Renderer, it: Iteration, offset: Int32)
    requires Iterates(it, q)
    requires q.limit == 0
    ensures Iterates(it, q.(offset := offset))
    ensures SQLString(q.(offset := offset), r, it) == SQLString(q, r, it)
  {
    assert ItemsOf(q.(offset := offset), r, it) == ItemsOf(q, r, it);
  }

  /** HAVING is written only inside GROUP BY: without a GROUP BY the HAVING conditions do
      not show. */
  lemma HavingNeedsGroupBy(q: QueryState, r: Renderer, it: Iteration, having: set<Constraint>, order: seq<Constraint>)
    requires Iterates(it, q) && Enumerates(order, having)
    requires q.groupBy == {}
    ensures Iterates(it.(having := order), q.(having := having))
    ensures SQLString(q.(having := having), r, it.(having := order)) == SQLString(q, r, it)
  {
    var q', it' := q.(having := having), it.(having := order);
    var t, t' := ItemsOf(q, r, it), ItemsOf(q', r, it');
    assert t'.(having := t.having) == t;
    assert GroupByPart(q', t') == GroupByPart(q, t);
  }
}

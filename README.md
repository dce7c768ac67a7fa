# A verified model of InterMine's SQL `Query`

`org.intermine.sql.query.Query` is InterMine's object form of a SQL `SELECT` statement. It
holds these parts:

- a select list (`SelectValue`s, in order);
- sets of FROM tables, WHERE constraints, GROUP BY values and HAVING constraints;
- an ORDER BY list;
- `LIMIT` and `OFFSET`;
- the `EXPLAIN` and `DISTINCT` flags;
- a map from table alias to table, used while the statement is built.

A Query is built in one of two ways. Callers can use the mutators (`addSelect`, `addFrom`, …,
`setLimitOffset`). Or `Query(String)` can walk the ANTLR token tree of a parsed statement with
the `process*` methods. `getSQLString` turns a Query back into SQL text, and `equals` compares
two Queries.

The project has these modules:

- `Wrappers` (wrappers.dfy): `Option` and `Result`.
- `Tokens` (tokens.dfy): the token tree. A node has a token type, a text and its children.
  A node with its following siblings is a *chain*, and the empty chain stands for a null AST
  reference.
- `QueryModel` (model.dfy): the values, tables, select items and constraints. A Query's
  contents are the value `QueryState`. This module also defines `addFrom` and `addSelect` on
  that value, and the agreement between the alias map and the FROM set.
- `Builder` (builder.dfy): each `process*` method as a total function on the token tree.
  - A thrown `IllegalArgumentException("Unknown AST node")` is `Failure(UnknownNode(..))`.
  - A null AST or null child dereference is `Failure(NullReference)`.
  - A root that is not `SQL_STATEMENT` is `Failure(NotAStatement)`.
- `QueryObject` (query.dfy): the class `Query` with the same eleven fields and the
  constructor. It also has the mutators, `collectionToSQLString` as its `needComma` loop, and
  the builder methods with their `do … while` loops and `switch`es. Each method is proved to
  end in exactly the state, or with exactly the error, that the `Builder` function gives.
- `BuilderProperties` (builder_props.dfy): what the builder does, stated against independent
  reference definitions. `LastOf` is "the last token of that kind, read from the end of the
  sequence". `Picks` is "the values of the sequence, in order". This module covers:
  - which trees are rejected;
  - what each stage may change;
  - the two-phase order of `processAST`.
- `Serializer` (serializer.dfy): `getSQLString` and `collectionToSQLString`.
  - How each element prints is the `Renderer` parameter.
  - The order in which each `HashSet` is iterated is the `Iteration` parameter.
  - Proved: a separator goes between items and nowhere else; the clauses appear in the fixed
    order; each clause appears exactly when it should; HAVING is nested inside GROUP BY and
    OFFSET inside LIMIT.
- `Equality` (equality.dfy): `equals` as written, and the comparison it evidently meant.

The model follows the code where the code and the documentation differ:

- A field whose table alias names no table of the FROM list is not an error. It gets a null
  table (`FieldUnknownAlias`).
- The WHERE clause of a parsed statement is skipped.
- `equals` compares this query's `offset` with the other query's `limit` (see Findings).

## Model

| member | source | states |
|---|---|---|
| QueryObject.Query.constructor | intermine/src/java/org/intermine/sql/query/Query.java:31-43 | A new Query has every collection empty, LIMIT and OFFSET 0, both flags false and an empty alias map. |
| QueryObject.Query.FromTokens | intermine/src/java/org/intermine/sql/query/Query.java:52-76 | Building from a token tree fails with NotAStatement unless the root is SQL_STATEMENT. Otherwise the new Query is exactly `Build(root)`, or the method reports `Build`'s error. |
| QueryObject.Query.SetDistinct | intermine/src/java/org/intermine/sql/query/Query.java:92-94 | Only the distinct flag changes, to the given value. |
| QueryObject.Query.SetExplain | intermine/src/java/org/intermine/sql/query/Query.java:110-112 | Only the explain flag changes, to the given value. |
| QueryObject.Query.AddSelect | intermine/src/java/org/intermine/sql/query/Query.java:129-131 | The item is appended at the end of the select list, and nothing else changes. |
| QueryModel.WithSelectAppends | intermine/src/java/org/intermine/sql/query/Query.java:123-131 | After addSelect the list is one longer, and the earlier items keep their order. The new item is last, and every other part is unchanged. |
| QueryObject.Query.AddFrom | intermine/src/java/org/intermine/sql/query/Query.java:147-150 | The table is added to the FROM set and its alias is mapped to it; nothing else changes. |
| QueryModel.WithFromResolves | intermine/src/java/org/intermine/sql/query/Query.java:147-150 | After addFrom the new table's alias resolves to it. Every other alias resolves as before, and every other part is unchanged. |
| QueryModel.WithFromConsistent | intermine/src/java/org/intermine/sql/query/Query.java:147-150 | addFrom keeps the alias map in step with the FROM set: every entry points at a FROM table with that alias, and every FROM table's alias is mapped. |
| QueryModel.WithFromSameAlias | intermine/src/java/org/intermine/sql/query/Query.java:147-150 | Take two tables under one alias. Both stay in the FROM set, and the alias resolves to the one added last. |
| QueryModel.EmptyQueryConsistent | intermine/src/java/org/intermine/sql/query/Query.java:31-43 | The new Query's alias map is consistent with its FROM set. |
| QueryObject.Query.AddWhere | intermine/src/java/org/intermine/sql/query/Query.java:168-170 | The constraint joins the WHERE set, and nothing else changes. |
| QueryObject.Query.AddGroupBy | intermine/src/java/org/intermine/sql/query/Query.java:186-188 | The value joins the GROUP BY set, and nothing else changes. |
| QueryObject.Query.AddHaving | intermine/src/java/org/intermine/sql/query/Query.java:204-206 | The constraint joins the HAVING set, and nothing else changes. |
| QueryObject.Query.AddOrderBy | intermine/src/java/org/intermine/sql/query/Query.java:223-225 | The value is appended to the ORDER BY list, and nothing else changes. |
| QueryObject.Query.SetLimitOffset | intermine/src/java/org/intermine/sql/query/Query.java:251-254 | LIMIT and OFFSET take the given values, and nothing else changes. |
| QueryObject.Query.CollectionToSQLString | intermine/src/java/org/intermine/sql/query/Query.java:281-294 | The loop returns the items' SQL strings in iteration order, with `comma` between consecutive items. |
| Serializer.JoinSnoc | intermine/src/java/org/intermine/sql/query/Query.java:285-292 | One more item adds exactly one separator, except after nothing, plus that item at the end. |
| Serializer.JoinSplit | intermine/src/java/org/intermine/sql/query/Query.java:281-294 | Cutting the item list inside it cuts the text at exactly one separator. |
| Serializer.JoinLength | intermine/src/java/org/intermine/sql/query/Query.java:281-294 | The text is as long as the items plus one separator fewer than there are items. |
| Serializer.JoinEnds | intermine/src/java/org/intermine/sql/query/Query.java:281-294 | The text starts with the first item and ends with the last; there is no leading or trailing separator. |
| Serializer.JoinEmpty | intermine/src/java/org/intermine/sql/query/Query.java:282 | An empty collection gives the empty string. |
| Serializer.JoinSingle | intermine/src/java/org/intermine/sql/query/Query.java:287-291 | A single item gives that item's text with no separator. |
| Serializer.SQLString | intermine/src/java/org/intermine/sql/query/Query.java:261-271 | getSQLString starts with `EXPLAIN ` (when set), `SELECT `, `DISTINCT ` (when set) and the joined select list; each clause after that is as the lemmas below state. |
| Serializer.Skeleton | intermine/src/java/org/intermine/sql/query/Query.java:262-270 | The expression with each collectionToSQLString call replaced by its text begins with the EXPLAIN and SELECT parts. |
| Serializer.SQLStringIsClauses | intermine/src/java/org/intermine/sql/query/Query.java:261-271 | getSQLString is the texts of its present clauses, concatenated in order. |
| Serializer.SkeletonIsClauses | intermine/src/java/org/intermine/sql/query/Query.java:262-270 | Each parenthesised conditional of the expression is one clause of the list, kept exactly when its test holds. |
| Serializer.ClausesInOrder | intermine/src/java/org/intermine/sql/query/Query.java:262-270 | The clauses come in the fixed order EXPLAIN, SELECT, FROM, WHERE, GROUP BY, HAVING, ORDER BY, LIMIT, OFFSET, and SELECT is always there. |
| Serializer.ClausePresence | intermine/src/java/org/intermine/sql/query/Query.java:262-270 | Each clause is present exactly when it should be. FROM, WHERE, GROUP BY and ORDER BY need a non-empty collection, and LIMIT a non-zero limit. HAVING needs a non-empty HAVING and a non-empty GROUP BY; OFFSET needs a non-zero offset and a non-zero limit. EXPLAIN goes with its flag. |
| Serializer.PresentIffGate | intermine/src/java/org/intermine/sql/query/Query.java:262-270 | In every prefix of the skeleton, a clause is present exactly when its rank is inside the prefix and its gate is open. |
| Serializer.SelectClauseCarriesDistinct | intermine/src/java/org/intermine/sql/query/Query.java:262-263 | The one rank-1 clause is SELECT, carrying the distinct flag and the joined select list. |
| Serializer.OffsetNeedsLimit | intermine/src/java/org/intermine/sql/query/Query.java:269-270 | Without a LIMIT the OFFSET never shows: changing the offset leaves the SQL unchanged. |
| Serializer.HavingNeedsGroupBy | intermine/src/java/org/intermine/sql/query/Query.java:266-267 | Without a GROUP BY the HAVING conditions never show: changing them leaves the SQL unchanged. |
| Equality.Equals | intermine/src/java/org/intermine/sql/query/Query.java:302-311 | equals as written: the intended comparison of this query with the other query whose offset is replaced by its own limit. |
| Equality.EqualsIntended | intermine/src/java/org/intermine/sql/query/Query.java:302-311 | equals with `offset == q.offset`: holds exactly when the two queries agree on every part except the builder's alias map. |
| Equality.EqualsReflexiveIff | intermine/src/java/org/intermine/sql/query/Query.java:302-311 | As written, and with element equality taken as structural, a query equals itself exactly when its offset equals its limit (for a query with a FROM subquery, see Left out). |
| Equality.EqualsAsymmetry | intermine/src/java/org/intermine/sql/query/Query.java:307 | As written, for queries that differ at most in offset, `a.equals(b)` tests a's offset against b's limit, and `b.equals(a)` the reverse. |
| Equality.EqualsNotReflexive | intermine/src/java/org/intermine/sql/query/Query.java:307 | As written, the query with LIMIT 10 OFFSET 5 is not equal to itself; by the intended comparison it is. |
| Equality.EqualsIgnoresOffset | intermine/src/java/org/intermine/sql/query/Query.java:302-311 | As written, LIMIT 10 OFFSET 10 equals LIMIT 10 but not the other way round, although the two print different SQL. |
| Equality.EqualsAgreesWhenOffsetIsLimit | intermine/src/java/org/intermine/sql/query/Query.java:305-308 | When the other query's offset equals its limit, the code as written and the intended comparison agree. |
| Equality.EqualsIntendedIsEquivalence | intermine/src/java/org/intermine/sql/query/Query.java:302-311 | The intended equals is reflexive, symmetric and transitive. |
| Equality.EqualsIntendedSameSQL | intermine/src/java/org/intermine/sql/query/Query.java:261-311 | Equal queries print the same SQL under the same renderers and iteration orders. |
| Equality.FromOrderIrrelevant | intermine/src/java/org/intermine/sql/query/Query.java:142-150 | Adding two tables in either order gives equal queries under the intended comparison; the FROM order is not important. |
| Equality.SelectOrderMatters | intermine/src/java/org/intermine/sql/query/Query.java:123-131 | Adding two different select items in the two orders gives unequal queries; the select list keeps its order. |
| Builder.Build | intermine/src/java/org/intermine/sql/query/Query.java:72-75 | NotAStatement is reported exactly when the root is not SQL_STATEMENT: processAST and the builders below it never raise it. |
| QueryObject.Query.ProcessAST | intermine/src/java/org/intermine/sql/query/Query.java:330-358 | The recursive walk of the top-level nodes ends in exactly `TopLevel`'s state, or with its error. |
| BuilderProperties.TwoPhase | intermine/src/java/org/intermine/sql/query/Query.java:330-358 | processAST runs every FROM list, and rejects every unknown node, before any SELECT list. The SELECT lists then run from last to first. So a select item sees every table of the statement, including tables listed after it. |
| BuilderProperties.TopLevelStep | intermine/src/java/org/intermine/sql/query/Query.java:330-358 | A statement only adds tables and appends select items, and it keeps the alias map consistent. WHERE, GROUP BY, HAVING, ORDER BY, LIMIT, OFFSET and the flags are untouched; the WHERE clause is skipped. |
| BuilderProperties.BuildResult | intermine/src/java/org/intermine/sql/query/Query.java:52-76 | A parsed statement has no WHERE, GROUP BY, HAVING or ORDER BY. Its LIMIT and OFFSET are 0, both flags are false, and its alias map is consistent. |
| BuilderProperties.TopLevelRejectsUnknown | intermine/src/java/org/intermine/sql/query/Query.java:348-351 | A top-level node of any other kind anywhere in the chain makes processAST fail. |
| BuilderProperties.EmptyListsFail | intermine/src/java/org/intermine/sql/query/Query.java:342-356 | A statement whose only node is a SELECT or FROM list without children fails with a null dereference. |
| BuilderProperties.EmptyStatementFails | intermine/src/java/org/intermine/sql/query/Query.java:72-75 | A statement without children is a null dereference. |
| QueryObject.Query.ProcessFromList | intermine/src/java/org/intermine/sql/query/Query.java:365-383 | The do-while loop ends in exactly `FromListOf`'s state, or with its error; FromListSpec states which tables that adds. |
| BuilderProperties.FromItemsStep | intermine/src/java/org/intermine/sql/query/Query.java:365-383 | The FROM list only adds tables, keeps the alias map consistent, and changes nothing else. |
| BuilderProperties.FromItemsSpec | intermine/src/java/org/intermine/sql/query/Query.java:365-383 | The FROM list is accepted exactly when every node is FROM, a comma, or a table or subquery that builds. The FROM set grows by exactly the tables those nodes build; each alias then maps to the last of them carrying it, or as before when none does; nothing else changes. |
| BuilderProperties.FromListSpec | intermine/src/java/org/intermine/sql/query/Query.java:365-383 | An empty FROM list is rejected; otherwise acceptance and the added tables are as in FromItemsSpec. |
| BuilderProperties.FromItemsRejectsUnknown | intermine/src/java/org/intermine/sql/query/Query.java:377-379 | A node other than FROM, a comma, a table or a subquery, anywhere in the list, makes it fail. |
| QueryObject.Query.ProcessNewTable | intermine/src/java/org/intermine/sql/query/Query.java:390-410 | The loop ends having added exactly `NewTable`'s table, or with its error. |
| BuilderProperties.NewTableSpec | intermine/src/java/org/intermine/sql/query/Query.java:390-410 | A table node is accepted exactly when it is non-empty and holds only AS, TABLE_NAME and TABLE_ALIAS nodes, each name node with its text. The table gets the last name and the last alias given, null when none. |
| QueryObject.Query.ProcessNewSubQuery | intermine/src/java/org/intermine/sql/query/Query.java:417-441 | The statement is built into a new Query object, which is then added under the alias. The method ends in exactly `NewSubQuery`'s state, or with its error. |
| BuilderProperties.NewSubQuerySpec | intermine/src/java/org/intermine/sql/query/Query.java:417-441 | A subquery node holding only AS, parentheses, SQL_STATEMENT and TABLE_ALIAS builds the last statement given into a fresh query, under the last alias; any other node makes it fail. |
| BuilderProperties.SubQueryWithoutStatement | intermine/src/java/org/intermine/sql/query/Query.java:438-439 | A subquery without a statement is a null dereference. |
| BuilderProperties.SubQueryOwnScope | intermine/src/java/org/intermine/sql/query/Query.java:438-440 | The subquery's tables, select items and alias map come only from its own statement, so the enclosing query's aliases are not in scope inside it. |
| QueryObject.Query.ProcessSelectList | intermine/src/java/org/intermine/sql/query/Query.java:448-462 | The loop ends in exactly `SelectListOf`'s state, or with its error; SelectListSpec states which items that appends. |
| BuilderProperties.SelectItemsAccepts | intermine/src/java/org/intermine/sql/query/Query.java:448-462 | The SELECT list is accepted exactly when every node is a comma or a SELECT_VALUE whose item builds. |
| BuilderProperties.SelectItemsSpec | intermine/src/java/org/intermine/sql/query/Query.java:448-462 | An accepted SELECT list appends the items its SELECT_VALUE nodes build, each once and in list order, all resolved against the alias map on entry. |
| BuilderProperties.SelectListSpec | intermine/src/java/org/intermine/sql/query/Query.java:448-462 | An empty SELECT list is rejected; otherwise it is accepted as in SelectItemsAccepts, and the new state is the old one with exactly those items appended to the select list. |
| BuilderProperties.SelectItemsRejectsUnknown | intermine/src/java/org/intermine/sql/query/Query.java:456-458 | A node other than a comma or a SELECT_VALUE anywhere in the SELECT list makes it fail. |
| BuilderProperties.SelectItemsStep | intermine/src/java/org/intermine/sql/query/Query.java:448-462 | A SELECT list only appends to the select list, keeping the earlier items. |
| QueryObject.Query.ProcessNewSelect | intermine/src/java/org/intermine/sql/query/Query.java:469-493 | The loop ends having appended exactly `NewSelect`'s item, resolved against the alias map at entry, or with its error. |
| BuilderProperties.NewSelectSpec | intermine/src/java/org/intermine/sql/query/Query.java:469-493 | A select item is accepted exactly when it is non-empty and holds only AS, FIELD_ALIAS (with text) and values that build. The item is the last value and the last alias, null when none. |
| QueryObject.Query.ProcessNewAbstractValue | intermine/src/java/org/intermine/sql/query/Query.java:501-515 | The switch returns exactly `AbstractValue`'s result, which AbstractValueSpec characterizes. |
| BuilderProperties.AbstractValueSpec | intermine/src/java/org/intermine/sql/query/Query.java:501-515 | A node that is not FIELD, CONSTANT, UNSAFE_FUNCTION or SAFE_FUNCTION is rejected with its type and text. A constant is its child's text, and a null dereference without a child. A field is accepted as in FieldSpec and is the last FIELD_NAME with the table of the last TABLE_ALIAS. A function node is what the function builders give for its children. |
| QueryObject.Query.ProcessNewField | intermine/src/java/org/intermine/sql/query/Query.java:523-544 | The field is exactly `FieldOf`'s, resolved through the alias map. |
| BuilderProperties.FieldSpec | intermine/src/java/org/intermine/sql/query/Query.java:523-544 | A field node is accepted exactly when it is non-empty and holds only dots, TABLE_ALIAS and FIELD_NAME (with text). The field is the last name, with the table the last alias maps to. |
| BuilderProperties.FieldUnknownAlias | intermine/src/java/org/intermine/sql/query/Query.java:542-543 | An alias that no FROM table carries is not an error: the field's table is null. |
| BuilderProperties.FieldWithoutAlias | intermine/src/java/org/intermine/sql/query/Query.java:524-543 | A field without a table alias resolves through the null key of the alias map: its table is whatever the map holds for the null alias. |
| QueryObject.Query.ProcessNewUnsafeFunction | intermine/src/java/org/intermine/sql/query/Query.java:552-620 | The loop, with firstObj, retval and gotType, returns exactly `NewUnsafeFunction`'s result. |
| BuilderProperties.UnsafeFunctionSpec | intermine/src/java/org/intermine/sql/query/Query.java:552-620 | An arithmetic node is accepted exactly when it holds only parentheses, operators and values that build. The Function has the kind of the first operator. Its operands are the last value before that operator, then every value after it in order; later operators are ignored. |
| BuilderProperties.UnsafeFunctionWithoutOperator | intermine/src/java/org/intermine/sql/query/Query.java:552-620 | An arithmetic node without an operator builds no Function: the result is null. |
| BuilderProperties.UnsafeAfterOperator | intermine/src/java/org/intermine/sql/query/Query.java:565-612 | Once gotType is set, every value is appended in order and further operators are skipped. |
| QueryObject.Query.ProcessNewSafeFunction | intermine/src/java/org/intermine/sql/query/Query.java:628-680 | The loop, with retval and gotType, returns exactly `NewSafeFunction`'s result. |
| BuilderProperties.SafeFunctionSpec | intermine/src/java/org/intermine/sql/query/Query.java:628-680 | An aggregate call with parentheses or `*` before its keyword takes the keyword's kind. It is accepted exactly when every later node is a parenthesis, `*`, a keyword or a value that builds. Its operands are the values after the keyword, in order. |
| BuilderProperties.SafeValueFirst | intermine/src/java/org/intermine/sql/query/Query.java:637-641 | A value before the keyword is still evaluated first, so its own error is reported; otherwise `retval.add` fails on the null retval. |
| BuilderProperties.SafeRejectsFirst | intermine/src/java/org/intermine/sql/query/Query.java:673-675 | A node that is not a parenthesis, `*`, aggregate keyword or value, met before the keyword, is rejected with its own type and text. |
| BuilderProperties.SafeOnlySkipped | intermine/src/java/org/intermine/sql/query/Query.java:628-636 | A chain of only parentheses and `*` gives null. |
| BuilderProperties.CountStar | intermine/src/java/org/intermine/sql/query/Query.java:628-648 | `COUNT(*)` is a COUNT Function with no operands. |

## Left out

- `Query(String)`: the SQL lexer and parser (ANTLR) are not part of this model. The model
  starts from the token tree they produce (`FromTokens`), and the root check is modelled.
- `main`: it dumps a tree to standard output, which is I/O.
- `hashCode`: it uses the hash codes of Java collections, which are not modelled.
- The getters (`isDistinct`, `isExplain`, `getSelect`, `getFrom`, `getWhere`, `getGroupBy`,
  `getHaving`, `getOrderBy`, `getLimit`, `getOffset`) are reads of the class's fields.
  - The model reads the fields, or `State()`, directly.
  - The Java getters return the live collections. Outside code can mutate those without
    going through the mutators, and that aliasing is not modelled.
- How a Field, Table, SubQuery, SelectValue, Constant, Function or constraint prints is
  defined in classes outside this model, so it is the `Renderer` parameter.
- The iteration order of each `HashSet` is the `Iteration` parameter. It visits every element
  exactly once.
- `LimitPart` prints `limit` and `offset` in decimal, as Java string concatenation does.
- WHERE and HAVING constraints (`AbstractConstraint` and its subclasses) are opaque
  identities. The builder never creates one, because the WHERE clause is skipped.
- Element `equals`: `Equals` takes the element classes' equality to be structural equality.
  `SubQuery` is not part of this model. If its `equals` compares the wrapped Query with
  `Query.equals`, which is likely, Java's result differs for a query with a FROM subquery.
  The inner query is then compared with the offset/limit quirk, where the model compares its
  whole state, including the inner alias map.
- Equality.EqualsReflexiveIff: holds for queries whose FROM set has no subquery, or under
  structural element equality; it is not stated for Java's subquery comparison, for the
  reason above.
- `Function.add` is taken to append its operand, because `Function` is not part of this
  model. A subquery keeps the built inner query as a value, not as a shared object.
- The state half-built before a failed build is unspecified, because the caller discards the
  Query. A build method's `Reflects` contract only promises the reported error.
- The `IllegalArgumentException` message text is not modelled. The error carries the node's
  token type and text instead.
- Java `int` is `Int32`. No arithmetic is done on it, so no wrap-around arises.

## Findings

| source | as written | input that shows it | evidently intended | confidence | as-written member | corrected member |
|---|---|---|---|---|---|---|
| intermine/src/java/org/intermine/sql/query/Query.java:307 | `equals` tests `offset == q.limit` | A query with LIMIT 10 OFFSET 5 is not equal to itself. LIMIT 10 OFFSET 10 equals LIMIT 10, though their SQL differs. | `offset == q.offset`, so that equals is an equivalence | not executed | Equality.EqualsNotReflexive | Equality.EqualsIntendedIsEquivalence |

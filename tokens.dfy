/** The token tree produced by the SQL parser: every node has a token type, a text and an
    ordered list of children (the first-child / next-sibling chain of an ANTLR AST). */
module Tokens {

  /** The token types of SqlTokenTypes that the query builder distinguishes; every other token
      type is `Other`. */
  datatype Kind =
    | SqlStatement | SelectList | SelectValue | FromList | WhereClause
    | Table | TableName | TableAlias | SubQuery
    | Field | FieldName | FieldAlias | Constant | UnsafeFunction | SafeFunction
    | LiteralSelect | LiteralFrom | LiteralAs
    | LiteralCount | LiteralMax | LiteralMin | LiteralSum | LiteralAvg
    | Semi | Comma | Dot | OpenParen | CloseParen
    | Plus | Minus | Asterisk | Divide | Power | Percent
    | Other(code: int)

  datatype Node = Node(kind: Kind, text: string, children: seq<Node>)

  /** A node together with its following siblings is a "chain"; the empty chain stands for a
      null AST reference. */
  function ChainSize(chain: seq<Node>): (size: nat)
    ensures chain != [] ==> size == NodeSize(chain[0]) + ChainSize(chain[1..])
    ensures chain != [] ==> ChainSize(chain[0].children) < NodeSize(chain[0]) <= size
    ensures chain != [] ==> ChainSize(chain[1..]) < size
  {
    if chain == [] then 0 else NodeSize(chain[0]) + ChainSize(chain[1..])
  }

  function NodeSize(n: Node): nat
  {
    1 + ChainSize(n.children)
  }

  /** The token types that start a value: a field, a constant or a function. */
  predicate IsValueKind(k: Kind)
  {
    k.Field? || k.Constant? || k.UnsafeFunction? || k.SafeFunction?
  }
}

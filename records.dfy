/** The records a QueryBuilder accumulates: the values callers bind, one WHERE
    condition, one join, one attached union member, and a by-value copy of a
    whole builder (what a union member embeds). */
module Records {

  // Operator and keyword texts the builder stores verbatim.
  const BETWEEN: string := "BETWEEN"
  const NOTBETWEEN: string := "NOT BETWEEN"
  const IN: string := "IN"
  const NOTIN: string := "NOT IN"
  const AND: string := "AND"
  const OR: string := "OR"
  const ISNULL: string := "IS NULL"
  const ISNOTNULL: string := "IS NOT NULL"
  const EQUAL: string := "="
  const NOTEQUAL: string := "!="
  const LIKE: string := "LIKE"
  const JOIN: string := "JOIN"
  const LEFTJOIN: string := "LEFT JOIN"
  const RIGHTJOIN: string := "RIGHT JOIN"
  const UNION: string := "UNION"
  const UNIONALL: string := "UNION ALL"
  const DESC: string := "DESC"
  const ASC: string := "ASC"

  /** A value a caller binds to a placeholder. The builder only ever asks
      whether a value is a string, so every other value is an opaque token. */
  datatype Value = Str(s: string) | Other(token: int)

  /** One WHERE condition: its column, operator text, the number of values it
      declares it binds, and the combinator (AND or OR) joining it to the
      condition before it. */
  datatype Condition = Condition(column: string, operator: string, valuenum: int, combinator: string)

  /** One join: target table, raw ON text and the join keyword. */
  datatype JoinClause = JoinClause(table: string, on: string, operator: string)

  /** One union member: a copy of the member builder and UNION or UNION ALL. */
  datatype UnionClause = UnionClause(query: Query, operator: string)

  /** The whole state of a builder, as a value. */
  datatype Query = Query(
    table: seq<string>,
    columns: seq<string>,
    where: seq<Condition>,
    orders: seq<string>,
    groups: seq<string>,
    limit: int,
    offset: int,
    distinct: bool,
    binds: seq<string>,
    joins: seq<JoinClause>,
    unions: seq<UnionClause>,
    unlimit: int,
    unoffset: int,
    unorders: seq<string>,
    args: seq<Value>,
    datas: seq<map<string, Value>>)
}

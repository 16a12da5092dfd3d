/** The chainable QueryBuilder: every mutator changes the builder's fields in
    place. Condition entry points add one condition and bind its values in
    the same call, union entry points copy each member's arguments at attach
    time, and the shape setters overwrite or append to their own field only.
    The frame of every method names the fields it may change, so every other
    field is unchanged. */
module Builder {
  import opened Records
  import opened Sequencer
  import opened Direction

  class QueryBuilder {
    var table: seq<string>
    var columns: seq<string>
    var where: seq<Condition>
    var orders: seq<string>
    var groups: seq<string>
    var limit: int
    var offset: int
    var distinct: bool
    var binds: seq<string>
    var joins: seq<JoinClause>
    var unions: seq<UnionClause>
    var unlimit: int
    var unoffset: int
    var unorders: seq<string>
    var args: seq<Value>
    var datas: seq<map<string, Value>>

    /** Which call contributed which arguments, oldest first. */
    ghost var trail: seq<Chunk>

    /** The conditions, union members and arguments are exactly those the
        trail records, and each condition bound as many values as it declares. */
    ghost predicate Valid()
      reads this`where, this`unions, this`args, this`trail
    {
      where == Conditions(trail) && unions == Clauses(trail) && args == Flatten(trail) && WellSized(trail)
    }

    /** An empty builder, the zero value of the record. */
    constructor ()
      ensures Valid()
      ensures table == [] && columns == [] && where == [] && orders == [] && groups == []
      ensures limit == 0 && offset == 0 && !distinct && binds == [] && joins == [] && unions == []
      ensures unlimit == 0 && unoffset == 0 && unorders == [] && args == [] && datas == []
    {
      table, columns, where, orders, groups := [], [], [], [], [];
      limit, offset, distinct, binds, joins, unions := 0, 0, false, [], [], [];
      unlimit, unoffset, unorders, args, datas := 0, 0, [], [], [];
      trail := [];
    }

    /** The builder's state as a value: what a union member embeds. */
    function Snapshot(): Query
      reads this
    {
      Query(table, columns, where, orders, groups, limit, offset, distinct, binds,
            joins, unions, unlimit, unoffset, unorders, args, datas)
    }

    /** In a valid builder the argument count is the sum of the condition
        arities plus the arguments copied in from union members. */
    lemma ArgsAligned()
      requires Valid()
      ensures |args| == ArityTotal(where) + CopiedTotal(unions)
    {
      Aligned(trail);
    }

    method Table(names: seq<string>)
      modifies this`table
      ensures table == names
    {
      table := names;
    }

    method Select(names: seq<string>)
      modifies this`columns
      ensures columns == names
    {
      columns := names;
    }

    /** Appends one condition, without binding anything. */
    method ToWhere(column: string, operator: string, valuenum: int, combinator: string)
      modifies this`where
      ensures where == old(where) + [Condition(column, operator, valuenum, combinator)]
    {
      where := where + [Condition(column, operator, valuenum, combinator)];
    }

    /** Appends values to the argument sequence. */
    method AddArg(values: seq<Value>)
      modifies this`args
      ensures args == old(args) + values
    {
      args := args + values;
    }

    /** Puts values in front of the argument sequence. The builder is not
        valid afterwards: these values belong to no condition. */
    method BeforeArg(values: seq<Value>)
      modifies this`args
      ensures args == values + old(args)
    {
      args := values + args;
    }

    /** Replaces the row payload. */
    method SetData(rows: seq<map<string, Value>>)
      modifies this`datas
      ensures datas == rows
    {
      datas := rows;
    }

    /** One condition entry point: a condition whose arity is the number of
        values, and those values bound in the same call. */
    method Bind(column: string, operator: string, combinator: string, values: seq<Value>)
      requires Valid()
      modifies this`where, this`args, this`trail
      ensures Valid()
      ensures where == old(where) + [Condition(column, operator, |values|, combinator)]
      ensures args == old(args) + values
    {
      var cond := Condition(column, operator, |values|, combinator);
      TrailAppend(trail, Bound(cond, values));
      ToWhere(column, operator, |values|, combinator);
      AddArg(values);
      trail := trail + [Bound(cond, values)];
    }

    /** The variadic Where/OrWhere dispatch on the number of extra values. */
    method WhereBy(column: string, values: seq<Value>, combinator: string)
      requires Valid()
      modifies this`where, this`args, this`trail
      ensures Valid()
      ensures |values| == 0 ==> where == old(where) + [Condition(column, "", 0, combinator)] && args == old(args)
      ensures |values| == 1 ==> where == old(where) + [Condition(column, EQUAL, 1, combinator)] && args == old(args) + values
      ensures |values| >= 2 && values[0].Str? ==>
                where == old(where) + [Condition(column, values[0].s, 1, combinator)] && args == old(args) + [values[1]]
      ensures |values| >= 2 && !values[0].Str? ==> where == old(where) && args == old(args)
    {
      if |values| == 0 {
        Bind(column, "", combinator, []);
      } else if |values| == 1 {
        Bind(column, EQUAL, combinator, [values[0]]);
      } else {
        match values[0]
        case Str(op) => Bind(column, op, combinator, [values[1]]);
        case Other(_) =>
      }
    }

    method Where(column: string, values: seq<Value>)
      requires Valid()
      modifies this`where, this`args, this`trail
      ensures Valid()
      ensures |values| == 0 ==> where == old(where) + [Condition(column, "", 0, AND)] && args == old(args)
      ensures |values| == 1 ==> where == old(where) + [Condition(column, EQUAL, 1, AND)] && args == old(args) + values
      ensures |values| >= 2 && values[0].Str? ==>
                where == old(where) + [Condition(column, values[0].s, 1, AND)] && args == old(args) + [values[1]]
      ensures |values| >= 2 && !values[0].Str? ==> where == old(where) && args == old(args)
    {
      WhereBy(column, values, AND);
    }

    method OrWhere(column: string, values: seq<Value>)
      requires Valid()
      modifies this`where, this`args, this`trail
      ensures Valid()
      ensures |values| == 0 ==> where == old(where) + [Condition(column, "", 0, OR)] && args == old(args)
      ensures |values| == 1 ==> where == old(where) + [Condition(column, EQUAL, 1, OR)] && args == old(args) + values
      ensures |values| >= 2 && values[0].Str? ==>
                where == old(where) + [Condition(column, values[0].s, 1, OR)] && args == old(args) + [values[1]]
      ensures |values| >= 2 && !values[0].Str? ==> where == old(where) && args == old(args)
    {
      WhereBy(column, values, OR);
    }

    method Equal(column: string, value: Value)
      requires Valid()
      modifies this`where, this`args, this`trail
      ensures Valid()
      ensures where == old(where) + [Condition(column, EQUAL, 1, AND)] && args == old(args) + [value]
    {
      Bind(column, EQUAL, AND, [value]);
    }

    method OrEqual(column: string, value: Value)
      requires Valid()
      modifies this`where, this`args, this`trail
      ensures Valid()
      ensures where == old(where) + [Condition(column, EQUAL, 1, OR)] && args == old(args) + [value]
    {
      Bind(column, EQUAL, OR, [value]);
    }

    method NotEqual(column: string, value: Value)
      requires Valid()
      modifies this`where, this`args, this`trail
      ensures Valid()
      ensures where == old(where) + [Condition(column, NOTEQUAL, 1, AND)] && args == old(args) + [value]
    {
      Bind(column, NOTEQUAL, AND, [value]);
    }

    method OrNotEqual(column: string, value: Value)
      requires Valid()
      modifies this`where, this`args, this`trail
      ensures Valid()
      ensures where == old(where) + [Condition(column, NOTEQUAL, 1, OR)] && args == old(args) + [value]
    {
      Bind(column, NOTEQUAL, OR, [value]);
    }

    method Between(column: string, value1: Value, value2: Value)
      requires Valid()
      modifies this`where, this`args, this`trail
      ensures Valid()
      ensures where == old(where) + [Condition(column, BETWEEN, 2, AND)] && args == old(args) + [value1, value2]
    {
      Bind(column, BETWEEN, AND, [value1, value2]);
    }

    method OrBetween(column: string, value1: Value, value2: Value)
      requires Valid()
      modifies this`where, this`args, this`trail
      ensures Valid()
      ensures where == old(where) + [Condition(column, BETWEEN, 2, OR)] && args == old(args) + [value1, value2]
    {
      Bind(column, BETWEEN, OR, [value1, value2]);
    }

    method NotBetween(column: string, value1: Value, value2: Value)
      requires Valid()
      modifies this`where, this`args, this`trail
      ensures Valid()
      ensures where == old(where) + [Condition(column, NOTBETWEEN, 2, AND)] && args == old(args) + [value1, value2]
    {
      Bind(column, NOTBETWEEN, AND, [value1, value2]);
    }

    method NotOrBetween(column: string, value1: Value, value2: Value)
      requires Valid()
      modifies this`where, this`args, this`trail
      ensures Valid()
      ensures where == old(where) + [Condition(column, NOTBETWEEN, 2, OR)] && args == old(args) + [value1, value2]
    {
      Bind(column, NOTBETWEEN, OR, [value1, value2]);
    }

    method In(column: string, values: seq<Value>)
      requires Valid()
      modifies this`where, this`args, this`trail
      ensures Valid()
      ensures where == old(where) + [Condition(column, IN, |values|, AND)] && args == old(args) + values
    {
      Bind(column, IN, AND, values);
    }

    method OrIn(column: string, values: seq<Value>)
      requires Valid()
      modifies this`where, this`args, this`trail
      ensures Valid()
      ensures where == old(where) + [Condition(column, IN, |values|, OR)] && args == old(args) + values
    {
      Bind(column, IN, OR, values);
    }

    method NotIn(column: string, values: seq<Value>)
      requires Valid()
      modifies this`where, this`args, this`trail
      ensures Valid()
      ensures where == old(where) + [Condition(column, NOTIN, |values|, AND)] && args == old(args) + values
    {
      Bind(column, NOTIN, AND, values);
    }

    method OrNotIn(column: string, values: seq<Value>)
      requires Valid()
      modifies this`where, this`args, this`trail
      ensures Valid()
      ensures where == old(where) + [Condition(column, NOTIN, |values|, OR)] && args == old(args) + values
    {
      Bind(column, NOTIN, OR, values);
    }

    method IsNULL(column: string)
      requires Valid()
      modifies this`where, this`args, this`trail
      ensures Valid()
      ensures where == old(where) + [Condition(column, ISNULL, 0, AND)] && args == old(args)
    {
      Bind(column, ISNULL, AND, []);
    }

    method OrIsNULL(column: string)
      requires Valid()
      modifies this`where, this`args, this`trail
      ensures Valid()
      ensures where == old(where) + [Condition(column, ISNULL, 0, OR)] && args == old(args)
    {
      Bind(column, ISNULL, OR, []);
    }

    method IsNotNULL(column: string)
      requires Valid()
      modifies this`where, this`args, this`trail
      ensures Valid()
      ensures where == old(where) + [Condition(column, ISNOTNULL, 0, AND)] && args == old(args)
    {
      Bind(column, ISNOTNULL, AND, []);
    }

    method OrIsNotNULL(column: string)
      requires Valid()
      modifies this`where, this`args, this`trail
      ensures Valid()
      ensures where == old(where) + [Condition(column, ISNOTNULL, 0, OR)] && args == old(args)
    {
      Bind(column, ISNOTNULL, OR, []);
    }

    method Like(column: string, value: Value)
      requires Valid()
      modifies this`where, this`args, this`trail
      ensures Valid()
      ensures where == old(where) + [Condition(column, LIKE, 1, AND)] && args == old(args) + [value]
    {
      Bind(column, LIKE, AND, [value]);
    }

    method OrLike(column: string, value: Value)
      requires Valid()
      modifies this`where, this`args, this`trail
      ensures Valid()
      ensures where == old(where) + [Condition(column, LIKE, 1, OR)] && args == old(args) + [value]
    {
      Bind(column, LIKE, OR, [value]);
    }

    method Join(tablename: string, on: string)
      modifies this`joins
      ensures joins == old(joins) + [JoinClause(tablename, on, JOIN)]
    {
      joins := joins + [JoinClause(tablename, on, JOIN)];
    }

    method LeftJoin(tablename: string, on: string)
      modifies this`joins
      ensures joins == old(joins) + [JoinClause(tablename, on, LEFTJOIN)]
    {
      joins := joins + [JoinClause(tablename, on, LEFTJOIN)];
    }

    method RightJoin(tablename: string, on: string)
      modifies this`joins
      ensures joins == old(joins) + [JoinClause(tablename, on, RIGHTJOIN)]
    {
      joins := joins + [JoinClause(tablename, on, RIGHTJOIN)];
    }

    /** Attaches one member: one union entry, and the member's arguments
        as they are now copied onto the end of the argument sequence. */
    method AttachOne(clause: UnionClause)
      requires Valid()
      modifies this`unions, this`args, this`trail
      ensures Valid()
      ensures unions == old(unions) + [clause]
      ensures args == old(args) + clause.query.args
    {
      TrailAppend(trail, Attached(clause));
      unions := unions + [clause];
      AddArg(clause.query.args);
      trail := trail + [Attached(clause)];
    }

    /** One turn of the union loop: attaching member i extends the entries
        and the arguments attached so far by that member. */
    method AttachNext(members: seq<Query>, i: nat, operator: string, ghost unions0: seq<UnionClause>, ghost args0: seq<Value>)
      requires Valid() && i < |members|
      requires unions == unions0 + Tagged(members[..i], operator)
      requires args == args0 + MemberArgs(members[..i])
      modifies this`unions, this`args, this`trail
      ensures Valid()
      ensures unions == unions0 + Tagged(members[..i + 1], operator)
      ensures args == args0 + MemberArgs(members[..i + 1])
    {
      TaggedAppend(members, i, operator);
      AttachOne(UnionClause(members[i], operator));
    }

    /** The union loop: attaches the members one by one, in order, each with
        the given set operator. */
    method Attach(members: seq<Query>, operator: string)
      requires Valid()
      modifies this`unions, this`args, this`trail
      ensures Valid()
      ensures unions == old(unions) + Tagged(members, operator)
      ensures args == old(args) + MemberArgs(members)
    {
      var i := 0;
      while i < |members|
        invariant 0 <= i <= |members|
        invariant Valid()
        invariant unions == old(unions) + Tagged(members[..i], operator)
        invariant args == old(args) + MemberArgs(members[..i])
      {
        AttachNext(members, i, operator, old(unions), old(args));
        i := i + 1;
      }
      assert members[..i] == members;
    }

    method Union(members: seq<Query>)
      requires Valid()
      modifies this`unions, this`args, this`trail
      ensures Valid()
      ensures unions == old(unions) + Tagged(members, UNION)
      ensures args == old(args) + MemberArgs(members)
    {
      Attach(members, UNION);
    }

    method UnionAll(members: seq<Query>)
      requires Valid()
      modifies this`unions, this`args, this`trail
      ensures Valid()
      ensures unions == old(unions) + Tagged(members, UNIONALL)
      ensures args == old(args) + MemberArgs(members)
    {
      Attach(members, UNIONALL);
    }

    method UnionOffset(n: int)
      modifies this`unoffset
      ensures unoffset == n
    {
      unoffset := n;
    }

    method UnionLimit(n: int)
      modifies this`unlimit
      ensures unlimit == n
    {
      unlimit := n;
    }

    method UnionOrderBy(column: string, direction: string)
      modifies this`unorders
      ensures unorders == old(unorders) + [OrderTerm(column, direction)]
    {
      unorders := unorders + [OrderTerm(column, direction)];
    }

    method Distinct()
      modifies this`distinct
      ensures distinct
    {
      distinct := true;
    }

    method GroupBy(names: seq<string>)
      modifies this`groups
      ensures groups == names
    {
      groups := names;
    }

    method OrderBy(column: string, direction: string)
      modifies this`orders
      ensures orders == old(orders) + [OrderTerm(column, direction)]
    {
      orders := orders + [OrderTerm(column, direction)];
    }

    method Offset(n: int)
      modifies this`offset
      ensures offset == n
    {
      offset := n;
    }

    method Skip(n: int)
      modifies this`offset
      ensures offset == n
    {
      offset := n;
    }

    method Limit(n: int)
      modifies this`limit
      ensures limit == n
    {
      limit := n;
    }
  }

  /** The copy of a fresh builder after one Equal call. */
  method EqualQuery(column: string, value: Value) returns (q: Query)
    ensures q.where == [Condition(column, EQUAL, 1, AND)] && q.args == [value]
  {
    var member := new QueryBuilder();
    member.Equal(column, value);
    q := member.Snapshot();
  }

  /** The copy of a fresh builder after one Between call. */
  method BetweenQuery(column: string, low: Value, high: Value) returns (q: Query)
    ensures q.where == [Condition(column, BETWEEN, 2, AND)] && q.args == [low, high]
  {
    var member := new QueryBuilder();
    member.Between(column, low, high);
    q := member.Snapshot();
  }

  /** A parent with one condition and two union members binds its own value
      first, then each member's values in attach order. */
  method UnionArgumentOrder(a: Value, b: Value, c: Value, d: Value) returns (bound: seq<Value>)
    ensures bound == [a, b, c, d]
  {
    var m1 := EqualQuery("x", b);
    var m2 := BetweenQuery("y", c, d);
    MemberArgsOfTwo(m1, m2);
    var parent := new QueryBuilder();
    parent.Where("id", [a]);
    parent.Union([m1, m2]);
    bound := parent.args;
  }

  /** OrderBy("age", "desc") appends "age DESC"; an unrecognised direction
      appends ASC. */
  method OrderByDirections() returns (terms: seq<string>)
    ensures terms == ["age DESC", "name ASC"]
  {
    var q := new QueryBuilder();
    assert SpellsDesc("desc") && !SpellsDesc("sideways");
    OrderTermDirection("age", "desc");
    OrderTermDirection("name", "sideways");
    assert OrderTerm("age", "desc") == "age DESC";
    assert OrderTerm("name", "sideways") == "name ASC";
    q.OrderBy("age", "desc");
    q.OrderBy("name", "sideways");
    terms := q.orders;
  }

  lemma MemberArgsOfTwo(m1: Query, m2: Query)
    ensures MemberArgs([m1, m2]) == m1.args + m2.args
  {
    var ms := [m1, m2];
    assert ms[..1] == [m1];
    assert [m1][..0] == [];
    assert MemberArgs([m1]) == MemberArgs([]) + m1.args;
    assert MemberArgs(ms) == MemberArgs(ms[..1]) + m2.args;
  }
}

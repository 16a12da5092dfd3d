# QueryBuilder state model

This project models the builder-state layer of the `QueryBuilder` of the Go
package `querydb` (`query.go`). Callers build a SQL query by chaining calls
on a builder. Each call changes the builder's own fields in place:
- the flat WHERE chain of conditions (column, operator, declared arity, AND/OR combinator);
- the argument sequence bound to the placeholders;
- joins and attached union members;
- the two ORDER BY lists (inner, and outer for the union result);
- the scalar shape fields (table, columns, groups, limit, offset, the union
  limit and offset, distinct, row payload).

The model is imperative, as the source is. `Builder.QueryBuilder` is a class
with one `seq` or scalar field per Go field. Each mutator has a frame that
names exactly the fields it may change (``modifies this`where, this`args``
and so on), so every other field is unchanged by construction. Its
postconditions give the new value of each changed field in terms of the old
one.

The central promise is that arities and arguments stay aligned. A ghost
trail records each call that contributes arguments:
- a condition entry point contributes its condition and the values it binds;
- a union member contributes a copy of its arguments, taken at attach time.

The class invariant `Valid()` says two things:
- the builder's conditions, union members and arguments are exactly those the trail records;
- every condition bound as many values as it declares.

Every condition entry point and both union entry points preserve it.

From it the model proves three facts:
- the argument count is the sum of the declared arities plus the argument
  counts of the attached members (`Sequencer.Aligned`, `QueryBuilder.ArgsAligned`);
- each call's values sit together in the argument sequence, after the values of every earlier call (`Sequencer.ChunkPosition`);
- union members' arguments follow one another in attach order (`Sequencer.MemberArgsAt`).

`Where` and `OrWhere` with two or more values (query.go:87-92): the first
value, when it is a string, is the operator, and only the second value is
bound; two values do not form a BETWEEN range. When the first value is not
a string, the call changes nothing.

Modules:
- `Records` (records.dfy): the operator constants and the records:
  - `Value` stands for Go's `interface{}`, either a string or an opaque other value;
  - `Condition` is Go's `w`; `JoinClause` is `join`; `UnionClause` is `union`;
  - `Query` is a by-value copy of a whole builder, which is what a union member embeds.
- `Sequencer` (sequencer.dfy): the trail of argument contributions and the alignment lemmas.
- `Direction` (direction.dfy): ASCII upper-casing and the ORDER BY term.
- `Builder` (builder.dfy): the `QueryBuilder` class, and worked examples that drive it:
  - `EqualQuery` and `BetweenQuery` build union members;
  - `UnionArgumentOrder` attaches two of them under a parent with one condition and fixes the bound order;
  - `OrderByDirections` fixes the terms two `OrderBy` calls append;
  - the lemma `MemberArgsOfTwo` unfolds the copied arguments of two members.

  `UnionArgumentOrder` relies on the mutators' contracts only. `OrderByDirections` uses `OrderTermDirection`, but its two terms also follow from unfolding `OrderTerm` itself.

## Model

| member | source | states |
|---|---|---|
| Builder.QueryBuilder.constructor | query.go:32-51 | a fresh builder has every list empty, every number 0, `distinct` false, and satisfies the alignment invariant |
| Builder.QueryBuilder.ArgsAligned | query.go:341-349 | in a valid builder, the argument count equals the sum of the conditions' declared arities plus the argument counts of the attached union members |
| Builder.QueryBuilder.Table | query.go:69-72 | `table` is overwritten with the given names; nothing else changes |
| Builder.QueryBuilder.Select | query.go:75-78 | `columns` is overwritten with the given names; nothing else changes |
| Builder.QueryBuilder.WhereBy | query.go:81-112 | shared dispatch for Where and OrWhere with the caller's combinator. No values: one arity-0 condition with empty operator, no argument. One value: one `=` condition of arity 1, that value appended. Two or more with a string first: that string as operator, arity 1, only the second value appended. Two or more with a non-string first: nothing changes |
| Builder.QueryBuilder.Where | query.go:81-95 | the WhereBy rules with combinator AND; the builder stays aligned |
| Builder.QueryBuilder.OrWhere | query.go:98-112 | the WhereBy rules with combinator OR; the builder stays aligned |
| Builder.QueryBuilder.Equal | query.go:115-119 | appends one `=` condition of arity 1 with AND, and exactly the given value to the arguments |
| Builder.QueryBuilder.OrEqual | query.go:122-126 | as Equal with combinator OR |
| Builder.QueryBuilder.NotEqual | query.go:129-133 | appends one `!=` condition of arity 1 with AND, and exactly the given value |
| Builder.QueryBuilder.OrNotEqual | query.go:136-140 | as NotEqual with combinator OR |
| Builder.QueryBuilder.Between | query.go:143-147 | appends one BETWEEN condition of arity 2 with AND, and exactly `[value1, value2]` in that order |
| Builder.QueryBuilder.OrBetween | query.go:150-154 | as Between with combinator OR |
| Builder.QueryBuilder.NotBetween | query.go:157-161 | appends one NOT BETWEEN condition of arity 2 with AND, and exactly `[value1, value2]` |
| Builder.QueryBuilder.NotOrBetween | query.go:164-168 | as NotBetween with combinator OR |
| Builder.QueryBuilder.In | query.go:171-175 | appends one IN condition whose arity is the number of values (0 included), then those values in call order |
| Builder.QueryBuilder.OrIn | query.go:178-182 | as In with combinator OR |
| Builder.QueryBuilder.NotIn | query.go:185-189 | appends one NOT IN condition of arity equal to the number of values, then those values |
| Builder.QueryBuilder.OrNotIn | query.go:192-196 | as NotIn with combinator OR |
| Builder.QueryBuilder.IsNULL | query.go:199-202 | appends one IS NULL condition of arity 0 with AND; arguments unchanged |
| Builder.QueryBuilder.OrIsNULL | query.go:205-208 | as IsNULL with combinator OR |
| Builder.QueryBuilder.IsNotNULL | query.go:211-214 | appends one IS NOT NULL condition of arity 0 with AND; arguments unchanged |
| Builder.QueryBuilder.OrIsNotNULL | query.go:217-220 | as IsNotNULL with combinator OR |
| Builder.QueryBuilder.Like | query.go:223-227 | appends one LIKE condition of arity 1 with AND, and exactly the given value |
| Builder.QueryBuilder.OrLike | query.go:230-234 | as Like with combinator OR |
| Builder.QueryBuilder.Join | query.go:237-240 | appends exactly one join of kind JOIN; no argument or other field changes |
| Builder.QueryBuilder.LeftJoin | query.go:243-246 | appends exactly one join of kind LEFT JOIN; nothing else changes |
| Builder.QueryBuilder.RightJoin | query.go:249-252 | appends exactly one join of kind RIGHT JOIN; nothing else changes |
| Builder.QueryBuilder.AttachOne | query.go:257-258 | one turn of the union loop: one union entry holding the member's copy is appended, the member's current arguments are appended after the old ones, and the builder stays aligned |
| Builder.QueryBuilder.AttachNext | query.go:257-258 | the union loop's body, stated against the loop invariant: if the entries and arguments attached so far are those of members 0 to i - 1, then after attaching member i they are those of members 0 to i, and the builder stays aligned |
| Builder.QueryBuilder.Attach | query.go:256-259 | the union loop: member by member, it appends one union entry holding that member's copy and the operator, and copies that member's arguments onto the end. Conditions and joins are untouched and the builder stays aligned |
| Builder.QueryBuilder.Union | query.go:255-261 | unions gain one UNION entry per member in order; arguments become the old ones followed by member 1's, member 2's, and so on |
| Builder.QueryBuilder.UnionAll | query.go:287-293 | as Union with operator UNION ALL |
| Builder.QueryBuilder.UnionOffset | query.go:264-267 | the union offset is overwritten |
| Builder.QueryBuilder.UnionLimit | query.go:270-273 | the union limit is overwritten |
| Builder.QueryBuilder.UnionOrderBy | query.go:276-284 | appends the ORDER BY term for the column and direction to the outer list only |
| Builder.QueryBuilder.Distinct | query.go:296-299 | sets `distinct`; nothing else changes |
| Builder.QueryBuilder.GroupBy | query.go:302-305 | `groups` is overwritten, not appended to |
| Builder.QueryBuilder.OrderBy | query.go:308-316 | appends the ORDER BY term for the column and direction to the inner list only |
| Builder.QueryBuilder.Offset | query.go:319-322 | `offset` is overwritten |
| Builder.QueryBuilder.Skip | query.go:325-328 | `offset` is overwritten, with the same effect as Offset |
| Builder.QueryBuilder.Limit | query.go:331-334 | `limit` is overwritten |
| Builder.QueryBuilder.ToWhere | query.go:341-346 | appends exactly one condition with the given column, operator, arity and combinator |
| Builder.QueryBuilder.AddArg | query.go:347-349 | arguments become the old ones followed by the given values |
| Builder.QueryBuilder.BeforeArg | query.go:351-353 | arguments become the given values followed by the old ones; the alignment invariant is not kept |
| Builder.QueryBuilder.SetData | query.go:355-358 | the row payload is replaced as a whole |
| Builder.QueryBuilder.Bind | query.go:341-349 | a toWhere call paired with an addArg of the same number of values. One condition whose arity is the number of values is appended, those values are appended, and the builder stays aligned |
| Builder.UnionArgumentOrder | query.go:255-261 | with a parent Where, then Union of two members, the parent binds its own value, then member 1's values, then member 2's |
| Builder.OrderByDirections | query.go:308-316 | `OrderBy("age", "desc")` appends `age DESC`; an unrecognised direction appends `name ASC` |
| Direction.OrderTerm | query.go:277-281 | the term is the column followed by ` DESC` or by ` ASC` |
| Direction.OrderTermDirection | query.go:309-313 | the term ends in ` DESC` exactly when the direction spells "desc" in any mix of cases, and in ` ASC` for every other direction, both directions of the equivalence |
| Sequencer.TrailAppend | query.go:341-349 | recording one call adds its condition or union member and its values at the end, and keeps the trail well sized |
| Sequencer.Aligned | query.go:341-349 | for every trail whose conditions bound their declared number of values, the argument count equals the arity sum plus the copied member argument counts |
| Sequencer.FlattenPrefix | query.go:347-349 | the arguments recorded by the first j calls are a prefix of the arguments after all calls: later calls only add at the end |
| Sequencer.ChunkPosition | query.go:347-349 | the k-th call's values form one contiguous block of the arguments, starting right after the values of calls 0 to k - 1 |
| Sequencer.MemberArgsAsTrail | query.go:256-259 | concatenating the members' arguments gives the same result as the trail of attaching them one at a time |
| Sequencer.MemberArgsPrefix | query.go:256-259 | the arguments copied from the first j members are a prefix of those copied from all of them |
| Sequencer.MemberArgsAt | query.go:256-259 | member k's arguments form one contiguous block of the copied arguments, right after those of members 0 to k - 1 |

## Left out

- The terminal operations `GetRows`, `GetRow`, `Count`, `Insert`, `InsertGetId`, `Replace`, `Update`, `InsertUpdate` and `Delete`. They run SQL through the external connection, read row cursors and log errors. Seven of them change builder state before any I/O, and those changes are modelled setters. `GetRow` calls `Limit(1)` and `Offset(0)` (query.go:375-376). `Count` calls `Select` with the single column `count(*) as _C` (query.go:399). `Insert`, `InsertGetId`, `Replace`, `Update` and `InsertUpdate` call `setData`, modelled as `SetData` (query.go:422, 437, 451, 465, 479). Only `GetRows` and `Delete` leave the builder as it is.
- `ToSql` and all rendering of SQL text. They delegate to `Grammar`, which is not part of this model, so nothing is claimed about emitted SQL or placeholder counts. Every claim is about the argument sequence and the recorded conditions.
- The `connection` field. It is only used by the terminal operations.
- Go's slice aliasing. A union member is stored as a value (`Query`). Go copies the struct, and that copy shares backing arrays with the original builder. None of the modelled mutators writes into an existing element, so the value semantics agree with Go here. `Table`, `Select` and `GroupBy` also store the caller's slice as it is, and `setData` stores the caller's maps (query.go:70, 76, 303, 356). So a caller who later writes into that slice or map changes the builder in Go but not in the model.
- Direction.OrderTerm: upper-cases ASCII letters only. Go's `strings.ToUpper` is Unicode-aware, so a direction such as `deſc` (long s) counts as descending in Go but ascending in this model.
- Builder.QueryBuilder.BeforeArg: does not keep the alignment invariant. The values it prepends belong to no recorded condition. Alignment is proved only for builders on which it has not been called.
- `Value` distinguishes only strings from other values. That is the only test the builder makes on a value. Other values are opaque tokens.
- `datas` is stored as a list of maps and only ever replaced whole, so Go's map iteration order plays no part.
- Integer fields are unbounded. `limit`, `offset` and their union versions are only stored, and a declared arity is a value count, so Go's `int` width never matters.
- The IS NULL family calls `toWhere` without calling `addArg`. The model routes them through `Bind` with no values. That is the same state change, because appending nothing to the arguments changes nothing.

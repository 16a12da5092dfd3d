/** The argument sequence of a builder, explained call by call.

    Every call that adds to the argument sequence contributes one chunk: a
    condition entry point contributes its condition together with the values
    it binds, and attaching a union member contributes that member's whole
    argument sequence as it is at that moment. A builder's conditions, union
    members and arguments are then read off its list of chunks (its trail). */
module Sequencer {
  import opened Records

  datatype Chunk = Bound(cond: Condition, values: seq<Value>) | Attached(clause: UnionClause)

  /** The values a chunk adds to the argument sequence. */
  function ChunkArgs(c: Chunk): seq<Value> {
    match c
    case Bound(_, vs) => vs
    case Attached(u) => u.query.args
  }

  /** The conditions recorded by a trail, in order. */
  function Conditions(t: seq<Chunk>): seq<Condition> {
    if t == [] then []
    else Conditions(t[..|t| - 1]) + (if t[|t| - 1].Bound? then [t[|t| - 1].cond] else [])
  }

  /** The union members recorded by a trail, in order. */
  function Clauses(t: seq<Chunk>): seq<UnionClause> {
    if t == [] then []
    else Clauses(t[..|t| - 1]) + (if t[|t| - 1].Attached? then [t[|t| - 1].clause] else [])
  }

  /** The argument sequence a trail produces: every chunk's values, in order. */
  function Flatten(t: seq<Chunk>): seq<Value> {
    if t == [] then [] else Flatten(t[..|t| - 1]) + ChunkArgs(t[|t| - 1])
  }

  /** Every condition chunk carries exactly as many values as its condition declares. */
  predicate WellSized(t: seq<Chunk>) {
    forall i :: 0 <= i < |t| && t[i].Bound? ==> |t[i].values| == t[i].cond.valuenum
  }

  /** The sum of the declared arities of a list of conditions. */
  function ArityTotal(ws: seq<Condition>): int {
    if ws == [] then 0 else ArityTotal(ws[..|ws| - 1]) + ws[|ws| - 1].valuenum
  }

  /** The total number of arguments held by a list of union members. */
  function CopiedTotal(us: seq<UnionClause>): nat {
    if us == [] then 0 else CopiedTotal(us[..|us| - 1]) + |us[|us| - 1].query.args|
  }

  /** The arguments of a list of members, one member after another. */
  function MemberArgs(ms: seq<Query>): seq<Value> {
    if ms == [] then [] else MemberArgs(ms[..|ms| - 1]) + ms[|ms| - 1].args
  }

  /** Each member paired with the given set operator, in order. */
  function Tagged(ms: seq<Query>, operator: string): (r: seq<UnionClause>)
    ensures |r| == |ms|
  {
    if ms == [] then [] else Tagged(ms[..|ms| - 1], operator) + [UnionClause(ms[|ms| - 1], operator)]
  }

  /** The chunks contributed by attaching a list of union clauses, in order. */
  function Attachments(us: seq<UnionClause>): (r: seq<Chunk>)
    ensures |r| == |us|
  {
    if us == [] then [] else Attachments(us[..|us| - 1]) + [Attached(us[|us| - 1])]
  }

  /** Adding one chunk to a trail adds its condition, or its union member,
      and its values at the end, and keeps the trail well sized when the new
      chunk is. */
  lemma TrailAppend(t: seq<Chunk>, c: Chunk)
    ensures Conditions(t + [c]) == Conditions(t) + (if c.Bound? then [c.cond] else [])
    ensures Clauses(t + [c]) == Clauses(t) + (if c.Attached? then [c.clause] else [])
    ensures Flatten(t + [c]) == Flatten(t) + ChunkArgs(c)
    ensures WellSized(t) && (c.Bound? ==> |c.values| == c.cond.valuenum) ==> WellSized(t + [c])
  {
    assert (t + [c])[..|t|] == t;
  }

  /** The central alignment invariant: in a well-sized trail, the number of
      arguments equals the sum of the declared condition arities plus the
      number of arguments copied in from union members. */
  lemma {:induction false} Aligned(t: seq<Chunk>)
    requires WellSized(t)
    ensures |Flatten(t)| == ArityTotal(Conditions(t)) + CopiedTotal(Clauses(t))
  {
    if t != [] {
      var init, c := t[..|t| - 1], t[|t| - 1];
      assert WellSized(init) by {
        forall i | 0 <= i < |init| && init[i].Bound?
          ensures |init[i].values| == init[i].cond.valuenum
        {
          assert init[i] == t[i];
        }
      }
      Aligned(init);
      assert Flatten(t) == Flatten(init) + ChunkArgs(c);
      var ws := Conditions(init);
      var us := Clauses(init);
      if c.Bound? {
        assert Conditions(t) == ws + [c.cond];
        assert Clauses(t) == us;
        assert (ws + [c.cond])[..|ws|] == ws;
      } else {
        assert Conditions(t) == ws;
        assert Clauses(t) == us + [c.clause];
        assert (us + [c.clause])[..|us|] == us;
      }
    }
  }

  /** The arguments of the first j chunks of a trail are a prefix of the
      arguments of the whole trail: later calls only ever add at the end. */
  lemma {:induction false} FlattenPrefix(t: seq<Chunk>, j: nat)
    requires j <= |t|
    ensures Flatten(t[..j]) <= Flatten(t)
  {
    if j == |t| {
      assert t[..j] == t;
    } else {
      var init := t[..|t| - 1];
      assert init[..j] == t[..j];
      FlattenPrefix(init, j);
    }
  }

  /** The values of the k-th chunk sit contiguously in the argument sequence,
      right after the values of every earlier chunk: the order in which calls
      were made is the order of their placeholders' arguments. */
  lemma ChunkPosition(t: seq<Chunk>, k: nat)
    requires k < |t|
    ensures var start := |Flatten(t[..k])|;
            start + |ChunkArgs(t[k])| <= |Flatten(t)| &&
            Flatten(t)[start..start + |ChunkArgs(t[k])|] == ChunkArgs(t[k])
  {
    var p := t[..k + 1];
    assert p[..k] == t[..k];
    assert Flatten(p) == Flatten(t[..k]) + ChunkArgs(t[k]);
    FlattenPrefix(t, k + 1);
  }

  /** Member arguments, concatenated member by member, are exactly what the
      trail chunks of attaching those members contribute. */
  lemma {:induction false} MemberArgsAsTrail(ms: seq<Query>, operator: string)
    ensures MemberArgs(ms) == Flatten(Attachments(Tagged(ms, operator)))
  {
    if ms != [] {
      var init, m := ms[..|ms| - 1], ms[|ms| - 1];
      MemberArgsAsTrail(init, operator);
      var us := Tagged(init, operator);
      var u := UnionClause(m, operator);
      assert Tagged(ms, operator) == us + [u];
      assert (us + [u])[..|us|] == us;
      assert Attachments(us + [u]) == Attachments(us) + [Attached(u)];
      TrailAppend(Attachments(us), Attached(u));
    }
  }

  /** Attaching one more member extends the tagged clauses and the copied
      arguments by that member. */
  lemma TaggedAppend(ms: seq<Query>, i: nat, operator: string)
    requires i < |ms|
    ensures Tagged(ms[..i + 1], operator) == Tagged(ms[..i], operator) + [UnionClause(ms[i], operator)]
    ensures MemberArgs(ms[..i + 1]) == MemberArgs(ms[..i]) + ms[i].args
  {
    assert ms[..i + 1][..i] == ms[..i];
  }

  /** The arguments of the first j members are a prefix of the arguments
      of all of them. */
  lemma {:induction false} MemberArgsPrefix(ms: seq<Query>, j: nat)
    requires j <= |ms|
    ensures MemberArgs(ms[..j]) <= MemberArgs(ms)
  {
    if j == |ms| {
      assert ms[..j] == ms;
    } else {
      var init := ms[..|ms| - 1];
      assert init[..j] == ms[..j];
      MemberArgsPrefix(init, j);
    }
  }

  /** Union order: after attaching members, member k's arguments sit
      contiguously in the copied arguments, right after those of members
      0 to k - 1. */
  lemma MemberArgsAt(ms: seq<Query>, k: nat)
    requires k < |ms|
    ensures var start := |MemberArgs(ms[..k])|;
            start + |ms[k].args| <= |MemberArgs(ms)| &&
            MemberArgs(ms)[start..start + |ms[k].args|] == ms[k].args
  {
    TaggedAppend(ms, k, UNION);
    MemberArgsPrefix(ms, k + 1);
  }
}

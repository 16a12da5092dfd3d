/** ORDER BY terms: a column followed by DESC when the requested direction,
    upper-cased, is "DESC", and by ASC for every other direction. */
module Direction {
  import opened Records

  /** Upper-cases one ASCII letter; every other character is kept. */
  function UpperChar(c: char): (r: char)
    ensures 'a' <= c <= 'z' ==> 'A' <= r <= 'Z' && r as int - c as int == 'A' as int - 'a' as int
    ensures !('a' <= c <= 'z') ==> r == c
  {
    if 'a' <= c <= 'z' then (c as int - 32) as char else c
  }

  /** Upper-cases a string character by character. */
  function ToUpper(s: string): (r: string)
    ensures |r| == |s|
    ensures forall i :: 0 <= i < |s| ==> r[i] == UpperChar(s[i])
  {
    if s == [] then [] else [UpperChar(s[0])] + ToUpper(s[1..])
  }

  /** The direction is some mix of upper and lower case spelling "desc". */
  predicate SpellsDesc(direction: string) {
    |direction| == 4 &&
    forall i :: 0 <= i < 4 ==> direction[i] == "DESC"[i] || direction[i] == "desc"[i]
  }

  /** The term OrderBy and UnionOrderBy append for a column and a direction. */
  function OrderTerm(column: string, direction: string): (r: string)
    ensures r == column + " DESC" || r == column + " ASC"
  {
    if ToUpper(direction) == DESC then column + " " + DESC else column + " " + ASC
  }

  /** The term ends in DESC exactly when the direction spells "desc" in any
      case, and in ASC for every other direction, the empty one included. */
  lemma OrderTermDirection(column: string, direction: string)
    ensures OrderTerm(column, direction) == column + (if SpellsDesc(direction) then " DESC" else " ASC")
  {
    var up := ToUpper(direction);
    if SpellsDesc(direction) {
      forall i | 0 <= i < 4 ensures up[i] == DESC[i] {
        assert UpperChar(direction[i]) == up[i];
      }
    }
    if up == DESC {
      forall i | 0 <= i < 4 ensures direction[i] == "DESC"[i] || direction[i] == "desc"[i] {
        assert UpperChar(direction[i]) == DESC[i];
      }
    }
    assert (column + " DESC")[|column| + 1] == 'D';
    assert (column + " ASC")[|column| + 1] == 'A';
  }
}

// Shared value types: optional values (JavaScript's undefined / null) and integer sums.

module Common {

  /** A value that may be absent: `undefined`, `null` or a missing request field. */
  datatype Option<+T> = None | Some(value: T) {
    function GetOr(default: T): T {
      match this
      case Some(v) => v
      case None => default
    }
  }

  /** Identifiers of documents (ObjectIds); the value 0 plays no special role. */
  type Id = nat

  /** Sum of a sequence of integers, accumulated from the left as `reduce((a, b) => a + b, 0)` does. */
  function Sum(s: seq<int>): int
  {
    if s == [] then 0 else Sum(s[..|s| - 1]) + s[|s| - 1]
  }

  lemma {:induction false} SumAppend(s: seq<int>, t: seq<int>)
    ensures Sum(s + t) == Sum(s) + Sum(t)
    decreases |t|
  {
    if t == [] {
      assert s + t == s;
    } else {
      assert (s + t)[..|s + t| - 1] == s + t[..|t| - 1];
      SumAppend(s, t[..|t| - 1]);
    }
  }

  lemma SumSingle(x: int)
    ensures Sum([x]) == x
  {
    assert [x][..0] == [];
  }

  /** Changing one entry by `d` changes the sum by `d`. */
  lemma {:induction false} SumChangeOne(s: seq<int>, t: seq<int>, j: nat, d: int)
    requires |s| == |t| && j < |s| && t[j] == s[j] + d
    requires forall i :: 0 <= i < |s| && i != j ==> t[i] == s[i]
    ensures Sum(t) == Sum(s) + d
    decreases |s|
  {
    var n := |s| - 1;
    if j == n {
      assert t[..n] == s[..n];
    } else {
      SumChangeOne(s[..n], t[..n], j, d);
    }
  }
}

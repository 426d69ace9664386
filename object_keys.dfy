// The order in which `Object.keys` lists the own properties of an ordinary
// object (section 10.1.11.1 of ECMA-262, OrdinaryOwnPropertyKeys): first the
// keys that are array indices, in ascending numeric order, then every other
// string key in the order the properties were created.

module ObjectKeys {
  import opened JsStrings

  // ---------------------------------------------------------------- ordering by rank

  predicate SortedBy<T>(v: T -> nat, ks: seq<T>)
  {
    forall i, j :: 0 <= i < j < |ks| ==> v(ks[i]) <= v(ks[j])
  }

  /** How many leading elements of `ks` rank no higher than `k`. */
  function InsertPos<T>(v: T -> nat, k: T, ks: seq<T>): (p: nat)
    ensures p <= |ks|
  {
    if ks == [] || v(k) < v(ks[0]) then 0 else 1 + InsertPos(v, k, ks[1..])
  }

  lemma {:induction false} InsertPosSplits<T>(v: T -> nat, k: T, ks: seq<T>)
    ensures forall i :: 0 <= i < InsertPos(v, k, ks) ==> v(ks[i]) <= v(k)
    ensures InsertPos(v, k, ks) < |ks| ==> v(k) < v(ks[InsertPos(v, k, ks)])
  {
    if ks != [] && v(k) >= v(ks[0]) {
      InsertPosSplits(v, k, ks[1..]);
      forall i | 0 < i < InsertPos(v, k, ks)
        ensures v(ks[i]) <= v(k)
      {
        assert ks[i] == ks[1..][i - 1];
      }
    }
  }

  /** Inserts `k` after the leading elements that rank no higher than it. */
  function InsertBy<T>(v: T -> nat, k: T, ks: seq<T>): seq<T>
  {
    var p := InsertPos(v, k, ks);
    ks[..p] + [k] + ks[p..]
  }

  /** Insertion keeps a sorted sequence sorted and adds exactly `k`. */
  lemma InsertBySorted<T>(v: T -> nat, k: T, ks: seq<T>)
    requires SortedBy(v, ks)
    ensures SortedBy(v, InsertBy(v, k, ks))
    ensures multiset(InsertBy(v, k, ks)) == multiset(ks) + multiset{k}
  {
    var p := InsertPos(v, k, ks);
    var r := InsertBy(v, k, ks);
    InsertPosSplits(v, k, ks);
    assert ks == ks[..p] + ks[p..];
    forall i, j | 0 <= i < j < |r|
      ensures v(r[i]) <= v(r[j])
    {
      if j < p {
        assert r[i] == ks[i] && r[j] == ks[j];
      } else if j == p {
        assert r[i] == ks[i];
      } else if i < p {
        assert r[i] == ks[i] && r[j] == ks[j - 1];
      } else if i == p {
        assert r[j] == ks[j - 1];
      } else {
        assert r[i] == ks[i - 1] && r[j] == ks[j - 1];
      }
    }
  }

  /** The elements in ascending rank, equal ranks kept in their order (a stable insertion sort). */
  function SortBy<T>(v: T -> nat, ks: seq<T>): (r: seq<T>)
    ensures SortedBy(v, r)
    ensures multiset(r) == multiset(ks)
  {
    if ks == [] then []
    else
      var init := SortBy(v, ks[..|ks| - 1]);
      assert ks == ks[..|ks| - 1] + [ks[|ks| - 1]];
      InsertBySorted(v, ks[|ks| - 1], init);
      InsertBy(v, ks[|ks| - 1], init)
  }

  /** The elements satisfying `p` (when `keep`) or the others (when not), in their order. */
  function Select<T>(p: T -> bool, keep: bool, ks: seq<T>): (r: seq<T>)
    ensures forall i :: 0 <= i < |r| ==> p(r[i]) == keep
  {
    if ks == [] then []
    else Select(p, keep, ks[..|ks| - 1]) + (if p(ks[|ks| - 1]) == keep then [ks[|ks| - 1]] else [])
  }

  lemma {:induction false} SelectPermutes<T>(p: T -> bool, ks: seq<T>)
    ensures multiset(Select(p, true, ks)) + multiset(Select(p, false, ks)) == multiset(ks)
  {
    if ks != [] {
      var init, last := ks[..|ks| - 1], ks[|ks| - 1];
      SelectPermutes(p, init);
      assert ks == init + [last];
      var yes, no := Select(p, true, init), Select(p, false, init);
      if p(last) {
        assert Select(p, true, ks) == yes + [last] && Select(p, false, ks) == no + [];
      } else {
        assert Select(p, true, ks) == yes + [] && Select(p, false, ks) == no + [last];
      }
      assert multiset(ks) == multiset(init) + multiset{last};
    }
  }

  // ---------------------------------------------------------------- property keys

  predicate AllDigits(s: string)
  {
    forall i :: 0 <= i < |s| ==> IsDigit(s[i])
  }

  /**
   * An array index (section 6.1.7 of ECMA-262): the canonical decimal text of an integer below
   * 2^32 - 1, so no leading zero except in "0" itself.
   */
  predicate IsArrayIndex(s: string)
  {
    s != [] && AllDigits(s) && (|s| == 1 || s[0] != '0') && DecimalValue(s) < 0xFFFF_FFFF
  }

  /** The numeric value by which array indices are ordered. */
  function IndexValue(s: string): nat
  {
    if AllDigits(s) then DecimalValue(s) else 0
  }

  /** The keys that are array indices, in creation order. */
  function IndexKeys(ks: seq<string>): (r: seq<string>)
    ensures forall i :: 0 <= i < |r| ==> IsArrayIndex(r[i])
  {
    Select(IsArrayIndex, true, ks)
  }

  /** The other keys, in creation order. */
  function OtherKeys(ks: seq<string>): (r: seq<string>)
    ensures forall i :: 0 <= i < |r| ==> !IsArrayIndex(r[i])
  {
    Select(IsArrayIndex, false, ks)
  }

  /** `Object.keys` of an ordinary object whose string-keyed own properties were created in the order `ks`. */
  function OwnKeys(ks: seq<string>): seq<string>
  {
    SortBy(IndexValue, IndexKeys(ks)) + OtherKeys(ks)
  }

  /** `Object.keys` lists every property once: it permutes the creation order. */
  lemma OwnKeysPermutes(ks: seq<string>)
    ensures multiset(OwnKeys(ks)) == multiset(ks)
    ensures |OwnKeys(ks)| == |ks|
    ensures forall k :: k in OwnKeys(ks) <==> k in ks
  {
    SelectPermutes(IsArrayIndex, ks);
    assert multiset(OwnKeys(ks)) == multiset(ks);
    assert |multiset(OwnKeys(ks))| == |multiset(ks)|;
    forall k
      ensures k in OwnKeys(ks) <==> k in ks
    {
      assert k in OwnKeys(ks) <==> k in multiset(OwnKeys(ks));
      assert k in ks <==> k in multiset(ks);
    }
  }

  /** The array indices come first, in ascending order, and the other keys follow in creation order. */
  lemma OwnKeysOrder(ks: seq<string>)
    ensures var n := |IndexKeys(ks)|;
      n <= |OwnKeys(ks)|
      && (forall i :: 0 <= i < n ==> IsArrayIndex(OwnKeys(ks)[i]))
      && SortedBy(IndexValue, OwnKeys(ks)[..n])
      && OwnKeys(ks)[n..] == OtherKeys(ks)
  {
    var sorted := SortBy(IndexValue, IndexKeys(ks));
    assert |sorted| == |IndexKeys(ks)| by {
      assert |multiset(sorted)| == |multiset(IndexKeys(ks))|;
    }
    assert OwnKeys(ks)[..|sorted|] == sorted;
    forall i | 0 <= i < |sorted|
      ensures IsArrayIndex(OwnKeys(ks)[i])
    {
      assert sorted[i] in multiset(sorted);
      assert sorted[i] in IndexKeys(ks);
    }
  }

  /** A key without array indices keeps its creation order. */
  lemma NoIndexKeepsOrder(ks: seq<string>)
    requires forall i :: 0 <= i < |ks| ==> !IsArrayIndex(ks[i])
    ensures OwnKeys(ks) == ks
  {
    SelectNone(IsArrayIndex, ks);
    SelectAll(IsArrayIndex, ks);
  }

  lemma {:induction false} SelectNone<T>(p: T -> bool, ks: seq<T>)
    requires forall i :: 0 <= i < |ks| ==> !p(ks[i])
    ensures Select(p, true, ks) == []
  {
    if ks != [] {
      SelectNone(p, ks[..|ks| - 1]);
    }
  }

  lemma {:induction false} SelectAll<T>(p: T -> bool, ks: seq<T>)
    requires forall i :: 0 <= i < |ks| ==> !p(ks[i])
    ensures Select(p, false, ks) == ks
  {
    if ks != [] {
      SelectAll(p, ks[..|ks| - 1]);
      assert ks == ks[..|ks| - 1] + [ks[|ks| - 1]];
    }
  }

  /** An integer-like key created after a word is still listed before it. */
  lemma IndexKeyListedFirst(a: string, b: string)
    requires !IsArrayIndex(a) && IsArrayIndex(b)
    ensures OwnKeys([a, b]) == [b, a]
  {
    SelectPair(IsArrayIndex, a, b);
    SortSingle(IndexValue, b);
  }

  lemma SelectPair<T>(p: T -> bool, a: T, b: T)
    requires !p(a) && p(b)
    ensures Select(p, true, [a, b]) == [b] && Select(p, false, [a, b]) == [a]
  {
    var ks := [a, b];
    assert ks[..1] == [a] && ks[..1][..0] == [];
    assert [a][..0] == [] && p(a) == false;
    assert Select(p, false, [a]) == [] + [a];
    assert Select(p, true, ks) == Select(p, true, [a]) + [b];
    assert Select(p, false, ks) == Select(p, false, [a]) + [];
  }

  lemma SortSingle<T>(v: T -> nat, x: T)
    ensures SortBy(v, [x]) == [x]
  {
    assert [x][..0] == [];
  }

  /** "5" is an array index and "renta" is not, so `Object.keys` lists "5" first. */
  lemma IntegerKeyFirst()
    ensures OwnKeys(["renta", "5"]) == ["5", "renta"]
  {
    assert IsArrayIndex("5") by {
      assert "5"[..0] == [];
    }
    assert !IsArrayIndex("renta") by {
      assert !IsDigit("renta"[0]);
    }
    IndexKeyListedFirst("renta", "5");
  }
}

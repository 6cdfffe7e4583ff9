/** `Array.prototype.filter` on sequences, with the facts that make it a subsequence. */
module Seqs {

  /** `s.filter(p)`: the elements of `s` that satisfy `p`, in their original order. */
  function Keep<T>(s: seq<T>, p: T -> bool): (r: seq<T>)
    ensures |r| <= |s|
    ensures forall k :: 0 <= k < |r| ==> p(r[k])
    decreases |s|
  {
    if s == [] then []
    else if p(s[0]) then [s[0]] + Keep(s[1..], p)
    else Keep(s[1..], p)
  }

  /**
   * Membership both ways: what `Keep` returns comes from `s`, and every
   * element of `s` that passes `p` is returned.
   */
  lemma {:induction false} KeepMembers<T>(s: seq<T>, p: T -> bool)
    ensures forall k :: 0 <= k < |Keep(s, p)| ==> Keep(s, p)[k] in s
    ensures forall k :: 0 <= k < |s| && p(s[k]) ==> s[k] in Keep(s, p)
    decreases |s|
  {
    if s != [] {
      KeepMembers(s[1..], p);
      assert forall k :: 1 <= k < |s| ==> s[k] == s[1..][k - 1];
    }
  }

  /** `r` is `s` at the strictly increasing positions `idx`: nothing added, relative order kept. */
  ghost predicate OrderedSelection<T>(r: seq<T>, s: seq<T>, idx: seq<int>) {
    && |idx| == |r|
    && (forall k :: 0 <= k < |idx| ==> 0 <= idx[k] < |s| && r[k] == s[idx[k]])
    && (forall k, l :: 0 <= k < l < |idx| ==> idx[k] < idx[l])
  }

  /** The positions of `s` whose elements satisfy `p`, in increasing order. */
  function KeptIndices<T>(s: seq<T>, p: T -> bool): seq<int>
    decreases |s|
  {
    if s == [] then []
    else
      var tail := KeptIndices(s[1..], p);
      var shifted := seq(|tail|, k requires 0 <= k < |tail| => tail[k] + 1);
      if p(s[0]) then [0] + shifted else shifted
  }

  /** `Keep` is `s` at the positions `KeptIndices` lists, which increase. */
  lemma {:induction false} KeepSelects<T>(s: seq<T>, p: T -> bool)
    ensures OrderedSelection(Keep(s, p), s, KeptIndices(s, p))
    decreases |s|
  {
    if s != [] {
      var tail := KeptIndices(s[1..], p);
      var rest := Keep(s[1..], p);
      KeepSelects(s[1..], p);
      var shifted := seq(|tail|, k requires 0 <= k < |tail| => tail[k] + 1);
      assert OrderedSelection(rest, s, shifted) by {
        forall k | 0 <= k < |shifted| ensures 0 <= shifted[k] < |s| && rest[k] == s[shifted[k]] {
          assert s[1..][tail[k]] == s[tail[k] + 1];
        }
      }
      if p(s[0]) {
        var r, idx := [s[0]] + rest, [0] + shifted;
        forall k | 0 < k < |idx| ensures 0 < idx[k] && r[k] == s[idx[k]] {
          assert idx[k] == shifted[k - 1] && r[k] == rest[k - 1];
        }
      }
    }
  }

  /** A position is listed by `KeptIndices` exactly when its element passes `p`. */
  lemma {:induction false} KeptIndicesExact<T>(s: seq<T>, p: T -> bool)
    ensures forall i :: 0 <= i < |s| && p(s[i]) ==> i in KeptIndices(s, p)
    ensures forall i :: i in KeptIndices(s, p) ==> 0 <= i < |s| && p(s[i])
    decreases |s|
  {
    if s != [] {
      var tail := KeptIndices(s[1..], p);
      KeptIndicesExact(s[1..], p);
      var shifted := seq(|tail|, k requires 0 <= k < |tail| => tail[k] + 1);
      forall i | 1 <= i < |s| && p(s[i]) ensures i in shifted {
        assert s[1..][i - 1] == s[i];
        var k :| 0 <= k < |tail| && tail[k] == i - 1;
        assert shifted[k] == i;
      }
      forall i | i in shifted ensures 1 <= i < |s| && p(s[i]) {
        var k :| 0 <= k < |shifted| && shifted[k] == i;
        assert tail[k] in tail;
        assert s[1..][tail[k]] == s[i];
      }
    }
  }

  /** When every element passes `p`, filtering removes nothing. */
  lemma {:induction false} KeepAll<T>(s: seq<T>, p: T -> bool)
    requires forall k :: 0 <= k < |s| ==> p(s[k])
    ensures Keep(s, p) == s
    decreases |s|
  {
    if s != [] {
      KeepAll(s[1..], p);
    }
  }
}

/** Sequence operations the game applies to its entity lists: JavaScript's
    `splice(i, 1)`, and `filter` with a callback that first mutates the element. */
module Seqs {

  /** `a.splice(i, 1)`: removes the element at index i; an index past the end
      leaves the array unchanged. */
  function RemoveAt<T>(s: seq<T>, i: nat): (r: seq<T>)
    ensures i >= |s| ==> r == s
    ensures i < |s| ==> |r| == |s| - 1
    ensures i < |s| ==> forall k :: 0 <= k < i ==> r[k] == s[k]
    ensures i < |s| ==> forall k :: i <= k < |r| ==> r[k] == s[k + 1]
  {
    if i < |s| then s[..i] + s[i + 1..] else s
  }

  /** Removing an element never introduces a new one. */
  lemma RemoveAtSubset<T>(s: seq<T>, i: nat, x: T)
    requires x in RemoveAt(s, i)
    ensures x in s
  {
    var r := RemoveAt(s, i);
    var k :| 0 <= k < |r| && r[k] == x;
    if i < |s| && k >= i {
      assert s[k + 1] == x;
    } else {
      assert s[k] == x;
    }
  }

  /** What a splice takes out plus what it leaves is what was there. */
  lemma {:induction false} RemoveAtMultiset<T>(s: seq<T>, i: nat)
    requires i < |s|
    ensures multiset(RemoveAt(s, i)) + multiset{s[i]} == multiset(s)
  {
    assert s == s[..i] + [s[i]] + s[i + 1..];
    calc {
      multiset(s);
      multiset(s[..i]) + multiset{s[i]} + multiset(s[i + 1..]);
      multiset(s[..i] + s[i + 1..]) + multiset{s[i]};
    }
  }

  /** `a.filter(keep)`, elements kept in order. */
  function Filter<T>(s: seq<T>, keep: T -> bool): (r: seq<T>)
    ensures |r| <= |s|
    ensures forall k :: 0 <= k < |r| ==> keep(r[k])
  {
    if |s| == 0 then []
    else
      var m := Filter(s[..|s| - 1], keep);
      if keep(s[|s| - 1]) then m + [s[|s| - 1]] else m
  }

  /** `a.filter(x => { x = f(x); return keep(x); })`: every element is first
      updated by f, and the updated element is kept when keep holds of it. */
  function FilterMap<T>(s: seq<T>, f: T -> T, keep: T -> bool): (r: seq<T>)
    ensures |r| <= |s|
    ensures forall k :: 0 <= k < |r| ==> keep(r[k])
  {
    if |s| == 0 then []
    else
      var m := FilterMap(s[..|s| - 1], f, keep);
      var y := f(s[|s| - 1]);
      if keep(y) then m + [y] else m
  }

  /** Filter keeps exactly the elements that satisfy keep. */
  lemma {:induction false} FilterMember<T>(s: seq<T>, keep: T -> bool, x: T)
    ensures x in Filter(s, keep) <==> x in s && keep(x)
  {
    if |s| > 0 {
      var init := s[..|s| - 1];
      FilterMember(init, keep, x);
      assert s == init + [s[|s| - 1]];
    }
  }

  /** FilterMap yields exactly the updated elements that satisfy keep. */
  lemma {:induction false} FilterMapMember<T>(s: seq<T>, f: T -> T, keep: T -> bool, y: T)
    ensures y in FilterMap(s, f, keep) <==> keep(y) && exists k :: 0 <= k < |s| && y == f(s[k])
  {
    if |s| > 0 {
      var init := s[..|s| - 1];
      FilterMapMember(init, f, keep, y);
      if y in FilterMap(s, f, keep) && y != f(s[|s| - 1]) {
        var k :| 0 <= k < |init| && y == f(init[k]);
        assert y == f(s[k]);
      }
      if keep(y) && (exists k :: 0 <= k < |s| && y == f(s[k])) {
        var k :| 0 <= k < |s| && y == f(s[k]);
        if k < |s| - 1 {
          assert y == f(init[k]);
        }
      }
    }
  }

  /** An element that f sends somewhere keep holds is never dropped. */
  lemma FilterMapKeeps<T>(s: seq<T>, f: T -> T, keep: T -> bool, k: nat)
    requires k < |s| && keep(f(s[k]))
    ensures f(s[k]) in FilterMap(s, f, keep)
  {
    FilterMapMember(s, f, keep, f(s[k]));
  }

  /** An element that f sends somewhere keep fails is always dropped. */
  lemma FilterMapDrops<T>(s: seq<T>, f: T -> T, keep: T -> bool, x: T)
    requires !keep(f(x))
    ensures f(x) !in FilterMap(s, f, keep)
  {
    FilterMapMember(s, f, keep, f(x));
  }
}

/** The allocator of effect indexes: one byte per live effect, the most recently freed index first. */
module Effects {
  import opened Sequences

  const MAX_INDEXES := 255

  /** The last element moves to place `k` and the sequence gets shorter. */
  function SwapPop(s: seq<nat>, k: nat): seq<nat>
    requires k < |s|
  {
    s[k := s[|s| - 1]][..|s| - 1]
  }

  lemma SwapPopRemoves(s: seq<nat>, k: nat)
    requires NoDup(s) && k < |s|
    ensures var t := SwapPop(s, k); NoDup(t) && |t| == |s| - 1 && forall x :: x in t <==> x in s && x != s[k]
  {
    var t, last := SwapPop(s, k), |s| - 1;
    forall x | x in s && x != s[k]
      ensures x in t
    {
      var j :| 0 <= j < |s| && s[j] == x;
      assert if j == last then t[k] == x else t[j] == x;
    }
    forall x | x in t
      ensures x in s && x != s[k]
    {
      var j :| 0 <= j < |t| && t[j] == x;
      assert t[j] == s[if j == k then last else j];
    }
  }

  lemma PushNoDup(s: seq<nat>, x: nat)
    requires NoDup(s) && x !in s
    ensures NoDup(s + [x])
  {}

  class EffectList {
    var byEffect: map<nat, nat>
    var open: seq<nat>
    var used: seq<nat>
    /** The largest number of indexes that were in use at once. */
    ghost var peak: nat

    constructor ()
      ensures Valid() && byEffect == map[] && used == [] && open == [] && peak == 0
    {
      byEffect, open, used, peak := map[], [], [], 0;
    }

    /** Used and open indexes are distinct and together 1 to the peak; each effect has its own used index. */
    ghost predicate Valid()
      reads this
    {
      && NoDup(used) && NoDup(open) && (forall i :: i in used ==> i !in open)
      && (forall i :: i in used || i in open <==> 1 <= i <= peak)
      && |used| + |open| == peak <= MAX_INDEXES
      && (forall e :: e in byEffect ==> byEffect[e] in used)
      && (forall e, f :: e in byEffect && f in byEffect && e != f ==> byEffect[e] != byEffect[f])
    }

    /** A fresh index for the effect, or 0 exactly when all 255 are in use. */
    method Add(effect: nat) returns (index: nat)
      requires Valid()
      modifies this
      ensures Valid() && (index == 0 <==> |old(used)| == MAX_INDEXES)
      ensures index == 0 ==> unchanged(this)
      ensures index != 0 ==> index !in old(used) && used == old(used) + [index]
      ensures index != 0 ==> byEffect == old(byEffect)[effect := index]
      ensures peak == if |used| > old(peak) then |used| else old(peak)
    {
      index := GetOpenIndex();
      if index != 0 {
        byEffect := byEffect[effect := index];
      }
    }

    /** The index of the effect is free again; 0 if the effect has none. */
    method Remove(effect: nat) returns (index: nat)
      requires Valid()
      modifies this
      ensures Valid() && peak == old(peak)
      ensures index == if effect in old(byEffect) then old(byEffect)[effect] else 0
      ensures index == 0 ==> unchanged(this)
      ensures index != 0 ==> byEffect == old(byEffect) - {effect} && open == old(open) + [index]
      ensures index != 0 ==> forall i :: i in used <==> i in old(used) && i != index
    {
      if effect in byEffect {
        index := byEffect[effect];
        var k := Find(index);
        Free(k);
        byEffect := byEffect - {effect};
        return index;
      }
      return 0;
    }

    method RemoveByIndex(index: nat) returns (found: bool)
      requires Valid()
      modifies this
      ensures Valid() && peak == old(peak) && (found <==> index in old(used))
      ensures !found ==> unchanged(this)
      ensures found ==> open == old(open) + [index] && forall i :: i in used <==> i in old(used) && i != index
      ensures forall e :: e in byEffect <==> e in old(byEffect) && old(byEffect)[e] != index
      ensures forall e :: e in byEffect ==> byEffect[e] == old(byEffect)[e]
    {
      var k := Find(index);
      if k < |used| {
        Free(k);
        if effect :| effect in byEffect && byEffect[effect] == index {
          byEffect := byEffect - {effect};
        }
        return true;
      }
      return false;
    }

    method GetOpenIndex() returns (index: nat)
      requires Valid()
      modifies this`open, this`used, this`peak
      ensures Valid() && (index == 0 <==> |old(used)| == MAX_INDEXES)
      ensures index == 0 ==> unchanged(this)
      ensures index != 0 ==> index !in old(used) && used == old(used) + [index]
      ensures peak == if |used| > old(peak) then |used| else old(peak)
    {
      if open == [] {
        if |used| < MAX_INDEXES {
          index := |used| + 1;
          PushNoDup(used, index);
          used := used + [index];
          peak := peak + 1;
        } else {
          index := 0;
        }
      } else {
        index := open[|open| - 1];
        assert index in open;
        ghost var was := open;
        open := open[..|open| - 1];
        assert was == open + [index];
        PushNoDup(used, index);
        used := used + [index];
      }
    }

    /** `std::find` over the used indexes. */
    method Find(index: nat) returns (k: nat)
      ensures k <= |used| && (k < |used| <==> index in used) && (k < |used| ==> used[k] == index)
    {
      k := 0;
      while k < |used| && used[k] != index
        invariant k <= |used| && index !in used[..k]
      {
        k := k + 1;
      }
    }

    /** `std::swap(*it, mUsedIndexes.back())`, `pop_back`, `push_back`. */
    method Free(k: nat)
      requires k < |used| && NoDup(used)
      modifies this`open, this`used
      ensures open == old(open) + [old(used)[k]] && used == SwapPop(old(used), k)
      ensures NoDup(used) && |used| == |old(used)| - 1 && forall i :: i in used <==> i in old(used) && i != old(used)[k]
    {
      SwapPopRemoves(used, k);
      var index := used[k];
      used := used[k := used[|used| - 1]];
      used := used[..|used| - 1];
      open := open + [index];
    }
  }
}

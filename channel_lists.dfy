/** Facts about the lists of channel handles: ownership without duplicates,
    and the split of the working set into channels still playing and
    channels to reclaim. */
module ChannelLists {

  /** No handle occurs twice. */
  ghost predicate NoDuplicates<T>(s: seq<T>) {
    forall x | x in s :: multiset(s)[x] <= 1
  }

  /** The elements of `s` the device still reports as playing, in order. */
  function Kept<T(==)>(s: seq<T>, playing: set<T>): seq<T> {
    if s == [] then []
    else Kept(s[..|s| - 1], playing) + (if s[|s| - 1] in playing then [s[|s| - 1]] else [])
  }

  /** The elements of `s` that have stopped playing, in order. */
  function Reclaimed<T(==)>(s: seq<T>, playing: set<T>): seq<T> {
    if s == [] then []
    else Reclaimed(s[..|s| - 1], playing) + (if s[|s| - 1] in playing then [] else [s[|s| - 1]])
  }

  /** `a` is what remains of `b` after deleting some of its elements. */
  predicate IsSubsequence<T(==)>(a: seq<T>, b: seq<T>)
    decreases |b|
  {
    if a == [] then true
    else if b == [] then false
    else (a[|a| - 1] == b[|b| - 1] && IsSubsequence(a[..|a| - 1], b[..|b| - 1]))
         || IsSubsequence(a, b[..|b| - 1])
  }

  /** Splitting the working set loses and duplicates nothing. */
  lemma {:induction false} KeptReclaimedPartition<T>(s: seq<T>, playing: set<T>)
    ensures multiset(Kept(s, playing)) + multiset(Reclaimed(s, playing)) == multiset(s)
    ensures |Kept(s, playing)| + |Reclaimed(s, playing)| == |s|
  {
    if s != [] {
      var init, last := s[..|s| - 1], s[|s| - 1];
      KeptReclaimedPartition(init, playing);
      assert s == init + [last];
      assert multiset(s) == multiset(init) + multiset{last};
      if last in playing {
        assert Kept(s, playing) == Kept(init, playing) + [last];
        assert Reclaimed(s, playing) == Reclaimed(init, playing);
      } else {
        assert Kept(s, playing) == Kept(init, playing);
        assert Reclaimed(s, playing) == Reclaimed(init, playing) + [last];
      }
    }
  }

  /** Extending the scanned prefix by one element extends exactly one of
      the two lists by that element. */
  lemma KeptStep<T>(s: seq<T>, playing: set<T>, k: nat)
    requires k < |s|
    ensures Kept(s[..k + 1], playing)
            == Kept(s[..k], playing) + (if s[k] in playing then [s[k]] else [])
    ensures Reclaimed(s[..k + 1], playing)
            == Reclaimed(s[..k], playing) + (if s[k] in playing then [] else [s[k]])
  {
    assert s[..k + 1][..k] == s[..k];
  }

  /** One step of the in-place scan when the channel under the cursor still
      plays: the cursor moves past it. */
  lemma KeepStep<T>(w: seq<T>, s: seq<T>, playing: set<T>, k: nat)
    requires k < |s| && s[k] in playing
    requires w == Kept(s[..k], playing) + s[k..]
    ensures w == Kept(s[..k + 1], playing) + s[k + 1..]
    ensures |Kept(s[..k + 1], playing)| == |Kept(s[..k], playing)| + 1
    ensures Reclaimed(s[..k + 1], playing) == Reclaimed(s[..k], playing)
  {
    KeptStep(s, playing, k);
    assert s[k..] == [s[k]] + s[k + 1..];
  }

  /** One step of the in-place scan when the channel under the cursor has
      stopped: it leaves the list and joins the reclaimed ones. */
  lemma DropStep<T>(w: seq<T>, s: seq<T>, playing: set<T>, k: nat)
    requires k < |s| && s[k] !in playing
    requires w == Kept(s[..k], playing) + s[k..]
    ensures var i := |Kept(s[..k], playing)|;
            i < |w| && w[i] == s[k]
            && w[..i] + w[i + 1..] == Kept(s[..k + 1], playing) + s[k + 1..]
            && |Kept(s[..k + 1], playing)| == i
    ensures Reclaimed(s[..k + 1], playing) == Reclaimed(s[..k], playing) + [s[k]]
  {
    KeptStep(s, playing, k);
    var i := |Kept(s[..k], playing)|;
    assert w[..i] == Kept(s[..k], playing);
    assert w[i + 1..] == s[k + 1..];
  }

  /** A channel stays exactly when it is playing and is reclaimed exactly
      when it is not. */
  lemma {:induction false} KeptIffPlaying<T>(s: seq<T>, playing: set<T>)
    ensures forall x :: x in Kept(s, playing) <==> x in s && x in playing
    ensures forall x :: x in Reclaimed(s, playing) <==> x in s && x !in playing
  {
    if s != [] {
      var init, last := s[..|s| - 1], s[|s| - 1];
      KeptIffPlaying(init, playing);
      assert s == init + [last];
    }
  }

  /** The surviving channels keep their relative order. */
  lemma {:induction false} KeptIsSubsequence<T>(s: seq<T>, playing: set<T>)
    ensures IsSubsequence(Kept(s, playing), s)
  {
    if s != [] {
      var init := s[..|s| - 1];
      KeptIsSubsequence(init, playing);
      var k := Kept(s, playing);
      if s[|s| - 1] in playing {
        assert k[..|k| - 1] == Kept(init, playing);
      } else {
        assert k == Kept(init, playing);
      }
    }
  }

  /** Without duplicates in a concatenation, its parts are disjoint. */
  lemma NoDuplicatesSplit<T>(a: seq<T>, b: seq<T>)
    requires NoDuplicates(a + b)
    ensures NoDuplicates(a) && NoDuplicates(b)
    ensures forall x :: x in a ==> x !in b
  {
    assert multiset(a + b) == multiset(a) + multiset(b);
    forall x | x in a ensures multiset(a)[x] <= 1 && x !in b {
      assert x in a + b;
    }
    forall x | x in b ensures multiset(b)[x] <= 1 {
      assert x in a + b;
    }
  }

  /** Rearranging a list without duplicates yields none. */
  lemma NoDuplicatesPermutation<T>(a: seq<T>, b: seq<T>)
    requires multiset(a) == multiset(b) && NoDuplicates(b)
    ensures NoDuplicates(a)
  {
  }

  /** Taking the front of the pool into the working set keeps the handles. */
  lemma MoveFront<T>(pool: seq<T>, working: seq<T>)
    requires pool != []
    ensures multiset(pool[1..]) + multiset(working + [pool[0]]) == multiset(pool) + multiset(working)
  {
    assert pool == [pool[0]] + pool[1..];
  }

  /** Reclaiming moves handles from the working set to the tail of the pool
      and loses or duplicates none of them. */
  lemma ReclaimKeeps<T>(pool: seq<T>, working: seq<T>, playing: set<T>)
    ensures multiset(pool + Reclaimed(working, playing)) + multiset(Kept(working, playing))
            == multiset(pool) + multiset(working)
    ensures |pool + Reclaimed(working, playing)| + |Kept(working, playing)| == |pool| + |working|
  {
    KeptReclaimedPartition(working, playing);
  }

}

/** The two collection edits the drive list relies on, with the meaning the
    standard library documents for them:
    - `remove(atOffsets:)` deletes the elements at a set of offsets;
    - `move(fromOffsets:toOffset:)` lifts the elements at a set of offsets out
      of the collection and inserts them, as one block in their original
      order, just before the element that was at the destination offset.
    Both are stated through `Gather`, the elements whose indices lie in a set,
    taken in index order. */
module CollectionEdits {

  /** Every offset is an index of a collection of length `n`. */
  predicate ValidOffsets(offsets: set<int>, n: int) {
    forall i | i in offsets :: 0 <= i < n
  }

  /** The members of `sel` inside the index range [lo, hi). */
  function Within(sel: set<int>, lo: int, hi: int): set<int> {
    set i | i in sel && lo <= i < hi
  }

  /** The indices of a collection of length `n` that are not offsets. */
  function Complement(offsets: set<int>, n: int): set<int> {
    set i | 0 <= i < n && i !in offsets
  }

  predicate Increasing(ix: seq<int>) {
    forall a, b | 0 <= a < b < |ix| :: ix[a] < ix[b]
  }

  /** The elements of `s[lo..hi]` whose index is in `sel`, in index order. */
  function Gather<T>(s: seq<T>, sel: set<int>, lo: int, hi: int): seq<T>
    requires 0 <= lo <= hi <= |s|
    decreases hi - lo
  {
    if lo == hi then []
    else Gather(s, sel, lo, hi - 1) + (if hi - 1 in sel then [s[hi - 1]] else [])
  }

  /** The indices that `Gather` picks, in the order it picks them. */
  function GatherIndices(sel: set<int>, lo: int, hi: int): seq<int>
    requires lo <= hi
    decreases hi - lo
  {
    if lo == hi then []
    else GatherIndices(sel, lo, hi - 1) + (if hi - 1 in sel then [hi - 1] else [])
  }

  /** The elements at the given offsets, in their order in `s`. */
  function AtOffsets<T>(s: seq<T>, offsets: set<int>): seq<T> {
    Gather(s, offsets, 0, |s|)
  }

  /** `remove(atOffsets:)`: the elements whose index is not an offset. */
  function RemoveAtOffsets<T>(s: seq<T>, offsets: set<int>): (r: seq<T>)
    requires ValidOffsets(offsets, |s|)
    ensures |r| == |s| - |offsets|
    ensures multiset(r) + multiset(AtOffsets(s, offsets)) == multiset(s)
  {
    var kept := Complement(offsets, |s|);
    GatherCount(s, kept, 0, |s|);
    assert Within(kept, 0, |s|) == kept;
    ComplementSize(offsets, |s|);
    GatherPartition(s, kept, offsets, |s|);
    assert s[..|s|] == s;
    Gather(s, kept, 0, |s|)
  }

  /** `move(fromOffsets:toOffset:)`: the unmoved elements before the
      destination, then the moved block, then the remaining unmoved elements. */
  function MoveOffsets<T>(s: seq<T>, source: set<int>, destination: int): (r: seq<T>)
    requires ValidOffsets(source, |s|) && 0 <= destination <= |s|
    ensures |r| == |s|
    ensures multiset(r) == multiset(s)
  {
    var rest := Complement(source, |s|);
    GatherSplit(s, rest, 0, destination, |s|);
    GatherPartition(s, rest, source, |s|);
    assert s[..|s|] == s;
    var r := Gather(s, rest, 0, destination) + AtOffsets(s, source) + Gather(s, rest, destination, |s|);
    assert |r| == |multiset(r)| == |multiset(s)| == |s|;
    r
  }

  // ---------------------------------------------------------------------
  // Facts about Gather

  lemma {:induction false} GatherSplit<T>(s: seq<T>, sel: set<int>, lo: int, mid: int, hi: int)
    requires 0 <= lo <= mid <= hi <= |s|
    ensures Gather(s, sel, lo, hi) == Gather(s, sel, lo, mid) + Gather(s, sel, mid, hi)
    decreases hi - mid
  {
    if mid < hi {
      GatherSplit(s, sel, lo, mid, hi - 1);
    }
  }

  lemma {:induction false} GatherCount<T>(s: seq<T>, sel: set<int>, lo: int, hi: int)
    requires 0 <= lo <= hi <= |s|
    ensures |Gather(s, sel, lo, hi)| == |Within(sel, lo, hi)|
    decreases hi - lo
  {
    if lo == hi {
      assert Within(sel, lo, hi) == {};
    } else {
      GatherCount(s, sel, lo, hi - 1);
      if hi - 1 in sel {
        assert Within(sel, lo, hi) == Within(sel, lo, hi - 1) + {hi - 1};
      } else {
        assert Within(sel, lo, hi) == Within(sel, lo, hi - 1);
      }
    }
  }

  /** Gathering by a set and by its complement splits the prefix. */
  lemma {:induction false} GatherPartition<T>(s: seq<T>, sel: set<int>, other: set<int>, hi: int)
    requires 0 <= hi <= |s|
    requires forall i | 0 <= i < hi :: (i in sel) != (i in other)
    ensures multiset(Gather(s, sel, 0, hi)) + multiset(Gather(s, other, 0, hi)) == multiset(s[..hi])
  {
    if 0 < hi {
      var x := s[hi - 1];
      var a, b := multiset(Gather(s, sel, 0, hi - 1)), multiset(Gather(s, other, 0, hi - 1));
      assert a + b == multiset(s[..hi - 1]) by {
        GatherPartition(s, sel, other, hi - 1);
      }
      assert multiset(s[..hi]) == multiset(s[..hi - 1]) + multiset{x} by {
        assert s[..hi] == s[..hi - 1] + [x];
      }
      if hi - 1 in sel {
        assert multiset(Gather(s, sel, 0, hi)) == a + multiset{x};
        assert multiset(Gather(s, other, 0, hi)) == b;
      } else {
        assert multiset(Gather(s, sel, 0, hi)) == a;
        assert multiset(Gather(s, other, 0, hi)) == b + multiset{x};
      }
    }
  }

  lemma {:induction false} GatherAll<T>(s: seq<T>, sel: set<int>, lo: int, hi: int)
    requires 0 <= lo <= hi <= |s|
    requires forall i | lo <= i < hi :: i in sel
    ensures Gather(s, sel, lo, hi) == s[lo..hi]
    decreases hi - lo
  {
    if lo < hi {
      GatherAll(s, sel, lo, hi - 1);
      assert s[lo..hi] == s[lo..hi - 1] + [s[hi - 1]];
    }
  }

  /** Element `j` of a gather is the element at the `j`-th picked index. */
  lemma {:induction false} GatherAt<T>(s: seq<T>, sel: set<int>, lo: int, hi: int)
    requires 0 <= lo <= hi <= |s|
    ensures |Gather(s, sel, lo, hi)| == |GatherIndices(sel, lo, hi)|
    ensures forall j | 0 <= j < |GatherIndices(sel, lo, hi)| ::
      lo <= GatherIndices(sel, lo, hi)[j] < hi &&
      Gather(s, sel, lo, hi)[j] == s[GatherIndices(sel, lo, hi)[j]]
    decreases hi - lo
  {
    if lo < hi {
      GatherAt(s, sel, lo, hi - 1);
    }
  }

  /** The picked indices rise strictly and are exactly the members of `sel`
      in range. */
  lemma {:induction false} GatherIndicesExact(sel: set<int>, lo: int, hi: int)
    requires lo <= hi
    ensures Increasing(GatherIndices(sel, lo, hi))
    ensures forall i :: i in GatherIndices(sel, lo, hi) <==> i in Within(sel, lo, hi)
    decreases hi - lo
  {
    if lo < hi {
      GatherIndicesExact(sel, lo, hi - 1);
      var ix := GatherIndices(sel, lo, hi - 1);
      forall a | 0 <= a < |ix|
        ensures ix[a] < hi - 1
      {
        assert ix[a] in ix;
      }
    }
  }

  lemma {:induction false} ComplementSize(offsets: set<int>, n: int)
    requires 0 <= n && ValidOffsets(offsets, n)
    ensures |Complement(offsets, n)| == n - |offsets|
  {
    if n == 0 {
      assert forall i :: i !in offsets;
      assert Complement(offsets, n) == {};
    } else {
      var below := offsets - {n - 1};
      ComplementSize(below, n - 1);
      if n - 1 in offsets {
        assert Complement(offsets, n) == Complement(below, n - 1);
      } else {
        assert Complement(offsets, n) == Complement(below, n - 1) + {n - 1};
      }
    }
  }

  // ---------------------------------------------------------------------
  // remove(atOffsets:)

  /** The survivors are the elements at the non-removed indices, in their
      original order: the `j`-th survivor is the element at the `j`-th
      smallest index that was not removed. */
  lemma RemoveKeepsOrder<T>(s: seq<T>, offsets: set<int>)
    requires ValidOffsets(offsets, |s|)
    ensures var r, ix := RemoveAtOffsets(s, offsets), GatherIndices(Complement(offsets, |s|), 0, |s|);
      && |r| == |ix|
      && Increasing(ix)
      && (forall i :: i in ix <==> 0 <= i < |s| && i !in offsets)
      && (forall j | 0 <= j < |ix| :: 0 <= ix[j] < |s| && r[j] == s[ix[j]])
  {
    var kept := Complement(offsets, |s|);
    GatherAt(s, kept, 0, |s|);
    GatherIndicesExact(kept, 0, |s|);
  }

  lemma RemoveNothing<T>(s: seq<T>)
    ensures RemoveAtOffsets(s, {}) == s
  {
    GatherAll(s, Complement({}, |s|), 0, |s|);
  }

  // ---------------------------------------------------------------------
  // move(fromOffsets:toOffset:)

  /** The moved elements form one block, in their original order, placed
      after the unmoved elements that stood before the destination; taking
      the block out again leaves exactly what `remove(atOffsets:)` leaves,
      so the unmoved elements keep their relative order. */
  lemma MoveBlock<T>(s: seq<T>, source: set<int>, destination: int)
    requires ValidOffsets(source, |s|) && 0 <= destination <= |s|
    ensures var r, k := MoveOffsets(s, source, destination), |Within(Complement(source, |s|), 0, destination)|;
      && k + |source| <= |r|
      && r[k..k + |source|] == AtOffsets(s, source)
      && r[..k] + r[k + |source|..] == RemoveAtOffsets(s, source)
  {
    var rest := Complement(source, |s|);
    var before, block, after := Gather(s, rest, 0, destination), AtOffsets(s, source), Gather(s, rest, destination, |s|);
    var r := MoveOffsets(s, source, destination);
    assert r == before + block + after;
    GatherCount(s, rest, 0, destination);
    GatherCount(s, source, 0, |s|);
    assert Within(source, 0, |s|) == source;
    GatherSplit(s, rest, 0, destination, |s|);
    var k := |before|;
    assert r[k..k + |source|] == block;
    assert r[..k] == before;
    assert r[k + |source|..] == after;
  }

  lemma MoveNothing<T>(s: seq<T>, destination: int)
    requires 0 <= destination <= |s|
    ensures MoveOffsets(s, {}, destination) == s
  {
    var rest := Complement({}, |s|);
    var before, after := Gather(s, rest, 0, destination), Gather(s, rest, destination, |s|);
    assert before == s[..destination] by {
      GatherAll(s, rest, 0, destination);
    }
    assert after == s[destination..] by {
      GatherAll(s, rest, destination, |s|);
    }
    assert AtOffsets(s, {}) == [] by {
      GatherNone(s, 0, |s|);
    }
    assert MoveOffsets(s, {}, destination) == before + [] + after;
    assert s[..destination] + s[destination..] == s;
  }

  lemma {:induction false} GatherNone<T>(s: seq<T>, lo: int, hi: int)
    requires 0 <= lo <= hi <= |s|
    ensures Gather(s, {}, lo, hi) == []
    decreases hi - lo
  {
    if lo < hi {
      GatherNone(s, lo, hi - 1);
    }
  }
}

/**
 Output frames and the arithmetic of "what has arrived" — the vocabulary in which the replay machine of
 src/api/protocolClient.ts is specified.

 Nothing here follows the code's loops.  `Arrived` says which frame counts for a number, `Gap` says where the
 first hole is, `Chunks` and `Above` cut the arrivals at that hole.
 */
module Frames {
  import opened Wrappers

  newtype byte = x: int | 0 <= x < 256

  /** The mark of one incarnation of an agent.  It is drawn at random: only equality means anything. */
  type Epoch = nat

  datatype Frame = Frame(tag: nat, epoch: Epoch, seqNo: nat, bytes: seq<byte>)

  /** The frames of incarnation `e`, in order. */
  function Of(fs: seq<Frame>, e: Epoch): seq<Frame> {
    if fs == [] then []
    else
      var front := Of(fs[..|fs| - 1], e);
      if fs[|fs| - 1].epoch == e then front + [fs[|fs| - 1]] else front
  }

  /** The frames a view reading `epoch` would keep; a view that knows no incarnation yet keeps all. */
  function Accepted(fs: seq<Frame>, epoch: Option<Epoch>): seq<Frame> {
    if epoch.None? then fs else Of(fs, epoch.value)
  }

  /** For each number the frame that arrived first with it. */
  function Arrived(fs: seq<Frame>): map<nat, Frame> {
    if fs == [] then map[]
    else
      var front := Arrived(fs[..|fs| - 1]);
      var f := fs[|fs| - 1];
      if f.seqNo in front then front else front[f.seqNo := f]
  }

  /** The least number at or above `start` that has not arrived. */
  function Gap(m: map<nat, Frame>, start: nat): (n: nat)
    ensures start <= n && n !in m
    ensures forall s :: start <= s < n ==> s in m
    decreases Pending(m, start)
  {
    if start in m then
      assert start in Pending(m, start) && Pending(m, start + 1) <= Pending(m, start);
      Gap(m, start + 1)
    else start
  }

  ghost function Pending(m: map<nat, Frame>, start: nat): set<nat> {
    set k | k in m && k >= start
  }

  /** The frames numbered `lo` up to `hi`, in order. */
  function Chunks(m: map<nat, Frame>, lo: nat, hi: nat): (r: seq<Frame>)
    requires lo <= hi
    requires forall s :: lo <= s < hi ==> s in m
    ensures |r| == hi - lo
    ensures forall i :: 0 <= i < hi - lo ==> r[i] == m[lo + i]
  {
    seq(hi - lo, i requires 0 <= i < hi - lo => m[lo + i])
  }

  /** The arrivals beyond `n`. */
  function Above(m: map<nat, Frame>, n: nat): map<nat, Frame> {
    map s | s in m && s > n :: m[s]
  }

  /** Total payload of a list of frames. */
  function Size(fs: seq<Frame>): nat {
    if fs == [] then 0 else Size(fs[..|fs| - 1]) + |fs[|fs| - 1].bytes|
  }

  /** Total payload of a table of frames. */
  ghost function Bytes(m: map<nat, Frame>): nat
    decreases m.Keys
  {
    if m.Keys == {} then 0
    else
      var k :| k in m;
      |m[k].bytes| + Bytes(m - {k})
  }

  /** Every entry sits under its own number and belongs to incarnation `e`. */
  ghost predicate FiledFor(m: map<nat, Frame>, e: Epoch) {
    forall s :: s in m ==> m[s].seqNo == s && m[s].epoch == e
  }

  /** Two frames with the same mark and number are the same event. */
  ghost predicate Coherent(fs: seq<Frame>) {
    forall i, j :: 0 <= i < |fs| && 0 <= j < |fs| && fs[i].epoch == fs[j].epoch && fs[i].seqNo == fs[j].seqNo
      ==> fs[i] == fs[j]
  }

  // ── Filtering ──────────────────────────────────────────────────────────────

  lemma {:induction false} OfMembers(fs: seq<Frame>, e: Epoch)
    ensures forall f :: f in Of(fs, e) <==> f in fs && f.epoch == e
  {
    if fs != [] {
      var front := fs[..|fs| - 1];
      OfMembers(front, e);
      assert fs == front + [fs[|fs| - 1]];
    }
  }

  /** Filtering twice for the same incarnation, or after keeping all, is filtering once. */
  lemma {:induction false} OfAccepted(fs: seq<Frame>, epoch: Option<Epoch>, e: Epoch)
    requires epoch.None? || epoch.value == e
    ensures Of(Accepted(fs, epoch), e) == Of(fs, e)
  {
    if epoch.Some? && fs != [] {
      var front := fs[..|fs| - 1];
      OfAccepted(front, epoch, e);
      var g := Of(front, e);
      assert (g + [fs[|fs| - 1]])[..|g|] == g;
    }
  }

  lemma OfSnoc(fs: seq<Frame>, f: Frame, e: Epoch)
    ensures Of(fs + [f], e) == if f.epoch == e then Of(fs, e) + [f] else Of(fs, e)
  {
    assert (fs + [f])[..|fs|] == fs;
  }

  // ── Arrivals ───────────────────────────────────────────────────────────────

  lemma ArrivedSnoc(fs: seq<Frame>, f: Frame)
    ensures Arrived(fs + [f]) == if f.seqNo in Arrived(fs) then Arrived(fs) else Arrived(fs)[f.seqNo := f]
  {
    assert (fs + [f])[..|fs|] == fs;
  }

  lemma {:induction false} ArrivedMembers(fs: seq<Frame>)
    ensures forall s :: s in Arrived(fs) ==> Arrived(fs)[s] in fs && Arrived(fs)[s].seqNo == s
    ensures forall f :: f in fs ==> f.seqNo in Arrived(fs)
  {
    if fs != [] {
      var front := fs[..|fs| - 1];
      ArrivedMembers(front);
      assert fs == front + [fs[|fs| - 1]];
    }
  }

  lemma ArrivedFiled(fs: seq<Frame>, e: Epoch)
    ensures FiledFor(Arrived(Of(fs, e)), e)
  {
    OfMembers(fs, e);
    ArrivedMembers(Of(fs, e));
  }

  /** Coherent lists holding the same frames have the same arrivals, whatever their order and repetitions. */
  lemma ArrivedBySet(fs: seq<Frame>, gs: seq<Frame>, e: Epoch)
    requires Coherent(fs + gs)
    requires forall f: Frame :: f in fs <==> f in gs
    ensures Arrived(Of(fs, e)) == Arrived(Of(gs, e))
  {
    var a, b := Of(fs, e), Of(gs, e);
    OfMembers(fs, e);
    OfMembers(gs, e);
    ArrivedMembers(a);
    ArrivedMembers(b);
    assert Arrived(a).Keys == Arrived(b).Keys;
    forall s | s in Arrived(a) ensures Arrived(a)[s] == Arrived(b)[s] {
      var f, g := Arrived(a)[s], Arrived(b)[s];
      var i :| 0 <= i < |fs| && fs[i] == f;
      var j :| 0 <= j < |gs| && gs[j] == g;
      assert (fs + gs)[i] == f && (fs + gs)[|fs| + j] == g;
    }
  }

  // ── The first hole ─────────────────────────────────────────────────────────

  /** The first hole is the only number with these two properties. */
  lemma GapUnique(m: map<nat, Frame>, start: nat, n: nat)
    requires start <= n && n !in m
    requires forall s :: start <= s < n ==> s in m
    ensures Gap(m, start) == n
  {
  }

  /** A frame off the hole leaves the hole, and what is before it, where they are. */
  lemma GapStays(a: map<nat, Frame>, start: nat, f: Frame)
    requires f.seqNo !in a && f.seqNo != Gap(a, start)
    requires f.seqNo < start || f.seqNo > Gap(a, start)
    ensures var b, n := a[f.seqNo := f], Gap(a, start);
      && Gap(b, start) == n
      && Chunks(b, start, n) == Chunks(a, start, n)
      && Above(b, n) == if f.seqNo > n then Above(a, n)[f.seqNo := f] else Above(a, n)
  {
    GapUnique(a[f.seqNo := f], start, Gap(a, start));
  }

  /** A frame in the hole moves it to the first hole of what was held. */
  lemma GapFilled(a: map<nat, Frame>, start: nat, f: Frame)
    requires f.seqNo == Gap(a, start)
    ensures var b, n := a[f.seqNo := f], Gap(a, start);
      var n' := Gap(Above(a, n), n + 1);
      && Gap(b, start) == n'
      && Above(b, n') == Above(Above(a, n), n')
      && Chunks(b, start, n') == Chunks(a, start, n) + [f] + Chunks(Above(a, n), n + 1, n')
  {
    var b, n := a[f.seqNo := f], Gap(a, start);
    var held := Above(a, n);
    var n' := Gap(held, n + 1);
    assert forall s :: n < s ==> (s in held <==> s in a);
    GapUnique(b, start, n');
  }

  // ── Payload sums ───────────────────────────────────────────────────────────

  lemma {:induction false} BytesRemove(m: map<nat, Frame>, k: nat)
    requires k in m
    ensures Bytes(m) == |m[k].bytes| + Bytes(m - {k})
    decreases m.Keys
  {
    var j :| j in m && Bytes(m) == |m[j].bytes| + Bytes(m - {j});
    if j != k {
      BytesRemove(m - {j}, k);
      BytesRemove(m - {k}, j);
      assert m - {j} - {k} == m - {k} - {j};
    }
  }

  lemma BytesInsert(m: map<nat, Frame>, f: Frame)
    requires f.seqNo !in m
    ensures Bytes(m[f.seqNo := f]) == Bytes(m) + |f.bytes|
  {
    BytesRemove(m[f.seqNo := f], f.seqNo);
    assert m[f.seqNo := f] - {f.seqNo} == m;
  }

  lemma SizeSnoc(fs: seq<Frame>, f: Frame)
    ensures Size(fs + [f]) == Size(fs) + |f.bytes|
  {
    assert (fs + [f])[..|fs|] == fs;
  }

  /** Keeping one frame per number never needs more room than the list did. */
  lemma {:induction false} ArrivedFits(fs: seq<Frame>)
    ensures |Arrived(fs)| <= |fs| && Bytes(Arrived(fs)) <= Size(fs)
  {
    if fs != [] {
      var front := fs[..|fs| - 1];
      ArrivedFits(front);
      if fs[|fs| - 1].seqNo !in Arrived(front) {
        BytesInsert(Arrived(front), fs[|fs| - 1]);
      }
    }
  }

  lemma {:induction false} OfFits(fs: seq<Frame>, e: Epoch)
    ensures |Of(fs, e)| <= |fs| && Size(Of(fs, e)) <= Size(fs)
  {
    if fs != [] {
      var front := fs[..|fs| - 1];
      OfFits(front, e);
      SizeSnoc(Of(front, e), fs[|fs| - 1]);
    }
  }

  lemma {:induction false} SubFits(sub: map<nat, Frame>, m: map<nat, Frame>)
    requires forall s :: s in sub ==> s in m && sub[s] == m[s]
    ensures |sub| <= |m| && Bytes(sub) <= Bytes(m)
    decreases m.Keys
  {
    if k :| k in m {
      BytesRemove(m, k);
      if k in sub {
        BytesRemove(sub, k);
        SubFits(sub - {k}, m - {k});
      } else {
        SubFits(sub, m - {k});
      }
    } else {
      assert sub.Keys == {};
    }
  }

  /** Cutting a table at the first hole splits its payload into the released run and the rest. */
  lemma {:induction false} BytesSplit(m: map<nat, Frame>, lo: nat, hi: nat)
    requires lo <= hi && hi !in m
    requires forall s :: s in m ==> s >= lo
    requires forall s :: lo <= s < hi ==> s in m
    ensures Bytes(m) == Size(Chunks(m, lo, hi)) + Bytes(Above(m, hi))
    decreases hi - lo
  {
    if lo == hi {
      assert Above(m, hi) == m;
    } else {
      BytesRemove(m, lo);
      var rest := m - {lo};
      BytesSplit(rest, lo + 1, hi);
      HeadOff(m, lo, hi);
      SizeCons(m[lo], Chunks(rest, lo + 1, hi));
    }
  }

  lemma HeadOff(m: map<nat, Frame>, lo: nat, hi: nat)
    requires lo < hi && forall s :: lo <= s < hi ==> s in m
    ensures Above(m - {lo}, hi) == Above(m, hi)
    ensures Chunks(m, lo, hi) == [m[lo]] + Chunks(m - {lo}, lo + 1, hi)
  {
  }

  lemma {:induction false} SizeCons(f: Frame, fs: seq<Frame>)
    ensures Size([f] + fs) == |f.bytes| + Size(fs)
  {
    if fs == [] {
      assert [f] + fs == [] + [f];
      SizeSnoc([], f);
    } else {
      var front, g := fs[..|fs| - 1], fs[|fs| - 1];
      SizeCons(f, front);
      assert [f] + fs == ([f] + front) + [g];
      SizeSnoc([f] + front, g);
    }
  }
}

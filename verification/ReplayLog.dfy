/**
 What a consumer may conclude from a view's log alone.

 `Read` is a checker that knows nothing of the machine: it walks the log, keeps the cursor a consumer would keep,
 and turns `Bad` as soon as a chunk is not the very next number, or a chunk or a flush belongs to another
 incarnation than the last flush without a `Reset` in between.
 */
module ReplayLog {
  import opened Wrappers
  import opened Frames
  import opened ReplaySpec

  /** `start` is where the last flush began and `run` what has been delivered since. */
  datatype Reading = Bad | Reading(cursor: int, epoch: Option<Epoch>, start: int, run: seq<Frame>)

  ghost function ReadOne(r: Reading, o: Output): Reading {
    if r.Bad? then Bad
    else
      match o
      case Chunk(f) =>
        if f.seqNo != r.cursor + 1 || r.epoch != Some(f.epoch) then Bad
        else Reading(f.seqNo, r.epoch, r.start, r.run + [f])
      case Reset => Reading(-1, None, 0, [])
      case Flushed(m) =>
        var start := Max(r.cursor + 1, m.replayFrom);
        if r.epoch.Some? && r.epoch.value != m.epoch then Bad
        else Reading(start - 1, Some(m.epoch), start, [])
      case _ => r
  }

  ghost function Read(log: seq<Output>): (r: Reading)
    ensures r.Reading? ==> r.cursor >= -1
  {
    if log == [] then Reading(-1, None, 0, [])
    else ReadOne(Read(log[..|log| - 1]), log[|log| - 1])
  }

  lemma ReadSnoc(log: seq<Output>, o: Output)
    ensures Read(log + [o]) == ReadOne(Read(log), o)
  {
    assert (log + [o])[..|log|] == log;
  }

  /** A contiguous run of one incarnation reads cleanly. */
  lemma {:induction false} ReadRun(log: seq<Output>, fs: seq<Frame>, e: Epoch)
    requires var r := Read(log);
      && r.Reading? && r.epoch == Some(e)
      && forall i :: 0 <= i < |fs| ==> fs[i].seqNo == r.cursor + 1 + i && fs[i].epoch == e
    ensures var r := Read(log);
      Read(log + ChunkLog(fs))
      == Reading(r.cursor + |fs|, r.epoch, r.start, r.run + fs)
    decreases |fs|
  {
    if fs == [] {
      assert log + ChunkLog(fs) == log && Read(log).run + fs == Read(log).run;
    } else {
      var front, f := fs[..|fs| - 1], fs[|fs| - 1];
      ReadRun(log, front, e);
      assert log + ChunkLog(fs) == (log + ChunkLog(front)) + [Chunk(f)];
      ReadSnoc(log + ChunkLog(front), Chunk(f));
      assert Read(log).run + fs == (Read(log).run + front) + [f];
    }
  }

  lemma ReadChunks(log: seq<Output>, m: map<nat, Frame>, lo: nat, hi: nat, e: Epoch)
    requires lo <= hi && (forall s :: lo <= s < hi ==> s in m) && FiledFor(m, e)
    requires Read(log).Reading? && Read(log).cursor == lo - 1 && Read(log).epoch == Some(e)
    ensures Read(log + ChunkLog(Chunks(m, lo, hi)))
      == Reading(hi - 1, Some(e), Read(log).start, Read(log).run + Chunks(m, lo, hi))
  {
    ReadRun(log, Chunks(m, lo, hi), e);
  }

  /** A prefix of a clean log is clean. */
  lemma {:induction false} ReadPrefix(log: seq<Output>, k: nat)
    requires k <= |log| && Read(log).Reading?
    ensures Read(log[..k]).Reading?
    decreases |log| - k
  {
    if k < |log| {
      ReadPrefix(log, k + 1);
      assert log[..k + 1][..k] == log[..k];
    } else {
      assert log[..k] == log;
    }
  }

  /** Reading up to and including entry `k`. */
  lemma ReadAt(log: seq<Output>, k: nat)
    requires k < |log| && Read(log).Reading?
    ensures Read(log[..k]).Reading? && Read(log[..k + 1]).Reading?
    ensures Read(log[..k + 1]) == ReadOne(Read(log[..k]), log[k])
  {
    ReadPrefix(log, k);
    ReadPrefix(log, k + 1);
    assert log[..k + 1][..k] == log[..k];
  }

  ghost predicate NoReset(log: seq<Output>, i: nat, j: nat) {
    forall k :: i <= k < j && k < |log| ==> log[k] != Reset
  }

  /** Without a reset the consumer's cursor only grows and a known incarnation stays known. */
  lemma {:induction false} ReadBetween(log: seq<Output>, i: nat, j: nat)
    requires i <= j <= |log| && Read(log).Reading? && NoReset(log, i, j)
    ensures Read(log[..i]).Reading? && Read(log[..j]).Reading?
    ensures Read(log[..i]).cursor <= Read(log[..j]).cursor
    ensures Read(log[..i]).epoch.Some? ==> Read(log[..j]).epoch == Read(log[..i]).epoch
    decreases j
  {
    ReadPrefix(log, i);
    ReadPrefix(log, j);
    if i < j {
      ReadBetween(log, i, j - 1);
      assert log[..j][..j - 1] == log[..j - 1];
    }
  }

  /** Never twice, never backwards: between two resets the delivered numbers strictly increase. */
  lemma DeliveriesIncrease(log: seq<Output>, i: nat, j: nat)
    requires Read(log).Reading?
    requires i < j < |log| && log[i].Chunk? && log[j].Chunk? && NoReset(log, i, j)
    ensures log[i].frame.seqNo < log[j].frame.seqNo
  {
    ReadBetween(log, i + 1, j);
    ReadAt(log, i);
    ReadAt(log, j);
  }

  /** The incarnation a chunk or a flush belongs to. */
  ghost function Incarnation(o: Output): Option<Epoch> {
    match o
    case Chunk(f) => Some(f.epoch)
    case Flushed(m) => Some(m.epoch)
    case _ => None
  }

  /** Without a reset between them chunks and flushes are of one incarnation. */
  lemma SameIncarnation(log: seq<Output>, i: nat, j: nat)
    requires Read(log).Reading?
    requires i < j < |log| && Incarnation(log[i]).Some? && Incarnation(log[j]).Some? && NoReset(log, i, j)
    ensures Incarnation(log[i]) == Incarnation(log[j])
  {
    ReadBetween(log, i + 1, j);
    ReadAt(log, i);
    ReadAt(log, j);
  }

  /** Never mixed: chunks and flushes of different incarnations have a reset between them. */
  lemma IncarnationsSeparated(log: seq<Output>, i: nat, j: nat)
    requires Read(log).Reading?
    requires i < j < |log| && Incarnation(log[i]).Some? && Incarnation(log[j]).Some?
    requires Incarnation(log[i]) != Incarnation(log[j])
    ensures exists k :: i < k < j && log[k] == Reset
  {
    if NoReset(log, i, j) {
      SameIncarnation(log, i, j);
    }
  }

  /** `s` was delivered at `k`, or at `k` a replay began whose head lies beyond `s`. */
  ghost predicate Accounted(o: Output, s: nat) {
    (o.Chunk? && o.frame.seqNo == s) || (o.Flushed? && s < o.marker.replayFrom)
  }

  /**
   Never skipped: every number up to the cursor was delivered since the last reset, unless some replay since then
   no longer had it.
   */
  lemma {:induction false} NothingSkipped(log: seq<Output>, s: nat) returns (k: nat)
    requires Read(log).Reading? && s <= Read(log).cursor
    ensures k < |log| && Accounted(log[k], s) && NoReset(log, k, |log|)
    decreases |log|
  {
    var front := log[..|log| - 1];
    ReadPrefix(log, |log| - 1);
    if Accounted(log[|log| - 1], s) {
      k := |log| - 1;
    } else {
      k := NothingSkipped(front, s);
      assert forall i :: 0 <= i < |front| ==> front[i] == log[i];
      assert NoReset(log, k, |log|);
    }
  }
}

/** The chain follower across crashes: the listener's height, the asynchronous persists and the restart from the saved
    height. */
module Follower {
  import opened Domain
  import Confirmations
  import Listener

  /** One life of the process: the listener's counter, whether the block at that height was already broadcast, and the
      heights read by persists that have not written yet. */
  datatype Process = Process(height: nat, sent: bool, captured: multiset<nat>)

  /** persisted is the last_synced_block_height column and emitted the heights broadcast so far. The other fields are
      history: where the life that first persisted (or the current life, while nothing is persisted) started, how long
      emitted was then, and one past the highest height broadcast since. */
  datatype Follower = Follower(
    persisted: Option<int>,
    proc: Option<Process>,
    emitted: seq<nat>,
    start: nat,
    mark: nat,
    top: nat)

  datatype Step =
    | Boot(tip: nat)      // load: saved height, or the tip reported by the daemon
    | Broadcast(tip: nat) // an iteration of the catch-up loop below a reported tip broadcasts its block
    | Advance             // and increments the counter
    | Capture             // persistCryptoCache reads the counter
    | Write(h: nat)       // and updates the row, in any order with other persists
    | Drop(h: nat)        // or its statement fails
    | Crash

  const INIT: Follower := Follower(None, None, [], 0, 0, 0)

  predicate Enabled(s: Follower, step: Step) {
    match step
    case Boot(tip) => s.proc.None? && tip < Confirmations.TWO64
    case Broadcast(tip) => s.proc.Some? && !s.proc.value.sent && s.proc.value.height < tip < Confirmations.TWO64
    case Advance => s.proc.Some? && s.proc.value.sent
    case Capture => s.proc.Some?
    case Write(h) => s.proc.Some? && h in s.proc.value.captured
    case Drop(h) => s.proc.Some? && h in s.proc.value.captured
    case Crash => s.proc.Some?
  }

  predicate ColumnOk(s: Follower) {
    s.persisted.Some? ==> -Confirmations.TWO63 <= s.persisted.value < Confirmations.TWO63
  }

  predicate HeightsOk(s: Follower) {
    s.proc.Some? ==>
      && s.proc.value.height + (if s.proc.value.sent then 1 else 0) < Confirmations.TWO64
      && forall h :: h in s.proc.value.captured ==> h < Confirmations.TWO64
  }

  function Apply(s: Follower, step: Step): Follower
    requires Enabled(s, step) && ColumnOk(s) && HeightsOk(s)
  {
    match step
    case Boot(tip) =>
      if s.persisted.Some? then s.(proc := Some(Process(Confirmations.Uint64(s.persisted.value), false, multiset{})))
      else
        s.(proc := Some(Process(Confirmations.Uint64(Confirmations.Int64(tip)), false, multiset{})),
           start := tip, mark := |s.emitted|, top := tip)
    case Broadcast(_) =>
      var h := s.proc.value.height;
      s.(proc := Some(s.proc.value.(sent := true)),
         emitted := s.emitted + [h],
         top := if s.top < h + 1 then h + 1 else s.top)
    case Advance => s.(proc := Some(s.proc.value.(height := s.proc.value.height + 1, sent := false)))
    case Capture =>
      s.(proc := Some(s.proc.value.(captured := s.proc.value.captured + multiset{s.proc.value.height})))
    case Write(h) =>
      s.(proc := Some(s.proc.value.(captured := s.proc.value.captured - multiset{h})),
         persisted := Some(Confirmations.Int64(h)))
    case Drop(h) => s.(proc := Some(s.proc.value.(captured := s.proc.value.captured - multiset{h})))
    case Crash => s.(proc := None)
  }

  /** The state after a run; None if some step was not possible. */
  function Exec(steps: seq<Step>): Option<Follower> {
    if steps == [] then Some(INIT)
    else
      var n := |steps| - 1;
      match Exec(steps[..n])
      case None => None
      case Some(s) =>
        if ColumnOk(s) && HeightsOk(s) && Enabled(s, steps[n]) then Some(Apply(s, steps[n])) else None
  }

  /** The first height that the life has not broadcast. */
  function Next(p: Process): nat {
    p.height + if p.sent then 1 else 0
  }

  /** What has been broadcast since the recorded start is the interval [start, top), and the counter, the saved height
      and every height about to be saved lie in it or at its end. */
  ghost predicate GapFree(s: Follower) {
    && ColumnOk(s) && HeightsOk(s)
    && (s.persisted.Some? || s.proc.Some? ==>
          && s.mark <= |s.emitted|
          && s.start <= s.top
          && forall h :: h in s.emitted[s.mark..] <==> s.start <= h < s.top)
    && (s.persisted.Some? ==> s.start <= Confirmations.Uint64(s.persisted.value) <= s.top)
    && (s.proc.Some? ==>
          && s.start <= s.proc.value.height <= Next(s.proc.value) <= s.top
          && (forall h :: h in s.proc.value.captured ==> s.start <= h <= s.proc.value.height)
          && (s.persisted.None? ==> Next(s.proc.value) == s.top))
  }

  lemma BootKeepsGapFree(s: Follower, tip: nat)
    requires GapFree(s) && Enabled(s, Boot(tip))
    ensures GapFree(Apply(s, Boot(tip)))
  {
    var s' := Apply(s, Boot(tip));
    assert s.persisted.None? ==> s'.emitted[s'.mark..] == [];
  }

  lemma BroadcastKeepsGapFree(s: Follower, tip: nat)
    requires GapFree(s) && Enabled(s, Broadcast(tip))
    ensures GapFree(Apply(s, Broadcast(tip)))
  {
    assert Apply(s, Broadcast(tip)).emitted[s.mark..] == s.emitted[s.mark..] + [s.proc.value.height];
  }

  lemma AdvanceKeepsGapFree(s: Follower)
    requires GapFree(s) && Enabled(s, Advance)
    ensures GapFree(Apply(s, Advance))
  {
  }

  /** The steps of a persist: one more height is captured, or one fewer. */
  lemma PersistKeepsGapFree(s: Follower, step: Step)
    requires GapFree(s) && Enabled(s, step) && (step.Capture? || step.Write? || step.Drop?)
    ensures GapFree(Apply(s, step))
  {
    var m, m' := s.proc.value.captured, Apply(s, step).proc.value.captured;
    assert forall h :: h in m' ==> h in m || h == s.proc.value.height;
    if step.Write? {
      Confirmations.HeightRoundTrip(step.h);
      assert step.h in m;
    }
  }

  lemma ApplyKeepsGapFree(s: Follower, step: Step)
    requires GapFree(s) && Enabled(s, step)
    ensures GapFree(Apply(s, step))
  {
    match step
    case Boot(tip) => BootKeepsGapFree(s, tip);
    case Broadcast(tip) => BroadcastKeepsGapFree(s, tip);
    case Advance => AdvanceKeepsGapFree(s);
    case Capture => PersistKeepsGapFree(s, step);
    case Write(_) => PersistKeepsGapFree(s, step);
    case Drop(_) => PersistKeepsGapFree(s, step);
    case Crash =>
  }

  /** Over every run of syncs, persists in any order, crashes and restarts, the heights broadcast since the life that
      first persisted form a gap-free interval, and the saved and current heights lie inside it or at its end. */
  lemma {:induction false} NoGaps(steps: seq<Step>)
    requires Exec(steps).Some?
    ensures GapFree(Exec(steps).value)
    decreases |steps|
  {
    if steps != [] {
      var n := |steps| - 1;
      NoGaps(steps[..n]);
      ApplyKeepsGapFree(Exec(steps[..n]).value, steps[n]);
    }
  }

  lemma {:induction false} PrefixExec(steps: seq<Step>, j: nat)
    requires j <= |steps| && Exec(steps).Some?
    ensures Exec(steps[..j]).Some?
    decreases |steps|
  {
    if j == |steps| {
      assert steps[..j] == steps;
    } else {
      var n := |steps| - 1;
      PrefixExec(steps[..n], j);
      assert steps[..n][..j] == steps[..j];
    }
  }

  /** Once a height is saved, some height stays saved and the recorded start is never moved again. */
  lemma {:induction false} StartIsFixed(steps: seq<Step>, j: nat)
    requires j <= |steps| && Exec(steps).Some? && Exec(steps[..j]).Some? && Exec(steps[..j]).value.persisted.Some?
    ensures Exec(steps).value.persisted.Some? && Exec(steps).value.start == Exec(steps[..j]).value.start
    decreases |steps|
  {
    if j == |steps| {
      assert steps[..j] == steps;
    } else {
      var n := |steps| - 1;
      assert steps[..n][..j] == steps[..j];
      StartIsFixed(steps[..n], j);
    }
  }

  /** No block is skipped: any height between a height that was ever saved and the current height has been broadcast. */
  lemma {:induction false} NoBlockSkipped(steps: seq<Step>, j: nat, h: nat)
    requires j <= |steps| && Exec(steps).Some? && Exec(steps).value.proc.Some?
    requires Exec(steps[..j]).Some? && Exec(steps[..j]).value.persisted.Some? && ColumnOk(Exec(steps[..j]).value)
    requires Confirmations.Uint64(Exec(steps[..j]).value.persisted.value) <= h < Exec(steps).value.proc.value.height
    ensures h in Exec(steps).value.emitted
  {
    NoGaps(steps);
    NoGaps(steps[..j]);
    StartIsFixed(steps, j);
    var s := Exec(steps).value;
    assert h in s.emitted[s.mark..];
  }

  lemma ExecSnoc(steps: seq<Step>, step: Step)
    requires Exec(steps).Some? && GapFree(Exec(steps).value) && Enabled(Exec(steps).value, step)
    ensures Exec(steps + [step]) == Some(Apply(Exec(steps).value, step))
  {
    assert (steps + [step])[..|steps|] == steps;
  }

  /** k iterations of the loop. */
  function Emits(tip: nat, k: nat): (r: seq<Step>)
    ensures |r| == 2 * k
  {
    if k == 0 then [] else Emits(tip, k - 1) + [Broadcast(tip)] + [Advance]
  }

  function Heights(h: nat, k: nat): (r: seq<nat>)
    ensures |r| == k && forall i :: 0 <= i < k ==> r[i] == h + i
  {
    if k == 0 then [] else Heights(h, k - 1) + [h + k - 1]
  }

  /** r is s after the counter advanced by k, each height having been broadcast. */
  ghost predicate Advanced(s: Follower, r: Follower, k: nat) {
    && s.proc.Some?
    && r.proc == Some(s.proc.value.(height := s.proc.value.height + k))
    && r.persisted == s.persisted
    && r.emitted == s.emitted + Heights(s.proc.value.height, k)
  }

  /** One iteration undisturbed. */
  lemma AdvanceOnce(s: Follower, r: Follower, k: nat, tip: nat) returns (r1: Follower)
    requires Advanced(s, r, k) && GapFree(r) && Enabled(r, Broadcast(tip))
    ensures r1 == Apply(r, Broadcast(tip)) && GapFree(r1) && Enabled(r1, Advance)
    ensures Advanced(s, Apply(r1, Advance), k + 1)
  {
    ApplyKeepsGapFree(r, Broadcast(tip));
    r1 := Apply(r, Broadcast(tip));
  }

  lemma IterateOnce(s: Follower, before: seq<Step>, k: nat, tip: nat)
    requires Exec(before).Some? && Advanced(s, Exec(before).value, k) && Enabled(Exec(before).value, Broadcast(tip))
    ensures var r := Exec(before + [Broadcast(tip)] + [Advance]); r.Some? && Advanced(s, r.value, k + 1)
  {
    NoGaps(before);
    var r1 := AdvanceOnce(s, Exec(before).value, k, tip);
    ExecSnoc(before, Broadcast(tip));
    ExecSnoc(before + [Broadcast(tip)], Advance);
  }

  lemma EmitsSnoc(steps: seq<Step>, tip: nat, k: nat)
    ensures steps + Emits(tip, k + 1) == steps + Emits(tip, k) + [Broadcast(tip)] + [Advance]
  {
  }

  /** The run goes on with k iterations, which advance the counter of s by k. */
  ghost predicate Iterates(s: Follower, all: seq<Step>, k: nat) {
    Exec(all).Some? && Advanced(s, Exec(all).value, k)
  }

  lemma NextIteration(s: Follower, before: seq<Step>, all: seq<Step>, k: nat, tip: nat)
    requires Iterates(s, before, k) && all == before + [Broadcast(tip)] + [Advance]
    requires !s.proc.value.sent && s.proc.value.height + k < tip < Confirmations.TWO64
    ensures Iterates(s, all, k + 1)
  {
    IterateOnce(s, before, k, tip);
  }

  /** Advancing the counter by k below a reported tip is k iterations in a run. */
  lemma {:induction false} SyncBlockIsEmits(s: Follower, steps: seq<Step>, tip: nat, k: nat)
    requires Exec(steps) == Some(s) && s.proc.Some? && !s.proc.value.sent && tip < Confirmations.TWO64
    requires k > 0 ==> s.proc.value.height + k <= tip
    ensures Iterates(s, steps + Emits(tip, k), k)
    decreases k
  {
    if k == 0 {
      assert steps + Emits(tip, 0) == steps;
    } else {
      SyncBlockIsEmits(s, steps, tip, k - 1);
      EmitsSnoc(steps, tip, k - 1);
      NextIteration(s, steps + Emits(tip, k - 1), steps + Emits(tip, k), k - 1, tip);
    }
  }

  function HeightsOf<B>(blocks: seq<Listener.Emission<B>>): (r: seq<nat>)
    ensures |r| == |blocks| && forall i :: 0 <= i < |r| ==> r[i] == blocks[i].height
  {
    seq(|blocks|, i requires 0 <= i < |blocks| => blocks[i].height)
  }

  /** The blocks of Listener.Blocks carry consecutive heights. */
  lemma BlocksAreConsecutive<B(!new)>(h: nat, end: nat, tip: nat, fetch: nat -> Option<B>)
    requires Listener.Fetched(h, end, tip, fetch)
    ensures HeightsOf(Listener.Blocks(h, end, tip, fetch)) == Heights(h, end - h)
  {
  }

  /** r is s after the listener's counter reached end and these blocks were emitted. */
  ghost predicate SyncedTo<B>(s: Follower, r: Follower, end: nat, blocks: seq<Listener.Emission<B>>) {
    && s.proc.Some? && r.proc == Some(s.proc.value.(height := end)) && r.persisted == s.persisted
    && r.emitted == s.emitted + HeightsOf(blocks)
  }

  lemma AdvancedIsSynced<B(!new)>(s: Follower, r: Follower, h: nat, end: nat, tip: nat, fetch: nat -> Option<B>)
    requires s.proc.Some? && s.proc.value.height == h && Listener.Fetched(h, end, tip, fetch)
    requires Advanced(s, r, end - h)
    ensures SyncedTo(s, r, end, Listener.Blocks(h, end, tip, fetch))
  {
    BlocksAreConsecutive(h, end, tip, fetch);
  }

  /** A call of Listener.BaseDaemonRpcClientExecutor.SyncBlock is a run of iterations: with the counter at h, the
      contract of that method gives exactly the counter and the emitted blocks that the run reaches. */
  lemma SyncBlockIsRun<B(!new)>(steps: seq<Step>, h: nat, tip: nat, fetch: nat -> Option<B>, done: nat -> bool)
    requires Exec(steps).Some? && Exec(steps).value.proc.Some? && tip < Confirmations.TWO64
    requires h == Exec(steps).value.proc.value.height && !Exec(steps).value.proc.value.sent
    ensures var end := Listener.SyncEnd(h, tip, fetch, done);
            && Listener.Fetched(h, end, tip, fetch)
            && Exec(steps + Emits(tip, end - h)).Some?
            && SyncedTo(Exec(steps).value, Exec(steps + Emits(tip, end - h)).value, end,
                        Listener.Blocks(h, end, tip, fetch))
  {
    var end := Listener.SyncEnd(h, tip, fetch, done);
    Listener.SyncEndFetched(h, tip, fetch, done);
    SyncBlockIsEmits(Exec(steps).value, steps, tip, end - h);
    AdvancedIsSynced(Exec(steps).value, Exec(steps + Emits(tip, end - h)).value, h, end, tip, fetch);
  }
}

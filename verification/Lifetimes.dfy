/** What the goroutines of one life of the process know: an invoice they hold was pending when the life or its
    registration began, so a terminal status of it was written in this life. */
module Lifetimes {
  import opened Domain
  import opened Interleaving
  import opened Registrations
  import Sums

  /** The position after the last crash. */
  function LifeStart(log: seq<MapOp>): (n: nat)
    ensures n <= |log|
  {
    if log == [] then 0
    else if log[|log| - 1] == Wiped then |log|
    else LifeStart(log[..|log| - 1])
  }

  lemma {:induction false} NothingLiveAtStart(log: seq<MapOp>, a: Slot)
    ensures !Live(log[..LifeStart(log)], a)
    decreases |log|
  {
    if log != [] {
      if log[|log| - 1] == Wiped {
        assert log[..|log|] == log;
      } else {
        NothingLiveAtStart(log[..|log| - 1], a);
        assert log[..|log| - 1][..LifeStart(log)] == log[..LifeStart(log)];
      }
    }
  }

  lemma LifeGrows(log: seq<MapOp>, op: MapOp)
    requires op != Wiped
    ensures LifeStart(log + [op]) == LifeStart(log)
  {
    assert (log + [op])[..|log|] == log;
  }

  /** The invoice a goroutine acts on. */
  function Holds(pc: Pc): Option<InvoiceId> {
    match pc
    case Registering(inv) => Some(inv.id)
    case Storing(inv) => Some(inv.id)
    case Waiting(_, id, _) => Some(id)
    case Verifying(_, _, inv) => Some(inv.id)
    case Publishing(_, row) => Some(row.id)
    case Hanging(_, row) => Some(row.id)
    case Asking(_, inv) => Some(inv.id)
    case Removing(_, inv) => Some(inv.id)
    case Cancelling(_, inv, _) => Some(inv.id)
    case Finishing(inv, _) => Some(inv.id)
    case Expiring(id, _, _) => Some(id)
    case Closing(id, _, _, _) => Some(id)
    case _ => None
  }

  /** A terminal UPDATE of this life gave the invoice its status. */
  predicate RecordedNow(h: Shared, id: InvoiceId, status: Status) {
    exists i :: && 0 <= i < |h.terminals| && h.terminals[i].id == id && h.terminals[i].status == status
                && LifeStart(h.log) <= h.terminals[i].token
  }

  predicate Current(h: Shared, id: InvoiceId) {
    id in h.rows && (!IsPending(h.rows[id].status) ==> RecordedNow(h, id, h.rows[id].status))
  }

  /** The goroutine holds a current invoice, and the removal it acts on happened in this life. */
  predicate ThreadCurrent(h: Shared, pc: Pc) {
    && (Holds(pc).Some? ==> Current(h, Holds(pc).value))
    && (License(pc).Some? ==> LifeStart(h.log) <= License(pc).value.0)
  }

  ghost predicate CellsCurrent(h: Shared) {
    forall c :: 0 <= c < |h.cells| ==> Current(h, h.cells[c].inv.id)
  }

  ghost predicate AllCurrent(s: State) {
    CellsCurrent(s.shared) && forall t :: 0 <= t < |s.threads| ==> ThreadCurrent(s.shared, s.threads[t])
  }

  lemma EffectKeepsLife(h: Shared, pc: Pc, choice: Choice)
    requires CellsOk(h, pc)
    ensures LifeStart(Effect(h, pc, choice).log) == LifeStart(h.log)
  {
    var h' := Effect(h, pc, choice);
    if h'.log != h.log {
      LifeGrows(h.log, h'.log[|h.log|]);
      assert h'.log == h.log + [h'.log[|h.log|]];
    }
  }

  lemma EffectKeepsCurrent(h: Shared, pc: Pc, choice: Choice, id: InvoiceId)
    requires CellsOk(h, pc) && ThreadCurrent(h, pc) && Current(h, id)
    ensures Current(Effect(h, pc, choice), id)
  {
    var h' := Effect(h, pc, choice);
    EffectKeepsLife(h, pc, choice);
    EffectExtends(h, pc, choice);
    if !IsPending(h'.rows[id].status) {
      if h'.rows[id].status == h.rows[id].status {
        var i :| 0 <= i < |h.terminals| && h.terminals[i].id == id && h.terminals[i].status == h.rows[id].status
                 && LifeStart(h.log) <= h.terminals[i].token;
        assert h'.terminals[i] == h.terminals[i];
      } else {
        assert h'.terminals[|h.terminals|].id == id;
      }
    }
  }

  /** The entry whose pointer the goroutine loads next, or whose invoice it marks. */
  function Loads(pc: Pc): Option<CellId> {
    match pc
    case Checking(c, _) => Some(c)
    case Confirming(c) => Some(c)
    case Marking(c, _, _) => Some(c)
    case _ => None
  }

  /** A goroutine goes on with the invoice it holds, or with that of the entry it loads. */
  lemma NextHoldsKnown(h: Shared, pc: Pc, choice: Choice)
    requires TablesOk(h) && CellsOk(h, pc) && Holds(Next(h, pc, choice)).Some?
    ensures Holds(Next(h, pc, choice)) == Holds(pc)
         || (Loads(pc).Some? && Holds(Next(h, pc, choice)) == Some(h.cells[Loads(pc).value].inv.id))
  {
  }

  lemma NextHoldsCurrent(h: Shared, pc: Pc, choice: Choice)
    requires TablesOk(h) && ThreadOk(h, pc) && CellsCurrent(h) && ThreadCurrent(h, pc)
    requires Holds(Next(h, pc, choice)).Some?
    ensures Current(h, Holds(Next(h, pc, choice)).value)
  {
    NextHoldsKnown(h, pc, choice);
    if Holds(Next(h, pc, choice)) != Holds(pc) {
      assert Current(h, h.cells[Loads(pc).value].inv.id);
    }
  }

  lemma NextLicenseCurrent(h: Shared, pc: Pc, choice: Choice)
    requires CellsOk(h, pc) && ThreadCurrent(h, pc) && License(Next(h, pc, choice)).Some?
    ensures LifeStart(h.log) <= License(Next(h, pc, choice)).value.0
  {
  }

  lemma NextHolds(h: Shared, pc: Pc, choice: Choice)
    requires TablesOk(h) && ThreadOk(h, pc) && CellsCurrent(h) && ThreadCurrent(h, pc)
    ensures ThreadCurrent(Effect(h, pc, choice), Next(h, pc, choice))
  {
    var next := Next(h, pc, choice);
    EffectKeepsLife(h, pc, choice);
    if Holds(next).Some? {
      NextHoldsCurrent(h, pc, choice);
      EffectKeepsCurrent(h, pc, choice, Holds(next).value);
    }
    if License(next).Some? {
      NextLicenseCurrent(h, pc, choice);
    }
  }

  lemma StartedCurrent(h: Shared, pc: Pc, choice: Choice)
    requires CellsOk(h, pc) && ThreadCurrent(h, pc) && pc.Storing?
    ensures ThreadCurrent(Effect(h, pc, choice), Started(h, pc)[0])
  {
    EffectKeepsCurrent(h, pc, choice, pc.inv.id);
  }

  lemma OtherThreadCurrent(h: Shared, pc: Pc, choice: Choice, other: Pc)
    requires CellsOk(h, pc) && ThreadCurrent(h, pc) && ThreadCurrent(h, other)
    ensures ThreadCurrent(Effect(h, pc, choice), other)
  {
    EffectKeepsLife(h, pc, choice);
    if Holds(other).Some? {
      EffectKeepsCurrent(h, pc, choice, Holds(other).value);
    }
  }

  lemma EffectKeepsCells(h: Shared, pc: Pc, choice: Choice)
    requires TablesOk(h) && ThreadOk(h, pc) && CellsCurrent(h) && ThreadCurrent(h, pc)
    ensures CellsCurrent(Effect(h, pc, choice))
  {
    var h' := Effect(h, pc, choice);
    forall c | 0 <= c < |h'.cells|
      ensures Current(h', h'.cells[c].inv.id)
    {
      if c < |h.cells| {
        assert h'.cells[c].inv.id == h.cells[c].inv.id;
        EffectKeepsCurrent(h, pc, choice, h.cells[c].inv.id);
      } else {
        EffectKeepsCurrent(h, pc, choice, pc.inv.id);
      }
    }
  }

  lemma RunKeepsCurrent(s: State, tid: nat, choice: Choice)
    requires WellFormed(s) && AllCurrent(s) && Enabled(s, Run(tid, choice))
    ensures AllCurrent(Apply(s, Run(tid, choice)))
  {
    var s' := Apply(s, Run(tid, choice));
    var h, pc := s.shared, s.threads[tid];
    EffectKeepsCells(h, pc, choice);
    NextHolds(h, pc, choice);
    if pc.Storing? {
      StartedCurrent(h, pc, choice);
    }
    forall t | 0 <= t < |s'.threads|
      ensures ThreadCurrent(s'.shared, s'.threads[t])
    {
      if t < |s.threads| && t != tid {
        OtherThreadCurrent(h, pc, choice, s.threads[t]);
      }
    }
  }

  lemma OtherKeepsCurrent(h: Shared, h': Shared, id: InvoiceId)
    requires Current(h, id) && id in h'.rows && h'.rows[id].status == h.rows[id].status
    requires h'.terminals == h.terminals && h'.log == h.log
    ensures Current(h', id)
  {
  }

  lemma ApplyKeepsCurrent(s: State, step: Step)
    requires WellFormed(s) && AllCurrent(s) && Enabled(s, step)
    ensures AllCurrent(Apply(s, step))
  {
    if step.Run? {
      RunKeepsCurrent(s, step.tid, step.choice);
    } else if !step.Crash? {
      var s' := Apply(s, step);
      forall c | 0 <= c < |s'.shared.cells|
        ensures Current(s'.shared, s'.shared.cells[c].inv.id)
      {
        OtherKeepsCurrent(s.shared, s'.shared, s.shared.cells[c].inv.id);
      }
      forall t | 0 <= t < |s'.threads|
        ensures ThreadCurrent(s'.shared, s'.threads[t])
      {
        if t < |s.threads| {
          assert ThreadCurrent(s.shared, s.threads[t]);
          if Holds(s.threads[t]).Some? {
            OtherKeepsCurrent(s.shared, s'.shared, Holds(s.threads[t]).value);
          }
        }
      }
    }
  }

  lemma {:induction false} RunCurrent(steps: seq<Step>)
    requires Exec(steps).Some?
    ensures AllCurrent(Exec(steps).value)
    decreases |steps|
  {
    if steps != [] {
      var n := |steps| - 1;
      RunAccounted(steps[..n]);
      RunCurrent(steps[..n]);
      ApplyKeepsCurrent(Exec(steps[..n]).value, steps[n]);
    }
  }

  // ----- Stores of one life -----

  function PositionsSince(log: seq<MapOp>, from: nat, op: MapOp): set<nat> {
    set k: nat | from <= k < |log| && log[k] == op
  }

  /** Two removals of an address in one life need two stores in that life. */
  lemma TwoRemovalsTwoStores(log: seq<MapOp>, p: nat, q: nat, a: Slot)
    requires LogOk(log) && LifeStart(log) <= p < q < |log| && log[p] == log[q] == Removed(a)
    ensures |PositionsSince(log, LifeStart(log), Stored(a))| >= 2
  {
    var n := LifeStart(log);
    var upto := log[..p];
    NothingLiveAtStart(log, a);
    assert upto[..n] == log[..n] && Live(upto, a);
    StoredSince(upto, n, a);
    var j :| n <= j < p && upto[j] == Stored(a);
    StoreBetweenRemovals(log, p, q, a);
    var k :| p < k < q && log[k] == Stored(a);
    assert log[j] == Stored(a);
    Sums.SubsetSize({j, k}, PositionsSince(log, n, Stored(a)));
  }
}

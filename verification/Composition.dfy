/** Every run of atomic steps is a run of the interleaved machine: from related states each step of the system is a few
    steps of the machine that lead to related states again. */
module Composition {
  import opened Domain
  import opened Interleaving
  import opened Refinement
  import opened Goroutines
  import L = Lifecycle
  import I = Invariants
  import S = PaymentSystem
  import Claims
  import Frames
  import Recovery
  import Registrations
  import Settlement
  import Sums

  // ----- Related states -----

  /** The invoice is tracked at the slot. */
  predicate HasEntry(h: Shared, x: Slot, id: InvoiceId) {
    x in h.tracked && h.tracked[x] < |h.cells| && h.cells[h.tracked[x]].inv.id == id
  }

  /** The goroutine is the timer of the invoice: it waits under the context of the entry that was stored with it. */
  predicate TimerRuns(t: State, tid: nat, b: BaseCoin, id: InvoiceId, timer: L.Timer) {
    && tid < |t.threads| && t.threads[tid].Waiting?
    && var (c, x) := (t.threads[tid].cell, t.threads[tid].slot);
       && t.threads[tid].id == id && x == At(b, timer.address)
       && c < |t.shared.cells| && t.shared.cells[c].inv.id == id && t.shared.cells[c].cancelled == timer.cancelled
       && (HasEntry(t.shared, x, id) ==> t.shared.tracked[x] == c)
  }

  ghost predicate TimersRun(t: State, b: BaseCoin, timers: map<InvoiceId, L.Timer>) {
    forall id :: id in timers ==> exists tid: nat :: TimerRuns(t, tid, b, id, timers[id])
  }

  /** The goroutines and the map of one processor are what its memory says. */
  ghost predicate MemoryRelated(t: State, b: BaseCoin, m: L.Memory) {
    && EntriesAgree(t.shared, b, m.pending)
    && TimersRun(t, b, m.timers)
    && Releasings(t.threads, b) == m.releases
  }

  ghost predicate Related(s: S.System, t: State) {
    && WellFormed(t)
    && t.shared.rows == s.db.invoices && t.shared.seen == s.seen
    && forall b :: MemoryRelated(t, b, S.Mem(s, b))
  }

  /** The run of the machine leads to a state related to this one. */
  ghost predicate Reaches(all: seq<Step>, s: S.System) {
    Exec(all).Some? && ExactRun(all) && Related(s, Exec(all).value)
  }

  // ----- What stays related when a goroutine moves -----

  /** One goroutine moved, in the frame of the processor of b and the entry c. */
  ghost predicate Moved(t: State, t': State, tid: nat, b: BaseCoin, c: Option<CellId>) {
    && tid < |t.threads| == |t'.threads| && t'.threads == t.threads[tid := t'.threads[tid]]
    && Frame(t.shared, t'.shared, b, c)
  }

  lemma TimerPersists(t: State, t': State, moved: nat, b: BaseCoin, c: Option<CellId>, tid: nat, x: BaseCoin,
                      id: InvoiceId, timer: L.Timer)
    requires Moved(t, t', moved, b, c) && TimerRuns(t, tid, x, id, timer) && tid != moved
    requires var k := t.threads[tid].cell; t'.shared.cells[k].cancelled == t.shared.cells[k].cancelled
    ensures TimerRuns(t', tid, x, id, timer)
  {
    TimerMoves(t, t', moved, b, c, tid, x, id, timer, timer);
  }

  /** A timer whose context may have been cancelled. */
  lemma TimerMoves(t: State, t': State, moved: nat, b: BaseCoin, c: Option<CellId>, tid: nat, x: BaseCoin,
                   id: InvoiceId, timer: L.Timer, timer': L.Timer)
    requires Moved(t, t', moved, b, c) && TimerRuns(t, tid, x, id, timer) && tid != moved
    requires timer'.address == timer.address && t'.shared.cells[t.threads[tid].cell].cancelled == timer'.cancelled
    ensures TimerRuns(t', tid, x, id, timer')
  {
    var k, slot := t.threads[tid].cell, t.threads[tid].slot;
    assert CellKept(t.shared, t'.shared, b, c, k) && EntryKept(t.shared, t'.shared, b, slot);
    if slot in t'.shared.tracked && t'.shared.tracked[slot] < |t.shared.cells| {
      assert CellKept(t.shared, t'.shared, b, c, t'.shared.tracked[slot]);
    }
  }

  lemma OtherEntriesAgree(h: Shared, h': Shared, b: BaseCoin, c: Option<CellId>, x: BaseCoin,
                          pending: map<Address, Invoice>)
    requires TablesOk(h) && Frame(h, h', b, c) && EntriesAgree(h, x, pending) && x != b
    ensures EntriesAgree(h', x, pending)
  {
    forall a
      ensures a in pending <==> At(x, a) in h'.tracked
      ensures a in pending ==> h'.tracked[At(x, a)] < |h'.cells| && h'.cells[h'.tracked[At(x, a)]].inv == pending[a]
    {
      assert EntryKept(h, h', b, At(x, a));
      if a in pending {
        assert SlotOf(h.cells[h.tracked[At(x, a)]].inv) == At(x, a);
        assert CellKept(h, h', b, c, h.tracked[At(x, a)]);
      }
    }
  }

  lemma OtherTimersRun(t: State, t': State, moved: nat, b: BaseCoin, c: Option<CellId>, x: BaseCoin,
                       timers: map<InvoiceId, L.Timer>)
    requires WellFormed(t) && Moved(t, t', moved, b, c) && TimersRun(t, x, timers) && x != b
    requires c.Some? ==> CellOfBase(t.shared, c.value, b)
    requires Works(t.shared, t.threads[moved], b)
    ensures TimersRun(t', x, timers)
  {
    forall id | id in timers
      ensures exists tid: nat :: TimerRuns(t', tid, x, id, timers[id])
    {
      var tid: nat :| TimerRuns(t, tid, x, id, timers[id]);
      assert ThreadOk(t.shared, t.threads[tid]);
      assert CellKept(t.shared, t'.shared, b, c, t.threads[tid].cell);
      TimerPersists(t, t', moved, b, c, tid, x, id, timers[id]);
    }
  }

  lemma SameReleasings(threads: seq<Pc>, tid: nat, pc: Pc, b: BaseCoin)
    requires tid < |threads| && ReleaseOf(threads[tid], b) == ReleaseOf(pc, b)
    ensures Releasings(threads[tid := pc], b) == Releasings(threads, b)
  {
    ReleasingsMove(threads, tid, pc, b);
    var x, y, z := Releasings(threads[tid := pc], b), Releasings(threads, b), ReleaseOf(pc, b);
    assert x == (x + z) - z && y == (y + z) - z;
  }

  /** Another processor's memory stays related. */
  lemma OtherRelated(t: State, t': State, moved: nat, b: BaseCoin, c: Option<CellId>, x: BaseCoin, m: L.Memory)
    requires WellFormed(t) && Moved(t, t', moved, b, c) && MemoryRelated(t, x, m) && x != b
    requires c.Some? ==> CellOfBase(t.shared, c.value, b)
    requires Works(t.shared, t.threads[moved], b) && ReleaseOf(t'.threads[moved], x) == multiset{}
    ensures MemoryRelated(t', x, m)
  {
    OtherEntriesAgree(t.shared, t'.shared, b, c, x, m.pending);
    OtherTimersRun(t, t', moved, b, c, x, m.timers);
    SameReleasings(t.threads, moved, t'.threads[moved], x);
  }

  // ----- The processor's own memory -----

  /** Timers that stay, when no context was cancelled. */
  lemma TimersKept(t: State, t': State, moved: nat, b: BaseCoin, c: Option<CellId>, timers: map<InvoiceId, L.Timer>,
                   timers': map<InvoiceId, L.Timer>)
    requires Moved(t, t', moved, b, c) && TimersRun(t, b, timers)
    requires forall id :: id in timers' ==> id in timers && timers'[id] == timers[id]
    requires t.threads[moved].Waiting? ==> t.threads[moved].id !in timers'
    requires c.Some? && c.value < |t.shared.cells| ==>
               t'.shared.cells[c.value].cancelled == t.shared.cells[c.value].cancelled
    ensures TimersRun(t', b, timers')
  {
    forall id | id in timers'
      ensures exists tid: nat :: TimerRuns(t', tid, b, id, timers'[id])
    {
      var tid: nat :| TimerRuns(t, tid, b, id, timers[id]);
      assert CellKept(t.shared, t'.shared, b, c, t.threads[tid].cell);
      TimerPersists(t, t', moved, b, c, tid, b, id, timers[id]);
    }
  }

  /** Cancelling the context of an entry cancels the timer of its invoice and no other. */
  lemma TimersCancelled(t: State, t': State, moved: nat, b: BaseCoin, a: Address, timers: map<InvoiceId, L.Timer>,
                        id: InvoiceId)
    requires At(b, a) in t.shared.tracked && HasEntry(t.shared, At(b, a), id)
    requires var c := t.shared.tracked[At(b, a)];
             Moved(t, t', moved, b, Some(c)) && t'.shared.cells[c].cancelled
    requires TimersRun(t, b, timers) && !t.threads[moved].Waiting? && (id in timers ==> timers[id].address == a)
    ensures TimersRun(t', b, L.Cancel(timers, id))
  {
    var c := t.shared.tracked[At(b, a)];
    var timers' := L.Cancel(timers, id);
    forall i | i in timers'
      ensures exists tid: nat :: TimerRuns(t', tid, b, i, timers'[i])
    {
      var tid: nat :| TimerRuns(t, tid, b, i, timers[i]);
      assert CellKept(t.shared, t'.shared, b, Some(c), t.threads[tid].cell);
      TimerMoves(t, t', moved, b, Some(c), tid, b, i, timers[i], timers'[i]);
    }
  }

  /** What the goroutine spawned. */
  lemma ReleasesSpawned(t: State, t': State, moved: nat, b: BaseCoin, c: Option<CellId>, l: L.Local, l': L.Local)
    requires Moved(t, t', moved, b, c) && Simulates(Some((t'.shared, t'.threads[moved])), b, l, l')
    requires Releasings(t.threads, b) == l.mem.releases && ReleaseOf(t.threads[moved], b) == multiset{}
    ensures Releasings(t'.threads, b) == l'.mem.releases
    ensures forall x :: x != b ==> ReleaseOf(t'.threads[moved], x) == multiset{}
  {
    var pc := t'.threads[moved];
    ReleasingsMove(t.threads, moved, pc, b);
    var r := Releasings(t.threads[moved := pc], b);
    assert r + multiset{} == r;
  }

  lemma OwnRelated(t: State, t': State, moved: nat, b: BaseCoin, c: Option<CellId>, l: L.Local, l': L.Local)
    requires MemoryRelated(t, b, l.mem) && Moved(t, t', moved, b, c) && ReleaseOf(t.threads[moved], b) == multiset{}
    requires Simulates(Some((t'.shared, t'.threads[moved])), b, l, l') && TimersRun(t', b, l'.mem.timers)
    ensures MemoryRelated(t', b, l'.mem) && t'.shared.rows == l'.db.invoices
    ensures forall x :: x != b ==> ReleaseOf(t'.threads[moved], x) == multiset{}
  {
    ReleasesSpawned(t, t', moved, b, c, l, l');
  }

  /** The system after the processor of b went on. */
  ghost function With(s: S.System, b: BaseCoin, l: L.Local): S.System {
    s.(db := l.db, procs := s.procs[b := l.mem])
  }

  lemma WithRelated(s: S.System, t': State, b: BaseCoin, l': L.Local)
    requires WellFormed(t') && t'.shared.rows == l'.db.invoices && t'.shared.seen == s.seen
    requires MemoryRelated(t', b, l'.mem) && forall x :: x != b ==> MemoryRelated(t', x, S.Mem(s, x))
    ensures Related(With(s, b, l'), t')
  {
    forall x
      ensures MemoryRelated(t', x, S.Mem(With(s, b, l'), x))
    {
      assert x != b ==> S.Mem(With(s, b, l'), x) == S.Mem(s, x);
    }
  }

  lemma OthersRelated(s: S.System, t: State, t': State, moved: nat, b: BaseCoin, c: Option<CellId>)
    requires Related(s, t) && Moved(t, t', moved, b, c) && (c.Some? ==> CellOfBase(t.shared, c.value, b))
    requires Works(t.shared, t.threads[moved], b)
    requires forall x :: x != b ==> ReleaseOf(t'.threads[moved], x) == multiset{}
    ensures forall x :: x != b ==> MemoryRelated(t', x, S.Mem(s, x))
  {
    forall x | x != b
      ensures MemoryRelated(t', x, S.Mem(s, x))
    {
      assert MemoryRelated(t, x, S.Mem(s, x));
      OtherRelated(t, t', moved, b, c, x, S.Mem(s, x));
    }
  }

  /** The whole system, after a goroutine of b that did what the handler does. */
  lemma GoroutineRelated(s: S.System, t: State, t': State, moved: nat, b: BaseCoin, c: Option<CellId>, l': L.Local)
    requires Related(s, t) && Moved(t, t', moved, b, c) && WellFormed(t')
    requires c.Some? ==> CellOfBase(t.shared, c.value, b)
    requires Works(t.shared, t.threads[moved], b) && ReleaseOf(t.threads[moved], b) == multiset{}
    requires Simulates(Some((t'.shared, t'.threads[moved])), b, S.At(s, b), l') && TimersRun(t', b, l'.mem.timers)
    ensures Related(With(s, b, l'), t')
  {
    assert MemoryRelated(t, b, S.Mem(s, b));
    OwnRelated(t, t', moved, b, c, S.At(s, b), l');
    OthersRelated(s, t, t', moved, b, c);
    WithRelated(s, t', b, l');
  }

  /** The map, the contexts and the timers are the same. */
  lemma TimersSame(t: State, t': State, x: BaseCoin, timers: map<InvoiceId, L.Timer>)
    requires TimersRun(t, x, timers) && t'.shared.cells == t.shared.cells && t'.shared.tracked == t.shared.tracked
    requires |t.threads| <= |t'.threads|
    requires forall k :: 0 <= k < |t.threads| && t.threads[k].Waiting? ==> t'.threads[k] == t.threads[k]
    ensures TimersRun(t', x, timers)
  {
    forall id | id in timers
      ensures exists k: nat :: TimerRuns(t', k, x, id, timers[id])
    {
      var k: nat :| TimerRuns(t, k, x, id, timers[id]);
      assert TimerRuns(t', k, x, id, timers[id]);
    }
  }

  /** A new goroutine that is no timer and no release. */
  lemma StartedRelated(s: S.System, t: State, pc: Pc)
    requires Related(s, t) && ThreadOk(t.shared, pc) && !pc.Waiting? && !pc.Releasing?
    ensures Related(s, State(t.shared, t.threads + [pc]))
  {
    var t' := State(t.shared, t.threads + [pc]);
    forall x
      ensures MemoryRelated(t', x, S.Mem(s, x))
    {
      var m := S.Mem(s, x);
      assert MemoryRelated(t, x, m);
      ReleasingsSnoc(t.threads, pc, x);
      TimersSame(t, t', x, m.timers);
    }
  }

  // ----- Checks of a tracked entry -----

  /** In a reachable state the timer of a tracked invoice is one of its address. */
  lemma EntryTimer(s: S.System, b: BaseCoin, a: Address)
    requires S.Consistent(s) && a in S.Mem(s, b).pending
    ensures var m := S.Mem(s, b);
            m.pending[a].id in m.timers ==> m.timers[m.pending[a].id].address == a
    ensures var e := S.Mem(s, b).pending[a];
            Home(e.coin) == Some(b) && e.address == a && (e.status == PENDING ==> e.txId.None?)
  {
    var m := S.Mem(s, b);
    assert I.MemOk(s.db, b, m);
    assert I.EntryOk(s.db, b, m, a) && I.RowOk(s.db, m.pending[a].id);
    assert m.pending[a].id in m.timers ==> I.TimerOk(s.db, b, m, m.pending[a].id);
  }

  /** A goroutine is handed the entry at a and runs alone. */
  lemma EntryTimersRun(s: S.System, t: State, t': State, tid: nat, b: BaseCoin, a: Address, l': L.Local)
    requires S.Consistent(s) && Related(s, t) && a in S.Mem(s, b).pending && At(b, a) in t.shared.tracked
    requires var c := t.shared.tracked[At(b, a)];
             && Moved(t, t', tid, b, Some(c)) && !t.threads[tid].Waiting?
             && CancelsAgree(t.shared, t'.shared, c, S.At(s, b), l', S.Mem(s, b).pending[a].id)
    ensures TimersRun(t', b, l'.mem.timers)
  {
    var m := S.Mem(s, b);
    var c := t.shared.tracked[At(b, a)];
    assert MemoryRelated(t, b, m);
    EntryTimer(s, b, a);
    if t'.shared.cells[c].cancelled == t.shared.cells[c].cancelled && l'.mem.timers == m.timers {
      TimersKept(t, t', tid, b, Some(c), m.timers, m.timers);
    } else {
      TimersCancelled(t, t', tid, b, a, m.timers, m.pending[a].id);
    }
  }

  lemma MachineWellFormed(all: seq<Step>)
    requires Exec(all).Some?
    ensures WellFormed(Exec(all).value)
  {
    Registrations.RunAccounted(all);
  }

  /** Alone the goroutine does to its processor what the handler does, and exactly. */
  ghost predicate Handles(h: Shared, pc: Pc, choices: seq<Choice>, b: BaseCoin, l: L.Local, l': L.Local,
                          id: InvoiceId)
  {
    var r := Alone(h, pc, choices);
    && Simulates(r, b, l, l') && AloneExact(h, pc, choices)
    && Entry(pc).Some? && CancelsAgree(h, r.value.0, Entry(pc).value, l, l', id)
  }

  lemma EntryRuns(all: seq<Step>, s: S.System, b: BaseCoin, a: Address, start: Step, pc: Pc, choices: seq<Choice>,
                  l': L.Local)
    returns (more: seq<Step>)
    requires Reaches(all, s) && S.Consistent(s) && a in S.Mem(s, b).pending && (pc.Checking? || pc.Confirming?)
    requires var t := Exec(all).value;
             && Enabled(t, start) && !start.Run? && Apply(t, start) == State(t.shared, t.threads + [pc])
             && At(b, a) in t.shared.tracked && Entry(pc) == Some(t.shared.tracked[At(b, a)])
    requires Handles(Exec(all).value.shared, pc, choices, b, S.At(s, b), l', S.Mem(s, b).pending[a].id)
    ensures Reaches(more, With(s, b, l'))
  {
    var t := Exec(all).value;
    var c, tid := Entry(pc).value, |t.threads|;
    var t0 := State(t.shared, t.threads + [pc]);
    Extend(all, t, start);
    MachineWellFormed(all + [start]);
    assert t0.threads[tid] == pc;
    StartedRelated(s, t, pc);
    LoneRun(all + [start], t0, tid, choices);
    more := all + [start] + Runs(tid, choices);
    MachineWellFormed(more);
    var t' := AfterAlone(t0, tid, choices);
    assert MemoryRelated(t, b, S.Mem(s, b)) && SlotOf(t.shared.cells[c].inv) == At(b, a);
    AloneFrame(t.shared, pc, choices, b);
    assert Moved(t0, t', tid, b, Some(c));
    EntryTimersRun(s, t0, t', tid, b, a, l');
    GoroutineRelated(s, t0, t', tid, b, Some(c), l');
  }

  lemma TracksEntry(s: S.System, t: State, b: BaseCoin, a: Address)
    requires Related(s, t) && a in S.Mem(s, b).pending
    ensures At(b, a) in t.shared.tracked && Agrees(t.shared, b, S.At(s, b))
  {
    assert MemoryRelated(t, b, S.Mem(s, b));
  }

  lemma CheckBlockRuns(all: seq<Step>, s: S.System, b: BaseCoin, a: Address, reply: L.Reply, sql: bool)
    returns (more: seq<Step>)
    requires Reaches(all, s) && S.Consistent(s) && a in S.Mem(s, b).pending
    ensures Reaches(more, With(s, b, L.Confirm(S.At(s, b), a, reply, sql)))
  {
    var t, l := Exec(all).value, S.At(s, b);
    TracksEntry(s, t, b, a);
    var choices := ConfirmHandles(t.shared, b, l, a, reply, sql);
    var pc := Confirming(t.shared.tracked[At(b, a)]);
    more := EntryRuns(all, s, b, a, RangeBlock(At(b, a)), pc, choices, L.Confirm(l, a, reply, sql));
  }

  lemma ConfirmHandles(h: Shared, b: BaseCoin, l: L.Local, a: Address, reply: L.Reply, sql: bool)
    returns (choices: seq<Choice>)
    requires Agrees(h, b, l) && a in l.mem.pending
    ensures Handles(h, Confirming(h.tracked[At(b, a)]), choices, b, l, L.Confirm(l, a, reply, sql), l.mem.pending[a].id)
  {
    choices := ConfirmSimulated(h, b, l, a, reply, sql);
    PastGuardExact(h, Confirming(h.tracked[At(b, a)]), choices);
  }

  /** The judgement of a check is exact, and nothing after it is judged. */
  lemma CheckIsExact(h: Shared, c: CellId, tx: TxId, judged: Choice, rest: seq<Choice>)
    requires c < |h.cells| && ExactChoice(h, Verifying(c, tx, h.cells[c].inv), judged)
    requires Alone(h, Checking(c, tx), [OK] + ([judged] + rest)).Some?
    ensures AloneExact(h, Checking(c, tx), [OK] + ([judged] + rest))
  {
    var choices := [OK] + ([judged] + rest);
    var pc := Verifying(c, tx, h.cells[c].inv);
    CheckingThen(h, c, tx, judged, rest);
    PastGuardExact(h, Next(h, pc, judged), rest);
    assert ([judged] + rest)[1..] == rest;
    assert AloneExact(h, pc, [judged] + rest);
    assert choices[1..] == [judged] + rest;
  }

  lemma CheckTxRuns(all: seq<Step>, s: S.System, b: BaseCoin, act: L.Act) returns (more: seq<Step>)
    requires Reaches(all, s) && S.Consistent(s) && act.DoCheckTx? && act.a in S.Mem(s, b).pending
    requires Settlement.VerdictOk(b, act, s.seen)
    ensures Reaches(more, With(s, b, L.Do(S.At(s, b), b, act)))
  {
    var t, l := Exec(all).value, S.At(s, b);
    TracksEntry(s, t, b, act.a);
    EntryTimer(s, b, act.a);
    var c := t.shared.tracked[At(b, act.a)];
    var choices := CheckTxHandles(t.shared, b, l, act);
    more := EntryRuns(all, s, b, act.a, RangeTx(At(b, act.a), act.tx), Checking(c, act.tx), choices, L.Do(l, b, act));
  }

  lemma CheckTxHandles(h: Shared, b: BaseCoin, l: L.Local, act: L.Act) returns (choices: seq<Choice>)
    requires Agrees(h, b, l) && act.DoCheckTx? && act.a in l.mem.pending && Settlement.VerdictOk(b, act, h.seen)
    requires var e := l.mem.pending[act.a];
             Home(e.coin) == Some(b) && e.address == act.a && (e.status == PENDING ==> e.txId.None?)
    ensures Handles(h, Checking(h.tracked[At(b, act.a)], act.tx), choices, b, l, L.Do(l, b, act),
                    l.mem.pending[act.a].id)
  {
    var rest := CheckTxSimulated(h, b, l, act.a, act.tx, act.verdict, act.markSql, act.reply, act.sql);
    var judged := Choice(act.verdict, L.Unreachable, true);
    choices := [OK] + ([judged] + rest);
    CheckIsExact(h, h.tracked[At(b, act.a)], act.tx, judged, rest);
  }

  // ----- Timers and releases -----

  /** An existing goroutine that touches no entry runs alone. */
  lemma TimerGoes(all: seq<Step>, s: S.System, b: BaseCoin, tid: nat, choices: seq<Choice>, l': L.Local)
    returns (more: seq<Step>)
    requires Reaches(all, s) && tid < |Exec(all).value.threads|
    requires var (h, pc) := (Exec(all).value.shared, Exec(all).value.threads[tid]);
             && pc.Waiting? && pc.slot.home == Some(b) && Simulates(Alone(h, pc, choices), b, S.At(s, b), l')
             && l'.mem.timers == S.Mem(s, b).timers - {pc.id}
    ensures Reaches(more, With(s, b, l'))
  {
    var t := Exec(all).value;
    var pc := t.threads[tid];
    PastGuardExact(t.shared, pc, choices);
    LoneRun(all, t, tid, choices);
    more := all + Runs(tid, choices);
    MachineWellFormed(more);
    var t' := AfterAlone(t, tid, choices);
    assert ThreadOk(t.shared, pc);
    AloneFrame(t.shared, pc, choices, b);
    assert Moved(t, t', tid, b, None);
    assert MemoryRelated(t, b, S.Mem(s, b));
    TimersKept(t, t', tid, b, None, S.Mem(s, b).timers, l'.mem.timers);
    GoroutineRelated(s, t, t', tid, b, None, l');
  }

  lemma FireRuns(all: seq<Step>, s: S.System, b: BaseCoin, id: InvoiceId, sql: bool) returns (more: seq<Step>)
    requires Reaches(all, s) && id in S.Mem(s, b).timers
    ensures Reaches(more, With(s, b, L.Fire(S.At(s, b), id, sql)))
  {
    var t, l := Exec(all).value, S.At(s, b);
    assert MemoryRelated(t, b, l.mem);
    var tid: nat :| TimerRuns(t, tid, b, id, l.mem.timers[id]);
    FireHandles(t, b, l, tid, id, sql);
    more := TimerGoes(all, s, b, tid, [OK] + ([OK] + [Sql(sql)]), L.Fire(l, id, sql));
  }

  lemma FireHandles(t: State, b: BaseCoin, l: L.Local, tid: nat, id: InvoiceId, sql: bool)
    requires Agrees(t.shared, b, l) && id in l.mem.timers && TimerRuns(t, tid, b, id, l.mem.timers[id])
    ensures Simulates(Alone(t.shared, t.threads[tid], [OK] + ([OK] + [Sql(sql)])), b, l, L.Fire(l, id, sql))
    ensures L.Fire(l, id, sql).mem.timers == l.mem.timers - {id}
  {
    FireSimulated(t.shared, b, l, t.threads[tid].cell, id, l.mem.timers[id].address, sql);
  }

  lemma TimerExitRuns(all: seq<Step>, s: S.System, b: BaseCoin, id: InvoiceId) returns (more: seq<Step>)
    requires Reaches(all, s) && id in S.Mem(s, b).timers && S.Mem(s, b).timers[id].cancelled
    ensures Reaches(more, With(s, b, L.TimerExit(S.At(s, b), id)))
  {
    var t, l := Exec(all).value, S.At(s, b);
    assert MemoryRelated(t, b, l.mem);
    var tid: nat :| TimerRuns(t, tid, b, id, l.mem.timers[id]);
    AloneOne(t.shared, t.threads[tid], Sql(false));
    more := TimerGoes(all, s, b, tid, [Sql(false)], L.TimerExit(l, id));
  }

  lemma ReleaseGone(threads: seq<Pc>, tid: nat, b: BaseCoin, a: Address)
    requires tid < |threads| && threads[tid].Releasing? && threads[tid].slot == At(b, a)
    ensures Releasings(threads[tid := Done], b) == Releasings(threads, b) - multiset{a}
  {
    ReleasingsMove(threads, tid, Done, b);
    var r, before := Releasings(threads[tid := Done], b), Releasings(threads, b);
    assert r + multiset{a} == before + multiset{};
    assert r == (r + multiset{a}) - multiset{a};
  }

  lemma OwnRelease(t: State, t': State, tid: nat, b: BaseCoin, a: Address, l: L.Local, sql: bool)
    requires MemoryRelated(t, b, l.mem) && Moved(t, t', tid, b, None)
    requires t.threads[tid].Releasing? && t.threads[tid].slot == At(b, a) && t'.threads[tid].Done?
    requires t'.shared.cells == t.shared.cells && t'.shared.tracked == t.shared.tracked
    ensures MemoryRelated(t', b, L.RunRelease(l, a, sql).mem)
  {
    TimersKept(t, t', tid, b, None, l.mem.timers, l.mem.timers);
    ReleaseGone(t.threads, tid, b, a);
  }

  lemma ReleaseRelated(s: S.System, t: State, t': State, tid: nat, b: BaseCoin, a: Address, sql: bool)
    requires Related(s, t) && WellFormed(t') && Moved(t, t', tid, b, None)
    requires t.threads[tid].Releasing? && t.threads[tid].slot == At(b, a) && t'.threads[tid].Done?
    requires t'.shared.rows == t.shared.rows && t'.shared.cells == t.shared.cells
    requires t'.shared.tracked == t.shared.tracked
    ensures Related(With(s, b, L.RunRelease(S.At(s, b), a, sql)), t')
  {
    var l' := L.RunRelease(S.At(s, b), a, sql);
    assert MemoryRelated(t, b, S.Mem(s, b));
    OwnRelease(t, t', tid, b, a, S.At(s, b), sql);
    OthersRelated(s, t, t', tid, b, None);
    WithRelated(s, t', b, l');
  }

  lemma ReleaseRuns(all: seq<Step>, s: S.System, b: BaseCoin, a: Address, sql: bool) returns (more: seq<Step>)
    requires Reaches(all, s) && a in S.Mem(s, b).releases
    ensures Reaches(more, With(s, b, L.RunRelease(S.At(s, b), a, sql)))
  {
    var t := Exec(all).value;
    assert MemoryRelated(t, b, S.Mem(s, b));
    var tid := FindRelease(t.threads, b, a);
    var pc := t.threads[tid];
    LoneStep(all, t, tid, Sql(sql));
    more := all + [Run(tid, Sql(sql))];
    MachineWellFormed(more);
    EffectFrame(t.shared, pc, Sql(sql), b);
    var t' := Exec(more).value;
    assert Moved(t, t', tid, b, None);
    ReleaseRelated(s, t, t', tid, b, a, sql);
  }

  // ----- Registrations -----

  /** The goroutine has registered the invoice under the next cell and started its timer. */
  function Registered(t: State, tid: nat, inv: Invoice): State
    requires tid < |t.threads|
  {
    State(Effect(t.shared, Storing(inv), OK),
          t.threads[tid := Done] + [Waiting(|t.shared.cells|, inv.id, SlotOf(inv))])
  }

  lemma TimersStay(t: State, tid: nat, inv: Invoice, x: BaseCoin, timers: map<InvoiceId, L.Timer>)
    requires TablesOk(t.shared) && tid < |t.threads| && !t.threads[tid].Waiting? && TimersRun(t, x, timers)
    requires Home(inv.coin) == Some(x) ==> inv.id !in timers
    ensures TimersRun(Registered(t, tid, inv), x, timers)
  {
    var t' := Registered(t, tid, inv);
    forall id | id in timers
      ensures exists k: nat :: TimerRuns(t', k, x, id, timers[id])
    {
      var k: nat :| TimerRuns(t, k, x, id, timers[id]);
      assert TimerRuns(t', k, x, id, timers[id]);
    }
  }

  lemma NewTimerRuns(t: State, tid: nat, inv: Invoice, b: BaseCoin, timers: map<InvoiceId, L.Timer>)
    requires tid < |t.threads| && TimersRun(Registered(t, tid, inv), b, timers) && Home(inv.coin) == Some(b)
    ensures TimersRun(Registered(t, tid, inv), b, timers[inv.id := L.Timer(inv.address, false)])
  {
    var t' := Registered(t, tid, inv);
    var timers' := timers[inv.id := L.Timer(inv.address, false)];
    assert TimerRuns(t', |t.threads|, b, inv.id, timers'[inv.id]);
  }

  lemma OtherEntriesStay(h: Shared, inv: Invoice, x: BaseCoin, pending: map<Address, Invoice>)
    requires EntriesAgree(h, x, pending) && Home(inv.coin) != Some(x)
    ensures EntriesAgree(Effect(h, Storing(inv), OK), x, pending)
  {
  }

  lemma RegisteredReleasings(t: State, tid: nat, inv: Invoice, x: BaseCoin)
    requires tid < |t.threads| && !t.threads[tid].Releasing?
    ensures Releasings(Registered(t, tid, inv).threads, x) == Releasings(t.threads, x)
  {
    SameReleasings(t.threads, tid, Done, x);
    ReleasingsSnoc(t.threads[tid := Done], Waiting(|t.shared.cells|, inv.id, SlotOf(inv)), x);
  }

  lemma RegisteredRelated(s: S.System, t: State, tid: nat, b: BaseCoin, inv: Invoice)
    requires Related(s, t) && tid < |t.threads| && t.threads[tid].Registering? && WellFormed(Registered(t, tid, inv))
    requires Known(t.shared, inv) && Home(inv.coin) == Some(b) && inv.id !in S.Mem(s, b).timers
    requires inv.address !in S.Mem(s, b).pending
    ensures Related(With(s, b, L.Local(s.db, L.Register(S.Mem(s, b), inv))), Registered(t, tid, inv))
  {
    var t' := Registered(t, tid, inv);
    var m := S.Mem(s, b);
    assert MemoryRelated(t, b, m);
    StoreAgrees(t.shared, b, m.pending, inv);
    TimersStay(t, tid, inv, b, m.timers);
    NewTimerRuns(t, tid, inv, b, m.timers);
    RegisteredReleasings(t, tid, inv, b);
    forall x | x != b
      ensures MemoryRelated(t', x, S.Mem(s, x))
    {
      assert MemoryRelated(t, x, S.Mem(s, x));
      OtherEntriesStay(t.shared, inv, x, S.Mem(s, x).pending);
      TimersStay(t, tid, inv, x, S.Mem(s, x).timers);
      RegisteredReleasings(t, tid, inv, x);
    }
    WithRelated(s, t', b, L.Local(s.db, L.Register(m, inv)));
  }

  /** A goroutine of handleInvoice runs alone. */
  lemma RegisterRuns(all: seq<Step>, s: S.System, b: BaseCoin, inv: Invoice) returns (more: seq<Step>)
    requires Reaches(all, s) && Home(inv.coin) == Some(b) && inv.id !in S.Mem(s, b).timers
    requires var t := Exec(all).value; t.threads != [] && t.threads[|t.threads| - 1] == Registering(inv)
    ensures Reaches(more, With(s, b, L.Local(s.db, L.Register(S.Mem(s, b), inv))))
  {
    var t := Exec(all).value;
    var tid := |t.threads| - 1;
    assert ThreadOk(t.shared, t.threads[tid]) && MemoryRelated(t, b, S.Mem(s, b)) && SlotOf(inv) == At(b, inv.address);
    LoneRegister(all, t, tid, inv);
    if inv.address in S.Mem(s, b).pending {
      more := all + [Run(tid, OK)];
      MachineWellFormed(more);
      IdleRelated(s, t, Exec(more).value, tid, b);
    } else {
      more := all + [Run(tid, OK)] + [Run(tid, OK)];
      MachineWellFormed(more);
      RegisteredRelated(s, t, tid, b, inv);
    }
  }

  /** Its operations: Load and, if the slot is free, Store. */
  lemma LoneRegister(all: seq<Step>, t: State, tid: nat, inv: Invoice)
    requires Exec(all) == Some(t) && ExactRun(all) && tid < |t.threads| && t.threads[tid] == Registering(inv)
    ensures SlotOf(inv) in t.shared.tracked ==>
              && Exec(all + [Run(tid, OK)]) == Some(State(t.shared, t.threads[tid := Done]))
              && ExactRun(all + [Run(tid, OK)])
    ensures SlotOf(inv) !in t.shared.tracked ==>
              && Exec(all + [Run(tid, OK)] + [Run(tid, OK)]) == Some(Registered(t, tid, inv))
              && ExactRun(all + [Run(tid, OK)] + [Run(tid, OK)])
  {
    LoneStep(all, t, tid, OK);
    if SlotOf(inv) !in t.shared.tracked {
      var t1 := State(t.shared, t.threads[tid := Storing(inv)]);
      Extend(all + [Run(tid, OK)], t1, Run(tid, OK));
      assert t1.threads[tid := Done] == t.threads[tid := Done];
    }
  }

  /** It found its address tracked and is done. */
  lemma IdleRelated(s: S.System, t: State, t': State, tid: nat, b: BaseCoin)
    requires Related(s, t) && tid < |t.threads| && t.threads[tid].Registering?
    requires t' == State(t.shared, t.threads[tid := Done]) && WellFormed(t')
    ensures Related(With(s, b, S.At(s, b)), t')
  {
    forall x
      ensures MemoryRelated(t', x, S.Mem(s, x))
    {
      var m := S.Mem(s, x);
      assert MemoryRelated(t, x, m);
      SameReleasings(t.threads, tid, Done, x);
      TimersSame(t, t', x, m.timers);
    }
    WithRelated(s, t', b, S.At(s, b));
  }

  // ----- Creations -----

  /** Steps that leave the goroutines and the map alone. */
  lemma SameMapRelated(s: S.System, t: State, db: L.Db, t': State)
    requires Related(s, t) && WellFormed(t') && t'.threads == t.threads
    requires t'.shared.cells == t.shared.cells && t'.shared.tracked == t.shared.tracked
    requires t'.shared.rows == db.invoices && t'.shared.seen == s.seen
    ensures Related(s.(db := db), t')
  {
    forall x
      ensures MemoryRelated(t', x, S.Mem(s.(db := db), x))
    {
      assert MemoryRelated(t, x, S.Mem(s, x));
      TimersSame(t, t', x, S.Mem(s, x).timers);
    }
  }

  lemma CreateRuns(all: seq<Step>, s: S.System, b: BaseCoin, act: L.Act) returns (more: seq<Step>)
    requires Reaches(all, s) && S.Consistent(s) && act.DoCreate? && L.ActEnabled(S.At(s, b), act)
    ensures Reaches(more, With(s, b, L.Do(S.At(s, b), b, act)))
  {
    var l := S.At(s, b);
    var l' := L.Do(l, b, act);
    if Claims.Allocated(l, b, act).Some? {
      Created(s, b, act);
      more := NewRowRuns(all, s, b, l'.db, l'.db.invoices[act.id]);
      assert With(s, b, L.Local(l'.db, L.Register(l.mem, l'.db.invoices[act.id]))) == With(s, b, l');
    } else {
      more := all;
      NothingRelated(s, Exec(all).value, b);
    }
  }

  /** The row is inserted, and handleInvoice registers it. */
  lemma NewRowRuns(all: seq<Step>, s: S.System, b: BaseCoin, db: L.Db, inv: Invoice) returns (more: seq<Step>)
    requires Reaches(all, s) && inv.id !in s.db.invoices && db.invoices == s.db.invoices[inv.id := inv]
    requires inv.status == PENDING && inv.txId.None? && inv.actual.None? && Home(inv.coin) == Some(b)
    requires inv.id !in S.Mem(s, b).timers
    ensures Reaches(more, With(s, b, L.Local(db, L.Register(S.Mem(s, b), inv))))
  {
    var t := Exec(all).value;
    Extend(all, t, Insert(inv));
    MachineWellFormed(all + [Insert(inv)]);
    InsertRelated(s, t, inv, db);
    var s1 := s.(db := db);
    assert S.Mem(s1, b) == S.Mem(s, b);
    more := RegisterRuns(all + [Insert(inv)], s1, b, inv);
    var l' := L.Local(db, L.Register(S.Mem(s, b), inv));
    assert With(s1, b, l') == With(s, b, l');
  }

  /** What a successful creation adds. */
  lemma Created(s: S.System, b: BaseCoin, act: L.Act)
    requires S.Consistent(s) && act.DoCreate? && L.ActEnabled(S.At(s, b), act)
    requires Claims.Allocated(S.At(s, b), b, act).Some?
    ensures var l' := L.Do(S.At(s, b), b, act);
            && act.id in l'.db.invoices && act.id !in s.db.invoices
            && var inv := l'.db.invoices[act.id];
               && l'.db.invoices == s.db.invoices[act.id := inv] && l'.mem == L.Register(S.Mem(s, b), inv)
               && inv.id == act.id && Home(inv.coin) == Some(b)
               && inv.status == PENDING && inv.txId.None? && inv.actual.None?
    ensures act.id !in S.Mem(s, b).timers
  {
    assert I.MemOk(s.db, b, S.Mem(s, b));
    assert act.id in S.Mem(s, b).timers ==> I.TimerOk(s.db, b, S.Mem(s, b), act.id);
  }

  lemma InsertRelated(s: S.System, t: State, inv: Invoice, db: L.Db)
    requires Related(s, t) && Enabled(t, Insert(inv)) && WellFormed(Apply(t, Insert(inv)))
    requires db.invoices == s.db.invoices[inv.id := inv]
    ensures Related(s.(db := db), Apply(t, Insert(inv)))
  {
    var t1 := State(Apply(t, Insert(inv)).shared, t.threads);
    assert WellFormed(t1) by {
      forall k | 0 <= k < |t.threads|
        ensures ThreadOk(t1.shared, t.threads[k])
      {
        assert Apply(t, Insert(inv)).threads[k] == t.threads[k];
      }
    }
    SameMapRelated(s, t, db, t1);
    StartedRelated(s.(db := db), t1, Registering(inv));
  }

  lemma NothingRelated(s: S.System, t: State, b: BaseCoin)
    requires Related(s, t)
    ensures Related(With(s, b, S.At(s, b)), t)
  {
    WithRelated(s, t, b, S.At(s, b));
  }

  // ----- Steps of a processor -----

  lemma HandleRuns(all: seq<Step>, s: S.System, b: BaseCoin, act: L.Act) returns (more: seq<Step>)
    requires Reaches(all, s) && S.Consistent(s) && S.Enabled(s, S.Handle(b, act))
    ensures Reaches(more, S.Apply(s, S.Handle(b, act)))
  {
    match act
    case DoCreate(_, _, _, _) => more := CreateRuns(all, s, b, act);
    case DoCheckTx(_, _, _, _, _, _) => more := CheckTxRuns(all, s, b, act);
    case DoCheckBlock(a, reply, sql) => more := CheckBlockRuns(all, s, b, a, reply, sql);
    case DoFire(id, sql) => more := FireRuns(all, s, b, id, sql);
    case DoTimerExit(id) => more := TimerExitRuns(all, s, b, id);
    case DoRelease(a, sql) => more := ReleaseRuns(all, s, b, a, sql);
  }

  // ----- Restarts -----

  /** The system while the rows are loaded: the first k of them so far. */
  ghost function Loading(s: S.System, now: int, live: set<BaseCoin>, rows: seq<Invoice>, k: nat): S.System
    requires k <= |rows|
  {
    s.(db := L.Shift(s.db, now), procs := map b | b in live :: L.Load(b, rows[..k]))
  }

  /** The crash and the UPDATE of the deadlines. */
  lemma CrashRuns(all: seq<Step>, s: S.System, now: int, live: set<BaseCoin>, rows: seq<Invoice>)
    returns (more: seq<Step>)
    requires Reaches(all, s)
    ensures Reaches(more, Loading(s, now, live, rows, 0))
  {
    var t := Exec(all).value;
    Extend(all, t, Crash);
    var t1 := Apply(t, Crash);
    Extend(all + [Crash], t1, Shift(now));
    more := all + [Crash] + [Shift(now)];
    MachineWellFormed(more);
    var s', t' := Loading(s, now, live, rows, 0), Apply(t1, Shift(now));
    forall x
      ensures MemoryRelated(t', x, S.Mem(s', x))
    {
      assert rows[..0] == [] && S.Mem(s', x) == L.NO_MEMORY;
    }
  }

  /** One row, for its processor if that is up. */
  lemma LoadsOne(s: S.System, now: int, live: set<BaseCoin>, rows: seq<Invoice>, k: nat)
    requires k < |rows|
    ensures var s1, s2 := Loading(s, now, live, rows, k), Loading(s, now, live, rows, k + 1);
            var home := Home(rows[k].coin);
            if home.Some? && home.value in live then
              s2 == With(s1, home.value, L.Local(s1.db, L.Register(S.Mem(s1, home.value), rows[k])))
            else s2 == s1
  {
    assert rows[..k + 1][..k] == rows[..k];
    var s1, s2 := Loading(s, now, live, rows, k), Loading(s, now, live, rows, k + 1);
    forall b | b in live
      ensures L.Load(b, rows[..k + 1])
           == if Home(rows[k].coin) == Some(b) then L.Register(L.Load(b, rows[..k]), rows[k]) else L.Load(b, rows[..k])
    {
    }
    var home := Home(rows[k].coin);
    if home.Some? && home.value in live {
      assert s2.procs == s1.procs[home.value := L.Register(S.Mem(s1, home.value), rows[k])];
    } else {
      assert s2.procs == s1.procs;
    }
  }

  lemma RowRuns(all: seq<Step>, s: S.System, now: int, live: set<BaseCoin>, rows: seq<Invoice>, k: nat)
    returns (more: seq<Step>)
    requires k < |rows| && Reaches(all, Loading(s, now, live, rows, k)) && Frames.Lists(L.Shift(s.db, now), rows)
    ensures Reaches(more, Loading(s, now, live, rows, k + 1))
  {
    var t, s1 := Exec(all).value, Loading(s, now, live, rows, k);
    var home := Home(rows[k].coin);
    LoadsOne(s, now, live, rows, k);
    if home.Some? && home.value in live {
      assert rows[k].id in t.shared.rows && t.shared.rows[rows[k].id] == rows[k];
      Extend(all, t, Reload(rows[k].id));
      MachineWellFormed(all + [Reload(rows[k].id)]);
      var t1 := Exec(all + [Reload(rows[k].id)]).value;
      assert t1.threads[|t.threads|] == Registering(rows[k]);
      StartedRelated(s1, t, Registering(rows[k]));
      Recovery.FirstTimer(home.value, rows, k);
      more := RegisterRuns(all + [Reload(rows[k].id)], s1, home.value, rows[k]);
    } else {
      more := all;
    }
  }

  lemma {:induction false} RowsRun(all: seq<Step>, s: S.System, now: int, live: set<BaseCoin>, rows: seq<Invoice>,
                                   k: nat)
    returns (more: seq<Step>)
    requires k <= |rows| && Reaches(all, Loading(s, now, live, rows, k)) && Frames.Lists(L.Shift(s.db, now), rows)
    ensures Reaches(more, Loading(s, now, live, rows, |rows|))
    decreases |rows| - k
  {
    if k == |rows| {
      more := all;
    } else {
      var next := RowRuns(all, s, now, live, rows, k);
      more := RowsRun(next, s, now, live, rows, k + 1);
    }
  }

  lemma RestartRuns(all: seq<Step>, s: S.System, now: int, live: set<BaseCoin>, rows: seq<Invoice>)
    returns (more: seq<Step>)
    requires Reaches(all, s) && S.Enabled(s, S.Restart(now, live, rows))
    ensures Reaches(more, S.Apply(s, S.Restart(now, live, rows)))
  {
    var crashed := CrashRuns(all, s, now, live, rows);
    more := RowsRun(crashed, s, now, live, rows, 0);
    assert rows[..|rows|] == rows;
    assert S.Apply(s, S.Restart(now, live, rows)) == Loading(s, now, live, rows, |rows|);
  }

  // ----- Main result -----

  lemma StepRuns(all: seq<Step>, s: S.System, step: S.Step) returns (more: seq<Step>)
    requires Reaches(all, s) && S.Consistent(s) && S.Enabled(s, step)
    ensures Reaches(more, S.Apply(s, step))
  {
    match step
    case Handle(b, act) => more := HandleRuns(all, s, b, act);
    case Observe(tx, outs) => more := ObserveRuns(all, s, tx, outs);
    case UpdateCryptoKeys(user, rs) =>
      more := all;
      SameMapRelated(s, Exec(all).value, S.Apply(s, step).db, Exec(all).value);
    case Restart(now, live, rows) => more := RestartRuns(all, s, now, live, rows);
  }

  lemma ObserveRuns(all: seq<Step>, s: S.System, tx: TxId, outs: seq<Output>) returns (more: seq<Step>)
    requires Reaches(all, s) && tx !in s.seen
    ensures Reaches(more, S.Apply(s, S.Observe(tx, outs)))
  {
    var t := Exec(all).value;
    Extend(all, t, Observe(tx, outs));
    more := all + [Observe(tx, outs)];
    MachineWellFormed(more);
    var s', t' := S.Apply(s, S.Observe(tx, outs)), Apply(t, Observe(tx, outs));
    forall x
      ensures MemoryRelated(t', x, S.Mem(s', x))
    {
      assert MemoryRelated(t, x, S.Mem(s, x));
      TimersSame(t, t', x, S.Mem(s, x).timers);
    }
  }

  lemma StartRelated()
    ensures Reaches([], S.INIT)
  {
    MachineWellFormed([]);
    forall x
      ensures MemoryRelated(INIT, x, S.Mem(S.INIT, x))
    {
    }
  }

  /** Every run of the whole system in atomic steps, for all five processors together, with key changes, crashes and
      restarts, is a run of the interleaved machine with exact amounts: it reaches a state with the same rows and
      transactions, in which the maps, timers and releases of each processor are what its memory says. */
  lemma {:induction false} AtomicIsInterleaved(steps: seq<S.Step>) returns (all: seq<Step>)
    requires S.Exec(steps).Some?
    ensures Reaches(all, S.Exec(steps).value)
    decreases |steps|
  {
    if steps == [] {
      all := [];
      StartRelated();
    } else {
      var n := |steps| - 1;
      var before := AtomicIsInterleaved(steps[..n]);
      S.RunConsistent(steps[..n]);
      all := StepRuns(before, S.Exec(steps[..n]).value, steps[n]);
    }
  }

  /** So what holds under any interleaving holds of atomic runs: the actual amounts of all BTC and LTC invoices sum to
      at most the outputs of the distinct transactions observed. */
  lemma {:induction false} AtomicConservation(steps: seq<S.Step>)
    requires S.Exec(steps).Some?
    ensures var s := S.Exec(steps).value; Sums.SumMap(Credits(s.db.invoices)) <= Sums.SumMap(Totals(s.seen))
  {
    var all := AtomicIsInterleaved(steps);
    Conservation(all);
  }
}

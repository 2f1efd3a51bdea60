/** What a goroutine running alone leaves alone: the goroutines, entries and contexts of everybody else. */
module Goroutines {
  import opened Domain
  import opened Interleaving
  import opened Refinement

  // ----- The processor a goroutine belongs to -----

  predicate CellOfBase(h: Shared, c: CellId, b: BaseCoin) {
    c < |h.cells| && SlotOf(h.cells[c].inv).home == Some(b)
  }

  /** The goroutine works for the processor of b, and does not register anything. */
  predicate Works(h: Shared, pc: Pc, b: BaseCoin) {
    match pc
    case Registering(_) => false
    case Storing(_) => false
    case Waiting(_, _, x) => x.home == Some(b)
    case Checking(c, _) => CellOfBase(h, c, b)
    case Verifying(c, _, _) => CellOfBase(h, c, b)
    case Marking(c, _, _) => CellOfBase(h, c, b)
    case Publishing(c, row) => CellOfBase(h, c, b) && Home(row.coin) == Some(b)
    case Hanging(c, row) => CellOfBase(h, c, b) && Home(row.coin) == Some(b)
    case Blocking(x) => x.home == Some(b)
    case Confirming(c) => CellOfBase(h, c, b)
    case Asking(c, inv) => CellOfBase(h, c, b) && Home(inv.coin) == Some(b)
    case Removing(c, inv) => CellOfBase(h, c, b) && Home(inv.coin) == Some(b)
    case Cancelling(c, inv, _) => CellOfBase(h, c, b) && Home(inv.coin) == Some(b)
    case Finishing(inv, _) => Home(inv.coin) == Some(b)
    case Expiring(_, x, _) => x.home == Some(b)
    case Closing(_, x, _, _) => x.home == Some(b)
    case Releasing(x, _) => x.home == Some(b)
    case Done => true
  }

  /** The entry whose pointer or context the goroutine may change. */
  function Entry(pc: Pc): Option<CellId> {
    match pc
    case Checking(c, _) => Some(c)
    case Verifying(c, _, _) => Some(c)
    case Marking(c, _, _) => Some(c)
    case Publishing(c, _) => Some(c)
    case Hanging(c, _) => Some(c)
    case Confirming(c) => Some(c)
    case Asking(c, _) => Some(c)
    case Removing(c, _) => Some(c)
    case Cancelling(c, _, _) => Some(c)
    case _ => None
  }

  // ----- What it leaves alone -----

  /** The entry k is the same, if it is another processor's; its context is the same, unless it is the entry c. */
  predicate CellKept(h: Shared, h': Shared, b: BaseCoin, c: Option<CellId>, k: CellId)
    requires k < |h.cells| == |h'.cells|
  {
    && h'.cells[k].inv.id == h.cells[k].inv.id
    && SlotOf(h'.cells[k].inv) == SlotOf(h.cells[k].inv)
    && (SlotOf(h.cells[k].inv).home != Some(b) ==> h'.cells[k].inv == h.cells[k].inv)
    && (c != Some(k) ==> h'.cells[k].cancelled == h.cells[k].cancelled)
  }

  /** Entries only leave the map of b, and other maps stay. */
  predicate EntryKept(h: Shared, h': Shared, b: BaseCoin, x: Slot) {
    && (x in h'.tracked ==> x in h.tracked && h'.tracked[x] == h.tracked[x])
    && (x in h.tracked && x.home != Some(b) ==> x in h'.tracked)
  }

  ghost predicate Frame(h: Shared, h': Shared, b: BaseCoin, c: Option<CellId>) {
    && h'.seen == h.seen && |h'.cells| == |h.cells|
    && (forall k :: 0 <= k < |h.cells| ==> CellKept(h, h', b, c, k))
    && (forall x :: EntryKept(h, h', b, x))
  }

  lemma FrameTransitive(h: Shared, h1: Shared, h2: Shared, b: BaseCoin, c: Option<CellId>, d: Option<CellId>)
    requires Frame(h, h1, b, c) && Frame(h1, h2, b, d) && (d == c || d == None)
    ensures Frame(h, h2, b, c)
  {
    forall k | 0 <= k < |h.cells|
      ensures CellKept(h, h2, b, c, k)
    {
      assert CellKept(h, h1, b, c, k) && CellKept(h1, h2, b, d, k);
    }
    forall x
      ensures EntryKept(h, h2, b, x)
    {
      assert EntryKept(h, h1, b, x) && EntryKept(h1, h2, b, x);
    }
  }

  lemma EffectKeepsCell(h: Shared, pc: Pc, choice: Choice, b: BaseCoin, k: CellId)
    requires ThreadOk(h, pc) && Works(h, pc, b) && k < |h.cells|
    ensures |Effect(h, pc, choice).cells| == |h.cells|
    ensures CellKept(h, Effect(h, pc, choice), b, Entry(pc), k)
  {
  }

  lemma EffectKeepsEntry(h: Shared, pc: Pc, choice: Choice, b: BaseCoin, x: Slot)
    requires CellsOk(h, pc) && Works(h, pc, b)
    ensures EntryKept(h, Effect(h, pc, choice), b, x)
  {
  }

  lemma EffectFrame(h: Shared, pc: Pc, choice: Choice, b: BaseCoin)
    requires ThreadOk(h, pc) && Works(h, pc, b)
    ensures Frame(h, Effect(h, pc, choice), b, Entry(pc))
  {
    var h' := Effect(h, pc, choice);
    assert h'.seen == h.seen && |h'.cells| == |h.cells|;
    forall k | 0 <= k < |h.cells|
      ensures CellKept(h, h', b, Entry(pc), k)
    {
      EffectKeepsCell(h, pc, choice, b, k);
    }
    forall x
      ensures EntryKept(h, h', b, x)
    {
      EffectKeepsEntry(h, pc, choice, b, x);
    }
  }

  lemma CellStaysBase(h: Shared, h': Shared, b: BaseCoin, c: Option<CellId>, k: CellId)
    requires Frame(h, h', b, c) && CellOfBase(h, k, b)
    ensures CellOfBase(h', k, b)
  {
    assert CellKept(h, h', b, c, k);
  }

  lemma NextWorks(h: Shared, pc: Pc, choice: Choice, b: BaseCoin)
    requires TablesOk(h) && ThreadOk(h, pc) && Works(h, pc, b)
    ensures Works(Effect(h, pc, choice), Next(h, pc, choice), b)
    ensures Entry(Next(h, pc, choice)) == Entry(pc) || Entry(Next(h, pc, choice)) == None
  {
    EffectFrame(h, pc, choice, b);
    if Entry(pc).Some? {
      CellStaysBase(h, Effect(h, pc, choice), b, Entry(pc), Entry(pc).value);
    }
  }

  /** It runs in the frame of its processor and its entry. */
  lemma {:induction false} AloneFrame(h: Shared, pc: Pc, choices: seq<Choice>, b: BaseCoin)
    requires TablesOk(h) && ThreadOk(h, pc) && Works(h, pc, b) && Alone(h, pc, choices).Some?
    ensures Frame(h, Alone(h, pc, choices).value.0, b, Entry(pc))
    decreases |choices|
  {
    if choices == [] {
    } else {
      var h1, pc1 := Effect(h, pc, choices[0]), Next(h, pc, choices[0]);
      EffectFrame(h, pc, choices[0], b);
      NextWorks(h, pc, choices[0], b);
      EffectGrows(h, pc, choices[0]);
      NextOk(h, pc, choices[0]);
      AloneFrame(h1, pc1, choices[1..], b);
      FrameTransitive(h, h1, Alone(h, pc, choices).value.0, b, Entry(pc), Entry(pc1));
    }
  }

  // ----- Running alone, exactly -----

  /** Each of its operations is one in which BTC and LTC amounts come from the handler. */
  ghost predicate AloneExact(h: Shared, pc: Pc, choices: seq<Choice>)
    decreases |choices|
  {
    choices == [] || (CellsOk(h, pc) && ExactChoice(h, pc, choices[0])
                      && AloneExact(Effect(h, pc, choices[0]), Next(h, pc, choices[0]), choices[1..]))
  }

  /** Past the guard nothing is judged any more. */
  predicate PastGuard(pc: Pc) {
    !pc.Checking? && !pc.Verifying?
  }

  lemma {:induction false} PastGuardExact(h: Shared, pc: Pc, choices: seq<Choice>)
    requires PastGuard(pc) && Alone(h, pc, choices).Some?
    ensures AloneExact(h, pc, choices)
    decreases |choices|
  {
    if choices == [] {
    } else {
      PastGuardExact(Effect(h, pc, choices[0]), Next(h, pc, choices[0]), choices[1..]);
    }
  }

  lemma ExactSnoc(steps: seq<Step>, s: State, step: Step)
    requires Exec(steps) == Some(s) && ExactRun(steps) && Exact(s, step)
    ensures ExactRun(steps + [step])
  {
    var all := steps + [step];
    forall j | 0 <= j < |all| && Exec(all[..j]).Some?
      ensures Exact(Exec(all[..j]).value, all[j])
    {
      if j < |steps| {
        assert all[..j] == steps[..j] && all[j] == steps[j];
      } else {
        assert all[..j] == steps;
      }
    }
  }

  lemma Extend(steps: seq<Step>, s: State, step: Step)
    requires Exec(steps) == Some(s) && ExactRun(steps) && Enabled(s, step) && Exact(s, step)
    ensures Exec(steps + [step]) == Some(Apply(s, step)) && ExactRun(steps + [step])
  {
    assert (steps + [step])[..|steps|] == steps;
    ExactSnoc(steps, s, step);
  }

  lemma LoneStep(steps: seq<Step>, s: State, tid: nat, choice: Choice)
    requires Exec(steps) == Some(s) && ExactRun(steps) && tid < |s.threads| && !s.threads[tid].Storing?
    requires CellsOk(s.shared, s.threads[tid]) && ExactChoice(s.shared, s.threads[tid], choice)
    ensures Exec(steps + [Run(tid, choice)])
         == Some(State(Effect(s.shared, s.threads[tid], choice),
                       s.threads[tid := Next(s.shared, s.threads[tid], choice)]))
    ensures ExactRun(steps + [Run(tid, choice)])
  {
    Extend(steps, s, Run(tid, choice));
    var moved := s.threads[tid := Next(s.shared, s.threads[tid], choice)];
    assert Started(s.shared, s.threads[tid]) == [] && moved + [] == moved;
  }

  lemma RunsCons(steps: seq<Step>, tid: nat, choices: seq<Choice>)
    requires choices != []
    ensures steps + Runs(tid, choices) == steps + [Run(tid, choices[0])] + Runs(tid, choices[1..])
  {
  }

  /** The state after the goroutine ran alone. */
  function AfterAlone(s: State, tid: nat, choices: seq<Choice>): State
    requires tid < |s.threads| && Alone(s.shared, s.threads[tid], choices).Some?
  {
    var (h, pc) := Alone(s.shared, s.threads[tid], choices).value;
    State(h, s.threads[tid := pc])
  }

  lemma AfterAloneCons(s: State, tid: nat, choices: seq<Choice>, s1: State)
    requires tid < |s.threads| && choices != [] && Alone(s.shared, s.threads[tid], choices).Some?
    requires s1 == State(Effect(s.shared, s.threads[tid], choices[0]),
                         s.threads[tid := Next(s.shared, s.threads[tid], choices[0])])
    ensures Alone(s1.shared, s1.threads[tid], choices[1..]).Some?
    ensures AfterAlone(s1, tid, choices[1..]) == AfterAlone(s, tid, choices)
  {
  }

  /** The goroutine's run is a run of the machine that starts no other goroutine and moves none. */
  lemma {:induction false} LoneRun(steps: seq<Step>, s: State, tid: nat, choices: seq<Choice>)
    requires Exec(steps) == Some(s) && ExactRun(steps) && tid < |s.threads|
    requires !s.threads[tid].Registering? && !s.threads[tid].Storing?
    requires Alone(s.shared, s.threads[tid], choices).Some? && AloneExact(s.shared, s.threads[tid], choices)
    ensures Exec(steps + Runs(tid, choices)) == Some(AfterAlone(s, tid, choices))
    ensures ExactRun(steps + Runs(tid, choices))
    decreases |choices|
  {
    if choices == [] {
      assert steps + Runs(tid, choices) == steps && s.threads[tid := s.threads[tid]] == s.threads;
    } else {
      LoneStep(steps, s, tid, choices[0]);
      var s1 := State(Effect(s.shared, s.threads[tid], choices[0]),
                      s.threads[tid := Next(s.shared, s.threads[tid], choices[0])]);
      AfterAloneCons(s, tid, choices, s1);
      RunsCons(steps, tid, choices);
      LoneRun(steps + [Run(tid, choices[0])], s1, tid, choices[1..]);
    }
  }

  // ----- Spawned releases -----

  function ReleaseOf(pc: Pc, b: BaseCoin): multiset<Address> {
    if pc.Releasing? && pc.slot.home == Some(b) then multiset{pc.slot.address} else multiset{}
  }

  /** The releases that goroutines of the processor stand before. */
  function Releasings(threads: seq<Pc>, b: BaseCoin): multiset<Address> {
    if threads == [] then multiset{}
    else Releasings(threads[..|threads| - 1], b) + ReleaseOf(threads[|threads| - 1], b)
  }

  lemma ReleasingsSnoc(threads: seq<Pc>, pc: Pc, b: BaseCoin)
    ensures Releasings(threads + [pc], b) == Releasings(threads, b) + ReleaseOf(pc, b)
  {
    assert (threads + [pc])[..|threads|] == threads;
  }

  lemma MultisetShift(a: multiset<Address>, x: multiset<Address>, b: multiset<Address>, y: multiset<Address>,
                      z: multiset<Address>)
    requires a + x == b + y
    ensures (a + z) + x == (b + z) + y
  {
    assert (a + z) + x == (a + x) + z;
    assert (b + z) + y == (b + y) + z;
  }

  lemma {:induction false} ReleasingsMove(threads: seq<Pc>, tid: nat, pc: Pc, b: BaseCoin)
    requires tid < |threads|
    ensures Releasings(threads[tid := pc], b) + ReleaseOf(threads[tid], b) == Releasings(threads, b) + ReleaseOf(pc, b)
    decreases |threads|
  {
    var n := |threads| - 1;
    var init, last := threads[..n], threads[n];
    assert threads == init + [last];
    ReleasingsSnoc(init, last, b);
    if tid == n {
      assert threads[tid := pc] == init + [pc];
      ReleasingsSnoc(init, pc, b);
    } else {
      assert threads[tid := pc] == init[tid := pc] + [last];
      ReleasingsSnoc(init[tid := pc], last, b);
      ReleasingsMove(init, tid, pc, b);
      MultisetShift(Releasings(init[tid := pc], b), ReleaseOf(threads[tid], b), Releasings(init, b), ReleaseOf(pc, b),
                    ReleaseOf(last, b));
    }
  }

  lemma {:induction false} FindRelease(threads: seq<Pc>, b: BaseCoin, a: Address) returns (tid: nat)
    requires a in Releasings(threads, b)
    ensures tid < |threads| && threads[tid].Releasing? && threads[tid].slot == At(b, a)
    decreases |threads|
  {
    var n := |threads| - 1;
    if a in ReleaseOf(threads[n], b) {
      tid := n;
    } else {
      tid := FindRelease(threads[..n], b, a);
    }
  }
}

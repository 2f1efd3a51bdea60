/** One terminal action per registration, under any interleaving: what LoadAndDelete decides. */
module Registrations {
  import opened Domain
  import opened Interleaving
  import Sums

  // ----- The log of map operations -----

  /** After these operations an entry at a is in the map. */
  predicate Live(log: seq<MapOp>, a: Slot) {
    if log == [] then false
    else
      match log[|log| - 1]
      case Stored(x) => x == a || Live(log[..|log| - 1], a)
      case Removed(x) => x != a && Live(log[..|log| - 1], a)
      case Wiped => false
  }

  /** Removals are logged only where an entry was in the map. */
  ghost predicate LogOk(log: seq<MapOp>) {
    forall k :: 0 <= k < |log| && log[k].Removed? ==> Live(log[..k], log[k].a)
  }

  function Positions(log: seq<MapOp>, op: MapOp): set<nat> {
    set k: nat | k < |log| && log[k] == op
  }

  lemma PositionsSnoc(log: seq<MapOp>, op: MapOp)
    requires log != []
    ensures |Positions(log, op)| == |Positions(log[..|log| - 1], op)| + (if log[|log| - 1] == op then 1 else 0)
  {
    var n: nat := |log| - 1;
    var before, after := Positions(log[..n], op), Positions(log, op);
    forall k: nat
      ensures k in after <==> k in before || (k == n && log[n] == op)
    {
      assert k < n ==> log[..n][k] == log[k];
    }
    assert after == if log[n] == op then before + {n} else before;
    assert n !in before;
  }

  lemma LogPrefix(log: seq<MapOp>, n: nat)
    requires LogOk(log) && n <= |log|
    ensures LogOk(log[..n])
  {
    forall k | 0 <= k < n && log[..n][k].Removed?
      ensures Live(log[..n][..k], log[..n][k].a)
    {
      assert log[..n][..k] == log[..k];
    }
  }

  lemma LogSnoc(log: seq<MapOp>, op: MapOp)
    requires LogOk(log) && (op.Removed? ==> Live(log, op.a))
    ensures LogOk(log + [op])
    ensures forall a :: Live(log + [op], a) <==>
              (op == Stored(a) || (Live(log, a) && op != Removed(a) && op != Wiped))
  {
    var log' := log + [op];
    assert log'[..|log|] == log;
    forall k | 0 <= k < |log'| && log'[k].Removed?
      ensures Live(log'[..k], log'[k].a)
    {
      assert log'[..k] == log[..k];
      assert k == |log| ==> log[..k] == log;
    }
  }

  /** Successful removals of an address plus its live entry never exceed its stores. */
  lemma {:induction false} RemovalsAtMostStores(log: seq<MapOp>, a: Slot)
    requires LogOk(log)
    ensures |Positions(log, Removed(a))| + (if Live(log, a) then 1 else 0) <= |Positions(log, Stored(a))|
    decreases |log|
  {
    if log != [] {
      var n := |log| - 1;
      LogPrefix(log, n);
      RemovalsAtMostStores(log[..n], a);
      PositionsSnoc(log, Removed(a));
      PositionsSnoc(log, Stored(a));
    }
  }

  /** A live entry was stored after any earlier point at which it was not live. */
  lemma {:induction false} StoredSince(log: seq<MapOp>, i: nat, a: Slot)
    requires i <= |log| && !Live(log[..i], a) && Live(log, a)
    ensures exists k :: i <= k < |log| && log[k] == Stored(a)
    decreases |log|
  {
    assert log[..|log|] == log;
    var n := |log| - 1;
    if log[n] == Stored(a) {
    } else {
      assert log[..n][..i] == log[..i];
      StoredSince(log[..n], i, a);
      var k :| i <= k < n && log[..n][k] == Stored(a);
      assert log[k] == Stored(a);
    }
  }

  /** Between two successful removals of one address there is a store for it. */
  lemma StoreBetweenRemovals(log: seq<MapOp>, i: nat, j: nat, a: Slot)
    requires LogOk(log) && i < j < |log| && log[i] == log[j] == Removed(a)
    ensures exists k :: i < k < j && log[k] == Stored(a)
  {
    var upto := log[..j];
    assert upto[..i + 1][..i] == log[..i] && upto[..i + 1][i] == Removed(a);
    assert !Live(upto[..i + 1], a);
    StoredSince(upto, i + 1, a);
    var k :| i + 1 <= k < j && upto[k] == Stored(a);
    assert log[k] == Stored(a);
  }

  // ----- Tokens: the removal that licenses a terminal UPDATE and a release -----

  /** The removal whose consequences the goroutine still has to carry out, and the address removed. */
  function License(pc: Pc): Option<(Token, Slot)> {
    match pc
    case Cancelling(_, inv, token) => Some((token, SlotOf(inv)))
    case Finishing(inv, token) => Some((token, SlotOf(inv)))
    case Closing(_, a, token, _) => Some((token, a))
    case Releasing(a, token) => Some((token, a))
    case _ => None
  }

  predicate Licensed(h: Shared, token: Token, a: Slot) {
    token < |h.log| && h.log[token] == Removed(a)
  }

  /** Some terminal UPDATE used the token. */
  predicate Used(h: Shared, token: Token) {
    exists i :: 0 <= i < |h.terminals| && h.terminals[i].token == token
  }

  predicate LicenseOk(h: Shared, pc: Pc) {
    License(pc).Some? ==>
      var (token, a) := License(pc).value;
      && Licensed(h, token, a)
      && (Used(h, token) <==> pc.Releasing?)
      && token !in h.released
  }

  /** Two goroutines never hold the same removal. */
  predicate Apart(pc: Pc, pc': Pc) {
    License(pc).Some? && License(pc').Some? ==> License(pc).value.0 != License(pc').value.0
  }

  ghost predicate TerminalsOk(h: Shared) {
    && (forall i :: 0 <= i < |h.terminals| ==>
          && Licensed(h, h.terminals[i].token, h.terminals[i].slot)
          && Anchored(h, h.terminals[i].id, h.terminals[i].slot))
    && (forall i, j :: 0 <= i < j < |h.terminals| ==> h.terminals[i].token != h.terminals[j].token)
  }

  ghost predicate ReleasesOk(h: Shared) {
    && (forall i :: 0 <= i < |h.released| ==> Used(h, h.released[i]))
    && (forall i, j :: 0 <= i < j < |h.released| ==> h.released[i] != h.released[j])
  }

  predicate Recorded(h: Shared, id: InvoiceId, status: Status) {
    exists i :: 0 <= i < |h.terminals| && h.terminals[i].id == id && h.terminals[i].status == status
  }

  /** Every terminal row got its status from a recorded UPDATE. */
  ghost predicate RowsRecorded(h: Shared) {
    forall id :: id in h.rows && !IsPending(h.rows[id].status) ==> Recorded(h, id, h.rows[id].status)
  }

  /** The log explains the keys of the map. */
  ghost predicate Logged(log: seq<MapOp>, tracked: map<Slot, CellId>) {
    LogOk(log) && forall a :: a in tracked <==> Live(log, a)
  }

  ghost predicate HistoryOk(h: Shared) {
    && Logged(h.log, h.tracked)
    && TerminalsOk(h) && ReleasesOk(h) && RowsRecorded(h)
  }

  ghost predicate Accounted(s: State) {
    && WellFormed(s)
    && HistoryOk(s.shared)
    && (forall t :: 0 <= t < |s.threads| ==> LicenseOk(s.shared, s.threads[t]))
    && (forall t, u :: 0 <= t < u < |s.threads| ==> Apart(s.threads[t], s.threads[u]))
  }

  // ----- One goroutine's operation -----

  /** A history that only grew keeps the tokens of the old one valid. */
  ghost predicate Extends(h: Shared, h': Shared) {
    h.log <= h'.log && h.terminals <= h'.terminals && h.released <= h'.released
  }

  /** The address whose entry the goroutine's LoadAndDelete takes. */
  function Taken(h: Shared, pc: Pc): Option<Slot> {
    match pc
    case Removing(_, inv) => if SlotOf(inv) in h.tracked then Some(SlotOf(inv)) else None
    case Expiring(_, a, _) => if a in h.tracked then Some(a) else None
    case Blocking(a) => if a in h.tracked then Some(a) else None
    case _ => None
  }

  lemma EffectExtends(h: Shared, pc: Pc, choice: Choice)
    requires CellsOk(h, pc)
    ensures Extends(h, Effect(h, pc, choice))
  {
  }

  lemma RemoveKeepsLog(h: Shared, a: Slot)
    requires Logged(h.log, h.tracked) && a in h.tracked
    ensures Logged(Remove(h, a).log, Remove(h, a).tracked)
  {
    LogSnoc(h.log, Removed(a));
  }

  lemma StoreKeepsLog(log: seq<MapOp>, tracked: map<Slot, CellId>, a: Slot, c: CellId)
    requires Logged(log, tracked)
    ensures Logged(log + [Stored(a)], tracked[a := c])
  {
    LogSnoc(log, Stored(a));
  }

  lemma EffectKeepsLog(h: Shared, pc: Pc, choice: Choice)
    requires CellsOk(h, pc) && Logged(h.log, h.tracked)
    ensures var h' := Effect(h, pc, choice); Logged(h'.log, h'.tracked)
  {
    var h' := Effect(h, pc, choice);
    if pc.Storing? {
      StoreKeepsLog(h.log, h.tracked, SlotOf(pc.inv), |h.cells|);
    } else if Taken(h, pc).Some? {
      RemoveKeepsLog(h, Taken(h, pc).value);
    } else {
      assert h'.log == h.log && h'.tracked == h.tracked;
    }
  }

  lemma EffectKeepsTerminals(h: Shared, pc: Pc, choice: Choice)
    requires ThreadOk(h, pc) && LicenseOk(h, pc) && TerminalsOk(h)
    ensures TerminalsOk(Effect(h, pc, choice))
  {
  }

  lemma UsedGrows(h: Shared, h': Shared, token: Token)
    requires Extends(h, h') && Used(h, token)
    ensures Used(h', token)
  {
    var i :| 0 <= i < |h.terminals| && h.terminals[i].token == token;
    assert h'.terminals[i].token == token;
  }

  lemma EffectKeepsReleases(h: Shared, pc: Pc, choice: Choice)
    requires CellsOk(h, pc) && LicenseOk(h, pc) && ReleasesOk(h)
    ensures ReleasesOk(Effect(h, pc, choice))
  {
    var h' := Effect(h, pc, choice);
    EffectExtends(h, pc, choice);
    forall i | 0 <= i < |h'.released|
      ensures Used(h', h'.released[i])
    {
      UsedGrows(h, h', h'.released[i]);
    }
  }

  lemma EffectKeepsRecorded(h: Shared, pc: Pc, choice: Choice)
    requires CellsOk(h, pc) && RowsRecorded(h)
    ensures RowsRecorded(Effect(h, pc, choice))
  {
    var h' := Effect(h, pc, choice);
    EffectExtends(h, pc, choice);
    forall id | id in h'.rows && !IsPending(h'.rows[id].status)
      ensures Recorded(h', id, h'.rows[id].status)
    {
      if id in h.rows && h'.rows[id].status == h.rows[id].status {
        var i :| 0 <= i < |h.terminals| && h.terminals[i].id == id && h.terminals[i].status == h.rows[id].status;
        assert h'.terminals[i] == h.terminals[i];
      } else {
        var i := |h.terminals|;
        assert h'.terminals[i].id == id && h'.terminals[i].status == h'.rows[id].status;
      }
    }
  }

  lemma NewTokenIsFresh(h: Shared)
    requires TerminalsOk(h) && ReleasesOk(h)
    ensures !Used(h, |h.log|) && |h.log| !in h.released
  {
    forall i | 0 <= i < |h.terminals|
      ensures h.terminals[i].token != |h.log|
    {
      assert Licensed(h, h.terminals[i].token, h.terminals[i].slot);
    }
  }

  /** The goroutine keeps its removal, gets a new one, or holds none afterwards. */
  lemma NextLicense(h: Shared, pc: Pc, choice: Choice)
    requires CellsOk(h, pc) && LicenseOk(h, pc) && TerminalsOk(h) && ReleasesOk(h)
    ensures var next := Next(h, pc, choice);
            && LicenseOk(Effect(h, pc, choice), next)
            && (License(next).Some? ==> License(next) == License(pc) || License(next).value.0 == |h.log|)
  {
    var h' := Effect(h, pc, choice);
    var next := Next(h, pc, choice);
    if Terminates(h, pc, choice) {
      assert h'.terminals[|h.terminals|].token == License(pc).value.0;
    }
    if License(next).Some? && License(next) != License(pc) {
      assert h'.terminals == h.terminals && h'.released == h.released;
      NewTokenIsFresh(h);
    }
  }

  lemma OtherLicense(h: Shared, pc: Pc, choice: Choice, other: Pc)
    requires CellsOk(h, pc) && LicenseOk(h, other) && Apart(pc, other)
    ensures LicenseOk(Effect(h, pc, choice), other)
  {
    var h' := Effect(h, pc, choice);
    EffectExtends(h, pc, choice);
    if License(other).Some? {
      var token := License(other).value.0;
      if Used(h', token) {
        var i :| 0 <= i < |h'.terminals| && h'.terminals[i].token == token;
        assert i < |h.terminals| ==> h.terminals[i].token == token;
      }
      if Used(h, token) {
        UsedGrows(h, h', token);
      }
    }
  }

  // ----- All steps -----

  lemma RunKeepsAccounted(s: State, tid: nat, choice: Choice)
    requires Accounted(s) && Enabled(s, Run(tid, choice))
    ensures Accounted(Apply(s, Run(tid, choice)))
  {
    var s' := Apply(s, Run(tid, choice));
    var h, pc := s.shared, s.threads[tid];
    ApplyKeepsWellFormed(s, Run(tid, choice));
    EffectKeepsLog(h, pc, choice);
    EffectKeepsTerminals(h, pc, choice);
    EffectKeepsReleases(h, pc, choice);
    EffectKeepsRecorded(h, pc, choice);
    NextLicense(h, pc, choice);
    forall t | 0 <= t < |s'.threads|
      ensures LicenseOk(s'.shared, s'.threads[t])
      ensures t != tid ==> Apart(s'.threads[tid], s'.threads[t])
    {
      if t < |s.threads| && t != tid {
        assert Apart(pc, s.threads[t]);
        OtherLicense(h, pc, choice, s.threads[t]);
      }
    }
    forall t, u | 0 <= t < u < |s'.threads|
      ensures Apart(s'.threads[t], s'.threads[u])
    {
      if t != tid && u != tid && u < |s.threads| {
        assert Apart(s.threads[t], s.threads[u]);
      }
    }
  }

  /** The environment's steps write no history except a crash's. */
  lemma OtherKeepsHistory(s: State, step: Step)
    requires HistoryOk(s.shared) && Enabled(s, step) && !step.Run?
    ensures HistoryOk(Apply(s, step).shared)
  {
    var h, h' := s.shared, Apply(s, step).shared;
    if step.Crash? {
      LogSnoc(h.log, Wiped);
    }
    forall i | 0 <= i < |h'.released|
      ensures Used(h', h'.released[i])
    {
      UsedGrows(h, h', h'.released[i]);
    }
    forall id | id in h'.rows && !IsPending(h'.rows[id].status)
      ensures Recorded(h', id, h'.rows[id].status)
    {
      assert Recorded(h, id, h.rows[id].status);
    }
  }

  lemma OtherKeepsLicenses(s: State, step: Step)
    requires Accounted(s) && Enabled(s, step) && !step.Run?
    ensures var s' := Apply(s, step); forall t :: 0 <= t < |s'.threads| ==> LicenseOk(s'.shared, s'.threads[t])
  {
    var s' := Apply(s, step);
    forall t | 0 <= t < |s'.threads|
      ensures LicenseOk(s'.shared, s'.threads[t])
    {
      if t < |s.threads| {
        assert LicenseOk(s.shared, s.threads[t]);
      }
    }
  }

  lemma ApplyKeepsAccounted(s: State, step: Step)
    requires Accounted(s) && Enabled(s, step)
    ensures Accounted(Apply(s, step))
  {
    if step.Run? {
      RunKeepsAccounted(s, step.tid, step.choice);
    } else {
      ApplyKeepsWellFormed(s, step);
      OtherKeepsHistory(s, step);
      OtherKeepsLicenses(s, step);
    }
  }

  lemma {:induction false} RunAccounted(steps: seq<Step>)
    requires Exec(steps).Some?
    ensures Accounted(Exec(steps).value)
    decreases |steps|
  {
    if steps != [] {
      var n := |steps| - 1;
      RunAccounted(steps[..n]);
      ApplyKeepsAccounted(Exec(steps[..n]).value, steps[n]);
    }
  }

  // ----- Main results -----

  /** The terminal status UPDATEs of invoices at an address. */
  function WritesOn(h: Shared, a: Slot): set<nat> {
    set i: nat | i < |h.terminals| && h.terminals[i].slot == a
  }

  /** The address releases that ran for an address. */
  function ReleasesOn(h: Shared, a: Slot): set<nat> {
    set i: nat | i < |h.released| && Licensed(h, h.released[i], a)
  }

  /** An injection into t bounds the size. */
  lemma {:induction false} InjectionSize(s: set<nat>, f: nat -> nat, t: set<nat>)
    requires forall i :: i in s ==> f(i) in t
    requires forall i, j :: i in s && j in s && i != j ==> f(i) != f(j)
    ensures |s| <= |t|
    decreases |s|
  {
    if s != {} {
      var i :| i in s;
      InjectionSize(s - {i}, f, t - {f(i)});
    }
  }

  lemma WritesAtMostRemovals(h: Shared, a: Slot)
    requires TerminalsOk(h)
    ensures |WritesOn(h, a)| <= |Positions(h.log, Removed(a))|
  {
    var f := (i: nat) => if i < |h.terminals| then h.terminals[i].token else 0;
    forall i | i in WritesOn(h, a)
      ensures f(i) in Positions(h.log, Removed(a))
    {
      assert Licensed(h, h.terminals[i].token, h.terminals[i].slot);
    }
    InjectionSize(WritesOn(h, a), f, Positions(h.log, Removed(a)));
  }

  ghost function Writer(h: Shared, token: Token): nat {
    if Used(h, token) then
      var i :| 0 <= i < |h.terminals| && h.terminals[i].token == token; i
    else 0
  }

  lemma ReleasesAtMostWrites(h: Shared, a: Slot)
    requires TerminalsOk(h) && ReleasesOk(h)
    ensures |ReleasesOn(h, a)| <= |WritesOn(h, a)|
  {
    var f := (i: nat) => if i < |h.released| then Writer(h, h.released[i]) else 0;
    forall i | i in ReleasesOn(h, a)
      ensures f(i) in WritesOn(h, a) && h.terminals[f(i)].token == h.released[i]
    {
      assert Used(h, h.released[i]);
      assert Licensed(h, h.terminals[f(i)].token, h.terminals[f(i)].slot);
    }
    InjectionSize(ReleasesOn(h, a), f, WritesOn(h, a));
  }

  /** Under any interleaving, for all coins: successful removals of an address plus its live entry never exceed its
      stores, terminal status UPDATEs there never exceed the removals, and releases of the address never exceed those
      UPDATEs. */
  lemma OneTerminalPerRegistration(steps: seq<Step>, a: Slot)
    requires Exec(steps).Some?
    ensures var h := Exec(steps).value.shared;
            && |Positions(h.log, Removed(a))| + (if a in h.tracked then 1 else 0) <= |Positions(h.log, Stored(a))|
            && |WritesOn(h, a)| <= |Positions(h.log, Removed(a))|
            && |ReleasesOn(h, a)| <= |WritesOn(h, a)|
  {
    RunAccounted(steps);
    var h := Exec(steps).value.shared;
    RemovalsAtMostStores(h.log, a);
    WritesAtMostRemovals(h, a);
    ReleasesAtMostWrites(h, a);
  }

  /** Between two successful removals of one address there is a store for it, and two terminal UPDATEs there followed
      two different removals. */
  lemma RegisteredBetweenTerminals(steps: seq<Step>, i: nat, j: nat)
    requires Exec(steps).Some?
    requires var h := Exec(steps).value.shared;
             i < j < |h.terminals| && h.terminals[i].slot == h.terminals[j].slot
    ensures var h := Exec(steps).value.shared;
            var (p, q) := (h.terminals[i].token, h.terminals[j].token);
            p != q && exists k :: (p < k < q || q < k < p) && k < |h.log| && h.log[k] == Stored(h.terminals[i].slot)
  {
    RunAccounted(steps);
    var h := Exec(steps).value.shared;
    var (p, q) := (h.terminals[i].token, h.terminals[j].token);
    assert Licensed(h, p, h.terminals[i].slot) && Licensed(h, q, h.terminals[j].slot);
    if p < q {
      StoreBetweenRemovals(h.log, p, q, h.terminals[i].slot);
    } else {
      StoreBetweenRemovals(h.log, q, p, h.terminals[i].slot);
    }
  }

  /** An address registered once sees one terminal UPDATE: at most one of its invoices is confirmed or expired, and that
      invoice was never both. */
  lemma RegisteredOnce(steps: seq<Step>, a: Slot, id: InvoiceId)
    requires Exec(steps).Some? && |Positions(Exec(steps).value.shared.log, Stored(a))| <= 1
    requires var h := Exec(steps).value.shared; Anchored(h, id, a) && !IsPending(h.rows[id].status)
    ensures var h := Exec(steps).value.shared;
            forall i :: i in WritesOn(h, a) ==> h.terminals[i].id == id && h.terminals[i].status == h.rows[id].status
  {
    RunAccounted(steps);
    OneTerminalPerRegistration(steps, a);
    var h := Exec(steps).value.shared;
    assert Recorded(h, id, h.rows[id].status);
    var k :| 0 <= k < |h.terminals| && h.terminals[k].id == id && h.terminals[k].status == h.rows[id].status;
    assert Anchored(h, h.terminals[k].id, h.terminals[k].slot);
    forall i | i in WritesOn(h, a)
      ensures i == k
    {
      if i != k {
        Sums.SubsetSize({i, k}, WritesOn(h, a));
      }
    }
  }
}

/** Continuations of a run that put two pending invoices on one address: creations up to an address that is still
    claimed, and a stale timer that fires under its new user. */
module KeyReuse {
  import opened Domain
  import opened Lifecycle
  import opened Invariants
  import opened PaymentSystem
  import P = Pool
  import Counter
  import Steps
  import Claims

  lemma ExecSnoc(steps: seq<Step>, step: Step)
    requires Exec(steps).Some? && Enabled(Exec(steps).value, step)
    ensures Exec(steps + [step]) == Some(Apply(Exec(steps).value, step))
  {
    assert (steps + [step])[..|steps|] == steps;
  }

  lemma ExecLast(steps: seq<Step>, j: nat)
    requires 0 < j <= |steps| && Exec(steps[..j]).Some?
    ensures var before := Exec(steps[..j - 1]);
            && before.Some? && Enabled(before.value, steps[j - 1])
            && Exec(steps[..j]) == Some(Apply(before.value, steps[j - 1]))
  {
    assert steps[..j][..j - 1] == steps[..j - 1];
  }

  function Update(user: UserId, b: BaseCoin, key: Key): Step {
    UpdateCryptoKeys(user, [P.KeyRequest(b, key, true)])
  }

  ghost function Above(s: set<nat>): nat {
    if s == {} then 0
    else
      var x :| x in s;
      var n := Above(s - {x});
      if n <= x then x + 1 else n
  }

  lemma {:induction false} AboveAll(s: set<nat>, x: nat)
    requires x in s
    ensures x < Above(s)
    decreases s
  {
    var y :| y in s && Above(s) == (if Above(s - {y}) <= y then y + 1 else Above(s - {y}));
    if x != y {
      AboveAll(s - {y}, x);
    }
  }

  ghost function FreshId(d: Db): (id: InvoiceId)
    ensures id !in d.invoices
  {
    var id := Above(d.invoices.Keys);
    assert id !in d.invoices by {
      if id in d.invoices {
        AboveAll(d.invoices.Keys, id);
      }
    }
    id
  }

  function Target(b: BaseCoin, key: Key, n: nat): Address {
    Derived(FormatOf(b), key, Counter.At(n))
  }

  ghost predicate NewPendingAt(s0: System, s: System, b: BaseCoin, a: Address) {
    exists i :: i !in s0.db.invoices && PendingIn(s.db, b, i) && s.db.invoices[i].address == a
  }

  ghost predicate StillPending(s0: System, s: System) {
    forall c, i :: PendingIn(s0.db, c, i) ==>
          PendingIn(s.db, c, i) && s.db.invoices[i].address == s0.db.invoices[i].address
  }

  ghost predicate TimersStay(m0: Memory, m: Memory) {
    forall id :: id in m0.timers ==> id in m.timers && m.timers[id] == m0.timers[id]
  }

  /** After the update of s0 and n creations by the user: all rows are occupied and the last creation is at index n. */
  ghost predicate Stage(s0: System, s: System, user: UserId, b: BaseCoin, key: Key, n: nat) {
    && b in s.procs && b in s0.procs && s.procs[b].releases == s0.procs[b].releases
    && s.procs == s0.procs[b := s.procs[b]]
    && Steps.Apart(s.db.pool, b)
    && (user, b) in s.db.pool.keys && s.db.pool.keys[(user, b)] == P.KeyRow(key, Counter.At(n))
    && (forall a :: P.HasRow(s.db.pool, user, b, a) ==> s.db.pool.addresses[a].occupied)
    && s0.db.invoices.Keys <= s.db.invoices.Keys
    && StillPending(s0, s)
    && TimersStay(s0.procs[b], s.procs[b])
    && (n >= 1 ==> NewPendingAt(s0, s, b, Target(b, key, n)) && Target(b, key, n) in s.procs[b].pending)
  }

  ghost function Creation(s: System, user: UserId, b: BaseCoin, pick: Address): Step {
    Handle(b, DoCreate(Request(user, Base(b), 0, 0, 0), FreshId(s.db), 0, pick))
  }

  lemma StageStarts(s: System, user: UserId, rs: seq<P.KeyRequest>, b: BaseCoin)
    requires b in s.procs && P.UpdateEach(s.db.pool, user, rs).Some? && P.KeyFor(rs, b).Some?
    requires Steps.Apart(Apply(s, UpdateCryptoKeys(user, rs)).db.pool, b)
    ensures Stage(s, Apply(s, UpdateCryptoKeys(user, rs)), user, b, P.KeyFor(rs, b).value, 0)
  {
    P.UpdateEachWipes(s.db.pool, user, b, rs);
    var p' := P.UpdateEach(s.db.pool, user, rs).value;
    assert Counter.At(0) == Counter.RESET;
    assert forall a :: P.HasRow(p', user, b, a) ==> a in P.RowsOf(p', user, b);
  }

  /** Timers belong to invoices of the table. */
  ghost predicate TimersKnown(s: System, b: BaseCoin) {
    forall id :: id in Mem(s, b).timers ==> id in s.db.invoices
  }

  lemma StageGrows(s0: System, s: System, user: UserId, b: BaseCoin, key: Key, n: nat)
    requires Stage(s0, s, user, b, key, n) && P.PoolOk(s.db.pool) && n + 1 < Counter.CAPACITY
    requires TimersKnown(s, b)
    ensures var step := Creation(s, user, b, Target(b, key, 0));
            Enabled(s, step) && Stage(s0, Apply(s, step), user, b, key, n + 1)
  {
    var pick := Target(b, key, 0);
    assert !P.HasFree(s.db.pool, user, Base(b)) by {
      if a :| P.FreeFor(s.db.pool, user, Base(b), a) {
        assert P.HasRow(s.db.pool, user, b, a);
      }
    }
    Counter.ValueInvertsAt(n);
    Counter.ValueInvertsAt(n + 1);
    Counter.BumpIsSuccessor(Counter.At(n));
    Counter.AtInvertsValue(Counter.Bump(Counter.At(n)).value);
    P.NextNeverCollides(s.db.pool, user, b);
    assert P.NextAddress(s.db.pool, user, b) == Some(Target(b, key, n + 1));
    CreationEffect(s0, s, user, b, key, n, pick);
  }

  lemma CreationEffect(s0: System, s: System, user: UserId, b: BaseCoin, key: Key, n: nat, pick: Address)
    requires Stage(s0, s, user, b, key, n) && TimersKnown(s, b) && P.PoolOk(s.db.pool)
    requires !P.HasFree(s.db.pool, user, Base(b)) && P.DeriveNext(s.db.pool, user, b).Some?
    requires P.NextAddress(s.db.pool, user, b) == Some(Target(b, key, n + 1))
    ensures var step := Creation(s, user, b, pick);
            Enabled(s, step) && Stage(s0, Apply(s, step), user, b, key, n + 1)
  {
    var step := Creation(s, user, b, pick);
    var s' := Apply(s, step);
    var id := FreshId(s.db);
    assert s'.db.invoices[id].address == Target(b, key, n + 1) && PendingIn(s'.db, b, id);
    assert NewPendingAt(s0, s', b, Target(b, key, n + 1));
    assert TimersStay(s.procs[b], s'.procs[b]) && TimersStay(s0.procs[b], s'.procs[b]);
    forall a | P.HasRow(s'.db.pool, user, b, a)
      ensures s'.db.pool.addresses[a].occupied
    {
      assert a != Target(b, key, n + 1) ==> P.HasRow(s.db.pool, user, b, a);
    }
    forall c, i | PendingIn(s0.db, c, i)
      ensures PendingIn(s'.db, c, i) && s'.db.invoices[i].address == s0.db.invoices[i].address
    {
      assert PendingIn(s.db, c, i);
    }
    Claims.DoKeepsKeys(At(s, b), b, step.act);
  }

  /** A restart, or a handler step that asks the daemon about no block. */
  predicate Tame(step: Step) {
    step.Restart? || (step.Handle? && !step.act.DoCheckBlock?)
  }

  /** all continues the run by such steps only. */
  ghost predicate Extends(steps: seq<Step>, all: seq<Step>) {
    && |steps| <= |all|
    && all[..|steps|] == steps
    && forall j :: |steps| <= j < |all| ==> Tame(all[j])
  }

  lemma ExtendsTransitive(steps: seq<Step>, middle: seq<Step>, all: seq<Step>)
    requires Extends(steps, middle) && Extends(middle, all)
    ensures Extends(steps, all)
  {
    assert all[..|steps|] == all[..|middle|][..|steps|];
    forall j | |steps| <= j < |all|
      ensures Tame(all[j])
    {
      assert j < |middle| ==> all[j] == all[..|middle|][j];
    }
  }

  lemma RunKnowsTimers(steps: seq<Step>, b: BaseCoin)
    requires Exec(steps).Some?
    ensures P.PoolOk(Exec(steps).value.db.pool) && TimersKnown(Exec(steps).value, b)
  {
    RunConsistent(steps);
    var s := Exec(steps).value;
    forall id | id in Mem(s, b).timers
      ensures id in s.db.invoices
    {
      assert TimerOk(s.db, b, Mem(s, b), id);
    }
  }

  ghost predicate AtStage(s0: System, steps: seq<Step>, user: UserId, b: BaseCoin, key: Key, n: nat) {
    Exec(steps).Some? && Stage(s0, Exec(steps).value, user, b, key, n)
  }

  lemma NextStage(s0: System, steps: seq<Step>, user: UserId, b: BaseCoin, key: Key, m: nat) returns (next: seq<Step>)
    requires AtStage(s0, steps, user, b, key, m)
    requires m + 1 < Counter.CAPACITY
    ensures Extends(steps, next) && AtStage(s0, next, user, b, key, m + 1)
  {
    var s := Exec(steps).value;
    var step := Creation(s, user, b, Target(b, key, 0));
    RunKnowsTimers(steps, b);
    StageGrows(s0, s, user, b, key, m);
    ExecSnoc(steps, step);
    next := steps + [step];
  }

  /** From any stage the run extends to the stage of any larger index. */
  lemma {:induction false} ReachStage(s0: System, steps: seq<Step>, user: UserId, b: BaseCoin, key: Key, m: nat, n: nat)
    returns (all: seq<Step>)
    requires AtStage(s0, steps, user, b, key, m)
    requires m <= n < Counter.CAPACITY
    ensures Extends(steps, all) && AtStage(s0, all, user, b, key, n)
    decreases n - m
  {
    if m == n {
      all := steps;
    } else {
      var next := NextStage(s0, steps, user, b, key, m);
      all := ReachStage(s0, next, user, b, key, m + 1, n);
      ExtendsTransitive(steps, next, all);
    }
  }

  /** Running an outstanding release of the address of the latest creation frees it under a pending invoice. */
  lemma ReleaseStep(s0: System, s: System, user: UserId, b: BaseCoin, key: Key, n: nat)
    returns (s': System, i: InvoiceId)
    requires Stage(s0, s, user, b, key, n) && 1 <= n < Counter.CAPACITY && P.PoolOk(s.db.pool)
    requires Target(b, key, n) in s.procs[b].releases
    ensures var step := Handle(b, DoRelease(Target(b, key, n), true)); Enabled(s, step) && s' == Apply(s, step)
    ensures P.FreeFor(s'.db.pool, user, Base(b), Target(b, key, n)) && b in s'.procs
    ensures PendingIn(s'.db, b, i) && s'.db.invoices[i].address == Target(b, key, n)
  {
    var a := Target(b, key, n);
    Counter.ValueInvertsAt(n);
    assert P.Issued(s.db.pool, user, b, a);
    assert P.HasRow(s.db.pool, user, b, a);
    i :| i !in s0.db.invoices && PendingIn(s.db, b, i) && s.db.invoices[i].address == a;
    s' := Apply(s, Handle(b, DoRelease(a, true)));
  }

  /** A creation that reuses the address of a pending invoice. */
  lemma ReuseStep(s: System, user: UserId, b: BaseCoin, a: Address, i: InvoiceId)
    requires b in s.procs && P.FreeFor(s.db.pool, user, Base(b), a)
    requires PendingIn(s.db, b, i) && s.db.invoices[i].address == a
    ensures var step := Creation(s, user, b, a); Enabled(s, step) && !Exclusive(Apply(s, step).db, b)
  {
    var s' := Apply(s, Creation(s, user, b, a));
    var id := FreshId(s.db);
    assert PendingIn(s'.db, b, id) && s'.db.invoices[id].address == a;
    assert PendingIn(s'.db, b, i) && s'.db.invoices[i].address == a && i != id;
  }

  lemma {:induction false} ReleaseThenCreate(s0: System, steps: seq<Step>, user: UserId, b: BaseCoin, key: Key, n: nat)
    returns (all: seq<Step>)
    requires AtStage(s0, steps, user, b, key, n) && 1 <= n < Counter.CAPACITY
    requires Target(b, key, n) in Exec(steps).value.procs[b].releases
    ensures Extends(steps, all) && Exec(all).Some? && !Exclusive(Exec(all).value.db, b)
  {
    var s := Exec(steps).value;
    assert P.PoolOk(s.db.pool) by {
      RunConsistent(steps);
    }
    var s', i := ReleaseStep(s0, s, user, b, key, n);
    var release := Handle(b, DoRelease(Target(b, key, n), true));
    ExecSnoc(steps, release);
    all := ReuseAfter(steps + [release], s', user, b, Target(b, key, n), i);
    ExtendsTransitive(steps, steps + [release], all);
  }

  lemma ReuseAfter(steps: seq<Step>, s: System, user: UserId, b: BaseCoin, a: Address, i: InvoiceId)
    returns (all: seq<Step>)
    requires Exec(steps) == Some(s) && b in s.procs && P.FreeFor(s.db.pool, user, Base(b), a)
    requires PendingIn(s.db, b, i) && s.db.invoices[i].address == a
    ensures Extends(steps, all) && Exec(all).Some? && !Exclusive(Exec(all).value.db, b)
  {
    ReuseStep(s, user, b, a, i);
    ExecSnoc(steps, Creation(s, user, b, a));
    all := steps + [Creation(s, user, b, a)];
  }

  lemma AddressIndex(b: BaseCoin, key: Key, a: Address) returns (n: nat)
    requires AddressOk(b, a) && a.key == key
    ensures 1 <= n < Counter.CAPACITY && a == Target(b, key, n)
  {
    Counter.AtInvertsValue(a.at);
    n := Counter.Value(a.at);
  }

  /** With the address of the latest creation claimed since s0, the run extends to two pending invoices sharing it. */
  lemma {:induction false} SharedAddress(s0: System, steps: seq<Step>, user: UserId, b: BaseCoin, key: Key, n: nat)
    returns (all: seq<Step>)
    requires AtStage(s0, steps, user, b, key, n) && 1 <= n < Counter.CAPACITY
    requires b in s0.procs && Claimed(s0.db, b, s0.procs[b], Target(b, key, n))
    ensures Extends(steps, all) && Exec(all).Some? && !Exclusive(Exec(all).value.db, b)
  {
    var a := Target(b, key, n);
    var s := Exec(steps).value;
    if j :| PendingIn(s0.db, b, j) && s0.db.invoices[j].address == a {
      var i :| i !in s0.db.invoices && PendingIn(s.db, b, i) && s.db.invoices[i].address == a;
      assert PendingIn(s.db, b, j) && s.db.invoices[j].address == a && i != j;
      all := steps;
    } else {
      all := ReleaseThenCreate(s0, steps, user, b, key, n);
    }
  }

  /** After the run the tables accept the request, while the coin runs, and it makes no key common to ETH and BNB. */
  ghost predicate Accepted(steps: seq<Step>, user: UserId, rs: seq<P.KeyRequest>, b: BaseCoin) {
    && Exec(steps).Some? && b in Exec(steps).value.procs
    && P.UpdateEach(Exec(steps).value.db.pool, user, rs).Some?
    && Steps.Apart(Apply(Exec(steps).value, UpdateCryptoKeys(user, rs)).db.pool, b)
  }

  lemma UpdateStarts(steps: seq<Step>, user: UserId, rs: seq<P.KeyRequest>, b: BaseCoin)
    requires Accepted(steps, user, rs, b) && P.KeyFor(rs, b).Some?
    ensures AtStage(Exec(steps).value, steps + [UpdateCryptoKeys(user, rs)], user, b, P.KeyFor(rs, b).value, 0)
  {
    ExecSnoc(steps, UpdateCryptoKeys(user, rs));
    StageStarts(Exec(steps).value, user, rs, b);
  }

  // ----- A stale timer at an address that is in use again -----

  lemma StaleFires(s: System, b: BaseCoin, x: Address, id: InvoiceId, i: InvoiceId) returns (s': System)
    requires b in s.procs && Armed(s.procs[b], id) && s.procs[b].timers[id].address == x && !PendingIn(s.db, b, id)
    requires id in s.db.invoices && s.db.invoices[id].id == id
    requires x in s.procs[b].pending && PendingIn(s.db, b, i) && s.db.invoices[i].address == x
    ensures Enabled(s, Handle(b, DoFire(id, true))) && s' == Apply(s, Handle(b, DoFire(id, true)))
    ensures b in s'.procs && x in s'.procs[b].releases && s'.db.pool == s.db.pool
    ensures PendingIn(s'.db, b, i) && s'.db.invoices[i].address == x
  {
    s' := Apply(s, Handle(b, DoFire(id, true)));
  }

  /** A release, of this coin or of another one, frees the address under the pending invoice. */
  lemma FreesUnder(s: System, c: BaseCoin, b: BaseCoin, x: Address, user: UserId, i: InvoiceId) returns (s': System)
    requires b in s.procs && c in s.procs && x in s.procs[c].releases && P.HasRow(s.db.pool, user, b, x)
    requires PendingIn(s.db, b, i) && s.db.invoices[i].address == x
    ensures Enabled(s, Handle(c, DoRelease(x, true))) && s' == Apply(s, Handle(c, DoRelease(x, true)))
    ensures b in s'.procs && P.FreeFor(s'.db.pool, user, Base(b), x)
    ensures PendingIn(s'.db, b, i) && s'.db.invoices[i].address == x
  {
    s' := Apply(s, Handle(c, DoRelease(x, true)));
  }

  /** If it fires, the address is released under the pending invoice that uses it, and handed out again. */
  lemma {:induction false} StaleTail(steps: seq<Step>, b: BaseCoin, x: Address, id: InvoiceId, user: UserId)
    returns (all: seq<Step>)
    requires Exec(steps).Some? && b in Exec(steps).value.procs
    requires var s := Exec(steps).value;
             && Armed(s.procs[b], id) && s.procs[b].timers[id].address == x && !PendingIn(s.db, b, id)
             && x in s.procs[b].pending && P.HasRow(s.db.pool, user, b, x)
    ensures Extends(steps, all) && Exec(all).Some? && !Exclusive(Exec(all).value.db, b)
  {
    var s := Exec(steps).value;
    RunConsistent(steps);
    assert EntryOk(s.db, b, Mem(s, b), x) && TimerOk(s.db, b, Mem(s, b), id) && RowOk(s.db, id);
    var i := s.procs[b].pending[x].id;
    var fire, release := Handle(b, DoFire(id, true)), Handle(b, DoRelease(x, true));
    var s1 := StaleFires(s, b, x, id, i);
    ExecSnoc(steps, fire);
    var s2 := FreesUnder(s1, b, b, x, user, i);
    ExecSnoc(steps + [fire], release);
    all := ReuseAfter(steps + [fire] + [release], s2, user, b, x, i);
    ExtendsTransitive(steps, steps + [fire], steps + [fire] + [release]);
    ExtendsTransitive(steps, steps + [fire] + [release], all);
  }

  // ----- Orderly continuations -----

  lemma TameKeepsKeys(s: System, step: Step)
    requires Consistent(s) && Enabled(s, step) && Tame(step)
    ensures Steps.SameKeys(s.db.pool, Apply(s, step).db.pool)
  {
    if step.Handle? {
      Claims.DoKeepsKeys(At(s, step.base), step.base, step.act);
    }
  }

  lemma {:induction false} KeysStay(steps: seq<Step>, all: seq<Step>, j: nat)
    requires Extends(steps, all) && |steps| <= j <= |all| && Exec(steps).Some? && Exec(all[..j]).Some?
    ensures Steps.SameKeys(Exec(steps).value.db.pool, Exec(all[..j]).value.db.pool)
    decreases j
  {
    if j > |steps| {
      ExecLast(all, j);
      RunConsistent(all[..j - 1]);
      TameKeepsKeys(Exec(all[..j - 1]).value, all[j - 1]);
      KeysStay(steps, all, j - 1);
    }
  }

  /** Such steps are orderly. */
  lemma ExtendsOrderly(steps: seq<Step>, all: seq<Step>, b: BaseCoin)
    requires Extends(steps, all) && Exec(steps).Some? && Steps.Apart(Exec(steps).value.db.pool, b)
    ensures Orderly(all, |steps|, b)
  {
    forall j | |steps| <= j < |all| && Exec(all[..j]).Some?
      ensures QuietStep(Exec(all[..j]).value, all[j], b) && CalmStep(Exec(all[..j]).value, all[j], b)
    {
      KeysStay(steps, all, j);
    }
  }

  /** If the run goes on with the step and these ones, and these are orderly, the pending invoices of b are on distinct
      addresses. */
  ghost predicate ExclusiveAfter(steps: seq<Step>, step: Step, more: seq<Step>, b: BaseCoin) {
    var all := steps + [step] + more;
    Exec(all).Some? && Orderly(all, |steps| + 1, b) ==> Exclusive(Exec(all).value.db, b)
  }

  /** An orderly step keeps exclusivity in all orderly continuations. */
  lemma {:induction false} OrderlySuffices(steps: seq<Step>, step: Step, more: seq<Step>, b: BaseCoin)
    requires Exec(steps).Some? && Orderly(steps, 0, b)
    requires QuietStep(Exec(steps).value, step, b) && CalmStep(Exec(steps).value, step, b)
    ensures ExclusiveAfter(steps, step, more, b)
  {
    var all := steps + [step] + more;
    if Exec(all).Some? && Orderly(all, |steps| + 1, b) {
      forall j | 0 <= j < |all| && Exec(all[..j]).Some?
        ensures QuietStep(Exec(all[..j]).value, all[j], b) && CalmStep(Exec(all[..j]).value, all[j], b)
      {
        if j < |steps| {
          assert all[..j] == steps[..j] && all[j] == steps[j];
        } else if j == |steps| {
          assert all[..j] == steps;
        }
      }
      AddressExclusivity(all, b);
    }
  }

  /** A continuation by harmless-looking steps that shares an address refutes exclusivity after the step. */
  lemma BreaksAfter(steps: seq<Step>, step: Step, all: seq<Step>, b: BaseCoin) returns (more: seq<Step>)
    requires Exec(steps + [step]).Some? && Steps.Apart(Exec(steps + [step]).value.db.pool, b)
    requires Extends(steps + [step], all) && Exec(all).Some? && !Exclusive(Exec(all).value.db, b)
    ensures !ExclusiveAfter(steps, step, more, b)
  {
    var taken := steps + [step];
    ExtendsOrderly(taken, all, b);
    more := all[|taken|..];
    assert all == all[..|taken|] + more;
    assert all[..|taken|] == taken;
  }
}

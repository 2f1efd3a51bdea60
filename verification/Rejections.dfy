/** The premise of exclusivity about rejections is exact: a step of an orderly run keeps exclusivity on every orderly
    continuation exactly if it does not reject the transaction of an invoice whose address is still in the pool. */
module Rejections {
  import opened Domain
  import opened Lifecycle
  import opened Invariants
  import opened PaymentSystem
  import opened KeyReuse
  import P = Pool
  import Steps
  import Claims

  /** The invoice at a was expired by a rejection: its timer is armed, and its address, no longer tracked, awaits
      release. */
  ghost predicate Turned(s: System, b: BaseCoin, a: Address, id: InvoiceId, user: UserId) {
    && b in s.procs
    && Armed(s.procs[b], id) && s.procs[b].timers[id].address == a
    && Owns(s.db, b, id) && !IsPending(s.db.invoices[id].status)
    && a !in s.procs[b].pending && a in s.procs[b].releases && P.HasRow(s.db.pool, user, b, a)
  }

  lemma {:induction false} RejectionTurns(s: System, b: BaseCoin, act: Act) returns (id: InvoiceId, user: UserId)
    requires Consistent(s) && Secure(s, b) && b in s.procs && Enabled(s, Handle(b, act))
    requires Steps.Harmful(At(s, b), b, act)
    ensures Turned(Apply(s, Handle(b, act)), b, act.a, id, user)
  {
    var m := Mem(s, b);
    id := m.pending[act.a].id;
    user := s.db.pool.addresses[act.a].user;
    assert MemOk(s.db, b, m);
    assert EntryOk(s.db, b, m, act.a) && TimerOk(s.db, b, m, id) && RowOk(s.db, id);
    Claims.RowIsAlive(s.db.pool, b, act.a);
    assert PendingIn(s.db, b, id) && Secured(s.db.pool, b, act.a);
  }

  /** The release runs: the address is free, and nothing tracks it. */
  lemma TurnedFrees(s: System, b: BaseCoin, a: Address, id: InvoiceId, user: UserId) returns (s': System)
    requires Turned(s, b, a, id, user)
    ensures Enabled(s, Handle(b, DoRelease(a, true))) && s' == Apply(s, Handle(b, DoRelease(a, true)))
    ensures b in s'.procs && P.FreeFor(s'.db.pool, user, Base(b), a) && a !in s'.procs[b].pending
    ensures Armed(s'.procs[b], id) && s'.procs[b].timers[id].address == a
    ensures Owns(s'.db, b, id) && !IsPending(s'.db.invoices[id].status)
  {
    s' := Apply(s, Handle(b, DoRelease(a, true)));
  }

  /** A new invoice reuses it under the armed timer. */
  lemma FreedIsReused(s: System, b: BaseCoin, a: Address, id: InvoiceId, user: UserId) returns (s': System)
    requires b in s.procs && P.FreeFor(s.db.pool, user, Base(b), a) && a !in s.procs[b].pending && TimersKnown(s, b)
    requires Armed(s.procs[b], id) && s.procs[b].timers[id].address == a
    requires Owns(s.db, b, id) && !IsPending(s.db.invoices[id].status)
    ensures Enabled(s, Creation(s, user, b, a)) && s' == Apply(s, Creation(s, user, b, a))
    ensures b in s'.procs && a in s'.procs[b].pending && P.HasRow(s'.db.pool, user, b, a)
    ensures Armed(s'.procs[b], id) && s'.procs[b].timers[id].address == a && !PendingIn(s'.db, b, id)
  {
    s' := Apply(s, Creation(s, user, b, a));
    assert FreshId(s.db) !in s.db.invoices;
  }

  /** From there some continuation puts two pending invoices on one address. */
  lemma {:induction false} TurnedBreaks(steps: seq<Step>, b: BaseCoin, a: Address, id: InvoiceId, user: UserId)
    returns (all: seq<Step>)
    requires Exec(steps).Some? && Turned(Exec(steps).value, b, a, id, user)
    ensures Extends(steps, all) && Exec(all).Some? && !Exclusive(Exec(all).value.db, b)
  {
    var s := Exec(steps).value;
    var release := Handle(b, DoRelease(a, true));
    var s1 := TurnedFrees(s, b, a, id, user);
    ExecSnoc(steps, release);
    RunKnowsTimers(steps + [release], b);
    var create := Creation(s1, user, b, a);
    var s2 := FreedIsReused(s1, b, a, id, user);
    ExecSnoc(steps + [release], create);
    all := StaleTail(steps + [release] + [create], b, a, id, user);
    ExtendsTransitive(steps, steps + [release], steps + [release] + [create]);
    ExtendsTransitive(steps, steps + [release] + [create], all);
  }

  /** After an orderly run, an effective rejection at an address still in the pool has a continuation, without further
      rejections or key updates, in which two pending invoices share the address. */
  lemma {:induction false} RejectionBreaks(steps: seq<Step>, b: BaseCoin, act: Act) returns (all: seq<Step>)
    requires Exec(steps).Some? && Orderly(steps, 0, b) && b in Exec(steps).value.procs
    requires Enabled(Exec(steps).value, Handle(b, act)) && Steps.Harmful(At(Exec(steps).value, b), b, act)
    ensures Extends(steps + [Handle(b, act)], all)
    ensures Exec(all).Some? && !Exclusive(Exec(all).value.db, b)
  {
    RunConsistent(steps);
    AddressExclusivity(steps, b);
    var id, user := RejectionTurns(Exec(steps).value, b, act);
    ExecSnoc(steps, Handle(b, act));
    all := TurnedBreaks(steps + [Handle(b, act)], b, act.a, id, user);
  }

  lemma ApartStays(steps: seq<Step>, b: BaseCoin, act: Act)
    requires Exec(steps).Some? && Enabled(Exec(steps).value, Handle(b, act))
        && Steps.Apart(Exec(steps).value.db.pool, b)
    ensures Exec(steps + [Handle(b, act)]).Some?
    ensures Steps.Apart(Exec(steps + [Handle(b, act)]).value.db.pool, b)
  {
    ExecSnoc(steps, Handle(b, act));
    RunConsistent(steps);
    Claims.DoKeepsKeys(At(Exec(steps).value, b), b, act);
  }

  lemma HarmFails(steps: seq<Step>, b: BaseCoin, act: Act) returns (more: seq<Step>)
    requires Exec(steps).Some? && Orderly(steps, 0, b) && b in Exec(steps).value.procs
    requires Enabled(Exec(steps).value, Handle(b, act)) && Steps.Apart(Exec(steps).value.db.pool, b)
    requires Steps.Harmful(At(Exec(steps).value, b), b, act)
    ensures !ExclusiveAfter(steps, Handle(b, act), more, b)
  {
    var all := RejectionBreaks(steps, b, act);
    ApartStays(steps, b, act);
    more := BreaksAfter(steps, Handle(b, act), all, b);
  }

  /** For every coin: a processor step after an orderly run keeps the pending invoices on distinct addresses in every
      orderly continuation exactly if it is no effective rejection at an address still in the pool. */
  lemma {:induction false} RejectionIsExact(steps: seq<Step>, b: BaseCoin, act: Act)
    requires Exec(steps).Some? && Orderly(steps, 0, b) && b in Exec(steps).value.procs
    requires Enabled(Exec(steps).value, Handle(b, act)) && Steps.Apart(Exec(steps).value.db.pool, b)
    ensures !Steps.Harmful(At(Exec(steps).value, b), b, act)
       <==> forall more: seq<Step> :: ExclusiveAfter(steps, Handle(b, act), more, b)
  {
    if Steps.Harmful(At(Exec(steps).value, b), b, act) {
      var more := HarmFails(steps, b, act);
    } else {
      forall more: seq<Step>
        ensures ExclusiveAfter(steps, Handle(b, act), more, b)
      {
        OrderlySuffices(steps, Handle(b, act), more, b);
      }
    }
  }
}

/** While no rejection expires an invoice, armed timers belong to pending invoices and no row is expired twice. */
module Promptness {
  import opened Domain
  import opened Lifecycle
  import opened Invariants
  import Steps
  import Frames

  ghost predicate OwnSince(d: Db, b: BaseCoin, n: nat) {
    forall i :: n <= i < |d.audit| ==> Owns(d, b, d.audit[i].id)
  }

  ghost predicate LegalSince(d: Db, n: nat) {
    forall i :: n <= i < |d.audit| ==> Follows(d.audit[i].before, d.audit[i].after)
  }

  ghost predicate TimersPending(d: Db, b: BaseCoin, m: Memory) {
    forall id :: Armed(m, id) ==> PendingIn(d, b, id)
  }

  lemma TimersCarry(l: Local, b: BaseCoin, l': Local)
    requires TimersPending(l.db, b, l.mem)
    requires forall id :: Armed(l'.mem, id) ==>
               (Armed(l.mem, id) && (PendingIn(l.db, b, id) ==> PendingIn(l'.db, b, id))) || PendingIn(l'.db, b, id)
    ensures TimersPending(l'.db, b, l'.mem)
  {
    forall id | Armed(l'.mem, id)
      ensures PendingIn(l'.db, b, id)
    {
      assert Armed(l.mem, id) ==> PendingIn(l.db, b, id);
    }
  }

  /** What a piece of a step owes: it writes rows of b only and, if it does not reject, legally and keeping the armed
      timers with pending invoices. */
  ghost predicate Keeps(l: Local, b: BaseCoin, l': Local, rejects: bool) {
    && |l.db.audit| <= |l'.db.audit| && OwnSince(l'.db, b, |l.db.audit|)
    && (!rejects ==>
          && LegalSince(l'.db, |l.db.audit|)
          && (TimersPending(l.db, b, l.mem) ==> TimersPending(l'.db, b, l'.mem)))
  }

  lemma MarkWrites(l: Local, b: BaseCoin, a: Address, amount: nat, tx: TxId, sql: bool)
    requires Inv(l, b) && a in l.mem.pending && l.mem.pending[a].status == PENDING
    ensures Keeps(l, b, MarkMempool(l, a, amount, tx, sql), false)
  {
    assert EntryOk(l.db, b, l.mem, a);
    if TimersPending(l.db, b, l.mem) {
      TimersCarry(l, b, MarkMempool(l, a, amount, tx, sql));
    }
  }

  lemma ExpireWrites(l: Local, b: BaseCoin, id: InvoiceId, a: Address, sql: bool)
    requires Owns(l.db, b, id)
    ensures Keeps(l, b, Expire(l, id, a, sql), a in l.mem.pending && sql && !(PendingIn(l.db, b, id)
        && !Armed(l.mem, id)))
  {
    if TimersPending(l.db, b, l.mem) && (a in l.mem.pending && sql ==> PendingIn(l.db, b, id) && !Armed(l.mem, id)) {
      TimersCarry(l, b, Expire(l, id, a, sql));
    }
  }

  lemma ConfirmWrites(l: Local, b: BaseCoin, a: Address, reply: Reply, sql: bool)
    requires Inv(l, b) && a in l.mem.pending
    ensures Keeps(l, b, Confirm(l, a, reply, sql), reply.Rejected? && sql && l.mem.pending[a].txId.Some?)
  {
    var inv := l.mem.pending[a];
    assert EntryOk(l.db, b, l.mem, a) && RowOk(l.db, inv.id);
    if reply.Rejected? && inv.txId.Some? {
      ExpireWrites(l, b, inv.id, a, sql);
    } else if TimersPending(l.db, b, l.mem) {
      TimersCarry(l, b, Confirm(l, a, reply, sql));
    }
  }

  lemma KeepsJoin(l: Local, b: BaseCoin, l1: Local, l2: Local)
    requires Keeps(l, b, l1, false) && Keeps(l1, b, l2, false) && Evolves(l1.db, l2.db)
    ensures Keeps(l, b, l2, false)
  {
    forall i | |l.db.audit| <= i < |l2.db.audit|
      ensures Owns(l2.db, b, l2.db.audit[i].id) && Follows(l2.db.audit[i].before, l2.db.audit[i].after)
    {
      if i < |l1.db.audit| {
        assert l2.db.audit[i] == l1.db.audit[i];
        assert RowKept(l1.db.invoices[l1.db.audit[i].id], l2.db.invoices[l1.db.audit[i].id]);
      }
    }
  }

  lemma CheckTxWrites(l: Local, b: BaseCoin, act: Act)
    requires Inv(l, b) && act.DoCheckTx? && ActEnabled(l, act)
    ensures Keeps(l, b, Do(l, b, act), false)
  {
    var inv := l.mem.pending[act.a];
    if act.verdict.Some? && inv.required <= act.verdict.value && inv.status == PENDING {
      var l1 := MarkMempool(l, act.a, act.verdict.value, act.tx, act.markSql);
      if !(act.reply.Rejected? && l1.mem.pending[act.a].txId.Some?) {
        Steps.MarkKeeps(l, b, act.a, act.verdict.value, act.tx, act.markSql);
        MarkWrites(l, b, act.a, act.verdict.value, act.tx, act.markSql);
        ConfirmWrites(l1, b, act.a, act.reply, act.sql);
        Steps.ConfirmKeeps(l1, b, act.a, act.reply, act.sql);
        KeepsJoin(l, b, l1, Confirm(l1, act.a, act.reply, act.sql));
      } else if TimersPending(l.db, b, l.mem) {
        TimersCarry(l, b, Block(l, l1.mem.pending[act.a].address));
      }
    }
  }

  lemma FireWrites(l: Local, b: BaseCoin, id: InvoiceId, sql: bool)
    requires Inv(l, b) && id in l.mem.timers
    ensures OwnSince(Fire(l, id, sql).db, b, |l.db.audit|) && |l.db.audit| <= |Fire(l, id, sql).db.audit|
    ensures TimersPending(l.db, b, l.mem) ==> Keeps(l, b, Fire(l, id, sql), false)
  {
    var t := l.mem.timers[id];
    assert TimerOk(l.db, b, l.mem, id);
    ExpireWrites(TimerExit(l, id), b, id, t.address, sql && !t.cancelled);
    if TimersPending(l.db, b, l.mem) {
      TimersCarry(l, b, TimerExit(l, id));
      assert Armed(l.mem, id) ==> PendingIn(l.db, b, id);
    }
  }

  lemma DoWrites(l: Local, b: BaseCoin, act: Act)
    requires Inv(l, b) && ActEnabled(l, act)
    ensures OwnSince(Do(l, b, act).db, b, |l.db.audit|)
    ensures TimersPending(l.db, b, l.mem) ==> Keeps(l, b, Do(l, b, act), Steps.Rejects(l, act))
  {
    match act
    case DoCreate(_, _, _, _) => CreateWrites(l, b, act);
    case DoCheckTx(_, _, _, _, _, _) => CheckTxWrites(l, b, act);
    case DoCheckBlock(a, reply, sql) => ConfirmWrites(l, b, a, reply, sql);
    case DoFire(id, sql) => FireWrites(l, b, id, sql);
    case DoTimerExit(_) =>
      if TimersPending(l.db, b, l.mem) {
        TimersCarry(l, b, Do(l, b, act));
      }
    case DoRelease(_, _) =>
      if TimersPending(l.db, b, l.mem) {
        TimersCarry(l, b, Do(l, b, act));
      }
  }

  lemma CreateWrites(l: Local, b: BaseCoin, act: Act)
    requires act.DoCreate? && ActEnabled(l, act)
    ensures Keeps(l, b, Do(l, b, act), false)
  {
    var l' := Do(l, b, act);
    assert l'.db.audit == l.db.audit;
    if TimersPending(l.db, b, l.mem) {
      forall id | Armed(l'.mem, id)
        ensures (Armed(l.mem, id) && (PendingIn(l.db, b, id) ==> PendingIn(l'.db, b, id))) || PendingIn(l'.db, b, id)
      {
        if id != act.id {
          assert Armed(l.mem, id);
        }
      }
      TimersCarry(l, b, l');
    }
  }

  lemma DoKeepsPrompt(l: Local, b: BaseCoin, act: Act)
    requires Inv(l, b) && Prompt(l.db, b, l.mem) && ActEnabled(l, act) && !Steps.Rejects(l, act)
    ensures var l' := Do(l, b, act); Prompt(l'.db, b, l'.mem)
  {
    var l' := Do(l, b, act);
    DoWrites(l, b, act);
    Steps.DoKeepsInv(l, b, act);
    OldWritesStayLegal(l.db, l'.db, b);
  }

  /** The first n writes to rows of b were legal moves. */
  ghost predicate LegalFor(d: Db, b: BaseCoin, n: nat) {
    forall i :: 0 <= i < n && i < |d.audit| && Owns(d, b, d.audit[i].id) ==>
      Follows(d.audit[i].before, d.audit[i].after)
  }

  lemma OldWritesStayLegal(d: Db, d': Db, b: BaseCoin)
    requires RowsOk(d) && Evolves(d, d')
    requires LegalFor(d, b, |d.audit|)
    ensures LegalFor(d', b, |d.audit|)
  {
    forall i | 0 <= i < |d.audit| && Owns(d', b, d'.audit[i].id)
      ensures Follows(d'.audit[i].before, d'.audit[i].after)
    {
      assert WriteOk(d, d.audit[i]) && d'.audit[i] == d.audit[i];
      assert RowKept(d.invoices[d.audit[i].id], d'.invoices[d.audit[i].id]);
    }
  }

  /** A step of another processor writes none of the rows of b. */
  lemma OtherKeepsPrompt(l: Local, c: BaseCoin, act: Act, b: BaseCoin, m: Memory)
    requires Inv(l, c) && ActEnabled(l, act) && c != b && Prompt(l.db, b, m)
    ensures Prompt(Do(l, c, act).db, b, m)
  {
    var d' := Do(l, c, act).db;
    DoWrites(l, c, act);
    Steps.DoKeepsInv(l, c, act);
    OldWritesStayLegal(l.db, d', b);
    Frames.DoFrame(l, c, act, b);
    Frames.FrameKeepsUse(l.db, d', b);
  }
}

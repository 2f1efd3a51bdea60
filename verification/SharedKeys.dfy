/** Why exclusivity for ETH and BNB needs disjoint keys: once the two coins have a common key, an update that brings a
    key used by nothing is enough to put two pending invoices on one address. */
module SharedKeys {
  import opened Domain
  import opened Invariants
  import opened PaymentSystem
  import opened KeyReuse
  import P = Pool
  import Counter
  import Steps
  import LoudKeys

  // ----- A key that nothing uses -----

  /** The keys of the tables and those from which the address of an invoice or an outstanding release derives. */
  ghost function KeysInUse(s: System): set<Key> {
    (set k | k in s.db.pool.keys :: s.db.pool.keys[k].key)
    + (set i | i in s.db.invoices :: s.db.invoices[i].address.key)
    + (set b, a | b in s.procs && a in s.procs[b].releases :: a.key)
  }

  ghost function NewKey(s: System): (key: Key)
    ensures key !in KeysInUse(s) && key.Hd?
  {
    var numbers := set k | k in KeysInUse(s) && k.Hd? :: k.masterPubKey;
    var key := Hd(Above(numbers));
    assert key !in KeysInUse(s) by {
      if key in KeysInUse(s) {
        assert key.masterPubKey in numbers;
        AboveAll(numbers, key.masterPubKey);
      }
    }
    key
  }

  lemma ClaimedIsInUse(s: System, c: BaseCoin, a: Address)
    requires Claimed(s.db, c, Mem(s, c), a)
    ensures a.key in KeysInUse(s)
  {
    if i :| PendingIn(s.db, c, i) && s.db.invoices[i].address == a {
      assert s.db.invoices[i].address.key in KeysInUse(s);
    }
  }

  lemma NewKeyIsFree(s: System, user: UserId, b: BaseCoin)
    ensures !P.KeyTaken(s.db.pool, user, b, NewKey(s))
    ensures forall k :: k in s.db.pool.keys ==> s.db.pool.keys[k].key != NewKey(s)
  {
    assert forall k :: k in s.db.pool.keys ==> s.db.pool.keys[k].key in KeysInUse(s);
  }

  lemma TimerKeyInUse(s: System, b: BaseCoin, id: InvoiceId)
    requires Consistent(s) && Armed(Mem(s, b), id)
    ensures Mem(s, b).timers[id].address.key in KeysInUse(s)
  {
    assert MemOk(s.db, b, Mem(s, b));
    assert TimerOk(s.db, b, Mem(s, b), id);
    assert s.db.invoices[id].address.key in KeysInUse(s);
  }

  lemma NewKeyIsQuiet(s: System, b: BaseCoin)
    requires Consistent(s)
    ensures Quiet(s, b, NewKey(s))
  {
    forall c, a | Claimed(s.db, c, Mem(s, c), a)
      ensures a.key != NewKey(s)
    {
      ClaimedIsInUse(s, c, a);
    }
    forall id | Armed(Mem(s, b), id)
      ensures Mem(s, b).timers[id].address.key != NewKey(s)
    {
      TimerKeyInUse(s, b, id);
    }
  }

  // ----- The other coin makes a claim and then changes its key -----

  /** Both coins run, and the other one has the key that was just brought to b. */
  ghost predicate Common(s: System, user: UserId, b: BaseCoin, other: UserId, c: BaseCoin, key: Key) {
    && Consistent(s) && b in s.procs && c in s.procs && c != b && FormatOf(c) == FormatOf(b)
    && (user, b) in s.db.pool.keys && s.db.pool.keys[(user, b)] == P.KeyRow(key, Counter.RESET)
    && (other, c) in s.db.pool.keys && s.db.pool.keys[(other, c)].key == key
    && (forall u, u' :: (u, b) in s.db.pool.keys && (u', c) in s.db.pool.keys
                        && s.db.pool.keys[(u, b)].key == s.db.pool.keys[(u', c)].key
                        ==> u == user && u' == other)
  }

  /** Two users never have one key for a coin. */
  lemma OneOwner(p: P.Pool, u: UserId, u': UserId, c: BaseCoin)
    requires P.KeysOk(p) && (u, c) in p.keys && (u', c) in p.keys && p.keys[(u, c)].key == p.keys[(u', c)].key
    ensures u == u'
  {
    assert P.Clash(p.keys[(u, c)].key, p.keys[(u', c)].key);
  }

  /** Before the first derivation the user has no row. */
  lemma NoRowYet(p: P.Pool, user: UserId, b: BaseCoin)
    requires P.PoolOk(p) && (user, b) in p.keys && p.keys[(user, b)].last == Counter.RESET
    ensures forall a :: !P.HasRow(p, user, b, a)
  {
    assert forall a :: P.HasRow(p, user, b, a) <==> P.Issued(p, user, b, a);
  }

  lemma UpdateMakesCommon(steps: seq<Step>, user: UserId, b: BaseCoin, other: UserId, c: BaseCoin, key: Key)
    requires Exec(steps).Some?
    requires var s := Exec(steps).value;
             && b in s.procs && c in s.procs && c != b && FormatOf(c) == FormatOf(b) && Steps.Apart(s.db.pool, b)
             && !P.KeyTaken(s.db.pool, user, b, key)
             && (other, c) in s.db.pool.keys && s.db.pool.keys[(other, c)].key == key
    ensures Exec(steps + [Update(user, b, key)]).Some?
    ensures Common(Exec(steps + [Update(user, b, key)]).value, user, b, other, c, key)
  {
    var s := Exec(steps).value;
    ExecSnoc(steps, Update(user, b, key));
    RunConsistent(steps);
    RunConsistent(steps + [Update(user, b, key)]);
    var r := P.KeyRequest(b, key, true);
    assert P.UpdateEach(s.db.pool, user, [r]) == P.UpdateKey(s.db.pool, user, r);
    var s' := Exec(steps + [Update(user, b, key)]).value;
    assert P.KeysOk(s.db.pool);
    forall u, u' | (u, b) in s'.db.pool.keys && (u', c) in s'.db.pool.keys
                   && s'.db.pool.keys[(u, b)].key == s'.db.pool.keys[(u', c)].key
      ensures u == user && u' == other
    {
      assert u == user;
      OneOwner(s.db.pool, u', other, c);
    }
  }

  /** The other coin's user holds a pending invoice at an address of the common key. */
  lemma CommonClaim(s: System, user: UserId, b: BaseCoin, other: UserId, c: BaseCoin, key: Key, pick: Address)
    returns (s': System, a: Address, j: InvoiceId)
    requires Common(s, user, b, other, c, key) && P.PickOk(s.db.pool, other, Base(c), pick)
    requires P.Allocate(s.db.pool, other, Base(c), c, pick).Some?
    ensures Enabled(s, Creation(s, other, c, pick)) && s' == Apply(s, Creation(s, other, c, pick))
    ensures Common(s', user, b, other, c, key)
    ensures PendingIn(s'.db, c, j) && s'.db.invoices[j].address == a && a.key == key && AddressOk(c, a)
  {
    var step := Creation(s, other, c, pick);
    s' := Apply(s, step);
    Steps.AllocateClaims(s.db.pool, other, Base(c), c, pick);
    ApplyKeepsConsistent(s, step);
    a := P.Allocate(s.db.pool, other, Base(c), c, pick).value.address;
    j := FreshId(s.db);
    assert s'.db.invoices[j].address == a;
    OtherKeyStays(s.db.pool, other, c, pick, user, b);
  }

  lemma OtherKeyStays(p: P.Pool, other: UserId, c: BaseCoin, pick: Address, user: UserId, b: BaseCoin)
    requires P.Allocate(p, other, Base(c), c, pick).Some? && c != b && (user, b) in p.keys
    ensures var keys := P.Allocate(p, other, Base(c), c, pick).value.pool.keys;
            (user, b) in keys && keys[(user, b)] == p.keys[(user, b)]
  {
  }

  /** With a new key for it the rows at the common key are gone, and b is at the first stage of handing them out. */
  lemma RekeyStarts(s: System, user: UserId, b: BaseCoin, other: UserId, c: BaseCoin, key: Key)
    requires Common(s, user, b, other, c, key)
    ensures var s' := Apply(s, Update(other, c, NewKey(s)));
            && Stage(s', s', user, b, key, 0)
            && s'.db.invoices == s.db.invoices
  {
    var r := P.KeyRequest(c, NewKey(s), true);
    NewKeyIsFree(s, other, c);
    assert P.UpdateEach(s.db.pool, other, [r]) == P.UpdateKey(s.db.pool, other, r);
    var p' := Apply(s, Update(other, c, NewKey(s))).db.pool;
    assert Counter.At(0) == Counter.RESET;
    assert P.PoolOk(s.db.pool);
    NoRowYet(s.db.pool, user, b);
    assert forall a :: P.HasRow(p', user, b, a) ==> P.HasRow(s.db.pool, user, b, a);
    ApartAgain(s.db.pool, p', user, b, other, c, NewKey(s));
  }

  lemma ApartAgain(p: P.Pool, p': P.Pool, user: UserId, b: BaseCoin, other: UserId, c: BaseCoin, key: Key)
    requires c != b && FormatOf(c) == FormatOf(b)
    requires p'.keys == p.keys[(other, c) := P.KeyRow(key, Counter.RESET)]
    requires forall k :: k in p.keys ==> p.keys[k].key != key
    requires forall u, u' :: (u, b) in p.keys && (u', c) in p.keys && p.keys[(u, b)].key == p.keys[(u', c)].key
                             ==> u == user && u' == other
    ensures Steps.Apart(p', b)
  {
    forall u, u' | (u, b) in p'.keys && (u', c) in p'.keys
      ensures p'.keys[(u, b)].key != p'.keys[(u', c)].key
    {
      assert (u, b) in p.keys;
    }
  }

  // ----- The run -----

  /** From there b hands out the claimed address, and the claim's release frees it under its new user. */
  lemma {:induction false} CommonClaimBreaks(steps: seq<Step>, user: UserId, b: BaseCoin, other: UserId, c: BaseCoin,
                                             key: Key, a: Address, j: InvoiceId)
    returns (all: seq<Step>)
    requires Exec(steps).Some? && Common(Exec(steps).value, user, b, other, c, key)
    requires PendingIn(Exec(steps).value.db, c, j) && Exec(steps).value.db.invoices[j].address == a
    requires a.key == key && AddressOk(c, a)
    ensures Extends(steps + [Update(other, c, NewKey(Exec(steps).value))], all)
    ensures Exec(all).Some? && !Exclusive(Exec(all).value.db, b)
  {
    var s := Exec(steps).value;
    var rekeyed := steps + [Update(other, c, NewKey(s))];
    NewKeyIsFree(s, other, c);
    ExecSnoc(steps, Update(other, c, NewKey(s)));
    RekeyStarts(s, user, b, other, c, key);
    var s0 := Exec(rekeyed).value;
    var n := AddressIndex(b, key, a);
    var staged := ReachStage(s0, rekeyed, user, b, key, 0, n);
    var i := LoudKeys.StagedHolds(s0, staged, user, b, key, n);
    assert PendingIn(s0.db, c, j) && PendingIn(Exec(staged).value.db, c, j);
    all := LoudKeys.ForeignInvoiceBreaks(staged, user, b, c, a, i, j);
    ExtendsTransitive(rekeyed, staged, all);
  }

  /** An update that gives b a key which the other coin has: if the other coin can still hand out an address to the
      user with that key, then one creation and one update with a quiet key, new to everything, are followed by a run of
      restarts and handler steps without rejections after which two pending invoices of b share an address. */
  lemma {:induction false} SharedKeyBreaks(steps: seq<Step>, user: UserId, b: BaseCoin, other: UserId, c: BaseCoin,
                                           key: Key, pick: Address)
    returns (create: Step, rekey: Step, all: seq<Step>)
    requires Exec(steps).Some?
    requires var s := Exec(steps).value;
             && b in s.procs && c in s.procs && c != b && FormatOf(c) == FormatOf(b) && Steps.Apart(s.db.pool, b)
             && !P.KeyTaken(s.db.pool, user, b, key)
             && (other, c) in s.db.pool.keys && s.db.pool.keys[(other, c)].key == key
    requires var p := P.UpdateKeys(Exec(steps).value.db.pool, user, [P.KeyRequest(b, key, true)]);
             P.PickOk(p, other, Base(c), pick) && P.Allocate(p, other, Base(c), c, pick).Some?
    ensures create.Handle? && create.base == c && create.act.DoCreate?
    ensures var s2 := Exec(steps + [Update(user, b, key)] + [create]);
            s2.Some? && rekey == Update(other, c, NewKey(s2.value))
            && Quiet(s2.value, b, NewKey(s2.value)) && Quiet(s2.value, c, NewKey(s2.value))
    ensures Extends(steps + [Update(user, b, key)] + [create] + [rekey], all)
    ensures Exec(all).Some? && !Exclusive(Exec(all).value.db, b)
  {
    UpdateMakesCommon(steps, user, b, other, c, key);
    var updated := steps + [Update(user, b, key)];
    ExecSnoc(steps, Update(user, b, key));
    var s1 := Exec(updated).value;
    create := Creation(s1, other, c, pick);
    var s2, a, j := CommonClaim(s1, user, b, other, c, key, pick);
    ExecSnoc(updated, create);
    RunConsistent(updated + [create]);
    NewKeyIsQuiet(s2, b);
    NewKeyIsQuiet(s2, c);
    rekey := Update(other, c, NewKey(s2));
    all := CommonClaimBreaks(updated + [create], user, b, other, c, key, a, j);
  }
}

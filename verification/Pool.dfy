/** The crypto_addresses and *_crypto_data tables: the address allocator and the key update transaction. */
module Pool {
  import opened Domain
  import opened Counter
  import Sums

  /** A row of a *_crypto_data table. */
  datatype KeyRow = KeyRow(key: Key, last: Indices)

  /** A row of crypto_addresses; the address column is UNIQUE and serves as map key. */
  datatype AddressRow = AddressRow(coin: BaseCoin, occupied: bool, user: UserId)

  datatype Pool = Pool(keys: map<(UserId, BaseCoin), KeyRow>, addresses: map<Address, AddressRow>)

  datatype Allocation = Allocation(pool: Pool, address: Address)

  /** One part of an UpdateCryptoKeys request; valid says whether the key parses. */
  datatype KeyRequest = KeyRequest(base: BaseCoin, key: Key, valid: bool)

  const EMPTY: Pool := Pool(map[], map[])

  // ----- Operations -----

  /** A row the SELECT of FindNonOccupiedCryptoAddressAndLockByUserIdAndCoin may return. */
  predicate FreeFor(p: Pool, user: UserId, coin: Coin, a: Address) {
    && a in p.addresses
    && p.addresses[a].user == user
    && Base(p.addresses[a].coin) == coin
    && !p.addresses[a].occupied
  }

  predicate HasFree(p: Pool, user: UserId, coin: Coin) {
    exists a | a in p.addresses :: FreeFor(p, user, coin, a)
  }

  function SetOccupied(p: Pool, a: Address, occupied: bool): Pool {
    if a in p.addresses then p.(addresses := p.addresses[a := p.addresses[a].(occupied := occupied)]) else p
  }

  /** The address the next increment of the counter leads to. */
  function NextAddress(p: Pool, user: UserId, b: BaseCoin): Option<Address> {
    if (user, b) in p.keys && Bump(p.keys[(user, b)].last).Some? then
      Some(Derived(FormatOf(b), p.keys[(user, b)].key, Bump(p.keys[(user, b)].last).value))
    else
      None
  }

  /** generateNextAddressHandler: advance the counter and insert the derived address as occupied. */
  function DeriveNext(p: Pool, user: UserId, b: BaseCoin): Option<Allocation> {
    match NextAddress(p, user, b)
    case None => None
    case Some(a) =>
      if a in p.addresses then None
      else
        Some(Allocation(Pool(p.keys[(user, b) := p.keys[(user, b)].(last := a.at)],
                             p.addresses[a := AddressRow(b, true, user)]),
                        a))
  }

  /** Which of the free rows the SELECT returns is not determined; pick stands for that choice. */
  predicate PickOk(p: Pool, user: UserId, coin: Coin, pick: Address) {
    HasFree(p, user, coin) ==> FreeFor(p, user, coin, pick)
  }

  /** The allocation inside createInvoice: reuse a free row of the requested coin, else derive. */
  function Allocate(p: Pool, user: UserId, coin: Coin, b: BaseCoin, pick: Address): Option<Allocation> {
    if HasFree(p, user, coin) then Some(Allocation(SetOccupied(p, pick, true), pick)) else DeriveNext(p, user, b)
  }

  /** Whether two key rows of one table violate a UNIQUE constraint. */
  predicate Clash(k: Key, k': Key) {
    match (k, k')
    case (Hd(m), Hd(m')) => m == m'
    case (Monero(v, s), Monero(v', s')) => v == v' || s == s'
    case _ => false
  }

  predicate KeyTaken(p: Pool, user: UserId, b: BaseCoin, key: Key) {
    exists k | k in p.keys :: k.0 != user && k.1 == b && Clash(p.keys[k].key, key)
  }

  function DeleteRows(p: Pool, user: UserId, b: BaseCoin): map<Address, AddressRow> {
    map a | a in p.addresses && !(p.addresses[a].user == user && p.addresses[a].coin == b) :: p.addresses[a]
  }

  /** handleXmrCryptoDataUpdate and handleHDKeysCryptoDataUpdate; None is any of their errors. */
  function UpdateKey(p: Pool, user: UserId, r: KeyRequest): Option<Pool> {
    if !r.valid || KeyTaken(p, user, r.base, r.key) then None
    else Some(Pool(p.keys[(user, r.base) := KeyRow(r.key, RESET)], DeleteRows(p, user, r.base)))
  }

  /** The handlers of one request in order, stopping at the first error. */
  function UpdateEach(p: Pool, user: UserId, rs: seq<KeyRequest>): Option<Pool>
    decreases |rs|
  {
    if rs == [] then Some(p)
    else
      match UpdateKey(p, user, rs[0])
      case None => None
      case Some(p') => UpdateEach(p', user, rs[1..])
  }

  /** The key that an accepted request leaves the user with for the coin, if it has a part for the coin. */
  function KeyFor(rs: seq<KeyRequest>, b: BaseCoin): Option<Key> {
    if rs == [] then None
    else if KeyFor(rs[1..], b).Some? then KeyFor(rs[1..], b)
    else if rs[0].base == b then Some(rs[0].key)
    else None
  }

  /** UpdateCryptoKeys: one transaction, rolled back as a whole by any error. */
  function UpdateKeys(p: Pool, user: UserId, rs: seq<KeyRequest>): Pool {
    match UpdateEach(p, user, rs)
    case None => p
    case Some(p') => p'
  }

  // ----- Runs -----

  datatype Op =
    | Alloc(user: UserId, coin: Coin, base: BaseCoin, pick: Address)
    | Release(address: Address)
    | Keys(owner: UserId, requests: seq<KeyRequest>)

  function Apply(p: Pool, op: Op): Pool {
    match op
    case Alloc(user, coin, b, pick) =>
      var r := Allocate(p, user, coin, b, pick);
      if r.Some? then r.value.pool else p
    case Release(a) => SetOccupied(p, a, false)
    case Keys(user, rs) => UpdateKeys(p, user, rs)
  }

  predicate OpOk(p: Pool, op: Op) {
    op.Alloc? ==> Home(op.coin) == Some(op.base) && PickOk(p, op.user, op.coin, op.pick)
  }

  /** The pool after a run from the empty tables; None if some step was not possible. */
  function Exec(ops: seq<Op>): Option<Pool> {
    if ops == [] then Some(EMPTY)
    else
      var n := |ops| - 1;
      match Exec(ops[..n])
      case None => None
      case Some(p) => if OpOk(p, ops[n]) then Some(Apply(p, ops[n])) else None
  }

  // ----- The pool matches the current keys -----

  predicate HasRow(p: Pool, user: UserId, b: BaseCoin, a: Address) {
    a in p.addresses && p.addresses[a].user == user && p.addresses[a].coin == b
  }

  /** The address derives from the user's current key at an index between 1 and the current counter. */
  predicate Issued(p: Pool, user: UserId, b: BaseCoin, a: Address) {
    && (user, b) in p.keys
    && a.format == FormatOf(b)
    && a.key == p.keys[(user, b)].key
    && InRange(a.at)
    && 1 <= Value(a.at) <= Value(p.keys[(user, b)].last)
  }

  ghost predicate KeysOk(p: Pool) {
    && (forall k :: k in p.keys ==> InRange(p.keys[k].last))
    && (forall u, u', b :: u != u' && (u, b) in p.keys && (u', b) in p.keys
                           ==> !Clash(p.keys[(u, b)].key, p.keys[(u', b)].key))
  }

  ghost predicate RowsMatchKeys(p: Pool) {
    forall user, b, a :: HasRow(p, user, b, a) <==> Issued(p, user, b, a)
  }

  ghost predicate PoolOk(p: Pool) {
    KeysOk(p) && RowsMatchKeys(p)
  }

  /** The premise on the shared encoding: no ETH key is also a BNB key. */
  ghost predicate EvmKeysDisjoint(p: Pool) {
    forall u, u' :: (u, ETH) in p.keys && (u', BNB) in p.keys ==> p.keys[(u, ETH)].key != p.keys[(u', BNB)].key
  }

  /** An address in the table belongs to one row, so a second coin can only meet it through the shared encoding. */
  lemma SameAddressSameKey(p: Pool, user: UserId, b: BaseCoin, a: Address)
    requires PoolOk(p) && (user, b) in p.keys
    requires a in p.addresses && a.format == FormatOf(b) && a.key == p.keys[(user, b)].key
    ensures var r := p.addresses[a];
            && Issued(p, r.user, r.coin, a)
            && (r.coin == b ==> r.user == user)
            && (r.coin != b ==> {r.coin, b} == {ETH, BNB})
  {
    var r := p.addresses[a];
    assert HasRow(p, r.user, r.coin, a);
    assert Clash(a.key, a.key);
  }

  /** Inserting the next derived address never collides for XMR, BTC and LTC, nor for ETH and BNB with disjoint keys. */
  lemma NextNeverCollides(p: Pool, user: UserId, b: BaseCoin)
    requires PoolOk(p)
    requires FormatOf(b) != FEvm || EvmKeysDisjoint(p)
    ensures var n := NextAddress(p, user, b);
            && (n.Some? ==> n.value !in p.addresses)
            && DeriveNext(p, user, b).Some? == n.Some?
  {
    var n := NextAddress(p, user, b);
    if n.Some? && n.value in p.addresses {
      var a := n.value;
      BumpIsSuccessor(p.keys[(user, b)].last);
      SameAddressSameKey(p, user, b, a);
    }
  }

  lemma DeriveKeepsPoolOk(p: Pool, user: UserId, b: BaseCoin)
    requires PoolOk(p) && DeriveNext(p, user, b).Some?
    ensures PoolOk(DeriveNext(p, user, b).value.pool)
  {
    var r := DeriveNext(p, user, b).value;
    var p', added := r.pool, r.address;
    BumpIsSuccessor(p.keys[(user, b)].last);
    forall u: UserId, c, a
      ensures HasRow(p', u, c, a) <==> Issued(p', u, c, a)
    {
      assert HasRow(p, u, c, a) <==> Issued(p, u, c, a);
      if a == added {
        assert HasRow(p', u, c, a) ==> (u, c) == (user, b);
        if Issued(p', u, c, a) && (u, c) != (user, b) {
          assert Issued(p, u, c, a);
        }
      } else if (u, c) == (user, b) && Issued(p', u, c, a) {
        AtInvertsValue(a.at);
        AtInvertsValue(added.at);
      }
    }
  }

  lemma SetOccupiedKeepsPoolOk(p: Pool, a: Address, occupied: bool)
    requires PoolOk(p)
    ensures PoolOk(SetOccupied(p, a, occupied))
  {
    var p' := SetOccupied(p, a, occupied);
    forall u: UserId, c, x
      ensures HasRow(p', u, c, x) <==> Issued(p', u, c, x)
    {
      assert HasRow(p, u, c, x) <==> Issued(p, u, c, x);
    }
  }

  lemma UpdateKeyKeepsPoolOk(p: Pool, user: UserId, r: KeyRequest)
    requires PoolOk(p) && UpdateKey(p, user, r).Some?
    ensures PoolOk(UpdateKey(p, user, r).value)
  {
    var p' := UpdateKey(p, user, r).value;
    forall u: UserId, c, a
      ensures HasRow(p', u, c, a) <==> Issued(p', u, c, a)
    {
      assert HasRow(p, u, c, a) <==> Issued(p, u, c, a);
    }
    forall u: UserId, u': UserId, b | u != u' && (u, b) in p'.keys && (u', b) in p'.keys
      ensures !Clash(p'.keys[(u, b)].key, p'.keys[(u', b)].key)
    {
      ClashSymmetric(p'.keys[(u, b)].key, p'.keys[(u', b)].key);
    }
  }

  lemma ClashSymmetric(k: Key, k': Key)
    ensures Clash(k, k') == Clash(k', k)
  {
  }

  /** A user may submit the current key again: no other user has it, and the rows and the counter start over. */
  lemma OwnKeyAccepted(p: Pool, user: UserId, b: BaseCoin)
    requires KeysOk(p) && (user, b) in p.keys
    ensures var r := UpdateKey(p, user, KeyRequest(b, p.keys[(user, b)].key, true));
            && r.Some?
            && r.value.keys == p.keys[(user, b) := KeyRow(p.keys[(user, b)].key, Indices(0, 0))]
            && forall a :: a in r.value.addresses <==>
                 a in p.addresses && (p.addresses[a].user != user || p.addresses[a].coin != b)
  {
    forall k | k in p.keys && k.0 != user && k.1 == b
      ensures !Clash(p.keys[k].key, p.keys[(user, b)].key)
    {
      assert k == (k.0, b);
    }
  }

  lemma {:induction false} UpdateEachKeepsPoolOk(p: Pool, user: UserId, rs: seq<KeyRequest>)
    requires PoolOk(p) && UpdateEach(p, user, rs).Some?
    ensures PoolOk(UpdateEach(p, user, rs).value)
    decreases |rs|
  {
    if rs != [] {
      UpdateKeyKeepsPoolOk(p, user, rs[0]);
      UpdateEachKeepsPoolOk(UpdateKey(p, user, rs[0]).value, user, rs[1..]);
    }
  }

  lemma AllocateKeepsPoolOk(p: Pool, user: UserId, coin: Coin, b: BaseCoin, pick: Address)
    requires PoolOk(p) && Allocate(p, user, coin, b, pick).Some?
    ensures PoolOk(Allocate(p, user, coin, b, pick).value.pool)
  {
    if HasFree(p, user, coin) {
      SetOccupiedKeepsPoolOk(p, pick, true);
    } else {
      DeriveKeepsPoolOk(p, user, b);
    }
  }

  lemma UpdateKeysKeepsPoolOk(p: Pool, user: UserId, rs: seq<KeyRequest>)
    requires PoolOk(p)
    ensures PoolOk(UpdateKeys(p, user, rs))
  {
    if UpdateEach(p, user, rs).Some? {
      UpdateEachKeepsPoolOk(p, user, rs);
    }
  }

  lemma ApplyKeepsPoolOk(p: Pool, op: Op)
    requires PoolOk(p)
    ensures PoolOk(Apply(p, op))
  {
    match op
    case Alloc(user, coin, b, pick) =>
      if Allocate(p, user, coin, b, pick).Some? {
        AllocateKeepsPoolOk(p, user, coin, b, pick);
      }
    case Release(a) => SetOccupiedKeepsPoolOk(p, a, false);
    case Keys(user, rs) => UpdateKeysKeepsPoolOk(p, user, rs);
  }

  /** Over every run of allocations, releases and key updates (the same key again included), the address rows of a user
      and coin are exactly the derivations of the current key at 1..counter. */
  lemma {:induction false} PoolMatchesKeys(ops: seq<Op>)
    requires Exec(ops).Some?
    ensures PoolOk(Exec(ops).value)
  {
    if ops == [] {
    } else {
      var n := |ops| - 1;
      PoolMatchesKeys(ops[..n]);
      ApplyKeepsPoolOk(Exec(ops[..n]).value, ops[n]);
    }
  }

  // ----- The allocator bound -----

  function RowsOf(p: Pool, user: UserId, b: BaseCoin): set<Address> {
    set a | a in p.addresses && HasRow(p, user, b, a)
  }

  function OccupiedOf(p: Pool, user: UserId, b: BaseCoin): set<Address> {
    set a | a in p.addresses && HasRow(p, user, b, a) && p.addresses[a].occupied
  }

  /** The step is a key change of that user and coin that takes effect; one that is refused is rolled back. */
  predicate Rekeys(p: Pool, op: Op, user: UserId, b: BaseCoin) {
    op.Keys? && op.owner == user && KeyFor(op.requests, b).Some? && UpdateEach(p, user, op.requests).Some?
  }

  /** No key change of that user and coin took effect since the point after r steps. */
  ghost predicate KeyStays(ops: seq<Op>, r: nat, user: UserId, b: BaseCoin) {
    forall j :: r <= j < |ops| && Exec(ops[..j]).Some? ==> !Rekeys(Exec(ops[..j]).value, ops[j], user, b)
  }

  /** The allocation asks for the base coin itself, not for a token it carries; always so for XMR, BTC and LTC. */
  predicate NativeFor(op: Op, user: UserId, b: BaseCoin) {
    op.Alloc? && op.user == user && op.base == b ==> op.coin == Base(b)
  }

  /** The point after r steps is the start, or follows a key change of that user and coin that took effect. */
  ghost predicate FreshStart(ops: seq<Op>, r: nat, user: UserId, b: BaseCoin) {
    && r <= |ops|
    && (r > 0 ==> Exec(ops[..r - 1]).Some? && Rekeys(Exec(ops[..r - 1]).value, ops[r - 1], user, b))
  }

  /** An accepted request with a part for the coin leaves the user that key, the counter at the start and no row. */
  lemma {:induction false} UpdateEachWipes(p: Pool, user: UserId, b: BaseCoin, rs: seq<KeyRequest>)
    requires UpdateEach(p, user, rs).Some? && KeyFor(rs, b).Some?
    ensures var p' := UpdateEach(p, user, rs).value;
            && (user, b) in p'.keys && p'.keys[(user, b)] == KeyRow(KeyFor(rs, b).value, RESET)
            && RowsOf(p', user, b) == {}
    decreases |rs|
  {
    var p1 := UpdateKey(p, user, rs[0]).value;
    if KeyFor(rs[1..], b).Some? {
      UpdateEachWipes(p1, user, b, rs[1..]);
    } else {
      UpdateEachFrame(p1, user, rs[1..], user, b);
      assert RowsOf(p1, user, b) == {};
    }
  }

  /** It leaves the key, counter and rows of every other user and coin alone. */
  lemma {:induction false} UpdateEachFrame(p: Pool, owner: UserId, rs: seq<KeyRequest>, user: UserId, b: BaseCoin)
    requires UpdateEach(p, owner, rs).Some? && (owner != user || KeyFor(rs, b).None?)
    ensures var p' := UpdateEach(p, owner, rs).value;
            && ((user, b) in p'.keys <==> (user, b) in p.keys)
            && ((user, b) in p.keys ==> p'.keys[(user, b)] == p.keys[(user, b)])
            && (forall a :: HasRow(p', user, b, a) <==> HasRow(p, user, b, a))
            && (forall a :: HasRow(p, user, b, a) ==> p'.addresses[a] == p.addresses[a])
    decreases |rs|
  {
    if rs != [] {
      UpdateEachFrame(UpdateKey(p, owner, rs[0]).value, owner, rs[1..], user, b);
    }
  }

  /** The allocation derives a new address: the SELECT finds no free row of the requested coin, and the counter
      moves. */
  predicate Derives(p: Pool, op: Op, user: UserId, b: BaseCoin) {
    op.Alloc? && op.user == user && op.base == b && !HasFree(p, user, op.coin) && DeriveNext(p, user, b).Some?
  }

  /** It does so although some row of the user and coin is free. */
  predicate Wastes(p: Pool, op: Op, user: UserId, b: BaseCoin) {
    Derives(p, op, user, b) && OccupiedOf(p, user, b) != RowsOf(p, user, b)
  }

  /** A request for the base coin itself never wastes a row. */
  lemma NativeNeverWastes(p: Pool, op: Op, user: UserId, b: BaseCoin)
    requires NativeFor(op, user, b)
    ensures !Wastes(p, op, user, b)
  {
    if Derives(p, op, user, b) {
      forall a | a in RowsOf(p, user, b)
        ensures a in OccupiedOf(p, user, b)
      {
        assert !FreeFor(p, user, op.coin, a);
      }
    }
  }

  /** A step that does not change the key leaves the rows as they are, or derives and adds one occupied row. */
  lemma RowsGrowByDeriving(p: Pool, op: Op, user: UserId, b: BaseCoin)
    requires !Rekeys(p, op, user, b)
    ensures var p' := Apply(p, op);
            if Derives(p, op, user, b) then
              var a := DeriveNext(p, user, b).value.address;
              && a !in RowsOf(p, user, b) && RowsOf(p', user, b) == RowsOf(p, user, b) + {a}
              && OccupiedOf(p', user, b) == OccupiedOf(p, user, b) + {a}
            else RowsOf(p', user, b) == RowsOf(p, user, b)
  {
    match op
    case Alloc(u, coin, c, pick) =>
    case Release(a) =>
    case Keys(owner, rs) =>
      if UpdateEach(p, owner, rs).Some? {
        UpdateEachFrame(p, owner, rs, user, b);
        assert RowsOf(Apply(p, op), user, b) == RowsOf(p, user, b);
      }
  }

  /** How many rows of the user and coin are occupied after the run. */
  ghost function OccupiedAfter(ops: seq<Op>, user: UserId, b: BaseCoin): nat {
    if Exec(ops).Some? then |OccupiedOf(Exec(ops).value, user, b)| else 0
  }

  ghost predicate NeverAbove(ops: seq<Op>, r: nat, user: UserId, b: BaseCoin, count: nat) {
    forall j :: r <= j <= |ops| ==> OccupiedAfter(ops[..j], user, b) <= count
  }

  ghost predicate Reached(ops: seq<Op>, r: nat, user: UserId, b: BaseCoin, count: nat) {
    exists j :: r <= j <= |ops| && OccupiedAfter(ops[..j], user, b) == count
  }

  /** No state of the run since the point after r steps had more than count rows occupied, and some state had count. */
  ghost predicate PeakIs(ops: seq<Op>, r: nat, user: UserId, b: BaseCoin, count: nat) {
    NeverAbove(ops, r, user, b, count) && Reached(ops, r, user, b, count)
  }

  lemma NeverAboveSnoc(ops: seq<Op>, r: nat, user: UserId, b: BaseCoin, count: nat, count': nat)
    requires r < |ops| && NeverAbove(ops[..|ops| - 1], r, user, b, count) && count <= count'
    requires OccupiedAfter(ops, user, b) <= count'
    ensures NeverAbove(ops, r, user, b, count')
  {
    forall j | r <= j <= |ops|
      ensures OccupiedAfter(ops[..j], user, b) <= count'
    {
      if j < |ops| {
        assert ops[..|ops| - 1][..j] == ops[..j];
      } else {
        assert ops[..j] == ops;
      }
    }
  }

  lemma ReachedSnoc(ops: seq<Op>, r: nat, user: UserId, b: BaseCoin, count: nat)
    requires r < |ops| && (Reached(ops[..|ops| - 1], r, user, b, count) || OccupiedAfter(ops, user, b) == count)
    ensures Reached(ops, r, user, b, count)
  {
    if OccupiedAfter(ops, user, b) == count {
      assert ops[..|ops|] == ops;
    } else {
      var init := ops[..|ops| - 1];
      var j :| r <= j <= |init| && OccupiedAfter(init[..j], user, b) == count;
      assert init[..j] == ops[..j];
    }
  }

  /** The bound: the number of rows is the peak number simultaneously occupied since the point after r steps. */
  ghost predicate BoundAt(ops: seq<Op>, r: nat, user: UserId, b: BaseCoin) {
    Exec(ops).Some? && PeakIs(ops, r, user, b, |RowsOf(Exec(ops).value, user, b)|)
  }

  lemma CountsGrow(p: Pool, op: Op, user: UserId, b: BaseCoin)
    requires !Rekeys(p, op, user, b)
    ensures var p' := Apply(p, op);
            && |OccupiedOf(p', user, b)| <= |RowsOf(p', user, b)|
            && (if Derives(p, op, user, b) then
                  && |RowsOf(p', user, b)| == |RowsOf(p, user, b)| + 1
                  && |OccupiedOf(p', user, b)| == |OccupiedOf(p, user, b)| + 1
                else |RowsOf(p', user, b)| == |RowsOf(p, user, b)|)
            && (OccupiedOf(p, user, b) != RowsOf(p, user, b) <==> |OccupiedOf(p, user, b)| < |RowsOf(p, user, b)|)
  {
    RowsGrowByDeriving(p, op, user, b);
    Sums.SubsetSize(OccupiedOf(Apply(p, op), user, b), RowsOf(Apply(p, op), user, b));
    var free := RowsOf(p, user, b) - OccupiedOf(p, user, b);
    assert RowsOf(p, user, b) == OccupiedOf(p, user, b) + free;
  }

  /** The exact condition, for native and token requests of every coin: a step that does not change the key keeps the
      bound exactly if it does not derive while some row is free. */
  lemma BoundKeptIff(ops: seq<Op>, r: nat, user: UserId, b: BaseCoin)
    requires Exec(ops).Some? && r < |ops| && BoundAt(ops[..|ops| - 1], r, user, b)
    requires !Rekeys(Exec(ops[..|ops| - 1]).value, ops[|ops| - 1], user, b)
    ensures BoundAt(ops, r, user, b) <==> !Wastes(Exec(ops[..|ops| - 1]).value, ops[|ops| - 1], user, b)
  {
    var n := |ops| - 1;
    var p := Exec(ops[..n]).value;
    var rows, rows' := |RowsOf(p, user, b)|, |RowsOf(Exec(ops).value, user, b)|;
    CountsGrow(p, ops[n], user, b);
    if Wastes(p, ops[n], user, b) {
      NeverAboveSnoc(ops, r, user, b, rows, rows);
      NotReached(ops, r, user, b, rows, rows');
    } else {
      NeverAboveSnoc(ops, r, user, b, rows, rows');
      ReachedSnoc(ops, r, user, b, rows');
    }
  }

  lemma NotReached(ops: seq<Op>, r: nat, user: UserId, b: BaseCoin, count: nat, more: nat)
    requires NeverAbove(ops, r, user, b, count) && count < more
    ensures !Reached(ops, r, user, b, more)
  {
  }

  lemma BoundStarts(ops: seq<Op>, user: UserId, b: BaseCoin)
    requires Exec(ops).Some? && FreshStart(ops, |ops|, user, b)
    ensures BoundAt(ops, |ops|, user, b)
  {
    var n := |ops|;
    assert ops[..n] == ops;
    if n > 0 {
      UpdateEachWipes(Exec(ops[..n - 1]).value, user, b, ops[n - 1].requests);
    }
    var p := Exec(ops).value;
    assert RowsOf(p, user, b) == {};
    Sums.SubsetSize(OccupiedOf(p, user, b), RowsOf(p, user, b));
  }

  /** No step since the last key change derived while some row was free. */
  ghost predicate NoWaste(ops: seq<Op>, r: nat, user: UserId, b: BaseCoin) {
    forall j :: r <= j < |ops| && Exec(ops[..j]).Some? ==> !Wastes(Exec(ops[..j]).value, ops[j], user, b)
  }

  ghost predicate BoundThroughout(ops: seq<Op>, r: nat, user: UserId, b: BaseCoin) {
    forall j :: r <= j <= |ops| ==> BoundAt(ops[..j], r, user, b)
  }

  lemma ThroughoutSnoc(ops: seq<Op>, r: nat, user: UserId, b: BaseCoin)
    requires r < |ops|
    ensures BoundThroughout(ops, r, user, b)
       <==> BoundThroughout(ops[..|ops| - 1], r, user, b) && BoundAt(ops, r, user, b)
  {
    var n := |ops| - 1;
    assert ops[..n + 1] == ops;
    forall j | r <= j <= n
      ensures ops[..n][..j] == ops[..j]
    {
    }
    if BoundThroughout(ops, r, user, b) {
      forall j | r <= j <= n
        ensures BoundAt(ops[..n][..j], r, user, b)
      {
        assert BoundAt(ops[..j], r, user, b);
      }
    } else if BoundThroughout(ops[..n], r, user, b) && BoundAt(ops, r, user, b) {
      forall j | r <= j <= n + 1
        ensures BoundAt(ops[..j], r, user, b)
      {
        assert j <= n ==> BoundAt(ops[..n][..j], r, user, b);
      }
      assert false;
    }
  }

  lemma NoWastePrefix(ops: seq<Op>, r: nat, user: UserId, b: BaseCoin)
    requires r < |ops| && Exec(ops).Some? && NoWaste(ops, r, user, b)
    ensures NoWaste(ops[..|ops| - 1], r, user, b)
    ensures !Wastes(Exec(ops[..|ops| - 1]).value, ops[|ops| - 1], user, b)
  {
    var init := ops[..|ops| - 1];
    forall j | r <= j < |init| && Exec(init[..j]).Some?
      ensures !Wastes(Exec(init[..j]).value, init[j], user, b)
    {
      assert init[..j] == ops[..j] && init[j] == ops[j];
    }
  }

  lemma NoWasteSnoc(ops: seq<Op>, r: nat, user: UserId, b: BaseCoin)
    requires r < |ops| && Exec(ops).Some?
    requires NoWaste(ops[..|ops| - 1], r, user, b)
    requires !Wastes(Exec(ops[..|ops| - 1]).value, ops[|ops| - 1], user, b)
    ensures NoWaste(ops, r, user, b)
  {
    var init := ops[..|ops| - 1];
    forall j | r <= j < |ops| && Exec(ops[..j]).Some?
      ensures !Wastes(Exec(ops[..j]).value, ops[j], user, b)
    {
      if j == |init| {
        assert ops[..j] == init && ops[j] == ops[|ops| - 1];
      } else {
        assert init[..j] == ops[..j] && init[j] == ops[j];
      }
    }
  }

  lemma KeyStaysPrefix(ops: seq<Op>, r: nat, user: UserId, b: BaseCoin)
    requires r < |ops| && Exec(ops).Some? && KeyStays(ops, r, user, b)
    ensures KeyStays(ops[..|ops| - 1], r, user, b)
    ensures !Rekeys(Exec(ops[..|ops| - 1]).value, ops[|ops| - 1], user, b)
  {
    var init := ops[..|ops| - 1];
    forall j | r <= j < |init| && Exec(init[..j]).Some?
      ensures !Rekeys(Exec(init[..j]).value, init[j], user, b)
    {
      assert init[..j] == ops[..j] && init[j] == ops[j];
    }
  }

  /** The number of rows is the peak number simultaneously occupied, at every point since the last key change, exactly
      if no allocation since then derived while some row was free. */
  lemma {:induction false} BoundIffNoWaste(ops: seq<Op>, r: nat, user: UserId, b: BaseCoin)
    requires Exec(ops).Some? && FreshStart(ops, r, user, b) && KeyStays(ops, r, user, b)
    ensures BoundThroughout(ops, r, user, b) <==> NoWaste(ops, r, user, b)
    decreases |ops|
  {
    if r == |ops| {
      assert ops[..r] == ops;
      BoundStarts(ops, user, b);
    } else {
      FreshStartPrefix(ops, r, user, b);
      KeyStaysPrefix(ops, r, user, b);
      BoundIffNoWaste(ops[..|ops| - 1], r, user, b);
      ThroughoutSnoc(ops, r, user, b);
      if NoWaste(ops, r, user, b) {
        NoWastePrefix(ops, r, user, b);
      }
      if NoWaste(ops[..|ops| - 1], r, user, b) && !Wastes(Exec(ops[..|ops| - 1]).value, ops[|ops| - 1], user, b) {
        NoWasteSnoc(ops, r, user, b);
      }
      if BoundThroughout(ops[..|ops| - 1], r, user, b) {
        assert ops[..|ops| - 1][..|ops| - 1] == ops[..|ops| - 1];
        BoundKeptIff(ops, r, user, b);
      }
    }
  }

  /** Without token requests (for XMR, BTC and LTC there are none) the bound always holds. */
  lemma AllocatorBound(ops: seq<Op>, r: nat, user: UserId, b: BaseCoin)
    requires Exec(ops).Some? && FreshStart(ops, r, user, b) && KeyStays(ops, r, user, b)
    requires FormatOf(b) == FEvm ==> forall j :: r <= j < |ops| ==> NativeFor(ops[j], user, b)
    ensures BoundAt(ops, r, user, b)
  {
    forall j | r <= j < |ops| && Exec(ops[..j]).Some?
      ensures !Wastes(Exec(ops[..j]).value, ops[j], user, b)
    {
      RequestsAreNative(ops, j, user, b);
      NativeNeverWastes(Exec(ops[..j]).value, ops[j], user, b);
    }
    BoundIffNoWaste(ops, r, user, b);
    assert ops[..|ops|] == ops;
  }

  /** The processors of XMR, BTC and LTC support their base coin only. */
  lemma {:induction false} RequestsAreNative(ops: seq<Op>, j: nat, user: UserId, b: BaseCoin)
    requires Exec(ops).Some? && j < |ops| && (FormatOf(b) == FEvm ==> NativeFor(ops[j], user, b))
    ensures NativeFor(ops[j], user, b)
    decreases |ops|
  {
    if j < |ops| - 1 {
      RequestsAreNative(ops[..|ops| - 1], j, user, b);
    }
  }

  lemma FreshStartPrefix(ops: seq<Op>, r: nat, user: UserId, b: BaseCoin)
    requires FreshStart(ops, r, user, b) && r < |ops|
    ensures FreshStart(ops[..|ops| - 1], r, user, b)
  {
    if r > 0 {
      assert ops[..|ops| - 1][..r - 1] == ops[..r - 1];
    }
  }

  function Issue(p: Pool, user: UserId, b: BaseCoin, n: nat): set<Address>
    requires (user, b) in p.keys
  {
    set i: nat | 1 <= i <= n :: Derived(FormatOf(b), p.keys[(user, b)].key, At(i))
  }

  lemma {:induction false} IssueSize(p: Pool, user: UserId, b: BaseCoin, n: nat)
    requires (user, b) in p.keys && n < CAPACITY
    ensures |Issue(p, user, b, n)| == n
  {
    if n > 0 {
      IssueSize(p, user, b, n - 1);
      var a := Derived(FormatOf(b), p.keys[(user, b)].key, At(n));
      ValueInvertsAt(n);
      assert a !in Issue(p, user, b, n - 1) by {
        forall i: nat | 1 <= i <= n - 1
          ensures At(i) != At(n)
        {
          ValueInvertsAt(i);
        }
      }
      assert Issue(p, user, b, n) == Issue(p, user, b, n - 1) + {a};
    }
  }

  /** The counter counts the rows: a user's rows of a coin are the derivations at 1..counter, so there are counter
      many. */
  lemma CounterCountsRows(p: Pool, user: UserId, b: BaseCoin)
    requires PoolOk(p) && (user, b) in p.keys
    ensures var n := Value(p.keys[(user, b)].last);
            n >= 0 && RowsOf(p, user, b) == Issue(p, user, b, n) && |RowsOf(p, user, b)| == n
  {
    var last := p.keys[(user, b)].last;
    AtInvertsValue(last);
    var n: nat := Value(last);
    forall a
      ensures a in RowsOf(p, user, b) <==> a in Issue(p, user, b, n)
    {
      assert HasRow(p, user, b, a) <==> Issued(p, user, b, a);
      if Issued(p, user, b, a) {
        AtInvertsValue(a.at);
        var i: nat := Value(a.at);
        assert a == Derived(FormatOf(b), p.keys[(user, b)].key, At(i));
      }
      if a in Issue(p, user, b, n) {
        var i: nat :| 1 <= i <= n && a == Derived(FormatOf(b), p.keys[(user, b)].key, At(i));
        ValueInvertsAt(i);
      }
    }
    IssueSize(p, user, b, n);
  }

  lemma ExecSnoc(ops: seq<Op>, op: Op)
    requires Exec(ops).Some? && OpOk(Exec(ops).value, op)
    ensures Exec(ops + [op]) == Some(Apply(Exec(ops).value, op))
  {
    assert (ops + [op])[..|ops|] == ops;
  }

  const TOKEN_KEY: Op := Keys(0, [KeyRequest(ETH, Hd(7), true)])
  const FIRST_ADDRESS: Address := Derived(FEvm, Hd(7), Indices(0, 1))
  const SECOND_ADDRESS: Address := Derived(FEvm, Hd(7), Indices(0, 2))
  const TOKEN_ALLOC: Op := Alloc(0, Erc20(0), ETH, FIRST_ADDRESS)

  const KEYED: Pool := Pool(map[(0, ETH) := KeyRow(Hd(7), RESET)], map[])
  const ONE_TAKEN: Pool :=
    Pool(map[(0, ETH) := KeyRow(Hd(7), Indices(0, 1))], map[FIRST_ADDRESS := AddressRow(ETH, true, 0)])
  const ONE_FREE: Pool := Pool(ONE_TAKEN.keys, map[FIRST_ADDRESS := AddressRow(ETH, false, 0)])
  const TWO_ROWS: Pool :=
    Pool(map[(0, ETH) := KeyRow(Hd(7), Indices(0, 2))],
         map[FIRST_ADDRESS := AddressRow(ETH, false, 0), SECOND_ADDRESS := AddressRow(ETH, true, 0)])

  /** What one token allocation, its release and a second token allocation leave behind. */
  lemma TokenStates()
    ensures Exec([TOKEN_KEY]) == Some(KEYED)
    ensures Exec([TOKEN_KEY, TOKEN_ALLOC]) == Some(ONE_TAKEN)
    ensures Exec([TOKEN_KEY, TOKEN_ALLOC, Release(FIRST_ADDRESS)]) == Some(ONE_FREE)
    ensures Exec([TOKEN_KEY, TOKEN_ALLOC, Release(FIRST_ADDRESS), TOKEN_ALLOC]) == Some(TWO_ROWS)
  {
    assert UpdateEach(EMPTY, 0, TOKEN_KEY.requests) == UpdateKey(EMPTY, 0, TOKEN_KEY.requests[0]);
    assert Apply(EMPTY, TOKEN_KEY).addresses == KEYED.addresses;
    assert Apply(EMPTY, TOKEN_KEY) == KEYED;
    assert Apply(KEYED, TOKEN_ALLOC) == ONE_TAKEN;
    assert Apply(ONE_TAKEN, Release(FIRST_ADDRESS)) == ONE_FREE;
    assert Apply(ONE_FREE, TOKEN_ALLOC) == TWO_ROWS;
    ExecSnoc([], TOKEN_KEY);
    assert [] + [TOKEN_KEY] == [TOKEN_KEY];
    ExecSnoc([TOKEN_KEY], TOKEN_ALLOC);
    assert [TOKEN_KEY] + [TOKEN_ALLOC] == [TOKEN_KEY, TOKEN_ALLOC];
    ExecSnoc([TOKEN_KEY, TOKEN_ALLOC], Release(FIRST_ADDRESS));
    assert [TOKEN_KEY, TOKEN_ALLOC] + [Release(FIRST_ADDRESS)] == [TOKEN_KEY, TOKEN_ALLOC, Release(FIRST_ADDRESS)];
    ExecSnoc([TOKEN_KEY, TOKEN_ALLOC, Release(FIRST_ADDRESS)], TOKEN_ALLOC);
    assert [TOKEN_KEY, TOKEN_ALLOC, Release(FIRST_ADDRESS)] + [TOKEN_ALLOC]
        == [TOKEN_KEY, TOKEN_ALLOC, Release(FIRST_ADDRESS), TOKEN_ALLOC];
  }

  /** The bound fails for tokens: the generated rows carry the base coin, so a token request finds no free row and
      derives again although the first address was released. */
  lemma TokenBoundFails()
    ensures var ops := [TOKEN_KEY, TOKEN_ALLOC, Release(FIRST_ADDRESS), TOKEN_ALLOC];
            && Exec(ops).Some? && |RowsOf(Exec(ops).value, 0, ETH)| == 2
            && forall j :: 0 <= j <= 4 ==>
                 Exec(ops[..j]).Some? && |OccupiedOf(Exec(ops[..j]).value, 0, ETH)| <= 1
  {
    var ops := [TOKEN_KEY, TOKEN_ALLOC, Release(FIRST_ADDRESS), TOKEN_ALLOC];
    TokenStates();
    assert RowsOf(Exec(ops).value, 0, ETH) == {FIRST_ADDRESS, SECOND_ADDRESS};
    forall j | 0 <= j <= 4
      ensures Exec(ops[..j]).Some? && |OccupiedOf(Exec(ops[..j]).value, 0, ETH)| <= 1
    {
      assert ops[..0] == [] && ops[..1] == [TOKEN_KEY] && ops[..2] == [TOKEN_KEY, TOKEN_ALLOC]
          && ops[..3] == [TOKEN_KEY, TOKEN_ALLOC, Release(FIRST_ADDRESS)] && ops[..4] == ops;
      Sums.SubsetSize(OccupiedOf(Exec(ops[..j]).value, 0, ETH), if j == 4 then {SECOND_ADDRESS} else {FIRST_ADDRESS});
    }
  }
}

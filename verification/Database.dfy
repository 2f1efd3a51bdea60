/** The tables, changed in place by the SQL statements. A statement that fails changes nothing. */
module Database {
  import opened Domain
  import opened Lifecycle
  import P = Pool
  import Frames

  class Queries {
    var invoices: map<InvoiceId, Invoice>
    var keys: map<(UserId, BaseCoin), P.KeyRow>
    var addresses: map<Address, P.AddressRow>
    var heights: map<BaseCoin, Option<int>>
    ghost var audit: seq<StatusWrite>
    ghost var confs: map<InvoiceId, nat>

    ghost function PoolView(): P.Pool
      reads this
    {
      P.Pool(keys, addresses)
    }

    ghost function View(): Db
      reads this
    {
      Db(invoices, PoolView(), audit, confs)
    }

    /** id is the primary key. */
    ghost predicate Keyed()
      reads this
    {
      forall id :: id in invoices ==> invoices[id].id == id
    }

    // ----- Transactions on the address tables -----

    /** What a rollback restores. */
    function Save(): P.Pool
      reads this
    {
      P.Pool(keys, addresses)
    }

    method Rollback(saved: P.Pool)
      modifies this`keys, this`addresses
      ensures PoolView() == saved
    {
      keys, addresses := saved.keys, saved.addresses;
    }

    /** What a transaction that never commits leaves of its writes to invoices: nothing. */
    method RollbackInvoices(saved: map<InvoiceId, Invoice>, ghost savedAudit: seq<StatusWrite>)
      modifies this`invoices, this`audit
      ensures invoices == saved && audit == savedAudit
    {
      invoices, audit := saved, savedAudit;
    }

    // ----- crypto_addresses -----

    /** FindNonOccupiedCryptoAddressAndLockByUserIdAndCoin: occupy some free row, if there is one. */
    method FindNonOccupied(user: UserId, coin: Coin) returns (row: Option<Address>)
      modifies this`addresses
      ensures row.Some? <==> P.HasFree(old(PoolView()), user, coin)
      ensures row.Some? ==> P.FreeFor(old(PoolView()), user, coin, row.value)
                            && PoolView() == P.SetOccupied(old(PoolView()), row.value, true)
      ensures row.None? ==> PoolView() == old(PoolView())
      ensures row.Some? ==>
                && row.value in old(addresses) && !old(addresses)[row.value].occupied
                && old(addresses)[row.value].user == user && Base(old(addresses)[row.value].coin) == coin
                && addresses == old(addresses)[row.value := old(addresses)[row.value].(occupied := true)]
      ensures row.None? ==>
                forall a :: a in addresses && addresses[a].user == user && Base(addresses[a].coin) == coin ==>
                  addresses[a].occupied
    {
      var free := set a | a in addresses && P.FreeFor(Save(), user, coin, a);
      assert forall a :: P.FreeFor(PoolView(), user, coin, a) ==> a in free;
      if free == {} {
        return None;
      }
      var a :| a in free;
      addresses := addresses[a := addresses[a].(occupied := true)];
      return Some(a);
    }

    /** CreateCryptoAddress; the address column is UNIQUE. */
    method CreateCryptoAddress(a: Address, b: BaseCoin, user: UserId) returns (ok: bool)
      modifies this`addresses
      ensures ok <==> a !in old(addresses)
      ensures addresses == if ok then old(addresses)[a := P.AddressRow(b, true, user)] else old(addresses)
    {
      ok := a !in addresses;
      if ok {
        addresses := addresses[a := P.AddressRow(b, true, user)];
      }
    }

    /** UpdateIsOccupiedByCryptoAddress; no row for the address is an error that changes nothing. */
    method UpdateIsOccupied(a: Address, occupied: bool)
      modifies this`addresses
      ensures PoolView() == P.SetOccupied(old(PoolView()), a, occupied)
      ensures addresses == if a in old(addresses) then old(addresses)[a := old(addresses)[a].(occupied := occupied)]
                           else old(addresses)
    {
      if a in addresses {
        addresses := addresses[a := addresses[a].(occupied := occupied)];
      }
    }

    /** DeleteAllCryptoAddressByUserIdAndCoin. */
    method DeleteAddresses(user: UserId, b: BaseCoin)
      modifies this`addresses
      ensures addresses == P.DeleteRows(old(PoolView()), user, b)
      ensures forall a :: a in addresses <==>
                a in old(addresses) && (old(addresses)[a].user != user || old(addresses)[a].coin != b)
      ensures forall a :: a in addresses ==> addresses[a] == old(addresses)[a]
    {
      addresses := map a | a in addresses && !(addresses[a].user == user && addresses[a].coin == b) :: addresses[a];
    }

    // ----- *_crypto_data -----

    /** FindKeysAndIncrementedIndices*; None if there is no row or a column overflows. */
    method FindKeysAndIncrementedIndices(user: UserId, b: BaseCoin) returns (r: Option<P.KeyRow>)
      modifies this`keys
      ensures r.Some? <==> P.NextAddress(old(PoolView()), user, b).Some?
      ensures r.Some? ==>
                && P.NextAddress(old(PoolView()), user, b) == Some(Derived(FormatOf(b), r.value.key, r.value.last))
                && keys == old(keys)[(user, b) := r.value]
                && r.value.key == old(keys)[(user, b)].key
      ensures r.None? ==> keys == old(keys)
    {
      if (user, b) !in keys {
        return None;
      }
      var row := keys[(user, b)];
      var minor, major := row.last.minor, row.last.major;
      if minor >= 2147483647 {
        if major + 1 > 2147483647 {
          return None;
        }
        minor, major := 0, major + 1;
      } else {
        minor := minor + 1;
      }
      var next := P.KeyRow(row.key, Indices(major, minor));
      keys := keys[(user, b) := next];
      return Some(next);
    }

    /** Create*CryptoData with Set*CryptoDataByUserId for a first key, else UpdateKeys*CryptoDataById; both start the
        counter at (0, 0), and the key columns are UNIQUE. */
    method WriteKey(user: UserId, b: BaseCoin, key: Key) returns (ok: bool)
      modifies this`keys
      ensures ok <==> !P.KeyTaken(old(PoolView()), user, b, key)
      ensures keys == if ok then old(keys)[(user, b) := P.KeyRow(key, Indices(0, 0))] else old(keys)
    {
      ok := !P.KeyTaken(Save(), user, b, key);
      if !ok {
        return;
      }
      if (user, b) !in keys {
        keys := keys[(user, b) := P.KeyRow(key, Indices(0, 0))];
      } else {
        keys := keys[(user, b) := keys[(user, b)].(key := key, last := Indices(0, 0))];
      }
    }

    // ----- invoices -----

    method CreateInvoice(inv: Invoice)
      requires inv.id !in invoices
      modifies this`invoices
      ensures invoices == old(invoices)[inv.id := inv]
    {
      invoices := invoices[inv.id := inv];
    }

    /** ConfirmInvoiceStatusMempoolById; the tx_id column is UNIQUE. */
    method ConfirmInvoiceStatusMempoolById(id: InvoiceId, amount: nat, tx: TxId) returns (row: Option<Invoice>)
      requires Keyed()
      modifies this`invoices, this`audit
      ensures row.Some? <==> SetMempool(old(View()), id, amount, tx).Some?
      ensures row.Some? ==>
            View() == SetMempool(old(View()), id, amount, tx).value && id in invoices && row.value == invoices[id]
      ensures row.None? ==> View() == old(View())
      ensures row.Some? <==>
                id in old(invoices) && forall k :: k in old(invoices) && old(invoices)[k].txId == Some(tx) ==> k == id
      ensures row.Some? ==>
                && row.value == old(invoices)[id].(status := PENDING_MEMPOOL, actual := Some(amount), txId := Some(tx))
                && invoices == old(invoices)[id := row.value]
    {
      if id !in invoices || exists k | k in invoices :: k != id && invoices[k].txId == Some(tx) {
        return None;
      }
      var r := invoices[id].(actual := Some(amount), status := PENDING_MEMPOOL, txId := Some(tx));
      audit := audit + [StatusWrite(id, invoices[id].status, r.status)];
      invoices := invoices[id := r];
      return Some(r);
    }

    /** ConfirmInvoiceById; confirmations is history. */
    method ConfirmInvoiceById(id: InvoiceId, ghost confirmations: nat) returns (row: Option<Invoice>)
      requires Keyed()
      modifies this`invoices, this`audit, this`confs
      ensures row.Some? <==> SetConfirmed(old(View()), id, confirmations).Some?
      ensures row.Some? ==>
            View() == SetConfirmed(old(View()), id, confirmations).value && id in invoices && row.value == invoices[id]
      ensures row.None? ==> View() == old(View())
      ensures row.Some? <==> id in old(invoices)
      ensures row.Some? ==>
                && row.value == old(invoices)[id].(status := CONFIRMED) && invoices == old(invoices)[id := row.value]
                && confs == old(confs)[id := confirmations]
    {
      if id !in invoices {
        return None;
      }
      var r := invoices[id].(status := CONFIRMED);
      audit := audit + [StatusWrite(id, invoices[id].status, r.status)];
      confs := confs[id := confirmations];
      invoices := invoices[id := r];
      return Some(r);
    }

    method ExpireInvoiceById(id: InvoiceId) returns (row: Option<Invoice>)
      requires Keyed()
      modifies this`invoices, this`audit
      ensures row.Some? <==> SetExpired(old(View()), id).Some?
      ensures row.Some? ==> View() == SetExpired(old(View()), id).value && id in invoices && row.value == invoices[id]
      ensures row.None? ==> View() == old(View())
      ensures row.Some? <==> id in old(invoices)
      ensures row.Some? ==>
                row.value == old(invoices)[id].(status := EXPIRED) && invoices == old(invoices)[id := row.value]
    {
      if id !in invoices {
        return None;
      }
      var r := invoices[id].(status := EXPIRED);
      audit := audit + [StatusWrite(id, invoices[id].status, r.status)];
      invoices := invoices[id := r];
      return Some(r);
    }

    method ShiftExpiresAtForNonConfirmedInvoices(now: int)
      modifies this`invoices
      ensures View() == Shift(old(View()), now)
      ensures invoices.Keys == old(invoices).Keys
      ensures forall id :: id in invoices ==>
                var r := old(invoices)[id];
                var near := (r.status == PENDING || r.status == PENDING_MEMPOOL) && r.expiresAt < now + 300;
                invoices[id] == if near then r.(expiresAt := now + 300) else r
    {
      invoices := map id | id in invoices ::
        if (invoices[id].status == PENDING || invoices[id].status == PENDING_MEMPOOL)
            && invoices[id].expiresAt - now < 300
        then invoices[id].(expiresAt := now + 300) else invoices[id];
    }

    /** FindAllPendingInvoices, in whatever order the rows come. */
    method FindAllPendingInvoices() returns (items: seq<Invoice>)
      requires Keyed()
      ensures Frames.Lists(View(), items)
    {
      items := [];
      var left: set<InvoiceId> := set id | id in invoices && IsPending(invoices[id].status);
      while left != {}
        invariant forall id :: id in left ==> id in invoices && IsPending(invoices[id].status)
        invariant forall i :: 0 <= i < |items| ==>
                    items[i].id in invoices && invoices[items[i].id] == items[i] && IsPending(items[i].status) &&
                    items[i].id !in left
        invariant forall i, j :: 0 <= i < j < |items| ==> items[i].id != items[j].id
        invariant forall id :: id in invoices && IsPending(invoices[id].status) ==> id in left || invoices[id] in items
        decreases |left|
      {
        var id :| id in left;
        left := left - {id};
        items := items + [invoices[id]];
      }
    }

    // ----- crypto_cache -----

    method FindCryptoCacheByCoin(b: BaseCoin) returns (height: Option<Option<int>>)
      ensures height == if b in heights then Some(heights[b]) else None
    {
      height := if b in heights then Some(heights[b]) else None;
    }

    method UpdateCryptoCacheByCoin(b: BaseCoin, height: int)
      modifies this`heights
      ensures heights == if b in old(heights) then old(heights)[b := Some(height)] else old(heights)
    {
      if b in heights {
        heights := heights[b := Some(height)];
      }
    }
  }
}

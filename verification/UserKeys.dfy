/** The UpdateCryptoKeys handler: a sequence of deletes and writes inside one transaction, with early returns. */
module UserKeys {
  import opened Domain
  import opened Database
  import P = Pool

  /** The optional parts of the request; valid says whether the key parses. */
  datatype KeyUpdate = KeyUpdate(key: Key, valid: bool)

  datatype UpdateRequest = UpdateRequest(
    xmr: Option<KeyUpdate>,
    btc: Option<KeyUpdate>,
    ltc: Option<KeyUpdate>,
    eth: Option<KeyUpdate>,
    bnb: Option<KeyUpdate>)

  function Part(b: BaseCoin, r: Option<KeyUpdate>): seq<P.KeyRequest> {
    if r.None? then [] else [P.KeyRequest(b, r.value.key, r.value.valid)]
  }

  /** The parts in the order the handler takes them. */
  function Requests(r: UpdateRequest): seq<P.KeyRequest> {
    Part(XMR, r.xmr) + Part(BTC, r.btc) + Part(LTC, r.ltc) + Part(ETH, r.eth) + Part(BNB, r.bnb)
  }

  lemma {:induction false} UpdateEachConcat(p: P.Pool, user: UserId, rs: seq<P.KeyRequest>, ts: seq<P.KeyRequest>)
    ensures P.UpdateEach(p, user, rs + ts)
         == match P.UpdateEach(p, user, rs) case None => None case Some(p') => P.UpdateEach(p', user, ts)
    decreases |rs|
  {
    if rs == [] {
      assert rs + ts == ts;
    } else {
      assert (rs + ts)[1..] == rs[1..] + ts;
      if P.UpdateKey(p, user, rs[0]).Some? {
        UpdateEachConcat(P.UpdateKey(p, user, rs[0]).value, user, rs[1..], ts);
      }
    }
  }

  // ----- What one part does, column by column -----

  /** An absent part is fine; a key must parse, and no other user may have it for the coin. */
  ghost predicate Acceptable(p: P.Pool, user: UserId, b: BaseCoin, part: Option<KeyUpdate>) {
    part.Some? ==>
      && part.value.valid
      && forall u :: u != user && (u, b) in p.keys ==>
           match (p.keys[(u, b)].key, part.value.key)
           case (Hd(m), Hd(n)) => m != n
           case (Monero(v, s), Monero(w, t)) => v != w && s != t
           case _ => true
  }

  /** The key and the rows of the user for the coin are the same. */
  ghost predicate SameCoin(p: P.Pool, p': P.Pool, user: UserId, b: BaseCoin) {
    && ((user, b) in p'.keys <==> (user, b) in p.keys)
    && ((user, b) in p.keys ==> p'.keys[(user, b)] == p.keys[(user, b)])
    && forall a :: P.HasRow(p', user, b, a) || P.HasRow(p, user, b, a) ==>
         a in p'.addresses && a in p.addresses && p'.addresses[a] == p.addresses[a]
  }

  /** A part that is present leaves its key, the counter at (0, 0) and no address row. */
  ghost predicate Replaced(p': P.Pool, user: UserId, b: BaseCoin, key: Key) {
    && (user, b) in p'.keys && p'.keys[(user, b)] == P.KeyRow(key, Indices(0, 0))
    && forall a :: a in p'.addresses ==> p'.addresses[a].user != user || p'.addresses[a].coin != b
  }

  ghost predicate PartDone(p: P.Pool, p': P.Pool, user: UserId, b: BaseCoin, part: Option<KeyUpdate>) {
    if part.Some? then Replaced(p', user, b, part.value.key) else SameCoin(p, p', user, b)
  }

  lemma PartEffect(p: P.Pool, user: UserId, b: BaseCoin, part: Option<KeyUpdate>)
    ensures P.UpdateEach(p, user, Part(b, part)).Some? <==> Acceptable(p, user, b, part)
    ensures P.UpdateEach(p, user, Part(b, part)).Some? ==>
              var p' := P.UpdateEach(p, user, Part(b, part)).value;
              && PartDone(p, p', user, b, part)
              && forall u, c :: u != user || c != b ==> SameCoin(p, p', u, c)
  {
    if part.Some? {
      var r := P.KeyRequest(b, part.value.key, part.value.valid);
      assert Part(b, part)[1..] == [];
      assert P.UpdateEach(p, user, Part(b, part)) == P.UpdateKey(p, user, r);
      if P.KeyTaken(p, user, b, r.key) {
        var k :| k in p.keys && k.0 != user && k.1 == b && P.Clash(p.keys[k].key, r.key);
        assert (k.0, b) == k;
      }
    }
  }

  // ----- What the whole request does -----

  function Then(p: Option<P.Pool>, user: UserId, rs: seq<P.KeyRequest>): Option<P.Pool> {
    match p
    case None => None
    case Some(p') => P.UpdateEach(p', user, rs)
  }

  function PartOf(r: UpdateRequest, b: BaseCoin): Option<KeyUpdate> {
    match b
    case XMR => r.xmr
    case BTC => r.btc
    case LTC => r.ltc
    case ETH => r.eth
    case BNB => r.bnb
  }

  /** The parts of these coins were handled, and led from p to p'. */
  ghost predicate Handled(p: P.Pool, p': Option<P.Pool>, user: UserId, r: UpdateRequest, done: set<BaseCoin>) {
    && (p'.Some? <==> forall b :: b in done ==> Acceptable(p, user, b, PartOf(r, b)))
    && (p'.Some? ==>
          && (forall b :: b in done ==> PartDone(p, p'.value, user, b, PartOf(r, b)))
          && forall u, b :: u != user || b !in done ==> SameCoin(p, p'.value, u, b))
  }

  lemma AcceptableStays(p: P.Pool, p1: P.Pool, user: UserId, b: BaseCoin, part: Option<KeyUpdate>)
    requires forall u :: u != user ==> SameCoin(p, p1, u, b)
    ensures Acceptable(p1, user, b, part) <==> Acceptable(p, user, b, part)
  {
    forall u | u != user
      ensures (u, b) in p1.keys <==> (u, b) in p.keys
      ensures (u, b) in p.keys ==> p1.keys[(u, b)] == p.keys[(u, b)]
    {
      assert SameCoin(p, p1, u, b);
    }
  }

  lemma SameCoinTwice(p: P.Pool, p1: P.Pool, p2: P.Pool, user: UserId, b: BaseCoin)
    requires SameCoin(p, p1, user, b) && SameCoin(p1, p2, user, b)
    ensures SameCoin(p, p2, user, b)
  {
    forall a | P.HasRow(p2, user, b, a) || P.HasRow(p, user, b, a)
      ensures a in p2.addresses && a in p.addresses && p2.addresses[a] == p.addresses[a]
    {
      assert P.HasRow(p1, user, b, a);
    }
  }

  lemma DoneStays(p: P.Pool, p1: P.Pool, p2: P.Pool, user: UserId, b: BaseCoin, part: Option<KeyUpdate>)
    requires PartDone(p, p1, user, b, part) && SameCoin(p1, p2, user, b)
    ensures PartDone(p, p2, user, b, part)
  {
    if part.None? {
      SameCoinTwice(p, p1, p2, user, b);
    } else {
      forall a | a in p2.addresses
        ensures p2.addresses[a].user != user || p2.addresses[a].coin != b
      {
        assert P.HasRow(p2, user, b, a) ==> P.HasRow(p1, user, b, a);
      }
    }
  }

  /** One part more, of a coin not handled so far. */
  lemma PartHandled(p: P.Pool, p1: Option<P.Pool>, user: UserId, r: UpdateRequest, done: set<BaseCoin>, b: BaseCoin)
    requires Handled(p, p1, user, r, done) && b !in done
    ensures Handled(p, Then(p1, user, Part(b, PartOf(r, b))), user, r, done + {b})
  {
    var part := PartOf(r, b);
    if p1.Some? {
      PartEffect(p1.value, user, b, part);
      AcceptableStays(p, p1.value, user, b, part);
      var p2 := P.UpdateEach(p1.value, user, Part(b, part));
      if p2.Some? {
        assert SameCoin(p, p1.value, user, b);
        forall c | c in done
          ensures PartDone(p, p2.value, user, c, PartOf(r, c))
        {
          DoneStays(p, p1.value, p2.value, user, c, PartOf(r, c));
        }
        if part.None? {
          SameCoinTwice(p, p1.value, p2.value, user, b);
        }
        forall u, c | u != user || c !in done + {b}
          ensures SameCoin(p, p2.value, u, c)
        {
          SameCoinTwice(p, p1.value, p2.value, u, c);
        }
      }
    }
  }

  lemma RequestHandled(p: P.Pool, user: UserId, r: UpdateRequest)
    ensures Handled(p, P.UpdateEach(p, user, Requests(r)), user, r, {XMR, BTC, LTC, ETH, BNB})
  {
    RequestsInOrder(p, user, r);
    var p1 := Then(Some(p), user, Part(XMR, r.xmr));
    var p2 := Then(p1, user, Part(BTC, r.btc));
    var p3 := Then(p2, user, Part(LTC, r.ltc));
    var p4 := Then(p3, user, Part(ETH, r.eth));
    PartHandled(p, Some(p), user, r, {}, XMR);
    assert {} + {XMR} == {XMR};
    PartHandled(p, p1, user, r, {XMR}, BTC);
    assert {XMR} + {BTC} == {XMR, BTC};
    PartHandled(p, p2, user, r, {XMR, BTC}, LTC);
    assert {XMR, BTC} + {LTC} == {XMR, BTC, LTC};
    PartHandled(p, p3, user, r, {XMR, BTC, LTC}, ETH);
    assert {XMR, BTC, LTC} + {ETH} == {XMR, BTC, LTC, ETH};
    PartHandled(p, p4, user, r, {XMR, BTC, LTC, ETH}, BNB);
    assert {XMR, BTC, LTC, ETH} + {BNB} == {XMR, BTC, LTC, ETH, BNB};
  }

  /** The request is accepted exactly if every part is; then each coin has its part, and other users keep theirs. */
  lemma RequestEffect(p: P.Pool, user: UserId, r: UpdateRequest)
    ensures var r' := P.UpdateEach(p, user, Requests(r));
            && (r'.Some? <==>
                  && Acceptable(p, user, XMR, r.xmr) && Acceptable(p, user, BTC, r.btc)
                  && Acceptable(p, user, LTC, r.ltc) && Acceptable(p, user, ETH, r.eth)
                  && Acceptable(p, user, BNB, r.bnb))
            && (r'.Some? ==>
                  && PartDone(p, r'.value, user, XMR, r.xmr) && PartDone(p, r'.value, user, BTC, r.btc)
                  && PartDone(p, r'.value, user, LTC, r.ltc) && PartDone(p, r'.value, user, ETH, r.eth)
                  && PartDone(p, r'.value, user, BNB, r.bnb)
                  && forall u, b :: u != user ==> SameCoin(p, r'.value, u, b))
  {
    RequestHandled(p, user, r);
    assert PartOf(r, XMR) == r.xmr && PartOf(r, BTC) == r.btc && PartOf(r, LTC) == r.ltc;
    assert PartOf(r, ETH) == r.eth && PartOf(r, BNB) == r.bnb;
  }

  lemma RequestsInOrder(p: P.Pool, user: UserId, r: UpdateRequest)
    ensures P.UpdateEach(p, user, Requests(r))
         == Then(Then(Then(Then(P.UpdateEach(p, user, Part(XMR, r.xmr)), user, Part(BTC, r.btc)),
                           user, Part(LTC, r.ltc)), user, Part(ETH, r.eth)), user, Part(BNB, r.bnb))
  {
    var t1 := Part(XMR, r.xmr);
    var t2 := t1 + Part(BTC, r.btc);
    var t3 := t2 + Part(LTC, r.ltc);
    var t4 := t3 + Part(ETH, r.eth);
    UpdateEachConcat(p, user, t1, Part(BTC, r.btc));
    UpdateEachConcat(p, user, t2, Part(LTC, r.ltc));
    UpdateEachConcat(p, user, t3, Part(ETH, r.eth));
    UpdateEachConcat(p, user, t4, Part(BNB, r.bnb));
  }

  // ----- The handler -----

  /** handleXmrCryptoDataUpdate and handleHDKeysCryptoDataUpdate; after an error the caller rolls back. */
  method HandleKeyUpdate(db: Queries, user: UserId, b: BaseCoin, r: KeyUpdate) returns (ok: bool)
    modifies db`keys, db`addresses
    ensures ok <==> P.UpdateKey(old(db.PoolView()), user, P.KeyRequest(b, r.key, r.valid)).Some?
    ensures ok ==> P.UpdateKey(old(db.PoolView()), user, P.KeyRequest(b, r.key, r.valid)) == Some(db.PoolView())
  {
    if !r.valid {
      return false;
    }
    db.DeleteAddresses(user, b);
    ok := db.WriteKey(user, b, r.key);
  }

  /** One optional part: nothing to do if it is absent. */
  method HandlePart(db: Queries, user: UserId, b: BaseCoin, r: Option<KeyUpdate>) returns (ok: bool)
    modifies db`keys, db`addresses
    ensures ok <==> P.UpdateEach(old(db.PoolView()), user, Part(b, r)).Some?
    ensures ok ==> P.UpdateEach(old(db.PoolView()), user, Part(b, r)) == Some(db.PoolView())
  {
    if r.None? {
      return true;
    }
    ok := HandleKeyUpdate(db, user, b, r.value);
  }

  /** The parts in the order of the handler, up to the first error. */
  method HandleParts(db: Queries, user: UserId, r: UpdateRequest) returns (ok: bool)
    modifies db`keys, db`addresses
    ensures ok <==> P.UpdateEach(old(db.PoolView()), user, Requests(r)).Some?
    ensures ok ==> P.UpdateEach(old(db.PoolView()), user, Requests(r)) == Some(db.PoolView())
  {
    RequestsInOrder(db.PoolView(), user, r);
    ok := HandlePart(db, user, XMR, r.xmr);
    if ok {
      ok := HandlePart(db, user, BTC, r.btc);
    }
    if ok {
      ok := HandlePart(db, user, LTC, r.ltc);
    }
    if ok {
      ok := HandlePart(db, user, ETH, r.eth);
    }
    if ok {
      ok := HandlePart(db, user, BNB, r.bnb);
    }
  }

  /** UpdateCryptoKeys; found says whether the user and the crypto_data row exist. Any error leaves all tables as they
      were. */
  method UpdateCryptoKeys(db: Queries, user: UserId, found: bool, r: UpdateRequest) returns (ok: bool)
    modifies db`keys, db`addresses
    ensures ok <==> found && P.UpdateEach(old(db.PoolView()), user, Requests(r)).Some?
    ensures db.PoolView() == if found then P.UpdateKeys(old(db.PoolView()), user, Requests(r)) else old(db.PoolView())
    ensures !ok ==> db.View() == old(db.View())
    ensures ok <==> var p := old(db.PoolView());
                    && found
                    && Acceptable(p, user, XMR, r.xmr) && Acceptable(p, user, BTC, r.btc)
                    && Acceptable(p, user, LTC, r.ltc) && Acceptable(p, user, ETH, r.eth)
                    && Acceptable(p, user, BNB, r.bnb)
    ensures ok ==>
              var (p, p') := (old(db.PoolView()), db.PoolView());
              && PartDone(p, p', user, XMR, r.xmr) && PartDone(p, p', user, BTC, r.btc)
              && PartDone(p, p', user, LTC, r.ltc) && PartDone(p, p', user, ETH, r.eth)
              && PartDone(p, p', user, BNB, r.bnb)
              && forall u, b :: u != user ==> SameCoin(p, p', u, b)
  {
    if !found {
      return false;
    }
    var saved := db.Save();
    ok := HandleParts(db, user, r);
    if !ok {
      db.Rollback(saved);
    }
    RequestEffect(saved, user, r);
  }
}

/** Amount verification: what a transaction pays to an invoice's address. */
module Amounts {
  import opened Domain
  import opened Sums

  // ----- BTC and LTC -----

  /** Whether the processor of b counts the output as paying the address; LTC also accepts a one-element address
      list. */
  predicate Pays(b: BaseCoin, o: Output, a: Address) {
    o.address == Some(a) || (b == LTC && |o.addresses| == 1 && o.addresses[0] == a)
  }

  function Credit(b: BaseCoin, a: Address): Output -> nat {
    (o: Output) => if Pays(b, o, a) then o.value else 0
  }

  function Worth(): Output -> nat {
    (o: Output) => o.value
  }

  function PaidTo(b: BaseCoin, outs: seq<Output>, a: Address): nat {
    SumBy(Credit(b, a), outs)
  }

  function Total(outs: seq<Output>): nat {
    SumBy(Worth(), outs)
  }

  /** An output counts exactly if it carries the address, for LTC also as the one element of its list. */
  lemma OneOutputMore(b: BaseCoin, outs: seq<Output>, o: Output, a: Address)
    ensures PaidTo(b, [], a) == 0 && Total([]) == 0
    ensures PaidTo(b, outs + [o], a)
         == PaidTo(b, outs, a)
            + (if o.address == Some(a) || (b == LTC && |o.addresses| == 1 && o.addresses[0] == a) then o.value else 0)
    ensures Total(outs + [o]) == Total(outs) + o.value
  {
    assert (outs + [o])[..|outs|] == outs;
  }

  /** Outputs that do not carry the address pay it nothing. */
  lemma {:induction false} NothingPaid(b: BaseCoin, outs: seq<Output>, a: Address)
    requires forall o :: o in outs ==>
               o.address != Some(a) && (b == LTC ==> |o.addresses| != 1 || o.addresses[0] != a)
    ensures PaidTo(b, outs, a) == 0
    decreases |outs|
  {
    if outs != [] {
      NothingPaid(b, outs[..|outs| - 1], a);
    }
  }

  /** Outputs that all carry it pay it their total. */
  lemma {:induction false} EverythingPaid(b: BaseCoin, outs: seq<Output>, a: Address)
    requires forall o :: o in outs ==>
               o.address == Some(a) || (b == LTC && |o.addresses| == 1 && o.addresses[0] == a)
    ensures PaidTo(b, outs, a) == Total(outs)
    decreases |outs|
  {
    if outs != [] {
      EverythingPaid(b, outs[..|outs| - 1], a);
    }
  }

  /** verifyBTCTxHandler. */
  method VerifyBTCTx(outs: seq<Output>, a: Address) returns (amount: nat)
    ensures amount == PaidTo(BTC, outs, a)
    ensures (forall o :: o in outs ==> o.address != Some(a)) ==> amount == 0
    ensures (forall o :: o in outs ==> o.address == Some(a)) ==> amount == Total(outs)
  {
    amount := 0;
    for i := 0 to |outs|
      invariant amount == PaidTo(BTC, outs[..i], a)
    {
      assert outs[..i + 1][..i] == outs[..i];
      if outs[i].address == Some(a) {
        amount := amount + outs[i].value;
      }
    }
    assert outs[..|outs|] == outs;
    if forall o :: o in outs ==> o.address != Some(a) {
      NothingPaid(BTC, outs, a);
    }
    if forall o :: o in outs ==> o.address == Some(a) {
      EverythingPaid(BTC, outs, a);
    }
  }

  /** verifyLTCTxHandler. */
  method VerifyLTCTx(outs: seq<Output>, a: Address) returns (amount: nat)
    ensures amount == PaidTo(LTC, outs, a)
    ensures (forall o :: o in outs ==> o.address != Some(a) && o.addresses != [a]) ==> amount == 0
    ensures (forall o :: o in outs ==> o.address == Some(a) || o.addresses == [a]) ==> amount == Total(outs)
  {
    amount := 0;
    for i := 0 to |outs|
      invariant amount == PaidTo(LTC, outs[..i], a)
    {
      assert outs[..i + 1][..i] == outs[..i];
      if outs[i].address == Some(a) || (|outs[i].addresses| == 1 && outs[i].addresses[0] == a) {
        amount := amount + outs[i].value;
      }
    }
    assert outs[..|outs|] == outs;
    if forall o :: o in outs ==> o.address != Some(a) && o.addresses != [a] {
      NothingPaid(LTC, outs, a);
    }
    if forall o :: o in outs ==> o.address == Some(a) || o.addresses == [a] {
      EverythingPaid(LTC, outs, a);
    }
  }

  /** A transaction never pays an address more than the total of its outputs. */
  lemma PaidAtMostTotal(b: BaseCoin, outs: seq<Output>, a: Address)
    ensures PaidTo(b, outs, a) <= Total(outs)
  {
    SumByMonotone(Credit(b, a), Worth(), outs);
  }

  /** The amount is additive over splitting the outputs and independent of their order. */
  lemma PaidToLaws(b: BaseCoin, outs: seq<Output>, more: seq<Output>, permuted: seq<Output>, a: Address)
    requires multiset(permuted) == multiset(outs)
    ensures PaidTo(b, outs + more, a) == PaidTo(b, outs, a) + PaidTo(b, more, a)
    ensures PaidTo(b, permuted, a) == PaidTo(b, outs, a)
  {
    SumByConcat(Credit(b, a), outs, more);
    SumByPermuted(Credit(b, a), permuted, outs);
  }

  /** So what is paid is the total of the outputs that carry the address: they can be singled out, in order. */
  lemma {:induction false} PaidIsTotalOf(b: BaseCoin, outs: seq<Output>, a: Address, carrying: seq<Output>,
                                         others: seq<Output>)
    requires multiset(outs) == multiset(carrying) + multiset(others)
    requires forall o :: o in carrying ==>
               o.address == Some(a) || (b == LTC && |o.addresses| == 1 && o.addresses[0] == a)
    requires forall o :: o in others ==>
               o.address != Some(a) && (b == LTC ==> |o.addresses| != 1 || o.addresses[0] != a)
    ensures PaidTo(b, outs, a) == Total(carrying)
  {
    assert multiset(carrying + others) == multiset(outs);
    PaidToLaws(b, carrying, others, carrying, a);
    SumByPermuted(Credit(b, a), outs, carrying + others);
    EverythingPaid(b, carrying, a);
    NothingPaid(b, others, a);
  }
}

/** GetTransactions of the daemon client that BTC and LTC share. */
module BtcDaemon {
  import opened Domain

  /** A transaction as the daemon reports it. */
  datatype BtcTx = BtcTx(id: TxId, outs: seq<Output>, confirmations: nat)

  /** IsDoubleSpendSeen is constant for these coins. */
  predicate IsDoubleSpendSeen(t: BtcTx) {
    false
  }

  /** parse is chainhash.NewHashFromStr and answer the daemon's reply to one asynchronous request. */
  method GetTransactions(ids: seq<TxId>, parse: TxId -> Option<nat>, answer: nat -> Option<BtcTx>)
    returns (r: Option<seq<BtcTx>>)
    ensures r.Some? <==> forall i :: 0 <= i < |ids| ==> parse(ids[i]).Some? && answer(parse(ids[i]).value).Some?
    ensures r.Some? ==> |r.value| == |ids|
    ensures r.Some? ==> forall i :: 0 <= i < |ids| ==> Some(r.value[i]) == answer(parse(ids[i]).value)
  {
    var hashes: seq<nat> := [];
    for i := 0 to |ids|
      invariant |hashes| == i
      invariant forall j :: 0 <= j < i ==> parse(ids[j]) == Some(hashes[j])
    {
      var hash := parse(ids[i]);
      if hash.None? {
        return None;
      }
      hashes := hashes + [hash.value];
    }
    var pending: seq<Option<BtcTx>> := [];
    for i := 0 to |ids|
      invariant |pending| == i
      invariant forall j :: 0 <= j < i ==> pending[j] == answer(hashes[j])
    {
      pending := pending + [answer(hashes[i])];
    }
    var txs: seq<BtcTx> := [];
    for i := 0 to |ids|
      invariant |txs| == i
      invariant forall j :: 0 <= j < i ==> pending[j] == Some(txs[j])
    {
      if pending[i].None? {
        return None;
      }
      txs := txs + [pending[i].value];
    }
    return Some(txs);
  }
}

/** Token and native transfers on ETH and BNB. */
module EthAmounts {
  import opened Domain
  import opened Sums
  import Confirmations

  type Byte = b: int | 0 <= b < 256
  type Word = s: seq<Byte> | |s| == 32 witness seq(32, _ => 0)
  type Account = s: seq<Byte> | |s| == 20 witness seq(20, _ => 0)
  type Positive = n: nat | n > 0 witness 1

  datatype TokenData = TokenData(contract: Account, scale: Positive)
  datatype Log = Log(contract: Account, topics: seq<Word>, data: seq<Byte>)
  datatype EthTx = EthTx(status: Byte, to: Option<Account>, wei: nat, logs: seq<Log>)

  const ETHER: Positive := 1_000_000_000_000_000_000

  /** The topic of Transfer(address,address,uint256), section "Events" of EIP-20. */
  const TRANSFER: Word := [
    0xdd, 0xf2, 0x52, 0xad, 0x1b, 0xe2, 0xc8, 0x9b, 0x69, 0xc2, 0xb0, 0x68, 0xfc, 0x37, 0x8d, 0xaa,
    0x95, 0x2b, 0xa7, 0xf1, 0x63, 0xc4, 0xa1, 0x16, 0x28, 0xf5, 0x5a, 0x4d, 0xf5, 0x23, 0xb3, 0xef]

  /** big.Int.SetBytes. */
  function BigEndian(data: seq<Byte>): nat {
    if data == [] then 0 else BigEndian(data[..|data| - 1]) * 256 + data[|data| - 1]
  }

  /** common.BytesToAddress of a topic keeps its last 20 bytes. */
  function AccountOf(w: Word): Account {
    w[12..]
  }

  predicate IsTransfer(log: Log, token: TokenData, recipient: Account) {
    && |log.topics| >= 3
    && log.topics[0] == TRANSFER
    && log.contract == token.contract
    && AccountOf(log.topics[2]) == recipient
  }

  function Transferred(token: TokenData, recipient: Account): Log -> nat {
    (log: Log) => if IsTransfer(log, token, recipient) then BigEndian(log.data) else 0
  }

  /** The token units that the logs transfer to the recipient. */
  function UnitsTo(logs: seq<Log>, token: TokenData, recipient: Account): nat {
    SumBy(Transferred(token, recipient), logs)
  }

  function Pow256(n: nat): nat {
    if n == 0 then 1 else Pow256(n - 1) * 256
  }

  /** The first byte counts most. */
  lemma {:induction false} FirstByteCountsMost(byte: Byte, data: seq<Byte>)
    ensures BigEndian([byte] + data) == byte * Pow256(|data|) + BigEndian(data)
    ensures BigEndian(data) < Pow256(|data|)
    decreases |data|
  {
    if data == [] {
      assert BigEndian([byte]) == byte;
      assert [byte] + data == [byte];
    } else {
      var n := |data| - 1;
      FirstByteCountsMost(byte, data[..n]);
      assert ([byte] + data)[..n + 1] == [byte] + data[..n];
      assert byte * Pow256(n) * 256 == byte * (Pow256(n) * 256);
    }
  }

  /** One log transfers its data to the account in the last 20 bytes of its third topic, if it is a Transfer event of
      the token's contract; every other log transfers nothing. */
  lemma OneLogMore(logs: seq<Log>, log: Log, token: TokenData, recipient: Account)
    ensures UnitsTo([], token, recipient) == 0
    ensures UnitsTo(logs + [log], token, recipient)
         == UnitsTo(logs, token, recipient)
            + (if |log.topics| >= 3 && log.topics[0] == TRANSFER && log.contract == token.contract
                  && (forall i :: 0 <= i < 20 ==> log.topics[2][12 + i] == recipient[i])
               then BigEndian(log.data) else 0)
  {
    assert (logs + [log])[..|logs|] == logs;
    if |log.topics| >= 3 {
      var w := log.topics[2];
      if forall i :: 0 <= i < 20 ==> w[12 + i] == recipient[i] {
        assert AccountOf(w) == recipient;
      } else {
        var i :| 0 <= i < 20 && w[12 + i] != recipient[i];
        assert AccountOf(w)[i] == w[12 + i];
      }
    }
  }

  /** amount coins are exactly that many smallest units. */
  ghost predicate Exactly(amount: real, scale: Positive, units: nat) {
    amount * scale as real == units as real
  }

  lemma AddExactly(amount: real, scale: Positive, units: nat, more: nat)
    requires Exactly(amount, scale, units)
    ensures Exactly(amount + more as real / scale as real, scale, units + more)
  {
    var d := scale as real;
    var x := more as real;
    assert x / d * d == x;
    assert (amount + x / d) * d == amount * d + x / d * d;
  }

  /** The token loop of verifyETHBasedTxHandler. */
  method CreditLogs(logs: seq<Log>, token: TokenData, recipient: Account) returns (amount: real)
    ensures Exactly(amount, token.scale, UnitsTo(logs, token, recipient))
  {
    amount := 0.0;
    for i := 0 to |logs|
      invariant Exactly(amount, token.scale, UnitsTo(logs[..i], token, recipient))
    {
      var log := logs[i];
      assert logs[..i + 1][..i] == logs[..i];
      if |log.topics| < 3 || log.topics[0] != TRANSFER || log.contract != token.contract {
        continue;
      }
      if AccountOf(log.topics[2]) == recipient {
        AddExactly(amount, token.scale, UnitsTo(logs[..i], token, recipient), BigEndian(log.data));
        amount := amount + BigEndian(log.data) as real / token.scale as real;
      }
    }
    assert logs[..|logs|] == logs;
  }

  /** verifyETHBasedTxHandler; tokens is tokenDataETHCompatible with its two disjoint parts merged. */
  method VerifyETHBasedTx(tx: EthTx, tokens: map<Coin, TokenData>, coin: Coin, recipient: Account)
    returns (amount: real)
    ensures tx.status == 0 ==> amount == 0.0
    ensures tx.logs != [] && coin !in tokens ==> amount == 0.0
    ensures tx.status != 0 && tx.logs != [] && coin in tokens
            ==> Exactly(amount, tokens[coin].scale, UnitsTo(tx.logs, tokens[coin], recipient))
    ensures tx.status != 0 && tx.logs == [] && tx.to != Some(recipient) ==> amount == 0.0
    ensures tx.status != 0 && tx.logs == [] && tx.to == Some(recipient)
            ==> && Exactly(amount, 1_000_000_000_000_000_000, tx.wei % Confirmations.TWO64)
                && (Exactly(amount, ETHER, tx.wei) <==> tx.wei < Confirmations.TWO64)
  {
    amount := 0.0;
    if tx.status == 0 {
      return;
    }
    if |tx.logs| > 0 {
      if coin in tokens {
        amount := CreditLogs(tx.logs, tokens[coin], recipient);
      }
    } else if tx.to.Some? && recipient == tx.to.value {
      var value := tx.wei % Confirmations.TWO64;
      AddExactly(amount, ETHER, 0, value);
      amount := amount + value as real / ETHER as real;
    }
  }

  /** The credited units are additive over splitting the logs, independent of their order, and untouched by other
      logs. */
  lemma UnitsToLaws(logs: seq<Log>, more: seq<Log>, permuted: seq<Log>, token: TokenData, recipient: Account)
    requires multiset(permuted) == multiset(logs)
    ensures UnitsTo(logs + more, token, recipient) == UnitsTo(logs, token, recipient) + UnitsTo(more, token, recipient)
    ensures UnitsTo(permuted, token, recipient) == UnitsTo(logs, token, recipient)
    ensures (forall i :: 0 <= i < |more| ==> !IsTransfer(more[i], token, recipient))
            ==> UnitsTo(logs + more, token, recipient) == UnitsTo(logs, token, recipient)
  {
    SumByConcat(Transferred(token, recipient), logs, more);
    SumByPermuted(Transferred(token, recipient), permuted, logs);
    if forall i :: 0 <= i < |more| ==> !IsTransfer(more[i], token, recipient) {
      UnitsToNone(more, token, recipient);
    }
  }

  lemma {:induction false} UnitsToNone(logs: seq<Log>, token: TokenData, recipient: Account)
    requires forall i :: 0 <= i < |logs| ==> !IsTransfer(logs[i], token, recipient)
    ensures UnitsTo(logs, token, recipient) == 0
    decreases |logs|
  {
    if logs != [] {
      UnitsToNone(logs[..|logs| - 1], token, recipient);
    }
  }
}

/** The daemon listener: the block catch-up loop and the mempool diff. */
module Listener {
  import opened Domain
  import Confirmations

  type Hash = nat

  datatype Emission<B> = Emission(height: nat, block: B)

  // ----- What one call of syncBlock does -----

  /** The height at which the loop stops: the context is done, the reported tip is reached, or a fetch fails. */
  ghost function SyncEnd<B(!new)>(h: nat, tip: nat, fetch: nat -> Option<B>, done: nat -> bool): nat
    decreases tip - h
  {
    if done(h) || tip <= h || fetch(h).None? then h else SyncEnd(h + 1, tip, fetch, done)
  }

  /** Every height from h up to end was fetched and lies below the tip. */
  ghost predicate Fetched<B(!new)>(h: nat, end: nat, tip: nat, fetch: nat -> Option<B>) {
    h <= end && forall k :: h <= k < end ==> k < tip && fetch(k).Some?
  }

  /** The blocks of the heights from h up to, not including, end. */
  ghost function Blocks<B(!new)>(h: nat, end: nat, tip: nat, fetch: nat -> Option<B>): (r: seq<Emission<B>>)
    requires Fetched(h, end, tip, fetch)
    ensures |r| == end - h
    ensures forall i :: 0 <= i < |r| ==> fetch(h + i) == Some(r[i].block) && r[i].height == h + i
  {
    seq(end - h, i requires 0 <= i < end - h => Emission(h + i, fetch(h + i).value))
  }

  lemma FetchOne<B(!new)>(h: nat, k: nat, tip: nat, fetch: nat -> Option<B>)
    requires Fetched(h, k, tip, fetch) && k < tip && fetch(k).Some?
    ensures Fetched(h, k + 1, tip, fetch)
    ensures Blocks(h, k + 1, tip, fetch) == Blocks(h, k, tip, fetch) + [Emission(k, fetch(k).value)]
  {
  }

  /** Before end the context is not done, the tip is not reached and the fetch works; at end one of the three stops the
      loop. */
  ghost predicate StopsAt<B(!new)>(h: nat, tip: nat, fetch: nat -> Option<B>, done: nat -> bool, end: nat) {
    && h <= end
    && (forall k: nat :: h <= k < end ==> !done(k) && k < tip && fetch(k).Some?)
    && (done(end) || tip <= end || fetch(end).None?)
  }

  /** Below the tip the context is not done and every fetch works. */
  ghost predicate Unhindered<B(!new)>(h: nat, tip: nat, fetch: nat -> Option<B>, done: nat -> bool) {
    forall k: nat :: h <= k < tip ==> !done(k) && fetch(k).Some?
  }

  lemma {:induction false} SyncEndStops<B(!new)>(h: nat, tip: nat, fetch: nat -> Option<B>, done: nat -> bool)
    ensures StopsAt(h, tip, fetch, done, SyncEnd(h, tip, fetch, done))
    decreases tip - h
  {
    if done(h) || tip <= h || fetch(h).None? {
    } else {
      SyncEndStops(h + 1, tip, fetch, done);
    }
  }

  /** Then the loop reaches the tip, and stays where it is if it was there already. */
  lemma ReachesTip<B(!new)>(h: nat, tip: nat, fetch: nat -> Option<B>, done: nat -> bool)
    requires Unhindered(h, tip, fetch, done)
    ensures h < tip ==> SyncEnd(h, tip, fetch, done) == tip
    ensures tip <= h ==> SyncEnd(h, tip, fetch, done) == h
  {
    SyncEndStops(h, tip, fetch, done);
    SyncEndFetched(h, tip, fetch, done);
  }

  /** The stop height is determined: it is the only height before which nothing stops the loop and at which something
      does. */
  lemma SyncEndUnique<B(!new)>(h: nat, tip: nat, fetch: nat -> Option<B>, done: nat -> bool, end: nat)
    ensures StopsAt(h, tip, fetch, done, end) <==> end == SyncEnd(h, tip, fetch, done)
  {
    SyncEndStops(h, tip, fetch, done);
    if StopsAt(h, tip, fetch, done, end) {
      OneStop(h, tip, fetch, done, end, SyncEnd(h, tip, fetch, done));
    }
  }

  lemma OneStop<B(!new)>(h: nat, tip: nat, fetch: nat -> Option<B>, done: nat -> bool, end: nat, other: nat)
    requires StopsAt(h, tip, fetch, done, end) && StopsAt(h, tip, fetch, done, other)
    ensures end == other
  {
  }

  /** Everything up to the stop height was fetched, and it does not pass the tip. */
  lemma SyncEndFetched<B(!new)>(h: nat, tip: nat, fetch: nat -> Option<B>, done: nat -> bool)
    ensures var end := SyncEnd(h, tip, fetch, done); Fetched(h, end, tip, fetch) && (h < end ==> end <= tip)
  {
    SyncEndStops(h, tip, fetch, done);
    StopIsFetched(h, tip, fetch, done, SyncEnd(h, tip, fetch, done));
  }

  lemma StopIsFetched<B(!new)>(h: nat, tip: nat, fetch: nat -> Option<B>, done: nat -> bool, end: nat)
    requires StopsAt(h, tip, fetch, done, end)
    ensures Fetched(h, end, tip, fetch) && (h < end ==> end <= tip)
  {
    assert h < end ==> !done(end - 1);
  }

  // ----- What one call of syncTransactionPool does -----

  /** The hashes that a poll broadcasts, in order: not remembered, and fetched (ok is indexed by position). */
  function Announced(prev: set<Hash>, polled: seq<Hash>, ok: nat -> bool): seq<Hash> {
    if polled == [] then []
    else
      var n := |polled| - 1;
      Announced(prev, polled[..n], ok) + if polled[n] !in prev && ok(n) then [polled[n]] else []
  }

  function Members(s: seq<Hash>): set<Hash> {
    set i | 0 <= i < |s| :: s[i]
  }

  // ----- What a run of polls does -----

  datatype Poll = Poll(hashes: Option<seq<Hash>>, ok: nat -> bool)

  /** The remembered set after a run of polls. */
  ghost function Remembered(polls: seq<Poll>): set<Hash> {
    if polls == [] then {}
    else
      var n := |polls| - 1;
      if polls[n].hashes.Some? then Members(polls[n].hashes.value) else Remembered(polls[..n])
  }

  /** What the poll at position i of the run broadcasts. */
  ghost function BroadcastAt(polls: seq<Poll>, i: nat): seq<Hash>
    requires i < |polls|
  {
    if polls[i].hashes.None? then []
    else Announced(Remembered(polls[..i]), polls[i].hashes.value, polls[i].ok)
  }

  /** What the polls of the run broadcast, one after the other. */
  ghost function Broadcasts(polls: seq<Poll>): seq<Hash> {
    if polls == [] then []
    else
      var n := |polls| - 1;
      Broadcasts(polls[..n]) + BroadcastAt(polls, n)
  }

  /** One poll more: prev and next are the remembered sets around it, before and after what was sent since base. */
  lemma PollSnoc(polls: seq<Poll>, i: nat, prev: set<Hash>, next: set<Hash>, base: seq<Hash>, before: seq<Hash>,
                 after: seq<Hash>)
    requires i < |polls| && prev == Remembered(polls[..i]) && before == base + Broadcasts(polls[..i])
    requires polls[i].hashes.None? ==> next == prev && after == before
    requires polls[i].hashes.Some? ==>
               && next == Members(polls[i].hashes.value)
               && after == before + Announced(prev, polls[i].hashes.value, polls[i].ok)
    ensures next == Remembered(polls[..i + 1]) && after == base + Broadcasts(polls[..i + 1])
  {
    assert polls[..i + 1][..i] == polls[..i] && polls[..i + 1][i] == polls[i];
  }

  class BaseDaemonRpcClientExecutor<B(!new)> {
    var running: bool
    var lastBlockHeight: nat
    var txs: set<Hash>
    ghost var blocks: seq<Emission<B>>
    ghost var announced: seq<Hash>

    ghost predicate Valid()
      reads this
    {
      lastBlockHeight < Confirmations.TWO64
    }

    constructor ()
      ensures Valid() && !running && txs == {} && blocks == [] && announced == []
    {
      running, lastBlockHeight, txs, blocks, announced := false, 0, {}, [], [];
    }

    method Start(startBlock: nat)
      requires Valid() && startBlock < Confirmations.TWO64
      modifies this
      ensures Valid() && running
      ensures lastBlockHeight == if old(running) then old(lastBlockHeight) else startBlock
      ensures txs == old(txs) && blocks == old(blocks) && announced == old(announced)
    {
      if running {
        return;
      }
      running := true;
      lastBlockHeight := startBlock;
    }

    /** tip is the answer of GetLastBlockHeight, fetch those of GetBlockByHeight, done whether the context is cancelled
        when the loop reaches a height. */
    method SyncBlock(tip: Option<nat>, fetch: nat -> Option<B>, done: nat -> bool)
      requires Valid() && (tip.Some? ==> tip.value < Confirmations.TWO64)
      modifies this
      ensures Valid()
      ensures running == old(running) && txs == old(txs) && announced == old(announced)
      ensures tip.None? ==> lastBlockHeight == old(lastBlockHeight) && blocks == old(blocks)
      ensures tip.Some? ==>
                && lastBlockHeight == SyncEnd(old(lastBlockHeight), tip.value, fetch, done)
                && Fetched(old(lastBlockHeight), lastBlockHeight, tip.value, fetch)
                && blocks == old(blocks) + Blocks(old(lastBlockHeight), lastBlockHeight, tip.value, fetch)
      ensures tip.Some? ==> StopsAt(old(lastBlockHeight), tip.value, fetch, done, lastBlockHeight)
      ensures tip.Some? && Unhindered(old(lastBlockHeight), tip.value, fetch, done) ==>
                lastBlockHeight == if old(lastBlockHeight) < tip.value then tip.value else old(lastBlockHeight)
    {
      if tip.None? {
        return;
      }
      while true
        invariant Valid() && Fetched(old(lastBlockHeight), lastBlockHeight, tip.value, fetch)
        invariant SyncEnd(old(lastBlockHeight), tip.value, fetch, done)
               == SyncEnd(lastBlockHeight, tip.value, fetch, done)
        invariant running == old(running) && txs == old(txs) && announced == old(announced)
        invariant blocks == old(blocks) + Blocks(old(lastBlockHeight), lastBlockHeight, tip.value, fetch)
        decreases tip.value - lastBlockHeight
      {
        if done(lastBlockHeight) || tip.value <= lastBlockHeight {
          break;
        }
        var block := fetch(lastBlockHeight);
        if block.None? {
          break;
        }
        FetchOne(old(lastBlockHeight), lastBlockHeight, tip.value, fetch);
        blocks := blocks + [Emission(lastBlockHeight, block.value)];
        lastBlockHeight := lastBlockHeight + 1;
      }
      SyncEndStops(old(lastBlockHeight), tip.value, fetch, done);
      if Unhindered(old(lastBlockHeight), tip.value, fetch, done) {
        ReachesTip(old(lastBlockHeight), tip.value, fetch, done);
      }
    }

    /** polled is the answer of GetTransactionPool; ok says which positions GetTransactions answers. */
    method SyncTransactionPool(polled: Option<seq<Hash>>, ok: nat -> bool)
      requires Valid()
      modifies this
      ensures Valid()
      ensures running == old(running) && lastBlockHeight == old(lastBlockHeight) && blocks == old(blocks)
      ensures polled.None? ==> txs == old(txs) && announced == old(announced)
      ensures polled.Some? ==>
                && txs == Members(polled.value)
                && announced == old(announced) + Announced(old(txs), polled.value, ok)
    {
      if polled.None? {
        return;
      }
      var hashes := polled.value;
      var prevTxs := txs;
      var newTxs: set<Hash> := {};
      for i := 0 to |hashes|
        invariant running == old(running) && lastBlockHeight == old(lastBlockHeight) && blocks == old(blocks)
        invariant txs == old(txs) == prevTxs
        invariant newTxs == Members(hashes[..i])
        invariant announced == old(announced) + Announced(prevTxs, hashes[..i], ok)
      {
        assert hashes[..i + 1][..i] == hashes[..i];
        MembersSnoc(hashes, i);
        newTxs := newTxs + {hashes[i]};
        if hashes[i] in prevTxs {
          continue;
        }
        if !ok(i) {
          continue;
        }
        announced := announced + [hashes[i]];
      }
      assert hashes[..|hashes|] == hashes;
      txs := newTxs;
    }

    /** The mempool half of sync: one poll per tick, starting with nothing remembered. */
    method SyncTransactionPools(polls: seq<Poll>)
      requires Valid() && txs == {}
      modifies this
      ensures Valid()
      ensures running == old(running) && lastBlockHeight == old(lastBlockHeight) && blocks == old(blocks)
      ensures txs == Remembered(polls) && announced == old(announced) + Broadcasts(polls)
    {
      for i := 0 to |polls|
        invariant Valid()
        invariant running == old(running) && lastBlockHeight == old(lastBlockHeight) && blocks == old(blocks)
        invariant txs == Remembered(polls[..i]) && announced == old(announced) + Broadcasts(polls[..i])
      {
        ghost var prevTxs, before := txs, announced;
        SyncTransactionPool(polls[i].hashes, polls[i].ok);
        PollSnoc(polls, i, prevTxs, txs, old(announced), before, announced);
      }
      assert polls[..|polls|] == polls;
    }
  }

  lemma MembersSnoc(s: seq<Hash>, i: nat)
    requires i < |s|
    ensures Members(s[..i + 1]) == Members(s[..i]) + {s[i]}
  {
    forall h
      ensures h in Members(s[..i + 1]) <==> h in Members(s[..i]) + {s[i]}
    {
      if h in Members(s[..i + 1]) {
        var j :| 0 <= j < i + 1 && s[..i + 1][j] == h;
        assert j < i ==> s[..i][j] == h;
      }
      if h in Members(s[..i]) {
        var j :| 0 <= j < i && s[..i][j] == h;
        assert s[..i + 1][j] == h;
      }
      assert s[..i + 1][i] == s[i];
    }
  }

  // ----- The mempool diff over whole runs of polls -----

  predicate Contains(p: Poll, h: Hash) {
    p.hashes.Some? && h in p.hashes.value
  }

  lemma {:induction false} AnnouncedAt(prev: set<Hash>, polled: seq<Hash>, ok: nat -> bool, k: nat)
    requires k < |polled| && polled[k] !in prev && ok(k)
    ensures polled[k] in Announced(prev, polled, ok)
    decreases |polled|
  {
    var n := |polled| - 1;
    if k < n {
      AnnouncedAt(prev, polled[..n], ok, k);
    }
  }

  lemma {:induction false} AnnouncedFrom(prev: set<Hash>, polled: seq<Hash>, ok: nat -> bool, h: Hash) returns (k: nat)
    requires h in Announced(prev, polled, ok)
    ensures h !in prev && k < |polled| && polled[k] == h && ok(k)
    decreases |polled|
  {
    var n := |polled| - 1;
    if h in Announced(prev, polled[..n], ok) {
      k := AnnouncedFrom(prev, polled[..n], ok, h);
    } else {
      k := n;
    }
  }

  lemma AnnouncedIff(prev: set<Hash>, polled: seq<Hash>, ok: nat -> bool, h: Hash)
    ensures h in Announced(prev, polled, ok) <==> h !in prev && exists k :: 0 <= k < |polled| && polled[k] == h && ok(k)
  {
    if h in Announced(prev, polled, ok) {
      var k := AnnouncedFrom(prev, polled, ok, h);
    } else if k :| 0 <= k < |polled| && polled[k] == h && ok(k) {
      if h !in prev {
        AnnouncedAt(prev, polled, ok, k);
      }
    }
  }

  /** A hash is remembered exactly if some successful poll contained it and no later successful poll failed to. */
  lemma {:induction false} RememberedIff(polls: seq<Poll>, h: Hash)
    ensures h in Remembered(polls)
       <==> exists i :: 0 <= i < |polls| && Contains(polls[i], h)
              && forall k :: i < k < |polls| && polls[k].hashes.Some? ==> Contains(polls[k], h)
    decreases |polls|
  {
    if polls != [] {
      var n := |polls| - 1;
      var init := polls[..n];
      RememberedIff(init, h);
      if polls[n].hashes.None? {
        if h in Remembered(init) {
          var i :| 0 <= i < n && Contains(init[i], h)
                   && forall k :: i < k < n && init[k].hashes.Some? ==> Contains(init[k], h);
          assert Contains(polls[i], h);
          forall k | i < k < |polls| && polls[k].hashes.Some?
            ensures Contains(polls[k], h)
          {
            assert polls[k] == init[k];
          }
        }
        if i :| 0 <= i < |polls| && Contains(polls[i], h)
                && forall k :: i < k < |polls| && polls[k].hashes.Some? ==> Contains(polls[k], h) {
          assert Contains(init[i], h);
          forall k | i < k < n && init[k].hashes.Some?
            ensures Contains(init[k], h)
          {
            assert polls[k] == init[k];
          }
        }
      } else if h in Remembered(polls) {
        assert Contains(polls[n], h);
      }
    }
  }

  /** A poll broadcasts exactly the hashes it contains, can fetch and does not remember. */
  lemma BroadcastIff(polls: seq<Poll>, i: nat, h: Hash)
    requires i < |polls|
    ensures h in BroadcastAt(polls, i)
       <==> && polls[i].hashes.Some?
            && h !in Remembered(polls[..i])
            && exists k :: 0 <= k < |polls[i].hashes.value| && polls[i].hashes.value[k] == h && polls[i].ok(k)
  {
    if polls[i].hashes.Some? {
      AnnouncedIff(Remembered(polls[..i]), polls[i].hashes.value, polls[i].ok, h);
    }
  }

  /** A hash seen by a successful poll is not broadcast again (nor retried, if its fetch failed) while every successful
      poll still contains it. */
  lemma NotRepeatedWhilePresent(polls: seq<Poll>, i: nat, j: nat, h: Hash)
    requires i < j < |polls| && Contains(polls[i], h)
    requires forall k :: i < k < j && polls[k].hashes.Some? ==> Contains(polls[k], h)
    ensures h !in BroadcastAt(polls, j)
  {
    RememberedIff(polls[..j], h);
    assert Contains(polls[..j][i], h);
    BroadcastIff(polls, j, h);
  }

  /** Between two broadcasts of a hash some successful poll did not contain it. */
  lemma RebroadcastOnlyAfterAbsence(polls: seq<Poll>, i: nat, j: nat, h: Hash)
    requires i < j < |polls|
    requires h in BroadcastAt(polls, i) && h in BroadcastAt(polls, j)
    ensures exists k :: i < k < j && polls[k].hashes.Some? && h !in polls[k].hashes.value
  {
    BroadcastIff(polls, i, h);
    if forall k :: i < k < j && polls[k].hashes.Some? ==> Contains(polls[k], h) {
      NotRepeatedWhilePresent(polls, i, j, h);
      assert false;
    }
  }

  /** A poll without duplicates broadcasts no hash twice. */
  lemma {:induction false} AnnouncedDistinct(prev: set<Hash>, polled: seq<Hash>, ok: nat -> bool)
    requires forall i, j :: 0 <= i < j < |polled| ==> polled[i] != polled[j]
    ensures var r := Announced(prev, polled, ok); forall i, j :: 0 <= i < j < |r| ==> r[i] != r[j]
    decreases |polled|
  {
    if polled != [] {
      var n := |polled| - 1;
      AnnouncedDistinct(prev, polled[..n], ok);
      AnnouncedIff(prev, polled[..n], ok, polled[n]);
    }
  }
}

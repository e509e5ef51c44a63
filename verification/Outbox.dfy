/** The outbox relay: one tick claims an ordered batch, publishes it, and deletes it only when every delivery was
    confirmed. */
module Outbox {
  import opened Types
  import opened Pages
  import opened Database

  predicate Before(a: set<nat>, b: set<nat>) {
    forall i, j | i in a && j in b :: i < j
  }

  /** ORDER BY id LIMIT cap FOR UPDATE SKIP LOCKED */
  predicate IsOutboxBatch(pending: set<nat>, locked: set<nat>, cap: nat, ids: set<nat>) {
    && ids <= pending - locked && |ids| <= cap
    && Before(ids, pending - locked - ids)
    && (|ids| < cap ==> ids == pending - locked)
  }

  /** What becomes of one published message: confirmed, reported as failed (though it may have landed all the same),
      or still queued when the flush timed out. */
  datatype Delivery = Acked | Errored(landed: bool) | Queued

  predicate Lands(f: Delivery) {
    f.Acked? || (f.Errored? && f.landed)
  }

  predicate Increasing(ids: seq<nat>) {
    forall i, j | 0 <= i < j < |ids| :: ids[i] < ids[j]
  }

  function AsSet(ids: seq<nat>): set<nat> {
    set i | i in ids
  }

  lemma {:induction false} IncreasingSize(ids: seq<nat>)
    requires Increasing(ids)
    ensures |AsSet(ids)| == |ids|
  {
    if ids != [] {
      var init, last := ids[..|ids| - 1], ids[|ids| - 1];
      IncreasingSize(init);
      assert last !in AsSet(init);
      assert AsSet(ids) == AsSet(init) + {last};
    }
  }

  /** The messages of `ids` that reached the broker. */
  function Landed(ids: seq<nat>, fate: nat -> Delivery): set<nat> {
    set i | i in ids && Lands(fate(i))
  }

  predicate AllAcked(ids: seq<nat>, fate: nat -> Delivery) {
    forall i | i in ids :: fate(i).Acked?
  }

  /** The producer as the relay sees it: ids in the order they were handed over, and the broker's log. */
  class Producer {
    var published: seq<nat>
    var log: set<nat>

    constructor ()
      ensures published == [] && log == {}
    {
      published, log := [], {};
    }

    method Publish(id: nat, fate: Delivery)
      modifies this
      ensures published == old(published) + [id]
      ensures log == if Lands(fate) then old(log) + {id} else old(log)
    {
      published := published + [id];
      if Lands(fate) {
        log := log + {id};
      }
    }
  }

  lemma {:induction false} LeastExists(s: set<nat>) returns (m: nat)
    requires s != {}
    ensures m in s && forall i | i in s :: m <= i
    decreases |s|
  {
    var x :| x in s;
    if s == {x} {
      m := x;
    } else {
      assert |s - {x}| < |s|;
      var y := LeastExists(s - {x});
      m := if x < y then x else y;
      forall i | i in s ensures m <= i { assert i == x || i in s - {x}; }
    }
  }

  lemma TakeNext(ids: seq<nat>, rest: set<nat>, i: nat)
    requires Increasing(ids) && Before(AsSet(ids), rest) && i in rest && forall j | j in rest :: i <= j
    ensures Increasing(ids + [i]) && Before(AsSet(ids + [i]), rest - {i})
    ensures AsSet(ids + [i]) == AsSet(ids) + {i}
  {
    forall k | 0 <= k < |ids| ensures ids[k] < i { assert ids[k] in AsSet(ids); }
  }

  method ClaimOutboxBatch(pending: set<nat>, locked: set<nat>, cap: nat) returns (ids: seq<nat>)
    ensures Increasing(ids) && IsOutboxBatch(pending, locked, cap, AsSet(ids))
    ensures forall i | i in ids :: i in pending && i !in locked
    ensures forall j | j in pending && j !in locked && j !in ids :: |ids| == cap && forall i | i in ids :: i < j
  {
    var rest := pending - locked;
    ids := [];
    hide IsOutboxBatch;
    while |ids| < cap && rest != {}
      invariant |ids| <= cap && Increasing(ids)
      invariant AsSet(ids) + rest == pending - locked
      invariant Before(AsSet(ids), rest)
      decreases rest
    {
      ghost var m := LeastExists(rest);
      var i :| i in rest && forall j | j in rest :: i <= j;
      TakeNext(ids, rest, i);
      ids := ids + [i];
      rest := rest - {i};
    }
    BatchDone(pending, locked, cap, ids, rest);
    BatchSkipsNone(pending, locked, cap, ids);
  }

  lemma BatchSkipsNone(pending: set<nat>, locked: set<nat>, cap: nat, ids: seq<nat>)
    requires Increasing(ids) && IsOutboxBatch(pending, locked, cap, AsSet(ids))
    ensures forall i | i in ids :: i in pending && i !in locked
    ensures forall j | j in pending && j !in locked && j !in ids :: |ids| == cap && forall i | i in ids :: i < j
  {
    IncreasingSize(ids);
    hide Increasing;
    forall i | i in ids ensures i in pending && i !in locked { assert i in AsSet(ids); }
    forall j | j in pending && j !in locked && j !in ids ensures |ids| == cap && forall i | i in ids :: i < j {
      assert j in pending - locked - AsSet(ids);
      forall i | i in ids ensures i < j { assert i in AsSet(ids); }
    }
  }

  lemma BatchDone(pending: set<nat>, locked: set<nat>, cap: nat, ids: seq<nat>, rest: set<nat>)
    requires |ids| <= cap && Increasing(ids) && AsSet(ids) + rest == pending - locked && Before(AsSet(ids), rest)
    requires |ids| == cap || rest == {}
    ensures IsOutboxBatch(pending, locked, cap, AsSet(ids))
  {
    IncreasingSize(ids);
    assert pending - locked - AsSet(ids) <= rest;
  }

  /** Hands every row to the producer and flushes: how many are still queued, and which were reported as failed. */
  method PublishAll(producer: Producer, ids: seq<nat>, fate: nat -> Delivery) returns (remaining: nat,
      failures: seq<nat>)
    modifies producer
    ensures producer.published == old(producer.published) + ids
    ensures producer.log == old(producer.log) + Landed(ids, fate)
    ensures failures == [] && remaining == 0 <==> AllAcked(ids, fate)
  {
    remaining, failures := 0, [];
    for k := 0 to |ids|
      invariant producer.published == old(producer.published) + ids[..k]
      invariant producer.log == old(producer.log) + Landed(ids[..k], fate)
      invariant failures == [] && remaining == 0 <==> AllAcked(ids[..k], fate)
    {
      assert ids[..k + 1] == ids[..k] + [ids[k]];
      producer.Publish(ids[k], fate(ids[k]));
      match fate(ids[k]) {
        case Acked =>
        case Errored(_) => failures := failures + [ids[k]];
        case Queued => remaining := remaining + 1;
      }
    }
    assert ids[..|ids|] == ids;
  }

  /** One tick. Failures are collected while the batch is flushed; a single one rolls the whole claim back. */
  method RelayOnce(db: Database, producer: Producer, locked: set<nat>, cap: nat, fate: nat -> Delivery)
    returns (ids: seq<nat>, failed: bool)
    requires db.Valid()
    modifies db`outbox, producer
    ensures db.Valid()
    ensures Increasing(ids) && IsOutboxBatch(old(db.outbox.Keys), locked, cap, AsSet(ids))
    ensures producer.published == old(producer.published) + ids
    ensures producer.log == old(producer.log) + Landed(ids, fate)
    ensures failed <==> !AllAcked(ids, fate)
    ensures failed <==> exists i :: i in ids && fate(i) != Acked
    ensures db.outbox == if failed then old(db.outbox) else old(db.outbox) - AsSet(ids)
    ensures !failed ==> AsSet(ids) <= producer.log
  {
    hide IsOutboxBatch, Increasing;
    ids := ClaimOutboxBatch(db.outbox.Keys, locked, cap);
    if ids == [] {
      return ids, false;
    }
    var remaining, failures := PublishAll(producer, ids, fate);
    failed := remaining > 0 || failures != [];
    if !failed {
      db.outbox := db.outbox - AsSet(ids);
    }
  }

  // ---- Draining ----

  /** Tick k of a lone relay without failures takes the backlog from ps[k] to ps[k + 1]. */
  ghost predicate IsTick(ps: seq<set<nat>>, cap: nat, k: nat)
    requires k + 1 < |ps|
  {
    ps[k + 1] <= ps[k] && IsOutboxBatch(ps[k], {}, cap, ps[k] - ps[k + 1])
  }

  ghost predicate Drains(ps: seq<set<nat>>, cap: nat) {
    forall k | 0 <= k < |ps| - 1 :: IsTick(ps, cap, k)
  }

  lemma {:induction false} BacklogAfter(ps: seq<set<nat>>, cap: nat, k: nat)
    requires Drains(ps, cap) && k < |ps|
    ensures |ps[k]| == if |ps[0]| <= k * cap then 0 else |ps[0]| - k * cap
  {
    if k > 0 {
      BacklogAfter(ps, cap, k - 1);
      var batch := ps[k - 1] - ps[k];
      assert IsTick(ps, cap, k - 1);
      assert ps[k - 1] == batch + ps[k];
      assert |ps[k - 1]| == |batch| + |ps[k]|;
      assert k * cap == (k - 1) * cap + cap;
      if |batch| < cap {
        assert batch == ps[k - 1] - {} == ps[k - 1];
      }
    }
  }

  /** The number of ticks a backlog of b rows takes. */
  function Ticks(b: nat, cap: nat): nat
    requires cap >= 1
  {
    (b + cap - 1) / cap
  }

  /** A lone relay empties b rows in exactly ceil(b / cap) non-empty ticks, and in id order. */
  lemma DrainsInOrder(ps: seq<set<nat>>, cap: nat, k: nat)
    requires cap >= 1 && Drains(ps, cap) && k < |ps|
    ensures ps[k] == {} <==> k >= Ticks(|ps[0]|, cap)
    ensures k + 1 < |ps| ==> (ps[k] != ps[k + 1] <==> k < Ticks(|ps[0]|, cap))
    ensures k + 1 < |ps| ==> Before(ps[k] - ps[k + 1], ps[k + 1])
  {
    var b := |ps[0]|;
    BacklogAfter(ps, cap, k);
    assert b + cap - 1 == cap * Ticks(b, cap) + (b + cap - 1) % cap;
    if k >= Ticks(b, cap) {
      MulMono(Ticks(b, cap), k, cap);
    } else {
      MulMono(k + 1, Ticks(b, cap), cap);
      assert (k + 1) * cap == k * cap + cap;
    }
    if k + 1 < |ps| {
      var batch := ps[k] - ps[k + 1];
      assert IsTick(ps, cap, k);
      assert ps[k] - {} - batch == ps[k + 1];
      if ps[k] == ps[k + 1] { assert batch == {}; }
    }
  }

  /** A tick without failures carries such a drain on. */
  lemma DrainsOn(ps: seq<set<nat>>, outbox: map<nat, Msg>, ids: seq<nat>, cap: nat)
    requires Drains(ps, cap) && |ps| > 0 && ps[|ps| - 1] == outbox.Keys
    requires IsOutboxBatch(outbox.Keys, {}, cap, AsSet(ids))
    ensures Drains(ps + [(outbox - AsSet(ids)).Keys], cap)
  {
    var ps' := ps + [(outbox - AsSet(ids)).Keys];
    forall k | 0 <= k < |ps'| - 1 ensures IsTick(ps', cap, k) {
      if k < |ps| - 1 {
        assert IsTick(ps, cap, k);
      } else {
        assert ps'[k] - ps'[k + 1] == AsSet(ids);
      }
    }
  }

  /** `ids` have gone out, in order, and `pending` are still to go. */
  ghost predicate Halfway(all: set<nat>, ids: seq<nat>, pending: set<nat>) {
    Increasing(ids) && Before(AsSet(ids), pending) && AsSet(ids) + pending == all
  }

  lemma AsSetConcat(a: seq<nat>, b: seq<nat>)
    ensures AsSet(a + b) == AsSet(a) + AsSet(b)
  {
  }

  lemma IncreasingConcat(a: seq<nat>, b: seq<nat>)
    requires Increasing(a) && Increasing(b) && Before(AsSet(a), AsSet(b))
    ensures Increasing(a + b)
  {
    forall i, j | 0 <= i < |a| && 0 <= j < |b| ensures a[i] < b[j] {
      assert a[i] in AsSet(a) && b[j] in AsSet(b);
    }
  }

  lemma BeforeRest(gone: set<nat>, pending: set<nat>, batch: set<nat>)
    requires Before(gone, pending) && batch <= pending && Before(batch, pending - batch)
    ensures Before(gone, batch) && Before(gone + batch, pending - batch)
  {
  }

  lemma Onward(all: set<nat>, ids: seq<nat>, pending: set<nat>, batch: seq<nat>, cap: nat)
    requires Halfway(all, ids, pending) && Increasing(batch) && IsOutboxBatch(pending, {}, cap, AsSet(batch))
    ensures Halfway(all, ids + batch, pending - AsSet(batch))
    ensures AsSet(ids + batch) == AsSet(ids) + AsSet(batch)
  {
    hide Before, Increasing, AsSet, IsOutboxBatch;
    BatchFirst(pending, cap, AsSet(batch));
    AsSetConcat(ids, batch);
    BeforeRest(AsSet(ids), pending, AsSet(batch));
    IncreasingConcat(ids, batch);
    MovesOver(all, AsSet(ids), pending, AsSet(batch));
  }

  lemma BatchFirst(pending: set<nat>, cap: nat, batch: set<nat>)
    requires IsOutboxBatch(pending, {}, cap, batch)
    ensures batch <= pending && Before(batch, pending - batch)
  {
    assert pending - {} == pending;
  }

  lemma MovesOver(all: set<nat>, gone: set<nat>, pending: set<nat>, batch: set<nat>)
    requires gone + pending == all && batch <= pending
    ensures gone + batch + (pending - batch) == all
  {
  }

  /** Every delivery is confirmed. */
  function Confirmed(id: nat): Delivery {
    Acked
  }

  lemma AllConfirmed(ids: seq<nat>)
    ensures Landed(ids, Confirmed) == AsSet(ids) && AllAcked(ids, Confirmed)
  {
  }

  /** A tick over a backlog takes something. */
  lemma TickShrinks(outbox: map<nat, Msg>, ids: seq<nat>, cap: nat)
    requires outbox != map[] && cap >= 1 && IsOutboxBatch(outbox.Keys, {}, cap, AsSet(ids))
    ensures |outbox - AsSet(ids)| < |outbox| && outbox.Keys != {}
    ensures (outbox - AsSet(ids)).Keys == outbox.Keys - AsSet(ids)
  {
    assert outbox.Keys == AsSet(ids) + (outbox - AsSet(ids)).Keys;
    assert outbox.Keys - {} == outbox.Keys;
    assert AsSet(ids) != {};
  }

  /** The relay's loop, alone and with every delivery confirmed, until a tick would find nothing: the backlog reaches
      the broker in id order, in exactly as many ticks as it has batches. */
  method Drain(db: Database, producer: Producer, cap: nat) returns (ticks: nat, ids: seq<nat>)
    requires db.Valid() && cap >= 1
    modifies db`outbox, producer
    ensures db.Valid() && db.outbox == map[]
    ensures ticks == Ticks(|old(db.outbox)|, cap)
    ensures Increasing(ids) && AsSet(ids) == old(db.outbox.Keys)
    ensures producer.published == old(producer.published) + ids
    ensures producer.log == old(producer.log) + AsSet(ids)
  {
    ticks, ids := 0, [];
    ghost var all, published, log := db.outbox.Keys, producer.published, producer.log;
    ghost var ps := [all];
    DrainStart(all, cap, published, log);
    hide *;
    while db.outbox != map[]
      invariant db.Valid()
      invariant Draining(ps, cap, ticks, all, db.outbox.Keys)
      invariant Halfway(all, ids, db.outbox.Keys)
      invariant HandedOver(published, log, ids, producer.published, producer.log)
      decreases |db.outbox|
    {
      ghost var outbox := db.outbox;
      var batch := ConfirmedTick(db, producer, cap);
      DrainingOn(ps, cap, ticks, all, outbox, batch);
      Onward(all, ids, outbox.Keys, batch, cap);
      HandedOn(published, log, ids, batch);
      ps := ps + [db.outbox.Keys];
      ids := ids + batch;
      ticks := ticks + 1;
    }
    AllGone(all, ids, cap, ps, ticks);
    HandedAll(published, log, ids, producer.published, producer.log);
  }

  ghost predicate Draining(ps: seq<set<nat>>, cap: nat, ticks: nat, all: set<nat>, pending: set<nat>) {
    && |ps| == ticks + 1 && ps[0] == all && ps[ticks] == pending && Drains(ps, cap)
    && (ticks > 0 ==> ps[ticks - 1] != {})
  }

  ghost predicate HandedOver(published: seq<nat>, log: set<nat>, ids: seq<nat>, published': seq<nat>, log': set<nat>) {
    published' == published + ids && log' == log + AsSet(ids)
  }

  lemma DrainStart(all: set<nat>, cap: nat, published: seq<nat>, log: set<nat>)
    ensures Draining([all], cap, 0, all, all) && Halfway(all, [], all) && HandedOver(published, log, [], published, log)
  {
  }

  lemma DrainingOn(ps: seq<set<nat>>, cap: nat, ticks: nat, all: set<nat>, outbox: map<nat, Msg>, batch: seq<nat>)
    requires Draining(ps, cap, ticks, all, outbox.Keys) && outbox.Keys != {}
    requires IsOutboxBatch(outbox.Keys, {}, cap, AsSet(batch))
    ensures Draining(ps + [(outbox - AsSet(batch)).Keys], cap, ticks + 1, all, (outbox - AsSet(batch)).Keys)
  {
    hide IsOutboxBatch, Drains, AsSet;
    DrainsOn(ps, outbox, batch, cap);
  }

  lemma HandedOn(published: seq<nat>, log: set<nat>, ids: seq<nat>, batch: seq<nat>)
    ensures HandedOver(published, log, ids + batch, published + ids + batch, log + AsSet(ids) + AsSet(batch))
  {
    hide AsSet;
    AsSetConcat(ids, batch);
  }

  lemma HandedAll(published: seq<nat>, log: set<nat>, ids: seq<nat>, published': seq<nat>, log': set<nat>)
    requires HandedOver(published, log, ids, published', log')
    ensures published' == published + ids && log' == log + AsSet(ids)
  {
  }

  lemma AllGone(all: set<nat>, ids: seq<nat>, cap: nat, ps: seq<set<nat>>, ticks: nat)
    requires cap >= 1 && Draining(ps, cap, ticks, all, {}) && Halfway(all, ids, {})
    ensures ticks == Ticks(|all|, cap) && Increasing(ids) && AsSet(ids) == all
  {
    DrainsInOrder(ps, cap, ticks);
    if ticks > 0 { DrainsInOrder(ps, cap, ticks - 1); }
  }

  /** One tick over a backlog, with every delivery confirmed. */
  method ConfirmedTick(db: Database, producer: Producer, cap: nat) returns (batch: seq<nat>)
    requires db.Valid() && cap >= 1 && db.outbox != map[]
    modifies db`outbox, producer
    ensures db.Valid()
    ensures Increasing(batch) && IsOutboxBatch(old(db.outbox.Keys), {}, cap, AsSet(batch))
    ensures db.outbox == old(db.outbox) - AsSet(batch) && |db.outbox| < |old(db.outbox)|
    ensures db.outbox.Keys == old(db.outbox.Keys) - AsSet(batch) && old(db.outbox.Keys) != {}
    ensures producer.published == old(producer.published) + batch
    ensures producer.log == old(producer.log) + AsSet(batch)
  {
    hide IsOutboxBatch, Increasing, AsSet, Landed, AllAcked;
    var failed;
    batch, failed := RelayOnce(db, producer, {}, cap, Confirmed);
    AllConfirmed(batch);
    TickShrinks(old(db.outbox), batch, cap);
  }
}

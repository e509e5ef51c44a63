/** Nothing enqueued is lost, for any number of relays and any failures. */
module Relaying {
  import opened Types
  import opened Ledger
  import opened Outbox
  import opened Protocol
  import opened Frames

  /** A live claim holds rows still in the outbox, and what it was confirmed has landed. */
  ghost predicate RelayOk(w: World, r: nat)
    requires r in w.relays
  {
    w.relays[r].ids <= w.t.pending && w.relays[r].acked <= w.relays[r].ids * w.log
  }

  ghost predicate Conserved(w: World, i: nat) {
    i in w.t.pending || i in w.log
  }

  ghost predicate RelayInv(w: World) {
    && (forall i: nat | i < |w.t.sent| :: Conserved(w, i))
    && (forall r | r in w.relays :: RelayOk(w, r))
    && (forall r, q | r in w.relays && q in w.relays && r != q :: w.relays[r].ids !! w.relays[q].ids)
  }

  /** Everyone but the relays only adds rows to the outbox. */
  lemma OthersOnlyAdd(env: Env, w: World, a: Action, w': World)
    requires Next(env, w, a) == Some(w') && !a.Broker?
    ensures Outboxed(w.t, w'.t) && w'.relays == w.relays && w'.log == w.log && w'.produced == w.produced &&
              |w'.t.sent| >= |w.t.sent|
  {
    hide NextText, NextExtract, NextRecover, TextMsgs, ExtractMsgs, RecoverMsgs, SameButText, SameButVerdict,
         SameButRecovery;
    match a
    case Text(x) => TextSteps(env, w, x, w');
    case Extract(x) => ExtractSteps(env, w, x, w');
    case Recover(x) => RecoverSteps(env, w, x, w');
  }

  lemma OthersKeep(env: Env, w: World, a: Action, w': World)
    requires RelayInv(w) && Next(env, w, a) == Some(w') && !a.Broker?
    ensures RelayInv(w')
  {
    hide Next;
    OthersOnlyAdd(env, w, a, w');
    forall i: nat | i < |w'.t.sent| ensures Conserved(w', i) {
      if i < |w.t.sent| { assert Conserved(w, i); }
    }
    forall r | r in w'.relays ensures RelayOk(w', r) {
      assert RelayOk(w, r);
    }
  }

  lemma ClaimKeeps(w: World, r: nat, ids: set<nat>, cap: nat, w': World)
    requires RelayInv(w) && DoRelayClaim(w, r, ids, cap) == Some(w')
    ensures RelayInv(w')
  {
    forall i: nat | i < |w'.t.sent| ensures Conserved(w', i) { assert Conserved(w, i); }
    forall q | q in w'.relays ensures RelayOk(w', q) {
      if q != r { assert RelayOk(w, q); }
    }
    forall q | q in w.relays ensures w.relays[q].ids !! ids {
      forall i | i in ids ensures i !in w.relays[q].ids { assert i !in LockedRows(w); }
    }
  }

  lemma CommitKeeps(w: World, r: nat, w': World)
    requires RelayInv(w) && DoRelayCommit(w, r) == Some(w')
    ensures RelayInv(w')
  {
    assert RelayOk(w, r);
    forall i: nat | i < |w'.t.sent| ensures Conserved(w', i) { assert Conserved(w, i); }
    forall q | q in w'.relays ensures RelayOk(w', q) { assert RelayOk(w, q); }
  }

  lemma BrokerKeepsRelays(w: World, a: BrokerAction, w': World)
    requires RelayInv(w) && NextBroker(w, a) == Some(w')
    ensures RelayInv(w')
  {
    hide IsOutboxBatch, LockedRows;
    match a
    case RelayClaim(r, rows, cap) => ClaimKeeps(w, r, rows, cap, w');
    case RelayCommit(r) => CommitKeeps(w, r, w');
    case _ =>
      forall i: nat | i < |w'.t.sent| ensures Conserved(w', i) { assert Conserved(w, i); }
      forall q | q in w'.relays ensures RelayOk(w', q) { assert RelayOk(w, q); }
  }

  lemma {:induction false} RelayRun(env: Env, ws: seq<World>, acts: seq<Action>, n: nat)
    requires IsRun(env, ws, acts) && n < |ws|
    ensures RelayInv(ws[n])
  {
    hide NextText, NextExtract, NextRecover, NextBroker;
    if n > 0 {
      RelayRun(env, ws, acts, n - 1);
      assert Next(env, ws[n - 1], acts[n - 1]) == Some(ws[n]);
      if acts[n - 1].Broker? {
        BrokerKeepsRelays(ws[n - 1], acts[n - 1].bro, ws[n]);
      } else {
        OthersKeep(env, ws[n - 1], acts[n - 1], ws[n]);
      }
    }
  }

  lemma OnlyCommitDeletes(w: World, a: BrokerAction, w': World, i: nat)
    requires RelayInv(w) && NextBroker(w, a) == Some(w') && i in w.t.pending && i !in w'.t.pending
    ensures a.RelayCommit? && a.r in w.relays && i in w.relays[a.r].acked && i in w.log
  {
    hide IsOutboxBatch, LockedRows;
    assert a.RelayCommit?;
    assert RelayOk(w, a.r);
  }

  ghost predicate Genuine(w: World) {
    && w.log <= w.produced
    && (forall i | i in w.produced :: i < |w.t.sent|)
    && (forall i | i in w.t.pending :: i < |w.t.sent|)
  }

  lemma BrokerGenuine(w: World, a: BrokerAction, w': World)
    requires Genuine(w) && RelayInv(w) && NextBroker(w, a) == Some(w')
    ensures Genuine(w')
  {
    hide RelayInv, LockedRows;
  }

  // ---- The theorems ----

  /** At every point of every run, each message ever enqueued is in the outbox or has reached the broker, and no row
      is claimed by two relays. */
  lemma NothingLost(env: Env, ws: seq<World>, acts: seq<Action>, n: nat)
    requires IsRun(env, ws, acts) && n < |ws|
    ensures forall i: nat | i < |ws[n].t.sent| :: i in ws[n].t.pending || i in ws[n].log
    ensures forall r, q | r in ws[n].relays && q in ws[n].relays && r != q :: ws[n].relays[r].ids !! ws[n].relays[q].ids
  {
    hide Next;
    RelayRun(env, ws, acts, n);
    forall i: nat | i < |ws[n].t.sent| ensures i in ws[n].t.pending || i in ws[n].log { assert Conserved(ws[n], i); }
  }

  /** A row leaves the outbox only in the commit of the relay that claimed it, after its own message was confirmed. */
  lemma DeletedOnlyWhenAcked(env: Env, ws: seq<World>, acts: seq<Action>, n: nat, i: nat)
    requires IsRun(env, ws, acts) && n < |acts| && i in ws[n].t.pending && i !in ws[n + 1].t.pending
    ensures acts[n].Broker? && acts[n].bro.RelayCommit?
    ensures acts[n].bro.r in ws[n].relays && i in ws[n].relays[acts[n].bro.r].acked && i in ws[n].log
  {
    hide NextText, NextExtract, NextRecover, NextBroker, RelayInv;
    RelayRun(env, ws, acts, n);
    assert Next(env, ws[n], acts[n]) == Some(ws[n + 1]);
    if acts[n].Broker? {
      OnlyCommitDeletes(ws[n], acts[n].bro, ws[n + 1], i);
    } else {
      OthersOnlyAdd(env, ws[n], acts[n], ws[n + 1]);
    }
  }

  /** The broker holds only messages that were enqueued and then claimed by a relay. */
  lemma {:induction false} NothingInvented(env: Env, ws: seq<World>, acts: seq<Action>, n: nat)
    requires IsRun(env, ws, acts) && n < |ws|
    ensures ws[n].log <= ws[n].produced
    ensures forall i | i in ws[n].produced :: i < |ws[n].t.sent|
    ensures forall i | i in ws[n].t.pending :: i < |ws[n].t.sent|
  {
    hide NextText, NextExtract, NextRecover, NextBroker, RelayInv;
    if n > 0 {
      NothingInvented(env, ws, acts, n - 1);
      assert Next(env, ws[n - 1], acts[n - 1]) == Some(ws[n]);
      RelayRun(env, ws, acts, n - 1);
      if acts[n - 1].Broker? {
        BrokerGenuine(ws[n - 1], acts[n - 1].bro, ws[n]);
      } else {
        OthersOnlyAdd(env, ws[n - 1], acts[n - 1], ws[n]);
      }
    }
  }
}

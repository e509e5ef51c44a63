/** No document is stranded: what the sweeper claims it can always re-drive, and the re-driven message is accepted. */
module Stranding {
  import opened Types
  import opened Pages
  import opened Ledger
  import opened Sweeper
  import opened Stages
  import opened Protocol
  import opened Frames
  import opened Basics
  import opened Joining
  import opened Storage

  /** A document in a text state still waits for its join. */
  ghost predicate Waiting(w: World, d: DocId)
    requires d in w.t.docs
  {
    IsText(w.t.docs[d].state) ==> !JoinFired(w, d)
  }

  ghost predicate WaitInv(w: World) {
    forall d | d in w.t.docs :: Waiting(w, d)
  }

  // ---- Who enters a text state ----

  lemma TextEntersText(env: Env, w: World, a: TextAction, w': World, d: DocId)
    requires NextText(env, w, a) == Some(w') && d in w.t.docs && d in w'.t.docs
    ensures IsText(w'.t.docs[d].state) ==> IsText(w.t.docs[d].state)
  {
    hide AllPages, ShardText, DispatchMsg, CommitSplitTx;
    match a
    case SplitCommit(i) =>
      var n := |env.sources[w.t.sent[i].doc].ocr|;
      SplitState(env.cfg, w.t, w.t.sent[i].doc, ShardCount(n, env.cfg.shardSize), n);
      SplitDocsElsewhere(env.cfg, w.t, w.t.sent[i].doc, ShardCount(n, env.cfg.shardSize), n, d);
    case _ =>
  }

  lemma RecoverEntersText(env: Env, w: World, a: RecoverAction, w': World, d: DocId)
    requires NextRecover(env, w, a) == Some(w') && d in w.t.docs && d in w'.t.docs
    ensures IsText(w'.t.docs[d].state) ==>
              IsText(w.t.docs[d].state) ||
              (a.ForceRedrive? && a.seen.doc == d && w'.t.docs[d].state == TextPending)
  {
    hide RedriveMsgs, EnqueueAll, IsBatch, Tally;
    match a
    case ForceRedrive(r) =>
      var target := RedriveTarget(r.row, r.assembled).value;
      var t := Transition(w.t, r.doc, target, Predecessors(target), w.now).value;
      EnqueueAllFacts(t, RedriveMsgs(env.cfg, t, Row(r.doc, r.row.(state := target)), Operator));
    case SweepRedrive(r) => EnqueueAllFacts(w.t, RedriveMsgs(env.cfg, w.t, r, Sweep));
    case _ =>
  }

  lemma EntersText(env: Env, w: World, a: Action, w': World, d: DocId)
    requires Next(env, w, a) == Some(w') && H3(w, a, w') && d in w.t.docs && d in w'.t.docs && JoinFired(w, d)
    ensures IsText(w'.t.docs[d].state) ==> IsText(w.t.docs[d].state)
  {
    hide NextText, NextExtract, NextRecover, NextBroker, ExtractMsgs, JoinFired;
    match a
    case Text(x) => TextEntersText(env, w, x, w', d);
    case Extract(x) => ExtractSteps(env, w, x, w');
    case Recover(x) => RecoverEntersText(env, w, x, w', d);
    case Broker(x) => BrokerSteps(w, x, w');
  }

  lemma TriagedWaits(env: Env, w: World, a: Action, w': World, d: DocId)
    requires Basic(env, w) && Next(env, w, a) == Some(w') && d !in w.t.docs && d in w'.t.docs
    ensures !JoinFired(w', d)
  {
    hide NextText, NextExtract, NextRecover, NextBroker, TextMsgs, ExtractMsgs, RecoverMsgs, Basic;
    StepGrows(env, w, a, w');
    NoMessages(env, w, d);
    forall j: nat ensures !JoinSent(w', d, j) {
      if |w.t.sent| <= j < |w'.t.sent| && w'.t.sent[j].cause == Join {
        assert w'.t.sent[j] == NewMsgs(env, w, a)[j - |w.t.sent|];
        JoinCause(env, w, a, w', j - |w.t.sent|);
        WinnerKnown(env, w, a.text, j - |w.t.sent|);
      }
    }
  }

  lemma WinnerKnown(env: Env, w: World, a: TextAction, k: nat)
    requires a.ShardRecord? && k < |TextMsgs(env, w, a)|
    ensures TextMsgs(env, w, a)[k].doc in w.t.docs
  {
  }

  lemma WaitStep(env: Env, w: World, a: Action, w': World)
    requires Basic(env, w) && WaitInv(w) && Next(env, w, a) == Some(w') && H3(w, a, w')
    ensures WaitInv(w')
  {
    hide Next, Basic, H3, JoinFired;
    forall d | d in w'.t.docs ensures Waiting(w', d) {
      if d !in w.t.docs {
        TriagedWaits(env, w, a, w', d);
      } else {
        assert Waiting(w, d);
        if JoinFired(w, d) {
          EntersText(env, w, a, w', d);
        } else {
          JoinNeedsRecord(env, w, a, w', d);
        }
      }
    }
  }

  lemma {:induction false} WaitRun(env: Env, ws: seq<World>, acts: seq<Action>, n: nat)
    requires env.Valid() && IsRun(env, ws, acts) && Under3(ws, acts) && n < |ws|
    ensures Basic(env, ws[n]) && WaitInv(ws[n])
  {
    hide Next, Basic, H3;
    BasicRun(env, ws, acts, n);
    if n > 0 {
      WaitRun(env, ws, acts, n - 1);
      WaitStep(env, ws[n - 1], acts[n - 1], ws[n]);
    }
  }

  // ---- The theorems ----

  /** Every document in a text state has an unrecorded shard. */
  lemma AlwaysUnrecorded(env: Env, ws: seq<World>, acts: seq<Action>, n: nat, d: DocId)
    requires env.Valid() && IsRun(env, ws, acts) && Under2(ws, acts) && Under3(ws, acts) && n < |ws|
    requires d in ws[n].t.docs && IsText(ws[n].t.docs[d].state)
    ensures Known(env, d) && exists i: nat :: i < ShardTotal(env, d) && i !in Recorded(ws[n].t, d)
  {
    hide Next, Under2, Under3, JoinFired;
    WaitRun(env, ws, acts, n);
    assert Waiting(ws[n], d);
    Unrecorded(env, ws, acts, n, d);
  }

  lemma Unrecorded(env: Env, ws: seq<World>, acts: seq<Action>, n: nat, d: DocId)
    requires env.Valid() && IsRun(env, ws, acts) && Under2(ws, acts) && n < |ws|
    requires d in ws[n].t.docs && !JoinFired(ws[n], d)
    ensures Known(env, d) && exists i: nat :: i < ShardTotal(env, d) && i !in Recorded(ws[n].t, d)
  {
    hide Next, Under2, JoinFired;
    ExactlyOnceJoin(env, ws, acts, n, d);
    var i :| i in UpTo(ShardTotal(env, d)) && i !in Recorded(ws[n].t, d);
  }

  /** The first transition of message m's handler. */
  ghost function FirstTransition(t: Tables, m: Msg, now: Time): Option<Tables> {
    match m.topic
    case OcrCompleted => Transition(t, m.doc, ExtractRunning, {ExtractPending}, now)
    case DocumentExtracted => Some(t)
    case _ => Transition(t, m.doc, TextRunning, {TextPending}, now)
  }

  /** That transition is what lets the handler of a delivered message begin. */
  lemma FirstTransitionBegins(env: Env, w: World, i: nat, h: nat)
    requires Basic(env, w) && i in w.log && i < |w.t.sent| && h !in w.handlers
    ensures FirstTransition(w.t, w.t.sent[i], w.now).Some? <==>
              match w.t.sent[i].topic
              case TextEmbedded => Next(env, w, Text(EmbeddedCommit(i))).Some?
              case OcrSplit => Next(env, w, Text(SplitBegin(i))).Some?
              case OcrShard => Next(env, w, Text(ShardBegin(i))).Some?
              case OcrCompleted => Next(env, w, Extract(Start(h, i))).Some?
              case DocumentExtracted => Next(env, w, Broker(SinkPost(i))).Some?
  {
    hide RowsOk, RefsOk, StoreOk, DispatchMsg, AllPages;
    assert MsgOk(env, w, w.t.sent[i]);
  }

  /** The one in-flight row a re-drive has nothing to send for: a split document waiting in text_running with every
      shard recorded. Without H3 the operator can bring a document there, and it never leaves by itself. */
  lemma NothingToSend(env: Env, t: Tables, r: Row, cause: Cause)
    requires Known(env, r.doc) && GoodRow(env, r.doc, r.row) && InFlight(r.row.state)
    ensures RedriveMsgs(env.cfg, t, r, cause) == [] <==>
              r.row.state == TextRunning && r.row.shardsTotal > 1 && UpTo(r.row.shardsTotal) <= Recorded(t, r.doc)
  {
    var ids := Missing(Recorded(t, r.doc), r.row.shardsTotal);
    MissingExactly(Recorded(t, r.doc), r.row.shardsTotal);
    if ids != [] {
      assert ids[0] in ids;
    } else {
      assert UpTo(r.row.shardsTotal) <= Recorded(t, r.doc) by {
        forall i: nat | i in UpTo(r.row.shardsTotal) ensures i in Recorded(t, r.doc) { assert i !in ids; }
      }
    }
  }

  lemma RedriveTopics(env: Env, t: Tables, r: Row, k: nat)
    requires k < |RedriveMsgs(env.cfg, t, r, Sweep)|
    ensures var m := RedriveMsgs(env.cfg, t, r, Sweep)[k];
      && m.doc == r.doc
      && (IsText(r.row.state) ==> m.topic in {TextEmbedded, OcrSplit, OcrShard})
      && (!IsText(r.row.state) ==> m.topic == OcrCompleted)
  {
  }

  /** No stranded document: a sweep that claims a document below its cap leaves it in a state from which the re-drive
      sends at least one message, and every message it sends is one whose handler's first transition is enabled. */
  lemma NoStrandedDocument(env: Env, ws: seq<World>, acts: seq<Action>, n: nat, d: DocId)
    requires env.Valid() && IsRun(env, ws, acts) && Under2(ws, acts) && Under3(ws, acts) && n < |acts|
    requires acts[n].Recover? && acts[n].rec.SweepClaim? && d in acts[n].rec.ids
    requires d in ws[n].t.docs
    requires ws[n].t.docs[d].state == TextRunning ==> ws[n].t.docs[d].textAttempts < env.cfg.maxText
    requires ws[n].t.docs[d].state == ExtractRunning ==> ws[n].t.docs[d].extractAttempts < env.cfg.maxExtract
    ensures Row(d, ws[n].t.docs[d]) in ws[n + 1].claimed
    ensures var ms := RedriveMsgs(env.cfg, ws[n + 1].t, Row(d, ws[n].t.docs[d]), Sweep);
      ms != [] && forall k | 0 <= k < |ms| :: FirstTransition(ws[n + 1].t, ms[k], ws[n + 1].now).Some?
  {
    hide Next, Under2, Under3, Basic, RedriveMsgs, JoinFired, FirstTransition, GoodRow;
    var w, w' := ws[n], ws[n + 1];
    var r := Row(d, w.t.docs[d]);
    WaitRun(env, ws, acts, n);
    GoodRowOf(env, w, d);
    ClaimLeaves(env, w, acts[n], w', d);
    if IsText(r.row.state) {
      AlwaysUnrecorded(env, ws, acts, n, d);
      NothingToSend(env, w'.t, r, Sweep);
    } else {
      SendsExtract(env.cfg, w'.t, r);
    }
    forall k | 0 <= k < |RedriveMsgs(env.cfg, w'.t, r, Sweep)|
      ensures FirstTransition(w'.t, RedriveMsgs(env.cfg, w'.t, r, Sweep)[k], w'.now).Some?
    {
      RedriveTopics(env, w'.t, r, k);
      FirstEnabled(w'.t, RedriveMsgs(env.cfg, w'.t, r, Sweep)[k], w'.now);
    }
  }

  /** A claim below the cap remembers the row and leaves the document pending in its stage. */
  lemma ClaimLeaves(env: Env, w: World, a: Action, w': World, d: DocId)
    requires Next(env, w, a) == Some(w') && a.Recover? && a.rec.SweepClaim? && d in a.rec.ids
    requires d in w.t.docs
    requires w.t.docs[d].state == TextRunning ==> w.t.docs[d].textAttempts < env.cfg.maxText
    requires w.t.docs[d].state == ExtractRunning ==> w.t.docs[d].extractAttempts < env.cfg.maxExtract
    ensures Row(d, w.t.docs[d]) in w'.claimed && Recorded(w'.t, d) == Recorded(w.t, d) && d in w'.t.docs
    ensures w'.t.docs[d].state == (if IsText(w.t.docs[d].state) then TextPending else ExtractPending)
    ensures InFlight(w.t.docs[d].state)
  {
    hide NextText, NextExtract, NextBroker, IsBatch, Tally;
    BatchInTable(env.cfg, w.t.docs, a.rec.locked, w.now, a.rec.cap, a.rec.ids);
  }

  lemma FirstEnabled(t: Tables, m: Msg, now: Time)
    requires m.doc in t.docs && t.docs[m.doc].state == (if m.topic == OcrCompleted then ExtractPending else TextPending)
    ensures FirstTransition(t, m, now).Some?
  {
  }

  lemma SendsExtract(cfg: Config, t: Tables, r: Row)
    requires IsExtract(r.row.state)
    ensures RedriveMsgs(cfg, t, r, Sweep) == [Msg(r.doc, OcrCompleted, JustId, Sweep)]
  {
  }

  /** However late the re-drive runs after its claim, it sends something unless the join fired in between. */
  lemma LateRedriveSends(env: Env, ws: seq<World>, acts: seq<Action>, n: nat, r: Row)
    requires env.Valid() && IsRun(env, ws, acts) && Under2(ws, acts) && n < |ws|
    requires r in ws[n].claimed && InFlight(r.row.state)
    ensures RedriveMsgs(env.cfg, ws[n].t, r, Sweep) != [] || JoinFired(ws[n], r.doc)
  {
    hide Next, Under2, JoinFired, RedriveMsgs;
    BasicRun(env, ws, acts, n);
    assert r.doc in ws[n].t.docs && GoodRow(env, r.doc, r.row);
    if !JoinFired(ws[n], r.doc) {
      Unrecorded(env, ws, acts, n, r.doc);
      NothingToSend(env, ws[n].t, r, Sweep);
    }
  }
}

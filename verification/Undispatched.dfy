/** Documents that triage does not dispatch. Some of them an operator can still send into extraction, where ledger and
    storage then disagree: the ledger waits for a text that nobody has produced. */
module Undispatched {
  import opened Types
  import opened Pages
  import opened Ledger
  import opened Sweeper
  import opened Stages
  import opened Protocol
  import opened Frames
  import opened Basics
  import opened Storage
  import opened Verdicts
  import opened Progress
  import opened Reopening
  import Completing

  /** In extraction, with nothing stored: no artifact and no shard output. */
  ghost predicate Unbacked(w: World, d: DocId) {
    d in w.t.docs && IsExtract(w.t.docs[d].state) && d !in w.assembled && forall i: nat :: (d, i) !in w.outs
  }

  /** Triage parks the upload in review: encrypted, corrupt, or over the page ceiling. */
  predicate ParkedByTriage(cfg: Config, src: Source) {
    src.verdict in {Encrypted, Corrupt} || (src.verdict == Readable && |src.ocr| > cfg.pageCeiling)
  }

  /** Triage fails the upload: there are no bytes, or none it can read. */
  predicate FailedByTriage(src: Source) {
    src.verdict in {ZeroByte, UnsupportedMime}
  }

  // ---- A parked document can get there ----

  /** Triage, an operator's read and a forced re-drive. */
  lemma ParkedRun(env: Env, d: DocId) returns (w: World)
    requires env.Valid() && Known(env, d) && ParkedByTriage(env.cfg, env.sources[d])
    ensures Reachable(env, ALL_RULES, w) && Unbacked(w, d)
  {
    hide Leads, NextExtract, NextBroker, DoForceRedrive;
    var w0 := InitWorld(0);
    Initial(env, ALL_RULES, 0);
    var w1 := w0.(t := TriageTx(env.cfg, w0.t, d, env.sources[d], w0.now));
    ExtendFreely(env, ALL_RULES, w0, w0, Text(Triage(d)), w1);
    var r := OpRead(d, w1.t.docs[d], false);
    var w2 := w1.(opReads := w1.opReads + {r});
    ExtendFreely(env, ALL_RULES, w0, w1, Recover(OperatorRead(d)), w2);
    ForceReview(env, w2, r);
    w := DoForceRedrive(env, w2, r).value;
    Extend(env, ALL_RULES, w0, w2, Recover(ForceRedrive(r)), w);
    Arrived(env, ALL_RULES, w0, w);
  }

  // ---- A failed upload cannot ----

  /** Its row stays failed, nobody handles it, and every read of it shows as much. */
  ghost predicate StaysFailed(w: World, d: DocId) {
    && (d in w.t.docs ==> w.t.docs[d].state == Failed)
    && (forall r | r in w.opReads && r.doc == d :: r.row.state == Failed)
    && (forall h | h in w.handlers :: w.handlers[h].doc != d)
  }

  lemma TextLeavesFailed(env: Env, w: World, a: TextAction, w': World, d: DocId)
    requires NextText(env, w, a) == Some(w') && d in w.t.docs && w.t.docs[d].state == Failed
    ensures d in w'.t.docs && w'.t.docs[d].state == Failed
  {
    hide NextText, TextMsgs;
    TextSteps(env, w, a, w');
  }

  lemma TriageFails(env: Env, w: World, a: TextAction, w': World, d: DocId)
    requires NextText(env, w, a) == Some(w') && d !in w.t.docs && d in w'.t.docs
    requires Known(env, d) && FailedByTriage(env.sources[d])
    ensures w'.t.docs[d].state == Failed
  {
    hide DoEmbeddedWrite, DoEmbeddedCommit, DoSplitBegin, DoSplitCommit, DoShardBegin, DoShardWrite, DoShardRecord,
         TextMsgs, DispatchMsg;
    TextSteps(env, w, a, w');
    Completing.TriageOnly(env, w, a, w', d);
  }

  /** A read of such an upload offers no target to re-drive it to. */
  lemma NowhereToGo(env: Env, w: World, r: OpRead)
    requires Basic(env, w) && r in w.opReads && r.row.state == Failed
    requires Known(env, r.doc) && FailedByTriage(env.sources[r.doc])
    ensures RedriveTarget(r.row, r.assembled).None?
  {
    hide MsgsOk, RefsOk, StoreOk;
    assert GoodRow(env, r.doc, r.row);
  }

  lemma RecoverLeavesFailed(env: Env, w: World, a: RecoverAction, w': World, d: DocId)
    requires NextRecover(env, w, a) == Some(w') && d in w.t.docs && w.t.docs[d].state == Failed
    requires a.ForceRedrive? && a.seen.doc == d ==> RedriveTarget(a.seen.row, a.seen.assembled).None?
    ensures d in w'.t.docs && w'.t.docs[d].state == Failed
  {
    hide RedriveMsgs, EnqueueAll, IsBatch, Tally;
    match a
    case ForceRedrive(r) =>
      var target := RedriveTarget(r.row, r.assembled).value;
      var t := Transition(w.t, r.doc, target, Predecessors(target), w.now).value;
      EnqueueAllFacts(t, RedriveMsgs(env.cfg, t, Row(r.doc, r.row.(state := target)), Operator));
    case SweepRedrive(r) => EnqueueAllFacts(w.t, RedriveMsgs(env.cfg, w.t, r, Sweep));
    case _ =>
  }

  lemma RecoverStaysFailed(env: Env, w: World, a: RecoverAction, w': World, d: DocId)
    requires Basic(env, w) && StaysFailed(w, d) && Known(env, d) && FailedByTriage(env.sources[d])
    requires NextRecover(env, w, a) == Some(w')
    ensures StaysFailed(w', d)
  {
    hide DoSweepClaim, DoSweepRedrive, DoOperatorRead, DoAcceptReview, RedriveTarget, Transition, EnqueueAll, Basic,
         RecoverMsgs, SameButRecovery, FailedByTriage;
    RecoverSteps(env, w, a, w');
    if a.ForceRedrive? && a.seen.doc == d { NowhereToGo(env, w, a.seen); }
    if d in w.t.docs { RecoverLeavesFailed(env, w, a, w', d); }
  }

  lemma HandlersLeaveFailed(env: Env, w: World, a: ExtractAction, w': World, d: DocId)
    requires StaysFailed(w, d) && NextExtract(env, w, a) == Some(w')
    ensures StaysFailed(w', d)
  {
    hide NextExtract, PcAfter, ExtractMsgs, SameButVerdict, HandlerFrame;
    HandlersAfter(env, w, a, w');
    ExtractSteps(env, w, a, w');
    assert ExtractDoc(w, a) != d;
  }

  lemma FailedStep(env: Env, w: World, a: Action, w': World, d: DocId)
    requires Basic(env, w) && StaysFailed(w, d) && Known(env, d) && FailedByTriage(env.sources[d])
    requires Next(env, w, a) == Some(w')
    ensures StaysFailed(w', d)
  {
    hide NextText, NextExtract, NextRecover, NextBroker, Basic, TextMsgs, FailedByTriage;
    if a.Extract? {
      HandlersLeaveFailed(env, w, a.ext, w', d);
    } else {
      OnlyExtract(env, w, a, w');
      match a
      case Text(x) =>
        TextSteps(env, w, x, w');
        if d in w.t.docs { TextLeavesFailed(env, w, x, w', d); }
        else if d in w'.t.docs { TriageFails(env, w, x, w', d); }
      case Recover(x) => RecoverStaysFailed(env, w, x, w', d);
      case Broker(x) => BrokerSteps(w, x, w');
    }
  }

  lemma {:induction false} FailedRun(env: Env, ws: seq<World>, acts: seq<Action>, n: nat, d: DocId)
    requires env.Valid() && IsRun(env, ws, acts) && n < |ws| && Known(env, d) && FailedByTriage(env.sources[d])
    ensures StaysFailed(ws[n], d)
  {
    hide Next, Basic, StaysFailed, FailedByTriage;
    if n > 0 {
      BasicRun(env, ws, acts, n - 1);
      FailedRun(env, ws, acts, n - 1, d);
      FailedStep(env, ws[n - 1], acts[n - 1], ws[n], d);
    } else {
      NothingYet(ws[0], d);
    }
  }

  lemma NothingYet(w: World, d: DocId)
    requires w == InitWorld(w.now)
    ensures StaysFailed(w, d)
  {
  }

  // ---- Exactly when ledger and storage disagree ----

  lemma DispatchedIsBacked(env: Env, ws: seq<World>, acts: seq<Action>, n: nat, d: DocId)
    requires env.Valid() && IsRun(env, ws, acts) && Under2(ws, acts) && n < |ws| && Sent(env, d)
    ensures !Unbacked(ws[n], d)
  {
    hide Next, Under2, HoldsShards;
    var w := ws[n];
    if d in w.t.docs && IsExtract(w.t.docs[d].state) && d !in w.assembled {
      LedgerMatchesStorage(env, ws, acts, n, d);
      FirstShardHeld(w.outs, d, env.sources[d].ocr, env.cfg.shardSize);
    }
  }

  lemma FirstShardHeld(outs: map<(DocId, nat), seq<Page>>, d: DocId, ocr: seq<string>, size: nat)
    requires size >= 1 && HoldsShards(outs, d, ocr, size)
    ensures (d, 0) in outs
  {
    ShardCountOne(|ocr|, size);
  }

  /** Within the hypotheses a document can be in extraction with nothing stored for it exactly when triage parked it in
      review: encrypted, corrupt, or readable and over the page ceiling. */
  lemma UnbackedIff(env: Env, d: DocId)
    requires env.Valid() && Known(env, d)
    ensures ParkedByTriage(env.cfg, env.sources[d]) <==>
              exists w :: Reachable(env, ALL_RULES, w) && Unbacked(w, d)
  {
    hide Leads, Reachable, Unbacked;
    if ParkedByTriage(env.cfg, env.sources[d]) {
      var w := ParkedRun(env, d);
    } else {
      forall w | Reachable(env, ALL_RULES, w) ensures !Unbacked(w, d) { NotUnbacked(env, w, d); }
    }
  }

  lemma NotUnbacked(env: Env, w: World, d: DocId)
    requires env.Valid() && Known(env, d) && !ParkedByTriage(env.cfg, env.sources[d]) && Reachable(env, ALL_RULES, w)
    ensures !Unbacked(w, d)
  {
    hide Next, H1, H2, H3;
    var ws: seq<World>, acts: seq<Action>, m: nat :| Passes(env, ALL_RULES, w, w, ws, acts, m);
    forall k | 0 <= k < |acts| ensures H2(ws[k], acts[k]) { assert Obeys(ALL_RULES, ws[k], acts[k], ws[k + 1]); }
    if Sent(env, d) {
      DispatchedIsBacked(env, ws, acts, |acts|, d);
    } else {
      FailedRun(env, ws, acts, |acts|, d);
    }
  }
}

/** What the hypotheses of the run theorems rule out. For each of them there is a run from a fresh system that keeps the
    two others, and loses what the hypothesis protects. */
module Hypotheses {
  import opened Types
  import opened Pages
  import opened Ledger
  import opened Sweeper
  import opened Stages
  import opened Protocol
  import opened Frames
  import opened Basics
  import opened Artifacts
  import opened Storage
  import opened Verdicts
  import opened Extraction
  import opened Progress
  import opened Reopening
  import opened Journeys
  import opened Stranding
  import Completing
  import Funnel
  import Gates
  import Keys

  // ---- Leaving complete, exactly ----

  /** A handler of d reroutes, or parks it in review because it finds no result. */
  ghost predicate ReviewsAgain(w: World, a: Action, d: DocId)
    requires d in w.t.docs
  {
    && a.Extract? && a.ext.h in w.handlers && w.handlers[a.ext.h].doc == d
    && (a.ext.Reroute? ||
        (a.ext.Finish? && w.handlers[a.ext.h].pc.Decided? && w.t.docs[d].result.None? &&
         (w.handlers[a.ext.h].pc.fields.None? || !a.ext.autoPost)))
  }

  /** A complete document leaves complete in exactly those steps; all others keep it, whatever the rest of the run. */
  lemma LeavesComplete(env: Env, w: World, a: Action, w': World, d: DocId)
    requires Next(env, w, a) == Some(w') && d in w.t.docs && w.t.docs[d].state == Complete
    ensures d in w'.t.docs && (w'.t.docs[d].state != Complete <==> ReviewsAgain(w, a, d))
  {
    hide NextText, NextRecover, NextBroker, DoStart, DoLoad, DoAssemble, DoAttempt, DoFunnel, DoFinish, DoReroute,
         DoCrash, FinishTx, PcAfter, Clash;
    if a.Extract? {
      ExtractVerdict(env, w, a.ext, w', d);
      match a.ext
      case Finish(h, autoPost) =>
        ClashVerdict(env, w, h, autoPost, w');
        Keys.FinishPc(env, w, h, autoPost);
        if PcAfter(env, w, a.ext).None? && w.handlers[h].doc == d {
          Completing.FinishVerdict(w.t, d, w.handlers[h].pc.fields, w.handlers[h].pc.report, autoPost, w.now, w'.t);
        } else if PcAfter(env, w, a.ext).Some? {
          ClashHasFields(w, w.handlers[h], autoPost);
        }
      case Reroute(h) => RerouteReviews(w, h, w', d);
      case _ =>
    } else {
      OthersVerdict(env, w, a, w', d);
    }
  }

  lemma ClashHasFields(w: World, x: Handler, autoPost: bool)
    requires x.pc.Decided? && Clash(w, x, autoPost)
    ensures x.pc.fields.Some? && autoPost
  {
  }

  lemma RerouteReviews(w: World, h: nat, w': World, d: DocId)
    requires DoReroute(w, h) == Some(w') && d in w.t.docs
    ensures h in w.handlers && d in w'.t.docs && w'.t.docs[d].state ==
              (if w.handlers[h].doc == d then Review else w.t.docs[d].state)
  {
  }

  // ---- Without H1 ----

  /** A second ocr.completed for a document that is already running starts a second handler: the transition accepts
      its own target state. Only the broker's ordering by document keeps it out. */
  lemma SecondDeliveryStarts(env: Env, w: World, g: nat, i: nat, h: nat, j: nat, w': World)
    requires Next(env, w, Extract(Start(g, i))) == Some(w')
    requires g != h && h !in w.handlers && Delivered(w, j, OcrCompleted) && i < |w.t.sent| &&
             w.t.sent[j].doc == w.t.sent[i].doc
    ensures Next(env, w', Extract(Start(h, j))).Some?
    ensures !H1(w', Extract(Start(h, j)))
  {
    hide NextText, NextRecover, NextBroker;
    assert g in w'.handlers && w'.handlers[g].doc == w.t.sent[i].doc;
  }

  lemma NoneCompleteYet(docs: map<DocId, Doc>, d: DocId, f: Fields)
    requires forall e | e in docs :: docs[e].state != Complete
    ensures NobodyHas(docs, d, f)
  {
  }

  /** Two handlers at work on d, one of them about to complete it under a key, and one on e with the same key. */
  ghost predicate Poised(w: World, d: DocId, e: DocId, f1: Fields, f2: Fields) {
    && d != e && d in w.t.docs && e in w.t.docs && w.t.docs.Keys == {d, e}
    && w.t.docs[d].result.None? && w.t.docs[e].result.None?
    && w.handlers.Keys == {0, 1, 2}
    && w.handlers[0].doc == d && w.handlers[0].pc.Decided? && w.handlers[0].pc.fields == Some(f1)
    && w.handlers[1].doc == d && w.handlers[1].pc.Decided? && w.handlers[1].pc.fields == Some(f2)
    && w.handlers[2].doc == e && w.handlers[2].pc.Decided? && w.handlers[2].pc.fields == Some(f2)
    && Keys.KeyOf(w.t.docs[d]) == Keys.NO_KEY && Keys.KeyOf(w.t.docs[e]) == Keys.NO_KEY
  }

  const NO_H1 := Rules(false, true, true)

  /** Both handlers of d, each with the artifact in hand. */
  lemma TwoHandlers(env: Env, d: DocId, e: DocId) returns (w: World, j: nat)
    requires env.Valid() && d != e && Known(env, d) && TierZeroDoc(env, d) && Known(env, e) && TierZeroDoc(env, e)
    ensures Reachable(env, NO_H1, w) && w.t.docs.Keys == {d, e} && w.handlers.Keys == {0, 1} && Told(w, e, j)
    ensures FreshRow(env, e, w.t.docs[e]) && e in w.assembled && w.assembled[e] == Canonical(env, e)
    ensures w.t.docs[d].result.None? && w.t.docs[d].state != Complete && Keys.KeyOf(w.t.docs[d]) == Keys.NO_KEY
    ensures forall h | h in {0, 1} ::
              && w.handlers[h].doc == d && w.handlers[h].pc.Assembled? && w.handlers[h].pc.pages == Canonical(env, d)
              && w.handlers[h].pc.row.docType == env.sources[d].docType
  {
    hide Leads, Canonical, Fit, Told;
    var w0 := InitWorld(0);
    Initial(env, NO_H1, 0);
    var w1, i := Upload(env, NO_H1, w0, w0, d);
    var w2;
    w2, j := Upload(env, NO_H1, w0, w1, e);
    ToldStays(w1, w2, d, i);
    AssembledFits(env, w2, d);
    Take(env, NO_H1, w0, w2, d, i, 0);
    var w3 := Taken(env, w2, d, 0);
    ToldStays(w2, w3, d, i);
    AssembledFits(env, w3, d);
    Take(env, NO_H1, w0, w3, d, i, 1);
    w := Taken(env, w3, d, 1);
    ToldStays(w2, w, e, j);
    Arrived(env, NO_H1, w0, w);
  }

  lemma PoisedRun(env: Env, d: DocId, e: DocId, s1: Funnel.Script, f1: Fields, s2: Funnel.Script, f2: Fields)
    returns (w: World)
    requires env.Valid() && d != e && Known(env, d) && TierZeroDoc(env, d) && Known(env, e) && TierZeroDoc(env, e)
    requires Answers(env, d, env.sources[d].docType, s1, f1) && Answers(env, d, env.sources[d].docType, s2, f2)
    requires Answers(env, e, env.sources[e].docType, s2, f2)
    ensures Reachable(env, NO_H1, w) && Poised(w, d, e, f1, f2)
  {
    hide Leads, Canonical, Fit, Answers, VerdictOf, NobodyHas;
    var w0, j := TwoHandlers(env, d, e);
    ReadyOf(env, d, env.sources[d].docType, s1, f1);
    ReadyOf(env, d, env.sources[d].docType, s2, f2);
    NoneCompleteYet(w0.t.docs, d, f1);
    SoundAnswer(env, w0, d, w0.handlers[0].pc.row, s1, f1);
    var w1 := Decide(env, NO_H1, w0, w0, 0, s1);
    NoneCompleteYet(w1.t.docs, d, f2);
    SoundAnswer(env, w1, d, w1.handlers[1].pc.row, s2, f2);
    var w2 := Decide(env, NO_H1, w0, w1, 1, s2);
    ToldStays(w0, w2, e, j);
    AssembledFits(env, w2, e);
    Take(env, NO_H1, w0, w2, e, j, 2);
    var w3 := Taken(env, w2, e, 2);
    NoneCompleteYet(w3.t.docs, e, f2);
    SoundAnswer(env, w3, e, w3.handlers[2].pc.row, s2, f2);
    w := Decide(env, NO_H1, w0, w3, 2, s2);
    Arrived(env, NO_H1, w0, w);
  }

  /** A refused commit and the reroute that follows it. */
  lemma ClashAndReroute(env: Env, rules: Rules, v: World, w: World, h: nat) returns (w': World)
    requires Leads(env, rules, v, w) && h in w.handlers && w.handlers[h].pc.Decided? && Clash(w, w.handlers[h], true)
    requires w.handlers[h].doc in w.t.docs
    ensures Leads(env, rules, v, w') && w.handlers[h].doc in w'.t.docs && w'.t.docs[w.handlers[h].doc].state == Review
  {
    hide Leads, NextText, NextRecover, NextBroker, FinishTx;
    var x := w.handlers[h];
    FinishOrClash(w.t, x.doc, x.pc.fields, x.pc.report, true, w.now);
    var w1 := DoFinish(w, h, true).value;
    ExtendFreely(env, rules, v, w, Extract(Finish(h, true)), w1);
    w' := DoReroute(w1, h).value;
    ExtendFreely(env, rules, v, w1, Extract(Reroute(h)), w');
  }

  /** Without H1 complete is not absorbing: there is a run that keeps H2 and H3 in which d is complete in v and in
      review in w. Two handlers work on d; another document takes the key the second one wants, and its reroute tests
      nothing. */
  lemma WithoutH1(env: Env, d: DocId, e: DocId, s1: Funnel.Script, f1: Fields, s2: Funnel.Script, f2: Fields)
    returns (v: World, w: World)
    requires env.Valid() && d != e && Known(env, d) && TierZeroDoc(env, d) && Known(env, e) && TierZeroDoc(env, e)
    requires Answers(env, d, env.sources[d].docType, s1, f1) && Answers(env, d, env.sources[d].docType, s2, f2)
    requires Answers(env, e, env.sources[e].docType, s2, f2)
    requires f1.seller.None? && f2.seller.Some? && f2.invoiceNo.Some?
    ensures Reachable(env, NO_H1, v) && d in v.t.docs && v.t.docs[d].state == Complete
    ensures Leads(env, NO_H1, v, w) && d in w.t.docs && w.t.docs[d].state == Review
  {
    hide Leads, Answers, Violates;
    var w0 := PoisedRun(env, d, e, s1, f1, s2, f2);
    Keys.ViolatesIff(w0.t.docs, e, f2.seller, f2.invoiceNo);
    var w1 := ConcludeWith(env, NO_H1, w0, w0, 2);
    Keys.ViolatesIff(w1.t.docs, d, f1.seller, f1.invoiceNo);
    v := ConcludeWith(env, NO_H1, w0, w1, 0);
    Arrived(env, NO_H1, w0, v);
    assert Keys.KeyOf(v.t.docs[e]) == (f2.seller, f2.invoiceNo);
    Keys.ViolatesIff(v.t.docs, d, f2.seller, f2.invoiceNo);
    w := ClashAndReroute(env, NO_H1, v, v, 1);
  }

  // ---- Without H2 ----

  const NO_H2 := Rules(true, false, true)

  /** The document whose embedded text is offered but unusable, and which takes several shards. */
  ghost predicate FallsToSplit(env: Env, d: DocId) {
    Known(env, d) && Dispatched(env.cfg, env.sources[d]) && env.sources[d].textLayer && !env.sources[d].sane &&
    ShardTotal(env, d) > 1
  }

  /** Without H2 the join can fire at 1 of N: there is a run that keeps H1 and H3 in which one shard is recorded, more
      are to come, and the join has fired. The second handling of the embedded text finds the document text_running,
      which its transition accepts, and sets the total back to 1. */
  lemma WithoutH2(env: Env, d: DocId) returns (w: World)
    requires env.Valid() && FallsToSplit(env, d)
    ensures Reachable(env, NO_H2, w) && JoinFired(w, d) && Recorded(w.t, d) == {0} && ShardTotal(env, d) > 1
    ensures d in w.t.docs && w.t.docs[d].state == ExtractPending
  {
    hide Leads, Basic, LockedRows, ShardTotal, SplitDone, DispatchMsg;
    var w0 := InitWorld(0);
    Initial(env, NO_H2, 0);
    var w1, i := UploadTriage(env, NO_H2, w0, w0, d);
    var w2 := Fall(env, NO_H2, w0, w1, d, i);
    NoLocks(w2);
    var w3 := Deliver(env, NO_H2, w0, w2, |w1.t.sent|);
    SplitDispatch(env, d);
    var w4, k := SplitRun(env, NO_H2, w0, w3, d, |w1.t.sent|);
    assert w4.t.sent[i] == w3.t.sent[i] == w1.t.sent[i];
    var w5 := Fall(env, NO_H2, w0, w4, d, i);
    NoLocks(w5);
    assert ShardIn(w4, w4.t.pending, d, k, 0);
    var w6 := Deliver(env, NO_H2, w0, w5, k);
    w := ReadShard(env, NO_H2, w0, w6, d, k, 0);
    assert Recorded(w6.t, d) + {0} == {0};
    assert JoinSent(w, d, |w6.t.sent|);
    Arrived(env, NO_H2, w0, w);
  }

  lemma NoLocks(w: World)
    requires w.relays == map[]
    ensures LockedRows(w) == {}
  {
  }

  lemma SplitDispatch(env: Env, d: DocId)
    requires Known(env, d) && ShardTotal(env, d) > 1
    ensures DispatchMsg(env.cfg, d, false, PageTotal(env, d), env.sources[d].gcsPath, FallThrough).topic == OcrSplit
    ensures DispatchMsg(env.cfg, d, false, PageTotal(env, d), env.sources[d].gcsPath, FallThrough).doc == d
  {
    ShardCountOne(PageTotal(env, d), env.cfg.shardSize);
  }

  /** H2 can only fail for a document that triage sent to the embedded text and whose text was then found unusable:
      for a document sent to OCR, and for one whose embedded text is used, it holds outright. */
  lemma SplitDocumentsKeepH2(env: Env, ws: seq<World>, acts: seq<Action>, n: nat)
    requires env.Valid() && IsRun(env, ws, acts) && n < |acts| && !H2(ws[n], acts[n])
    ensures acts[n].Text? && acts[n].text.EmbeddedCommit? && acts[n].text.msg < |ws[n].t.sent|
    ensures var d := ws[n].t.sent[acts[n].text.msg].doc;
      d in env.sources && env.sources[d].textLayer && !env.sources[d].sane
  {
    hide NextExtract, NextRecover, NextBroker, RowsOk, RefsOk, StoreOk, TextEmbeddedTx;
    BasicRun(env, ws, acts, n);
    var w, i := ws[n], acts[n].text.msg;
    assert Next(env, w, acts[n]) == Some(ws[n + 1]);
    var d := w.t.sent[i].doc;
    var j: nat :| SplitSent(w, d, j);
    assert MsgOk(env, w, w.t.sent[i]) && MsgOk(env, w, w.t.sent[j]);
  }

  // ---- Without H3 ----

  const NO_H3 := Rules(true, true, false)

  /** A document that the engine reads. */
  ghost predicate Scanned(env: Env, d: DocId) {
    Sent(env, d) && !TierZeroDoc(env, d)
  }

  /** Its join has fired, nothing has been assembled, and nobody is working on it. */
  ghost predicate Joined(env: Env, w: World, d: DocId) {
    && Known(env, d) && w.t.docs.Keys == {d} && w.t.docs[d].pageCount == Some(PageTotal(env, d))
    && !Truthy(w.t.docs[d].hasTextLayer)
    && w.t.docs[d].shardsTotal == ShardTotal(env, d) && Recorded(w.t, d) == UpTo(ShardTotal(env, d))
    && JoinFired(w, d) && d !in w.assembled && w.handlers == map[] && w.relays == map[]
  }

  lemma JoinedRun(env: Env, d: DocId) returns (w: World, i: nat)
    requires env.Valid() && Scanned(env, d)
    ensures Reachable(env, NO_H3, w) && Joined(env, w, d) && w.t.docs[d].state == ExtractPending && Told(w, d, i)
  {
    hide Leads, JoinFired, ShardTotal, TierZeroDoc;
    var w0 := InitWorld(0);
    Initial(env, NO_H3, 0);
    w, i := UploadRead(env, NO_H3, w0, w0, d);
    Arrived(env, NO_H3, w0, w);
  }

  lemma JoinKept(w: World, w': World, d: DocId)
    requires JoinFired(w, d) && w.t.sent <= w'.t.sent
    ensures JoinFired(w', d)
  {
    var j: nat :| JoinSent(w, d, j);
    assert JoinSent(w', d, j);
  }

  lemma LoneBatch(cfg: Config, docs: map<DocId, Doc>, d: DocId, now: Time)
    requires docs.Keys == {d} && Stuck(cfg, docs[d], now)
    ensures IsBatch(cfg, docs, {}, now, 1, [d])
  {
    assert Eligible(cfg, docs, {}, now) == {d};
  }

  ghost function Swept(cfg: Config, doc: Doc): (nat, DocState) {
    if doc.extractAttempts >= cfg.maxExtract then (doc.extractAttempts, Failed)
    else (doc.extractAttempts + 1, ExtractPending)
  }

  /** A worker takes the document and dies; then nothing happens for longer than the threshold. */
  lemma Dies(env: Env, v: World, w: World, d: DocId, i: nat) returns (w': World)
    requires Leads(env, NO_H3, v, w) && Joined(env, w, d) && w.t.docs[d].state == ExtractPending && Told(w, d, i)
    ensures Leads(env, NO_H3, v, w') && Joined(env, w', d) && Told(w', d, i) && Stuck(env.cfg, w'.t.docs[d], w'.now)
    ensures w'.t.docs[d] == w.t.docs[d].(state := ExtractRunning, updatedAt := w.now)
  {
    hide Leads, NextText, NextRecover, JoinFired;
    var t := Transition(w.t, d, ExtractRunning, {ExtractPending}, w.now).value;
    var w1 := w.(t := t, handlers := w.handlers[0 := Handler(d, Started)]);
    Extend(env, NO_H3, v, w, Extract(Start(0, i)), w1);
    var w2 := w1.(handlers := w1.handlers - {0});
    ExtendFreely(env, NO_H3, v, w1, Extract(Crash(0)), w2);
    w' := w2.(now := w2.now + (env.cfg.stuckExtract + 1));
    ExtendFreely(env, NO_H3, v, w2, Broker(Tick(env.cfg.stuckExtract + 1)), w');
    JoinKept(w, w', d);
    assert w'.handlers == map[];
    assert Recorded(w'.t, d) == Recorded(w.t, d);
  }

  /** ... and the sweeper claims it. */
  lemma DiesAndIsSwept(env: Env, v: World, w: World, d: DocId, i: nat) returns (w': World)
    requires Leads(env, NO_H3, v, w) && Joined(env, w, d) && w.t.docs[d].state == ExtractPending && Told(w, d, i)
    ensures Leads(env, NO_H3, v, w') && Joined(env, w', d) && Told(w', d, i)
    ensures (w'.t.docs[d].extractAttempts, w'.t.docs[d].state) == Swept(env.cfg, w.t.docs[d])
  {
    hide Leads, NextText, NextExtract, NextBroker, JoinFired, IsBatch, Tally, Stuck;
    var w1 := Dies(env, v, w, d, i);
    LoneBatch(env.cfg, w1.t.docs, d, w1.now);
    w' := DoSweepClaim(env, w1, [d], {}, 1).value;
    ExtendFreely(env, NO_H3, v, w1, Recover(SweepClaim([d], {}, 1)), w');
    JoinKept(w1, w', d);
    assert Recorded(w'.t, d) == Recorded(w1.t, d);
  }

  lemma {:induction false} UntilFailed(env: Env, v: World, w: World, d: DocId, i: nat) returns (w': World)
    requires Leads(env, NO_H3, v, w) && Joined(env, w, d) && w.t.docs[d].state == ExtractPending && Told(w, d, i)
    ensures Leads(env, NO_H3, v, w') && Joined(env, w', d) && w'.t.docs[d].state == Failed
    decreases env.cfg.maxExtract - w.t.docs[d].extractAttempts
  {
    hide Leads, JoinFired, Told;
    w' := DiesAndIsSwept(env, v, w, d, i);
    if w.t.docs[d].extractAttempts < env.cfg.maxExtract {
      w' := UntilFailed(env, v, w', d, i);
    }
  }

  /** The operator reads the failed document and sends it back to text production, although its join has fired. */
  lemma BackToText(env: Env, v: World, w: World, d: DocId) returns (w': World, k: nat)
    requires Leads(env, NO_H3, v, w) && Joined(env, w, d) && w.t.docs[d].state == Failed
    ensures Leads(env, NO_H3, v, w') && Joined(env, w', d) && w'.t.docs[d].state == TextPending
    ensures k in w'.log && k < |w'.t.sent|
    ensures w'.t.sent[k].doc == d && w'.t.sent[k].topic == (if ShardTotal(env, d) == 1 then OcrShard else OcrSplit)
  {
    hide Leads, NextText, NextExtract, NextBroker, JoinFired, EnqueueAll, ShardTotal;
    var r := OpRead(d, w.t.docs[d], false);
    var w1 := w.(opReads := w.opReads + {r});
    ExtendFreely(env, NO_H3, v, w, Recover(OperatorRead(d)), w1);
    var t := Transition(w1.t, d, TextPending, Predecessors(TextPending), w1.now).value;
    var ms := RedriveMsgs(env.cfg, t, Row(d, r.row.(state := TextPending)), Operator);
    EnqueueAllFacts(t, ms);
    var w2 := DoForceRedrive(env, w1, r).value;
    Extend(env, NO_H3, v, w1, Recover(ForceRedrive(r)), w2);
    k := |w1.t.sent|;
    NoLocks(w2);
    w' := Deliver(env, NO_H3, v, w2, k);
    JoinKept(w, w', d);
    RedriveTopic(env, t, Row(d, r.row.(state := TextPending)));
    assert w2.t.sent[k] == ms[0];
  }

  lemma RedriveTopic(env: Env, t: Tables, r: Row)
    requires Known(env, r.doc) && r.row.state == TextPending && r.row.pageCount == Some(PageTotal(env, r.doc))
    requires r.row.shardsTotal == ShardTotal(env, r.doc) && !Truthy(r.row.hasTextLayer)
    ensures var ms := RedriveMsgs(env.cfg, t, r, Operator);
      |ms| == 1 && ms[0].doc == r.doc && ms[0].topic == (if ShardTotal(env, r.doc) == 1 then OcrShard else OcrSplit)
  {
    ShardCountOne(PageTotal(env, r.doc), env.cfg.shardSize);
  }

  /** Its shard worker or its split has begun. */
  lemma BeginsAgain(env: Env, v: World, w: World, d: DocId, k: nat) returns (w': World)
    requires Leads(env, NO_H3, v, w) && Joined(env, w, d) && w.t.docs[d].state == TextPending
    requires k in w.log && k < |w.t.sent| && w.t.sent[k].doc == d && w.t.sent[k].topic in {OcrShard, OcrSplit}
    ensures Leads(env, NO_H3, v, w') && Joined(env, w', d) && w'.t.docs[d].state == TextRunning
  {
    hide Leads, NextExtract, NextRecover, NextBroker, JoinFired, ShardTotal;
    var t := Transition(w.t, d, TextRunning, {TextPending}, w.now).value;
    if w.t.sent[k].topic == OcrShard {
      w' := w.(t := t, begun := w.begun + {k});
      ExtendFreely(env, NO_H3, v, w, Text(ShardBegin(k)), w');
    } else {
      w' := w.(t := t, splitting := w.splitting + {k});
      ExtendFreely(env, NO_H3, v, w, Text(SplitBegin(k)), w');
    }
    JoinKept(w, w', d);
    assert Recorded(w'.t, d) == Recorded(w.t, d);
  }

  /** Without H3 a document can be stranded: there is a run that keeps H1 and H2 in which d is back in text_running with
      every shard recorded and its join behind it; and if it was split, a re-drive has nothing to send. */
  lemma WithoutH3(env: Env, d: DocId) returns (w: World)
    requires env.Valid() && Scanned(env, d)
    ensures Reachable(env, NO_H3, w) && d in w.t.docs && w.t.docs[d].state == TextRunning
    ensures JoinFired(w, d) && Recorded(w.t, d) == UpTo(ShardTotal(env, d))
    ensures ShardTotal(env, d) > 1 ==> RedriveMsgs(env.cfg, w.t, Row(d, w.t.docs[d]), Sweep) == []
  {
    hide Leads, JoinFired, Told, Basic, ShardTotal, RedriveMsgs;
    var w0, i := JoinedRun(env, d);
    var w1 := UntilFailed(env, w0, w0, d, i);
    var w2, k := BackToText(env, w0, w1, d);
    w := BeginsAgain(env, w0, w2, d, k);
    ReachedFacts(env, NO_H3, w0, w);
    RowIsGood(env, w, d);
    NothingToSend(env, w.t, Row(d, w.t.docs[d]), Sweep);
    Arrived(env, NO_H3, w0, w);
  }

  lemma RowIsGood(env: Env, w: World, d: DocId)
    requires Basic(env, w) && d in w.t.docs
    ensures GoodRow(env, d, w.t.docs[d])
  {
  }

  // ---- One concrete system in which all of it happens ----

  const LIMITS := Config(1, 20, 5, 5, 2, 30_000_000, 1_500_000_000)

  function ReceiptOf(pages: seq<string>, textLayer: bool, sane: bool): Source {
    Source("gs://bucket/upload.pdf", Readable, pages, pages, textLayer, sane, Receipt)
  }

  const EXAMPLE := Env(LIMITS, map[
    0 := ReceiptOf(["x"], true, true),
    1 := ReceiptOf(["x"], true, true),
    2 := ReceiptOf(["x", "x"], true, false),
    3 := ReceiptOf(["x", "x"], false, false)])

  const KEYED := Fields(Some("x"), Some("x"), None, None, None, None, None)

  function Saying(reply: Funnel.Reply): Funnel.Script {
    var call := Funnel.Call(reply, 0);
    Funnel.Script([call, call, call], [call, call, call])
  }

  function Answering(f: Fields): Funnel.Script {
    Saying(Funnel.Answer(Funnel.WellFormed(f)))
  }

  lemma ExampleDocuments()
    ensures EXAMPLE.Valid() && forall d | d in {0, 1, 2, 3} :: Known(EXAMPLE, d)
    ensures TierZeroDoc(EXAMPLE, 0) && TierZeroDoc(EXAMPLE, 1)
    ensures FallsToSplit(EXAMPLE, 2) && Scanned(EXAMPLE, 3) && ShardTotal(EXAMPLE, 3) > 1
  {
  }

  lemma ExampleAnswers(d: DocId, f: Fields)
    requires d in {0, 1} && f in {KEYED, BLANK_FIELDS}
    ensures Known(EXAMPLE, d) && Answers(EXAMPLE, d, EXAMPLE.sources[d].docType, Answering(f), f)
    ensures ScriptRefuses(EXAMPLE, Saying(Funnel.Refusal))
  {
    ExampleDocuments();
    var pages := Canonical(EXAMPLE, d);
    assert |pages| == 1 && pages[0].text == "x";
    var text := JoinLines(pages);
    assert text == "x" && Gates.Lower(text) == "x" == Gates.Lower("x");
    assert Gates.OccursAt("x", "x", 0);
    assert Funnel.AnswersAt(Answering(f).cheap, 0, f);
    assert Funnel.RefusesAt(Saying(Funnel.Refusal).cheap, 0);
  }

  /** Each hypothesis is needed: in one concrete system there are runs from a fresh start that keep the other two, and
      in which complete is left, the join fires at one shard of two, and a document with its join behind it is in
      text_running with nothing for a re-drive to send. */
  lemma EachHypothesisIsNeeded()
    ensures exists v, w :: Leads(EXAMPLE, NO_H1, v, w) && 0 in v.t.docs && 0 in w.t.docs &&
                           v.t.docs[0].state == Complete && w.t.docs[0].state == Review
    ensures Known(EXAMPLE, 2) && ShardTotal(EXAMPLE, 2) > 1
    ensures exists w :: Reachable(EXAMPLE, NO_H2, w) && JoinFired(w, 2) && Recorded(w.t, 2) == {0}
    ensures exists w :: Reachable(EXAMPLE, NO_H3, w) && JoinFired(w, 3) && 3 in w.t.docs &&
                        w.t.docs[3].state == TextRunning &&
                        RedriveMsgs(EXAMPLE.cfg, w.t, Row(3, w.t.docs[3]), Sweep) == []
  {
    hide Leads, Reachable, Answers, JoinFired, ShardTotal, RedriveMsgs;
    ExampleDocuments();
    ExampleAnswers(0, BLANK_FIELDS);
    ExampleAnswers(0, KEYED);
    ExampleAnswers(1, KEYED);
    var v, w := WithoutH1(EXAMPLE, 0, 1, Answering(BLANK_FIELDS), BLANK_FIELDS, Answering(KEYED), KEYED);
    var w2 := WithoutH2(EXAMPLE, 2);
    var w3 := WithoutH3(EXAMPLE, 3);
  }

  /** And within all of them, in the same system: a commit is refused although no document is complete and its dedupe
      gate passes. */
  lemma ExampleKeyBlocked()
    ensures exists w ::
              && Reachable(EXAMPLE, ALL_RULES, w) && 0 in w.handlers && w.handlers[0].pc.Decided?
              && Clash(w, w.handlers[0], true)
              && Gates.DedupeGate(w.t.docs, w.handlers[0].doc, KEYED.seller, KEYED.invoiceNo) != Fail
              && forall x | x in w.t.docs :: w.t.docs[x].state != Complete
  {
    hide Reachable, Answers, ScriptRefuses, Clash;
    ExampleDocuments();
    ExampleAnswers(0, KEYED);
    ExampleAnswers(1, KEYED);
    var w := LostKeyBlocks(EXAMPLE, 0, 1, Saying(Funnel.Refusal), Answering(KEYED), KEYED);
  }
}

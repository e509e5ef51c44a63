/** What a complete document is worth: its message exists, its posted fields are its result, its key is unique, and
    unless an operator granted it, it passed the gates on its own text. */
module Completing {
  import opened Types
  import opened Pages
  import opened Ledger
  import opened Sweeper
  import opened Stages
  import opened Outbox
  import opened Protocol
  import opened Frames
  import opened Basics
  import opened Joining
  import opened Artifacts
  import opened Storage
  import opened Verdicts
  import Funnel
  import Gates
  import Relaying

  // ---- The invariant ----

  ghost predicate Asked(w: World, d: DocId, tier: Tier, f: Fields) {
    Ask(d, tier, Funnel.Answer(Funnel.WellFormed(f))) in w.asked
  }

  /** The fields came from the tier in tier_used, passed the schema, and are sound for `text`. */
  ghost predicate Backed(w: World, d: DocId, docType: DocType, f: Fields, report: Report, text: string) {
    && Gates.Sound(docType, f, text)
    && report.schema == Some(Pass) && report.tierUsed.Some?
    && Asked(w, d, report.tierUsed.value, f)
  }

  ghost predicate HandlerSound(w: World, x: Handler) {
    x.pc.Decided? && x.pc.fields.Some? ==>
      Backed(w, x.doc, x.pc.row.docType, x.pc.fields.value, x.pc.report, SourceText(x.pc.pages))
  }

  /** A complete row that was earned, not granted. */
  ghost predicate Earned(env: Env, w: World, d: DocId)
    requires d in w.t.docs
  {
    var doc := w.t.docs[d];
    && doc.result.Some? && doc.result.value.HasFields?
    && var f := doc.result.value.fields;
       && doc.vendor == f.seller && doc.invoiceNo == f.invoiceNo
       && d in w.assembled && Known(env, d) && w.assembled[d] == Canonical(env, d)
       && Backed(w, d, doc.docType, f, doc.gates, SourceText(w.assembled[d]))
  }

  predicate ExtractedSent(w: World, d: DocId, j: nat) {
    j < |w.t.sent| && w.t.sent[j].doc == d && w.t.sent[j].topic == DocumentExtracted
  }

  ghost predicate HasExtracted(w: World, d: DocId) {
    exists j: nat :: ExtractedSent(w, d, j)
  }

  ghost predicate Granted(w: World, d: DocId)
    requires d in w.t.docs
  {
    w.t.docs[d].gates.override.Some?
  }

  ghost predicate FinalOk(env: Env, w: World, d: DocId)
    requires d in w.t.docs
  {
    w.t.docs[d].state == Complete ==> HasExtracted(w, d) && (Granted(w, d) || Earned(env, w, d))
  }

  /** A document.extracted message is only ever about a complete document, and carries its result unless overridden. */
  ghost predicate MsgFinal(w: World, m: Msg) {
    m.topic == DocumentExtracted ==>
      m.doc in w.t.docs && w.t.docs[m.doc].state == Complete &&
      (Granted(w, m.doc) || (m.payload.AutoPost? && w.t.docs[m.doc].result == Some(HasFields(m.payload.fields))))
  }

  ghost predicate PostFinal(w: World, d: DocId)
    requires d in w.t.posted
  {
    d in w.t.docs && w.t.docs[d].state == Complete &&
        (Granted(w, d) || w.t.docs[d].result == Some(w.t.posted[d].fields))
  }

  ghost predicate FinalInv(env: Env, w: World) {
    && (forall d | d in w.t.docs :: FinalOk(env, w, d))
    && (forall j | 0 <= j < |w.t.sent| :: MsgFinal(w, w.t.sent[j]))
    && (forall d | d in w.t.posted :: PostFinal(w, d))
    && (forall h | h in w.handlers :: HandlerSound(w, w.handlers[h]))
  }

  ghost predicate Safe(env: Env, w: World) {
    Basic(env, w) && PagesInv(env, w) && OpenInv(w) && FinalInv(env, w)
  }

  // ---- Handlers ----

  lemma AsksHas(d: DocId, tier: Tier, calls: seq<Funnel.Call>, n: nat, k: nat)
    requires k < n && k < |calls|
    ensures Ask(d, tier, calls[k].reply) in Asks(d, tier, calls, n)
  {
  }

  lemma FunnelBacks(env: Env, w: World, h: nat, script: Funnel.Script, w': World)
    requires DoFunnel(env, w, h, script) == Some(w')
    ensures h in w'.handlers && HandlerSound(w', w'.handlers[h])
  {
    hide CountRepairs, Gates.Sound, Asks;
    var x := w.handlers[h];
    var text := SourceText(x.pc.pages);
    var r := Funnel.FunnelSpec(w.t.docs, x.doc, x.pc.row.docType, text, script);
    assert r == FunnelOf(w, h, script);
    FunnelMoves(env, w, h, script, w');
    if r.fields.Some? {
      hide Funnel.FunnelSpec;
      Funnel.FunnelSound(w.t.docs, x.doc, x.pc.row.docType, text, env.cfg.maxRepair, script);
      var tier := r.report.tierUsed.value;
      AsksHas(x.doc, tier, script.Of(tier), Funnel.CallsOf(tier, r), Funnel.CallsOf(tier, r) - 1);
    }
  }

  lemma HandlersSound(env: Env, w: World, a: ExtractAction, w': World)
    requires NextExtract(env, w, a) == Some(w') && forall h | h in w.handlers :: HandlerSound(w, w.handlers[h])
    ensures forall h | h in w'.handlers :: HandlerSound(w', w'.handlers[h])
  {
    hide DoStart, DoLoad, DoAssemble, DoAttempt, DoFunnel, DoFinish, DoReroute, DoCrash, Backed, FinalOk, MsgFinal,
         PostFinal, ExtractMsgs,
         VerdictTables, HandlerFrame, Clash, Checked, EnsureAssembledSpec;
    ExtractSteps(env, w, a, w');
    HandlersAfter(env, w, a, w');
    forall h | h in w'.handlers ensures HandlerSound(w', w'.handlers[h]) {
      if h == a.h {
        if a.RunFunnel? { FunnelBacks(env, w, h, a.script, w'); } else { NotDecided(env, w, a); }
      } else {
        assert HandlerSound(w, w.handlers[h]);
        SoundStays(w, w', w.handlers[h]);
      }
    }
  }

  lemma NotDecided(env: Env, w: World, a: ExtractAction)
    requires Enabled(env, w, a) && !a.RunFunnel?
    ensures PcAfter(env, w, a).Some? ==> !PcAfter(env, w, a).value.Decided?
  {
    hide Clash, Completeness, EnsureAssembledSpec;
  }

  lemma SoundStays(w: World, w': World, x: Handler)
    requires HandlerSound(w, x) && w.asked <= w'.asked
    ensures HandlerSound(w', x)
  {
    hide Gates.Sound, SourceText;
  }

  // ---- Complete documents stay final ----

  /** Histories and artifacts only grow. */
  ghost predicate Carries(w: World, w': World) {
    && |w.t.sent| <= |w'.t.sent| && w'.t.sent[..|w.t.sent|] == w.t.sent
    && w.asked <= w'.asked
    && forall d | d in w.assembled :: d in w'.assembled && w'.assembled[d] == w.assembled[d]
  }

  lemma CarriesOn(env: Env, w: World, a: Action, w': World)
    requires Basic(env, w) && Next(env, w, a) == Some(w')
    ensures Carries(w, w')
  {
    hide NextText, NextExtract, NextRecover, NextBroker, NewMsgs, Basic, ExtractMsgs, VerdictTables, HandlerFrame;
    StepGrows(env, w, a, w');
    assert w'.t.sent[..|w.t.sent|] == w.t.sent;
    ArtifactStable(env, w, a, w');
    if a.Extract? {
      ExtractSteps(env, w, a.ext, w');
    } else {
      OnlyExtract(env, w, a, w');
    }
  }

  lemma FinalKept(env: Env, w: World, w': World, d: DocId)
    requires Carries(w, w') && d in w.t.docs && d in w'.t.docs && w.t.docs[d].state == Complete
    requires Kept(w.t.docs[d], w'.t.docs[d]) && FinalOk(env, w, d)
    ensures FinalOk(env, w', d)
  {
    hide Gates.Sound, SourceText, Canonical;
    var j: nat :| ExtractedSent(w, d, j);
    assert w'.t.sent[j] == w'.t.sent[..|w.t.sent|][j];
    assert ExtractedSent(w', d, j);
  }

  lemma MsgKept(w: World, w': World, m: Msg)
    requires MsgFinal(w, m)
    requires m.doc in w.t.docs && w.t.docs[m.doc].state == Complete ==>
             m.doc in w'.t.docs && Kept(w.t.docs[m.doc], w'.t.docs[m.doc])
    ensures MsgFinal(w', m)
  {
  }

  // ---- Documents that become complete ----

  lemma FinishVerdict(t: Tables, d: DocId, fields: Option<Fields>, report: Report, autoPost: bool, now: Time,
      t': Tables)
    requires FinishTx(t, d, fields, report, autoPost, now) == Some(t') && d in t.docs
    ensures d in t'.docs && t'.docs[d].docType == t.docs[d].docType
    ensures t.docs[d].result.Some? ==>
              t'.docs[d].result == t.docs[d].result && t'.docs[d].state == t.docs[d].state &&
                  t'.docs[d].gates == t.docs[d].gates
    ensures t.docs[d].result.None? ==> t'.docs[d].state == (if fields.Some? && autoPost then Complete else Review)
    ensures t.docs[d].result.None? && fields.None? ==>
              t'.docs[d].result == Some(NoFields) && t'.docs[d].gates == report
    ensures t.docs[d].result.None? && fields.Some? && !autoPost ==>
              t'.docs[d].result == Some(HasFields(fields.value)) &&
              t'.docs[d].gates == report.(killSwitch := Some(Fail))
    ensures t.docs[d].result.None? && fields.Some? && autoPost ==>
              && t'.docs[d].result == Some(HasFields(fields.value)) && t'.docs[d].gates == report
              && t'.docs[d].vendor == fields.value.seller && t'.docs[d].invoiceNo == fields.value.invoiceNo
              && t'.sent == t.sent + [Msg(d, DocumentExtracted, AutoPost(fields.value, report), Commit)]
  {
    hide Violates;
  }

  /** A document becomes complete by its handler's winning commit, and is then earned. */
  lemma FinishEarns(env: Env, w: World, h: nat, autoPost: bool, w': World)
    requires h in w.handlers && w.handlers[h].doc in w.t.docs && w.t.docs[w.handlers[h].doc].state != Complete
    requires w.handlers[h].doc in w'.t.docs && w'.t.docs[w.handlers[h].doc].state == Complete
    requires Basic(env, w) && PagesInv(env, w) && FinalInv(env, w) && DoFinish(w, h, autoPost) == Some(w')
    ensures Earned(env, w', w.handlers[h].doc) && HasExtracted(w', w.handlers[h].doc)
    ensures forall k | |w.t.sent| <= k < |w'.t.sent| :: MsgFinal(w', w'.t.sent[k])
  {
    hide Basic, PagesInv, FinalInv, FinishTx, Gates.Sound, SourceText, Canonical;
    ClashVerdict(env, w, h, autoPost, w');
    var x := w.handlers[h];
    assert HandlerSound(w, x) && HandlerPages(env, w, x) by { HandlerFacts(env, w, h); }
    assert GoodRow(env, x.doc, x.pc.row) by { HandlerDoc(env, w, h); }
    GoodRowOf(env, w, x.doc);
    FinishVerdict(w.t, x.doc, x.pc.fields, x.pc.report, autoPost, w.now, w'.t);
    SameStore(w, h, autoPost, w');
    assert ExtractedSent(w', x.doc, |w.t.sent|);
  }

  lemma SameStore(w: World, h: nat, autoPost: bool, w': World)
    requires DoFinish(w, h, autoPost) == Some(w')
    ensures w'.assembled == w.assembled && w'.asked == w.asked
  {
    hide FinishTx;
  }

  lemma HandlerFacts(env: Env, w: World, h: nat)
    requires PagesInv(env, w) && FinalInv(env, w) && h in w.handlers
    ensures HandlerSound(w, w.handlers[h]) && HandlerPages(env, w, w.handlers[h])
  {
    hide HandlerSound, HandlerPages;
  }

  /** Everything else that makes a document complete is an operator's override. */
  lemma AcceptGrants(env: Env, w: World, r: OpRead, note: OperatorNote, w': World)
    requires DoAcceptReview(w, r, note) == Some(w')
    ensures r.doc in w'.t.docs && w'.t.docs[r.doc].state == Complete && Granted(w', r.doc)
    ensures w'.t.sent == w.t.sent + [Msg(r.doc, DocumentExtracted, OperatorOverride, Accept)]
    ensures HasExtracted(w', r.doc)
  {
    assert ExtractedSent(w', r.doc, |w.t.sent|);
  }

  /** How a document that was not complete becomes so. */
  lemma BecomesComplete(env: Env, w: World, a: Action, w': World, d: DocId)
    requires Next(env, w, a) == Some(w') && d in w'.t.docs && w'.t.docs[d].state == Complete
    requires d !in w.t.docs || w.t.docs[d].state != Complete
    ensures d in w.t.docs
    ensures (a.Extract? && a.ext.Finish? && a.ext.h in w.handlers && w.handlers[a.ext.h].doc == d) ||
            (a.Recover? && a.rec.AcceptReview? && a.rec.seen.doc == d)
  {
    hide NextText, NextExtract, NextRecover, NextBroker;
    if a.Extract? {
      ExtractBecomes(env, w, a.ext, w', d);
    } else if a.Recover? {
      RecoverBecomes(env, w, a.rec, w', d);
    } else {
      TextBecomes(env, w, a, w', d);
    }
  }

  lemma ExtractBecomes(env: Env, w: World, a: ExtractAction, w': World, d: DocId)
    requires NextExtract(env, w, a) == Some(w') && d in w'.t.docs && w'.t.docs[d].state == Complete
    requires d !in w.t.docs || w.t.docs[d].state != Complete
    ensures d in w.t.docs && a.Finish? && a.h in w.handlers && w.handlers[a.h].doc == d
  {
    hide DoStart, DoLoad, DoAssemble, DoAttempt, DoFunnel, DoFinish, DoCrash, ExtractMsgs, PcAfter, HandlerFrame,
         SameButVerdict;
    ExtractSteps(env, w, a, w');
    ExtractVerdict(env, w, a, w', d);
  }

  lemma RecoverBecomes(env: Env, w: World, a: RecoverAction, w': World, d: DocId)
    requires NextRecover(env, w, a) == Some(w') && d in w'.t.docs && w'.t.docs[d].state == Complete
    requires d !in w.t.docs || w.t.docs[d].state != Complete
    ensures d in w.t.docs && a.AcceptReview? && a.seen.doc == d
  {
    hide RedriveMsgs, EnqueueAll, IsBatch, Tally;
    match a
    case ForceRedrive(r) =>
      var target := RedriveTarget(r.row, r.assembled).value;
      var t := Transition(w.t, r.doc, target, Predecessors(target), w.now).value;
      EnqueueAllFacts(t, RedriveMsgs(env.cfg, t, Row(r.doc, r.row.(state := target)), Operator));
    case SweepRedrive(r) => EnqueueAllFacts(w.t, RedriveMsgs(env.cfg, w.t, r, Sweep));
    case _ =>
  }

  lemma TextBecomes(env: Env, w: World, a: Action, w': World, d: DocId)
    requires Next(env, w, a) == Some(w') && (a.Text? || a.Broker?) && d in w'.t.docs && w'.t.docs[d].state == Complete
    ensures d in w.t.docs && w.t.docs[d].state == Complete
  {
    hide DoEmbeddedCommit, DoSplitCommit, DoShardRecord, DoSplitBegin, DoShardBegin, DoEmbeddedWrite, DoShardWrite,
         NextBroker, TextMsgs, DispatchMsg;
    match a
    case Text(x) =>
      TextSteps(env, w, x, w');
      if d !in w.t.docs { TriageOnly(env, w, x, w', d); }
    case Broker(x) => BrokerSteps(w, x, w');
  }

  lemma TriageOnly(env: Env, w: World, a: TextAction, w': World, d: DocId)
    requires NextText(env, w, a) == Some(w') && d in w'.t.docs && d !in w.t.docs
    ensures a.Triage? && w'.t.docs[d].state != Complete && w'.t.docs[d].vendor.None?
  {
    hide AllPages, ShardText, DispatchMsg, CommitSplitTx;
    if a.SplitCommit? {
      var n := |env.sources[w.t.sent[a.msg].doc].ocr|;
      SplitState(env.cfg, w.t, w.t.sent[a.msg].doc, ShardCount(n, env.cfg.shardSize), n);
    }
  }

  // ---- Messages ----

  /** New document.extracted messages come from a winning commit or an accept. */
  lemma NewExtracted(env: Env, w: World, a: Action, w': World, k: nat)
    requires Basic(env, w) && Next(env, w, a) == Some(w') && k < |NewMsgs(env, w, a)| &&
             NewMsgs(env, w, a)[k].topic == DocumentExtracted
    ensures (a.Extract? && a.ext.Finish? && ExtractMsgs(w, a.ext) != []) || (a.Recover? && a.rec.AcceptReview?)
  {
    hide NextText, NextExtract, NextRecover, NextBroker, TextMsgs, FinishTxMsgs, Basic, RedriveMsgs;
    match a
    case Text(x) => TextNoExtracted(env, w, x, w', k);
    case Extract(x) =>
    case Recover(x) => if !x.AcceptReview? { RecoverNoExtracted(env, w, x, w', k); }
    case Broker(x) =>
  }

  lemma TextNoExtracted(env: Env, w: World, a: TextAction, w': World, k: nat)
    requires Basic(env, w) && NextText(env, w, a) == Some(w') && k < |TextMsgs(env, w, a)|
    ensures TextMsgs(env, w, a)[k].topic != DocumentExtracted
  {
    hide NextText, TextMsgs, Basic;
    TextMsgsGood(env, w, a, w');
    TextCauses(env, w, a);
  }

  lemma RecoverNoExtracted(env: Env, w: World, a: RecoverAction, w': World, k: nat)
    requires Basic(env, w) && NextRecover(env, w, a) == Some(w') && k < |RecoverMsgs(env, w, a)| && !a.AcceptReview?
    ensures RecoverMsgs(env, w, a)[k].topic != DocumentExtracted
  {
    hide NextRecover, Basic;
    RecoverMsgsGood(env, w, a, w');
    RedriveCauses(env, w, a);
  }

  lemma RedriveCauses(env: Env, w: World, a: RecoverAction)
    requires !a.AcceptReview?
    ensures forall k | 0 <= k < |RecoverMsgs(env, w, a)| :: RecoverMsgs(env, w, a)[k].cause in {Sweep, Operator}
  {
  }

  /** The commit message of a Finish step means its document has become complete. */
  lemma CommitCompletes(env: Env, w: World, h: nat, autoPost: bool, w': World)
    requires DoFinish(w, h, autoPost) == Some(w') && ExtractMsgs(w, Finish(h, autoPost)) != []
    ensures w.handlers[h].doc in w'.t.docs && w'.t.docs[w.handlers[h].doc].state == Complete
  {
    hide Violates;
  }

  // ---- The step ----

  lemma DocsStep(env: Env, w: World, a: Action, w': World, d: DocId)
    requires Safe(env, w) && Next(env, w, a) == Some(w') && Carries(w, w') && d in w'.t.docs
    ensures FinalOk(env, w', d)
  {
    hide Basic, PagesInv, NextText, NextRecover, NextBroker, DoStart, DoLoad, DoAssemble, DoAttempt, DoFunnel, DoFinish,
         DoReroute, DoCrash,
         DoAcceptReview, Carries, OpenInv, Earned, HasExtracted, Kept;
    if d in w.t.docs && w.t.docs[d].state == Complete {
      CompleteKept(env, w, a, w', d);
      FinalKept(env, w, w', d);
    } else if w'.t.docs[d].state == Complete {
      BecomesComplete(env, w, a, w', d);
      match a
      case Extract(x) => FinishEarns(env, w, x.h, x.autoPost, w');
      case Recover(x) => AcceptedFinal(env, w, x, w', d);
    }
  }

  lemma AcceptedFinal(env: Env, w: World, a: RecoverAction, w': World, d: DocId)
    requires NextRecover(env, w, a) == Some(w') && a.AcceptReview? && a.seen.doc == d
    ensures d in w'.t.docs && w'.t.docs[d].state == Complete && Granted(w', d) && HasExtracted(w', d)
    ensures w'.t.sent == w.t.sent + [Msg(d, DocumentExtracted, OperatorOverride, Accept)]
  {
    hide DoAcceptReview;
    AcceptGrants(env, w, a.seen, a.note, w');
  }

  lemma OldMsgs(env: Env, w: World, a: Action, w': World, j: nat)
    requires Safe(env, w) && Next(env, w, a) == Some(w') && Carries(w, w') && j < |w.t.sent|
    ensures MsgFinal(w', w'.t.sent[j])
  {
    hide Basic, PagesInv, Next, OpenInv, Kept, FinalOk, PostFinal, HandlerSound;
    var m := w.t.sent[j];
    assert w'.t.sent[j] == w'.t.sent[..|w.t.sent|][j] == m;
    assert MsgFinal(w, m);
    if m.doc in w.t.docs && w.t.docs[m.doc].state == Complete { CompleteKept(env, w, a, w', m.doc); }
    MsgKept(w, w', m);
  }

  lemma NewMsgFinal(env: Env, w: World, a: Action, w': World, k: nat)
    requires Safe(env, w) && Next(env, w, a) == Some(w') && k < |NewMsgs(env, w, a)| &&
             w'.t.sent == w.t.sent + NewMsgs(env, w, a)
    ensures MsgFinal(w', NewMsgs(env, w, a)[k])
  {
    hide Basic, PagesInv, NextText, NextRecover, NextBroker, DoStart, DoLoad, DoAssemble, DoAttempt, DoFunnel, DoFinish,
         DoReroute, DoCrash,
         DoAcceptReview, OpenInv, FinalInv, Earned, HasExtracted, TextMsgs, ExtractMsgs, RedriveMsgs, ForceMsgs;
    if NewMsgs(env, w, a)[k].topic == DocumentExtracted {
      NewExtracted(env, w, a, w', k);
      match a
      case Extract(x) => CommitFinal(env, w, x.h, x.autoPost, w', k);
      case Recover(x) => AcceptedFinal(env, w, x, w', x.seen.doc);
    }
  }

  lemma CommitFinal(env: Env, w: World, h: nat, autoPost: bool, w': World, k: nat)
    requires Safe(env, w) && DoFinish(w, h, autoPost) == Some(w')
    requires k < |ExtractMsgs(w, Finish(h, autoPost))| && w'.t.sent == w.t.sent + ExtractMsgs(w, Finish(h, autoPost))
    ensures MsgFinal(w', ExtractMsgs(w, Finish(h, autoPost))[k])
  {
    hide Basic, PagesInv, FinalInv, DoFinish, ExtractMsgs, Earned, HasExtracted;
    CommitCompletes(env, w, h, autoPost, w');
    FinishHandler(w, h, autoPost, w');
    assert OpenDoc(w, h);
    FinishEarns(env, w, h, autoPost, w');
    assert w'.t.sent[|w.t.sent| + k] == ExtractMsgs(w, Finish(h, autoPost))[k];
  }

  lemma FinishHandler(w: World, h: nat, autoPost: bool, w': World)
    requires DoFinish(w, h, autoPost) == Some(w')
    ensures h in w.handlers
  {
  }

  lemma PostedStep(env: Env, w: World, a: Action, w': World, d: DocId)
    requires Safe(env, w) && Next(env, w, a) == Some(w') && d in w'.t.posted
    ensures PostFinal(w', d)
  {
    hide Basic, PagesInv, NextText, NextExtract, NextRecover, OpenInv, FinalOk, HandlerSound, Kept, IsOutboxBatch,
         LockedRows;
    OnlySinkPosts(env, w, a, w');
    if d in w.t.posted {
      assert PostFinal(w, d);
      CompleteKept(env, w, a, w', d);
      PostKept(w, w', d);
    } else {
      assert MsgFinal(w, w.t.sent[a.bro.msg]);
    }
  }

  lemma PostKept(w: World, w': World, d: DocId)
    requires d in w.t.posted && PostFinal(w, d) && d in w'.t.docs && Kept(w.t.docs[d], w'.t.docs[d])
    requires d in w'.t.posted && w'.t.posted[d] == w.t.posted[d]
    ensures PostFinal(w', d)
  {
  }

  /** Posted rows appear only at the sink and never change. */
  lemma OnlySinkPosts(env: Env, w: World, a: Action, w': World)
    requires Next(env, w, a) == Some(w')
    ensures forall d | d in w.t.posted :: d in w'.t.posted && w'.t.posted[d] == w.t.posted[d]
    ensures forall d | d in w'.t.posted && d !in w.t.posted ::
              a.Broker? && a.bro.SinkPost? && a.bro.msg < |w.t.sent| && a.bro.msg in w.log && w'.t.docs == w.t.docs &&
              w.t.sent[a.bro.msg].doc == d && w.t.sent[a.bro.msg].topic == DocumentExtracted &&
              w'.t.posted[d] == Posted(PostedFields(w.t.sent[a.bro.msg].payload))
  {
    hide NextText, NextExtract, NextRecover, NextBroker, TextMsgs, ExtractMsgs, RecoverMsgs, SameButText,
         SameButVerdict, SameButRecovery;
    match a
    case Text(x) => TextSteps(env, w, x, w');
    case Extract(x) => ExtractSteps(env, w, x, w');
    case Recover(x) => RecoverSteps(env, w, x, w');
    case Broker(x) => SinkPosts(w, x, w');
  }

  lemma SinkPosts(w: World, a: BrokerAction, w': World)
    requires NextBroker(w, a) == Some(w')
    ensures !a.SinkPost? ==> w'.t.posted == w.t.posted
    ensures a.SinkPost? ==>
              && a.msg < |w.t.sent| && a.msg in w.log && w.t.sent[a.msg].topic == DocumentExtracted
              && w'.t == Post(w.t, w.t.sent[a.msg])
  {
    hide IsOutboxBatch, LockedRows, Post;
  }

  lemma FinalStep(env: Env, w: World, a: Action, w': World)
    requires Safe(env, w) && Next(env, w, a) == Some(w')
    ensures FinalInv(env, w')
  {
    hide Safe, NextText, NextExtract, NextRecover, NextBroker, NewMsgs, FinalOk, MsgFinal, PostFinal, HandlerSound,
         Carries;
    SafeParts(env, w);
    CarriesOn(env, w, a, w');
    StepGrows(env, w, a, w');
    forall d | d in w'.t.docs ensures FinalOk(env, w', d) { DocsStep(env, w, a, w', d); }
    forall j | 0 <= j < |w'.t.sent| ensures MsgFinal(w', w'.t.sent[j]) {
      if j < |w.t.sent| { OldMsgs(env, w, a, w', j); } else { NewMsgFinal(env, w, a, w', j - |w.t.sent|); }
    }
    forall d | d in w'.t.posted ensures PostFinal(w', d) { PostedStep(env, w, a, w', d); }
    if a.Extract? {
      HandlersSound(env, w, a.ext, w');
    } else {
      OnlyExtract(env, w, a, w');
      forall h | h in w'.handlers ensures HandlerSound(w', w'.handlers[h]) { SoundStays(w, w', w.handlers[h]); }
    }
  }

  lemma SafeParts(env: Env, w: World)
    requires Safe(env, w)
    ensures Basic(env, w) && FinalInv(env, w)
  {
  }

  lemma {:induction false} SafeRun(env: Env, ws: seq<World>, acts: seq<Action>, n: nat)
    requires env.Valid() && IsRun(env, ws, acts) && Under1(ws, acts) && n < |ws|
    ensures Safe(env, ws[n])
  {
    hide Next, Basic, PagesInv, OpenInv, H1;
    PagesRun(env, ws, acts, n);
    OpenRun(env, ws, acts, n);
    if n > 0 {
      SafeRun(env, ws, acts, n - 1);
      hide FinalInv;
      FinalStep(env, ws[n - 1], acts[n - 1], ws[n]);
    }
  }

  // ---- The theorems ----

  /** Nothing lost or invented end to end: a document is complete iff its document.extracted was enqueued, and that
      message is in the outbox or in the broker's log. */
  lemma CompleteIffExtracted(env: Env, ws: seq<World>, acts: seq<Action>, n: nat, d: DocId)
    requires env.Valid() && IsRun(env, ws, acts) && Under1(ws, acts) && n < |ws| && d in ws[n].t.docs
    ensures ws[n].t.docs[d].state == Complete <==>
              exists j: nat :: ExtractedSent(ws[n], d, j) && (j in ws[n].t.pending || j in ws[n].log)
  {
    hide Next, Under1, Basic, PagesInv, OpenInv;
    SafeRun(env, ws, acts, n);
    Relaying.NothingLost(env, ws, acts, n);
    if ws[n].t.docs[d].state == Complete {
      assert FinalOk(env, ws[n], d);
      var j: nat :| ExtractedSent(ws[n], d, j);
      assert j in ws[n].t.pending || j in ws[n].log;
    }
    forall j: nat | ExtractedSent(ws[n], d, j) ensures ws[n].t.docs[d].state == Complete {
      assert MsgFinal(ws[n], ws[n].t.sent[j]);
    }
  }

  /** Every posted document is complete, and without an operator override its posted fields are its extraction
      result. */
  lemma PostedIsComplete(env: Env, ws: seq<World>, acts: seq<Action>, n: nat, d: DocId)
    requires env.Valid() && IsRun(env, ws, acts) && Under1(ws, acts) && n < |ws| && d in ws[n].t.posted
    ensures d in ws[n].t.docs && ws[n].t.docs[d].state == Complete
    ensures ws[n].t.docs[d].gates.override.None? ==> ws[n].t.docs[d].result == Some(ws[n].t.posted[d].fields)
  {
    hide Next, Under1, Basic, PagesInv, OpenInv;
    SafeRun(env, ws, acts, n);
    assert PostFinal(ws[n], d);
  }

  /** One posted row per document, ever: once there it is never replaced, with no hypothesis on the run. */
  lemma {:induction false} PostedOnce(env: Env, ws: seq<World>, acts: seq<Action>, m: nat, n: nat, d: DocId)
    requires IsRun(env, ws, acts) && m <= n < |ws| && d in ws[m].t.posted
    ensures d in ws[n].t.posted && ws[n].t.posted[d] == ws[m].t.posted[d]
    decreases n - m
  {
    hide Next;
    if m < n {
      PostedOnce(env, ws, acts, m, n - 1, d);
      OnlySinkPosts(env, ws[n - 1], acts[n - 1], ws[n]);
    }
  }

  /** Gate soundness against any model: a complete document carries an operator override, or its result holds fields
      that the tier in tier_used answered, that the schema passed, that are grounded in the text of one direct pass
      over the document and, if triage typed it invoice, add up. */
  lemma GateSoundness(env: Env, ws: seq<World>, acts: seq<Action>, n: nat, d: DocId)
    requires env.Valid() && IsRun(env, ws, acts) && Under1(ws, acts) && n < |ws|
    requires d in ws[n].t.docs && ws[n].t.docs[d].state == Complete && ws[n].t.docs[d].gates.override.None?
    ensures Known(env, d) && d in ws[n].assembled && ws[n].assembled[d] == Canonical(env, d)
    ensures var doc := ws[n].t.docs[d];
      && doc.result.Some? && doc.result.value.HasFields?
      && doc.gates.schema == Some(Pass) && doc.gates.tierUsed.Some?
      && var f := doc.result.value.fields;
         && Asked(ws[n], d, doc.gates.tierUsed.value, f)
         && Gates.Grounded(f, JoinLines(Canonical(env, d)))
         && (doc.docType.Invoice? ==> Gates.AddsUp(f))
    ensures IsJoined(JoinLines(Canonical(env, d)), Texts(env, d))
    ensures Sent(env, d) ==> ws[n].t.docs[d].docType == env.sources[d].docType
  {
    hide Next, Under1, PagesInv, OpenInv, MsgsOk, RefsOk, StoreOk, SourceText, Canonical, IsJoined, Gates.Grounded,
         Gates.AddsUp;
    SafeRun(env, ws, acts, n);
    assert FinalOk(env, ws[n], d) && Earned(env, ws[n], d);
    assert GoodRow(env, d, ws[n].t.docs[d]);
    CanonicalComplete(env, d);
    CanonicalJoined(env, d);
  }
}

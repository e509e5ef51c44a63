/** What the row of a document says of its verdict, in every run and with no hypothesis: why it is in review, and what a
    held-back document holds. */
module Reviews {
  import opened Types
  import opened Pages
  import opened Ledger
  import opened Stages
  import opened Protocol
  import opened Frames
  import opened Basics
  import opened Joining
  import opened Artifacts
  import opened Storage
  import opened Verdicts
  import opened Completing
  import Funnel
  import Gates
  import Undispatched

  // ---- The invariant ----

  /** The reports handlers carry: none has a kill-switch or an override entry, and one that leads to review names a
      completeness or a dedupe failure. */
  ghost predicate ReportOk(x: Handler) {
    && (x.pc.Decided? || x.pc.Routing? ==> x.pc.report.killSwitch.None? && x.pc.report.override.None?)
    && (x.pc.Routing? ==> x.pc.report.completeness == Some(Fail) || x.pc.report.dedupe == Some(Fail))
  }

  ghost predicate HandlerOk(w: World, x: Handler) {
    HandlerSound(w, x) && ReportOk(x)
  }

  /** A document stopped by the kill switch alone holds fields that passed every gate on its text. */
  ghost predicate SwitchedOk(env: Env, w: World, d: DocId)
    requires d in w.t.docs
  {
    var doc := w.t.docs[d];
    doc.gates.killSwitch == Some(Fail) && doc.gates.override.None? ==>
      && Known(env, d) && doc.result.Some? && doc.result.value.HasFields?
      && Backed(w, d, doc.docType, doc.result.value.fields, doc.gates, JoinLines(Canonical(env, d)))
  }

  /** Why a document is in review: triage parked it, its artifact was not fit, its key was taken, the gates were
      exhausted, or auto-posting was switched off. */
  ghost predicate HasReason(env: Env, d: DocId, doc: Doc) {
    || (d in env.sources && Undispatched.ParkedByTriage(env.cfg, env.sources[d]))
    || doc.gates.completeness == Some(Fail) || doc.gates.dedupe == Some(Fail)
    || doc.result == Some(NoFields) || doc.gates.killSwitch == Some(Fail)
  }

  ghost predicate RowSays(env: Env, w: World, d: DocId)
    requires d in w.t.docs
  {
    SwitchedOk(env, w, d) && (w.t.docs[d].state == Review ==> HasReason(env, d, w.t.docs[d]))
  }

  ghost predicate SaysInv(env: Env, w: World) {
    && (forall d | d in w.t.docs :: RowSays(env, w, d))
    && (forall h | h in w.handlers :: HandlerOk(w, w.handlers[h]))
  }

  // ---- Handlers ----

  lemma ReportsStep(env: Env, w: World, a: ExtractAction, w': World, h: nat)
    requires NextExtract(env, w, a) == Some(w') && h in w'.handlers
    requires h in w.handlers ==> ReportOk(w.handlers[h])
    ensures ReportOk(w'.handlers[h])
  {
    hide NextExtract, Clash, FunnelOf, Funnel.Ready, EnsureAssembledSpec, Completeness;
    HandlersAfter(env, w, a, w');
    if a.RunFunnel? && h == a.h { FunnelReport(env, w, h, a.script); }
  }

  lemma FunnelReport(env: Env, w: World, h: nat, script: Funnel.Script)
    requires h in w.handlers && w.handlers[h].pc.Attempted? && Funnel.Ready(script, env.cfg.maxRepair)
    ensures FunnelOf(w, h, script).report.killSwitch.None? && FunnelOf(w, h, script).report.override.None?
  {
    hide Funnel.FunnelSpec, SourceText;
    var x := w.handlers[h];
    Funnel.FunnelReports(w.t.docs, x.doc, x.pc.row.docType, SourceText(x.pc.pages), env.cfg.maxRepair, script);
  }

  lemma HandlersOk(env: Env, w: World, a: Action, w': World)
    requires SaysInv(env, w) && Next(env, w, a) == Some(w')
    requires w.asked <= w'.asked
    ensures forall h | h in w'.handlers :: HandlerOk(w', w'.handlers[h])
  {
    hide NextText, NextExtract, NextRecover, NextBroker, RowSays, HandlerSound, ReportOk;
    if a.Extract? {
      HandlersSound(env, w, a.ext, w');
      forall h | h in w'.handlers ensures ReportOk(w'.handlers[h]) { ReportsStep(env, w, a.ext, w', h); }
    } else {
      OnlyExtract(env, w, a, w');
      forall h | h in w'.handlers ensures HandlerSound(w', w'.handlers[h]) { SoundStays(w, w', w.handlers[h]); }
    }
  }

  // ---- Rows ----

  lemma BackedOn(w: World, w': World, d: DocId, docType: DocType, f: Fields, report: Report, text: string)
    requires Backed(w, d, docType, f, report, text) && w.asked <= w'.asked
    ensures Backed(w', d, docType, f, report, text)
  {
    hide Gates.Sound;
  }

  /** A row whose verdict has not changed. */
  lemma SaysOn(env: Env, w: World, w': World, d: DocId)
    requires d in w.t.docs && d in w'.t.docs && RowSays(env, w, d) && w.asked <= w'.asked
    requires w'.t.docs[d].result == w.t.docs[d].result && w'.t.docs[d].docType == w.t.docs[d].docType
    requires w'.t.docs[d].gates == w.t.docs[d].gates ||
             (w'.t.docs[d].gates.override.Some? && w'.t.docs[d].state == Complete)
    requires w'.t.docs[d].state == Review ==> w.t.docs[d].state == Review
    ensures RowSays(env, w', d)
  {
    hide Canonical, JoinLines;
    var doc := w.t.docs[d];
    if SwitchedOk(env, w, d) && doc.gates.killSwitch == Some(Fail) && doc.gates.override.None? {
      BackedOn(w, w', d, doc.docType, doc.result.value.fields, doc.gates, JoinLines(Canonical(env, d)));
    }
  }

  /** The last transaction of a handler. */
  lemma FinishSays(env: Env, w: World, h: nat, autoPost: bool, w': World)
    requires Basic(env, w) && PagesInv(env, w) && SaysInv(env, w) && DoFinish(w, h, autoPost) == Some(w')
    requires h in w.handlers && w.handlers[h].doc in w.t.docs && w.asked <= w'.asked
    requires Ends(env, w, Finish(h, autoPost), w.handlers[h].doc)
    ensures w.handlers[h].doc in w'.t.docs && RowSays(env, w', w.handlers[h].doc)
  {
    hide Basic, PagesInv, FinishTx, DoFinish, Gates.Sound, SourceText, Canonical, PcAfter, JoinLines, SwitchedOk;
    ClashVerdict(env, w, h, autoPost, w');
    var x, d := w.handlers[h], w.handlers[h].doc;
    FinishPages(env, w, h, autoPost, w');
    assert HandlerOk(w, x) && RowSays(env, w, d);
    GoodRowOf(env, w, d);
    FinishVerdict(w.t, d, x.pc.fields, x.pc.report, autoPost, w.now, w'.t);
    if w.t.docs[d].result.Some? {
      SaysOn(env, w, w', d);
    } else {
      FinishSwitch(env, w, w', h);
    }
  }

  lemma FinishPages(env: Env, w: World, h: nat, autoPost: bool, w': World)
    requires Basic(env, w) && PagesInv(env, w) && DoFinish(w, h, autoPost) == Some(w') && h in w.handlers
    ensures w.handlers[h].pc.Decided? && Known(env, w.handlers[h].doc)
    ensures SourceText(w.handlers[h].pc.pages) == JoinLines(Canonical(env, w.handlers[h].doc))
    ensures GoodRow(env, w.handlers[h].doc, w.handlers[h].pc.row)
  {
    hide Basic, FinishTx, SourceText, Canonical, JoinLines;
    HandlerDoc(env, w, h);
    assert HandlerPages(env, w, w.handlers[h]);
    CanonicalComplete(env, w.handlers[h].doc);
  }

  lemma FinishSwitch(env: Env, w: World, w': World, h: nat)
    requires h in w.handlers && w.handlers[h].pc.Decided? && HandlerOk(w, w.handlers[h]) && w.asked <= w'.asked
    requires Known(env, w.handlers[h].doc) && w.handlers[h].doc in w'.t.docs
    requires SourceText(w.handlers[h].pc.pages) == JoinLines(Canonical(env, w.handlers[h].doc))
    requires w.handlers[h].pc.row.docType == w'.t.docs[w.handlers[h].doc].docType
    requires var x := w.handlers[h];
      var doc' := w'.t.docs[x.doc];
      doc'.gates == x.pc.report ||
      (x.pc.fields.Some? && doc'.gates == x.pc.report.(killSwitch := Some(Fail)) &&
       doc'.result == Some(HasFields(x.pc.fields.value)))
    ensures SwitchedOk(env, w', w.handlers[h].doc)
  {
    hide Gates.Sound, SourceText, Canonical, JoinLines;
  }

  lemma RerouteSays(env: Env, w: World, h: nat, w': World)
    requires SaysInv(env, w) && DoReroute(w, h) == Some(w') && w.handlers[h].doc in w.t.docs
    ensures w.handlers[h].doc in w'.t.docs && RowSays(env, w', w.handlers[h].doc)
  {
    hide RowSays, HandlerSound;
    assert HandlerOk(w, w.handlers[h]);
    Rerouted(env, w, h, w');
  }

  lemma Rerouted(env: Env, w: World, h: nat, w': World)
    requires DoReroute(w, h) == Some(w') && w.handlers[h].doc in w.t.docs && ReportOk(w.handlers[h])
    ensures w.handlers[h].doc in w'.t.docs && RowSays(env, w', w.handlers[h].doc)
  {
  }

  lemma ExtractSays(env: Env, w: World, a: ExtractAction, w': World, d: DocId)
    requires Basic(env, w) && PagesInv(env, w) && SaysInv(env, w) && NextExtract(env, w, a) == Some(w')
    requires w.asked <= w'.asked && d in w.t.docs
    ensures d in w'.t.docs && RowSays(env, w', d)
  {
    hide Basic, PagesInv, SaysInv, RowSays, DoStart, DoLoad, DoAssemble, DoAttempt, DoFunnel, DoFinish, DoReroute,
         DoCrash, PcAfter;
    ExtractVerdict(env, w, a, w', d);
    SaysOf(env, w, d);
    if Ends(env, w, a, d) {
      match a
      case Finish(h, autoPost) => FinishSays(env, w, h, autoPost, w');
      case Reroute(h) => RerouteSays(env, w, h, w');
    } else {
      SaysOn(env, w, w', d);
    }
  }

  lemma SaysOf(env: Env, w: World, d: DocId)
    requires SaysInv(env, w) && d in w.t.docs
    ensures RowSays(env, w, d)
  {
  }

  /** A new row is triage's. */
  lemma NewRowSays(env: Env, w: World, a: Action, w': World, d: DocId)
    requires Next(env, w, a) == Some(w') && d !in w.t.docs && d in w'.t.docs
    ensures RowSays(env, w', d)
  {
    hide NextText, NextExtract, NextRecover, NextBroker, TextMsgs, RecoverMsgs, ExtractMsgs, SameButRecovery,
         SameButVerdict, HandlerFrame, RowSays;
    match a
    case Text(x) =>
      TextSteps(env, w, x, w');
      TriageOnly(env, w, x, w', d);
      TriagedSays(env, w, x, w', d);
    case Extract(x) => ExtractSteps(env, w, x, w');
    case Recover(x) => RecoverSteps(env, w, x, w');
    case Broker(x) => BrokerSteps(w, x, w');
  }

  lemma TriagedSays(env: Env, w: World, a: TextAction, w': World, d: DocId)
    requires NextText(env, w, a) == Some(w') && a.Triage? && d !in w.t.docs && d in w'.t.docs
    ensures RowSays(env, w', d)
  {
    hide DispatchMsg;
  }

  lemma SaysStep(env: Env, w: World, a: Action, w': World)
    requires Basic(env, w) && PagesInv(env, w) && SaysInv(env, w) && Next(env, w, a) == Some(w')
    ensures SaysInv(env, w')
  {
    hide Basic, PagesInv, NextText, NextExtract, NextRecover, NextBroker, RowSays, HandlerOk, Carries;
    CarriesOn(env, w, a, w');
    AskedGrows(w, w');
    forall d | d in w'.t.docs ensures RowSays(env, w', d) {
      if d !in w.t.docs {
        NewRowSays(env, w, a, w', d);
      } else if a.Extract? {
        ExtractSays(env, w, a.ext, w', d);
      } else {
        OthersVerdict(env, w, a, w', d);
        SaysOn(env, w, w', d);
      }
    }
    HandlersOk(env, w, a, w');
  }

  lemma AskedGrows(w: World, w': World)
    requires Carries(w, w')
    ensures w.asked <= w'.asked
  {
  }

  lemma {:induction false} SaysRun(env: Env, ws: seq<World>, acts: seq<Action>, n: nat)
    requires env.Valid() && IsRun(env, ws, acts) && n < |ws|
    ensures SaysInv(env, ws[n])
  {
    hide Next, Basic, PagesInv, RowSays, HandlerOk;
    if n > 0 {
      PagesRun(env, ws, acts, n - 1);
      SaysRun(env, ws, acts, n - 1);
      SaysStep(env, ws[n - 1], acts[n - 1], ws[n]);
    }
  }

  // ---- The theorems ----

  /** The kill switch holds back, it does not throw away: a document it stopped, and no operator has accepted, holds
      fields that the tier in tier_used answered, that passed the schema, that are grounded in the text of one direct
      pass and, on an invoice, add up. */
  lemma SwitchedOffHoldsFields(env: Env, ws: seq<World>, acts: seq<Action>, n: nat, d: DocId)
    requires env.Valid() && IsRun(env, ws, acts) && n < |ws| && d in ws[n].t.docs
    requires ws[n].t.docs[d].gates.killSwitch == Some(Fail) && ws[n].t.docs[d].gates.override.None?
    ensures Known(env, d) && IsJoined(JoinLines(Canonical(env, d)), Texts(env, d))
    ensures var doc := ws[n].t.docs[d];
      && doc.result.Some? && doc.result.value.HasFields?
      && doc.gates.schema == Some(Pass) && doc.gates.tierUsed.Some?
      && var f := doc.result.value.fields;
         && Asked(ws[n], d, doc.gates.tierUsed.value, f)
         && Gates.Grounded(f, JoinLines(Canonical(env, d)))
         && (doc.docType.Invoice? ==> Gates.AddsUp(f))
  {
    hide Next, IsJoined, Canonical, Gates.Grounded, Gates.AddsUp, HandlerOk;
    SaysRun(env, ws, acts, n);
    assert RowSays(env, ws[n], d);
    CanonicalJoined(env, d);
  }

  /** A document in review says why, in every run. */
  lemma ReviewHasReason(env: Env, ws: seq<World>, acts: seq<Action>, n: nat, d: DocId)
    requires env.Valid() && IsRun(env, ws, acts) && n < |ws| && d in ws[n].t.docs && ws[n].t.docs[d].state == Review
    ensures var doc := ws[n].t.docs[d];
      || (d in env.sources && Undispatched.ParkedByTriage(env.cfg, env.sources[d]))
      || doc.gates.completeness == Some(Fail) || doc.gates.dedupe == Some(Fail)
      || doc.result == Some(NoFields) || doc.gates.killSwitch == Some(Fail)
  {
    hide Next, HandlerOk, SwitchedOk;
    SaysRun(env, ws, acts, n);
    assert RowSays(env, ws[n], d);
  }
}

/** What extraction handlers write, and when a document can close. */
module Verdicts {
  import opened Types
  import opened Pages
  import opened Ledger
  import opened Protocol
  import opened Frames
  import Funnel

  predicate Closed(s: DocState) {
    s == Review || s == Complete
  }

  /** The columns a verdict is made of. */
  predicate SameVerdict(a: Doc, b: Doc) {
    a.result == b.result && a.gates == b.gates && a.vendor == b.vendor && a.invoiceNo == b.invoiceNo &&
        a.docType == b.docType
  }

  // ---- One handler step ----

  /** Handler a.h ends with this step, and its document is d. */
  ghost predicate Ends(env: Env, w: World, a: ExtractAction, d: DocId) {
    (a.Finish? || a.Reroute?) && Enabled(env, w, a) && w.handlers[a.h].doc == d && PcAfter(env, w, a).None?
  }

  /** A handler step that is not its last write changes no verdict, and no state but by starting. */
  predicate Undecided(a: Doc, b: Doc) {
    SameVerdict(a, b) && (b.state == a.state || (IsExtract(a.state) && b.state == ExtractRunning))
  }

  lemma StartVerdict(w: World, h: nat, i: nat, w': World, e: DocId)
    requires DoStart(w, h, i) == Some(w') && e in w.t.docs
    ensures e in w'.t.docs && Undecided(w.t.docs[e], w'.t.docs[e])
  {
  }

  lemma CountVerdict(t: Tables, d: DocId, n: nat, e: DocId)
    requires e in t.docs
    ensures e in CountRepairs(t, d, n).docs && Undecided(t.docs[e], CountRepairs(t, d, n).docs[e])
    ensures e in CountAttempt(t, d).docs && Undecided(t.docs[e], CountAttempt(t, d).docs[e])
  {
  }

  lemma FunnelVerdict(env: Env, w: World, h: nat, script: Funnel.Script, w': World, e: DocId)
    requires DoFunnel(env, w, h, script) == Some(w') && e in w.t.docs
    ensures e in w'.t.docs && Undecided(w.t.docs[e], w'.t.docs[e])
  {
    hide FunnelOf, CountRepairs, Asks;
    CountVerdict(w.t, w.handlers[h].doc, FunnelOf(w, h, script).repairs, e);
  }

  lemma AssembleVerdict(w: World, h: nat, w': World)
    requires DoAssemble(w, h) == Some(w')
    ensures w'.t == w.t
  {
    hide Checked, EnsureAssembledSpec;
  }

  lemma LoadVerdict(w: World, h: nat, w': World)
    requires DoLoad(w, h) == Some(w') || DoCrash(w, h) == Some(w')
    ensures w'.t == w.t
  {
  }

  lemma ClashVerdict(env: Env, w: World, h: nat, autoPost: bool, w': World)
    requires DoFinish(w, h, autoPost) == Some(w')
    ensures Moved(env, w, Finish(h, autoPost), w')
    ensures PcAfter(env, w, Finish(h, autoPost)).Some? ==> w'.t == w.t
    ensures PcAfter(env, w, Finish(h, autoPost)).None? ==>
              FinishTx(w.t, w.handlers[h].doc, w.handlers[h].pc.fields, w.handlers[h].pc.report, autoPost,
                  w.now) == Some(w'.t)
  {
    hide CommitExtraction, SetBusinessKey, Violates;
    FinishMoves(env, w, h, autoPost, w');
  }

  lemma ElsewhereVerdict(env: Env, w: World, a: ExtractAction, w': World, e: DocId)
    requires NextExtract(env, w, a) == Some(w') && e in w.t.docs && e != ExtractDoc(w, a)
    ensures e in w'.t.docs && w'.t.docs[e] == w.t.docs[e]
  {
    hide NextExtract, ExtractMsgs, SameButVerdict, HandlerFrame;
    ExtractSteps(env, w, a, w');
  }

  lemma ExtractVerdict(env: Env, w: World, a: ExtractAction, w': World, e: DocId)
    requires NextExtract(env, w, a) == Some(w') && e in w.t.docs
    ensures e in w'.t.docs && (Undecided(w.t.docs[e], w'.t.docs[e]) || Ends(env, w, a, e))
  {
    hide DoStart, DoAssemble, DoFunnel, DoFinish, CountAttempt, PcAfter, Undecided, RouteWithoutWriting;
    HandlersAfter(env, w, a, w');
    if e != ExtractDoc(w, a) {
      ElsewhereVerdict(env, w, a, w', e);
      SameUndecided(w.t.docs[e]);
    } else {
      SameUndecided(w.t.docs[e]);
      match a
      case Start(h, i) => StartVerdict(w, h, i, w', e);
      case Assemble(h) => AssembleVerdict(w, h, w');
      case Attempt(h) => CountVerdict(w.t, w.handlers[h].doc, 0, e);
      case RunFunnel(h, script) => FunnelVerdict(env, w, h, script, w', e);
      case Finish(h, autoPost) => ClashVerdict(env, w, h, autoPost, w');
      case Load(h) => LoadVerdict(w, h, w');
      case Crash(h) => LoadVerdict(w, h, w');
      case Reroute(h) => RerouteEnds(env, w, h, w');
    }
  }

  lemma SameUndecided(a: Doc)
    ensures Undecided(a, a)
  {
  }

  lemma RerouteEnds(env: Env, w: World, h: nat, w': World)
    requires DoReroute(w, h) == Some(w')
    ensures Enabled(env, w, Reroute(h)) && PcAfter(env, w, Reroute(h)).None? && w'.t.docs.Keys == w.t.docs.Keys
  {
  }

  // ---- The other actors ----

  /** What the other actors may do to a document that exists. */
  predicate Untouched(a: Doc, b: Doc) {
    && a.result == b.result && a.vendor == b.vendor && a.invoiceNo == b.invoiceNo && a.docType == b.docType
    && (a.state == Complete ==> b.state == Complete)
    && (b.state == Review ==> a.state == Review)
    && (b.state == Complete ==> a.state == Complete || (a.state == Review && b.gates.override.Some?))
    && (b.gates == a.gates || (b.state == Complete && b.gates.override.Some?))
  }

  lemma OthersVerdict(env: Env, w: World, a: Action, w': World, e: DocId)
    requires Next(env, w, a) == Some(w') && !a.Extract? && e in w.t.docs
    ensures e in w'.t.docs && Untouched(w.t.docs[e], w'.t.docs[e])
  {
    hide NextText, NextRecover, NextBroker, TextMsgs, RecoverMsgs;
    match a
    case Text(x) => TextSteps(env, w, x, w');
    case Recover(x) => RecoverSteps(env, w, x, w');
    case Broker(x) => BrokerSteps(w, x, w');
  }

  // ---- H1 ----

  ghost predicate OpenDoc(w: World, h: nat)
    requires h in w.handlers
  {
    w.handlers[h].doc in w.t.docs && !Closed(w.t.docs[w.handlers[h].doc].state)
  }

  /** One handler per document, and its document is open: it stays so until the handler's own final write. */
  ghost predicate OpenInv(w: World) {
    && (forall h | h in w.handlers :: OpenDoc(w, h))
    && (forall g, h | g in w.handlers && h in w.handlers && g != h :: w.handlers[g].doc != w.handlers[h].doc)
  }

  lemma ExtractOpen(env: Env, w: World, a: ExtractAction, w': World)
    requires OpenInv(w) && NextExtract(env, w, a) == Some(w') && H1(w, Extract(a))
    ensures OpenInv(w')
  {
    hide NextExtract, PcAfter, SameVerdict;
    HandlersAfter(env, w, a, w');
    forall h | h in w'.handlers ensures OpenDoc(w', h) {
      assert h in w.handlers ==> OpenDoc(w, h);
      ExtractVerdict(env, w, a, w', w'.handlers[h].doc);
    }
  }

  lemma OpenStep(env: Env, w: World, a: Action, w': World)
    requires OpenInv(w) && Next(env, w, a) == Some(w') && H1(w, a)
    ensures OpenInv(w')
  {
    hide NextText, NextExtract, NextRecover, NextBroker, SameVerdict, TextMsgs, RecoverMsgs, SameButText,
         SameButRecovery;
    if a.Extract? {
      ExtractOpen(env, w, a.ext, w');
    } else {
      OnlyExtract(env, w, a, w');
      forall h | h in w'.handlers ensures OpenDoc(w', h) {
        assert OpenDoc(w, h);
        OthersVerdict(env, w, a, w', w.handlers[h].doc);
      }
    }
  }

  lemma {:induction false} OpenRun(env: Env, ws: seq<World>, acts: seq<Action>, n: nat)
    requires IsRun(env, ws, acts) && Under1(ws, acts) && n < |ws|
    ensures OpenInv(ws[n])
  {
    hide Next, OpenInv, H1;
    if n > 0 {
      OpenRun(env, ws, acts, n - 1);
      OpenStep(env, ws[n - 1], acts[n - 1], ws[n]);
    } else {
      NobodyActive(ws[0]);
    }
  }

  lemma NobodyActive(w: World)
    requires w.handlers == map[]
    ensures OpenInv(w)
  {
  }

  /** A complete document keeps its state and its verdict; only an override can still be stamped on it. */
  predicate Kept(a: Doc, b: Doc) {
    b.state == Complete && a.result == b.result && a.vendor == b.vendor && a.invoiceNo == b.invoiceNo &&
        a.docType == b.docType &&
    (b.gates == a.gates || b.gates.override.Some?)
  }

  lemma CompleteKept(env: Env, w: World, a: Action, w': World, d: DocId)
    requires OpenInv(w) && Next(env, w, a) == Some(w') && d in w.t.docs && w.t.docs[d].state == Complete
    ensures d in w'.t.docs && Kept(w.t.docs[d], w'.t.docs[d])
  {
    hide NextText, NextExtract, NextRecover, NextBroker, PcAfter;
    if a.Extract? {
      ExtractVerdict(env, w, a.ext, w', d);
      if Ends(env, w, a.ext, d) { assert OpenDoc(w, a.ext.h); }
    } else {
      OthersVerdict(env, w, a, w', d);
    }
  }

  // ---- The theorem ----

  /** Complete is absorbing: under H1 no interleaving of handlers, sweeps, shard workers and operators moves a
      document out of complete, nor changes what was extracted. */
  lemma {:induction false} CompleteIsAbsorbing(env: Env, ws: seq<World>, acts: seq<Action>, m: nat, n: nat, d: DocId)
    requires IsRun(env, ws, acts) && Under1(ws, acts) && m <= n < |ws|
    requires d in ws[m].t.docs && ws[m].t.docs[d].state == Complete
    ensures d in ws[n].t.docs && Kept(ws[m].t.docs[d], ws[n].t.docs[d])
    decreases n - m
  {
    hide Next, Under1;
    if m < n {
      CompleteIsAbsorbing(env, ws, acts, m, n - 1, d);
      OpenRun(env, ws, acts, n - 1);
      CompleteKept(env, ws[n - 1], acts[n - 1], ws[n], d);
    }
  }

  /** The invariant behind it: until its own final write, an active handler's document is neither in review nor
      complete. */
  lemma HandlerDocumentOpen(env: Env, ws: seq<World>, acts: seq<Action>, n: nat, h: nat)
    requires IsRun(env, ws, acts) && Under1(ws, acts) && n < |ws| && h in ws[n].handlers
    ensures ws[n].handlers[h].doc in ws[n].t.docs
    ensures ws[n].t.docs[ws[n].handlers[h].doc].state !in {Review, Complete}
  {
    hide Next, Under1;
    OpenRun(env, ws, acts, n);
    assert OpenDoc(ws[n], h);
  }
}

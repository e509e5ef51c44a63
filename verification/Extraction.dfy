/** The extraction handler as written, one method over database and object store, against the steps of the protocol. */
module Extraction {
  import opened Types
  import opened Pages
  import opened Ledger
  import opened Database
  import opened Protocol
  import opened Frames
  import Funnel

  ghost function Then(w: Option<World>, step: World -> Option<World>): Option<World> {
    match w
    case None => None
    case Some(v) => step(v)
  }

  predicate IsRouting(w: World, h: nat) {
    h in w.handlers && w.handlers[h].pc.Routing?
  }

  /** Handler h from taking message i to the artifact. */
  ghost function Prepared(w: World, h: nat, i: nat): Option<World> {
    Then(Then(DoStart(w, h, i), v => DoLoad(v, h)), v => DoAssemble(v, h))
  }

  /** ... from the artifact to the funnel's verdict, unless the artifact was not fit. */
  ghost function Judged(env: Env, w: World, h: nat, script: Funnel.Script): Option<World> {
    if IsRouting(w, h) then Some(w) else Then(DoAttempt(w, h), v => DoFunnel(env, v, h, script))
  }

  /** ... from the verdict to the end. */
  ghost function Concluded(w: World, h: nat, autoPost: bool): Option<World> {
    var w' := if IsRouting(w, h) then Some(w) else DoFinish(w, h, autoPost);
    Then(w', v => if IsRouting(v, h) then DoReroute(v, h) else Some(v))
  }

  /** The handler's steps one after the other, undisturbed; None when the first transition is refused. */
  ghost function Undisturbed(env: Env, w: World, h: nat, i: nat, script: Funnel.Script, autoPost: bool): Option<World> {
    Then(Then(Prepared(w, h, i), v => Judged(env, v, h, script)), v => Concluded(v, h, autoPost))
  }

  /** Database and store hold what the world says. */
  ghost predicate Mirrors(db: Database, store: ObjectStore, w: World)
    reads db, store
  {
    db.Valid() && db.View() == w.t && store.outs == w.outs && store.asm == w.assembled
  }

  // ---- The three parts, step by step ----

  const UNFIT := Routing(EMPTY_REPORT.(completeness := Some(Fail)))

  ghost function AfterPrepare(w: World, h: nat, d: DocId, t: Tables): World
    requires d in t.docs
  {
    var row := t.docs[d];
    var r := EnsureAssembledSpec(w.outs, w.assembled, d, row.shardsTotal);
    w.(t := t,
       assembled := if r.Some? then w.assembled[d := r.value] else w.assembled,
       handlers := w.handlers[h := Handler(d, if r.Some? then Checked(row, r.value) else UNFIT)])
  }

  lemma PreparedIs(w: World, h: nat, i: nat)
    requires h !in w.handlers && Delivered(w, i, OcrCompleted)
    ensures var t := Transition(w.t, w.t.sent[i].doc, ExtractRunning, {ExtractPending}, w.now);
      Prepared(w, h, i) == if t.None? then None else Some(AfterPrepare(w, h, w.t.sent[i].doc, t.value))
  {
    hide EnsureAssembledSpec, Checked;
    var t := Transition(w.t, w.t.sent[i].doc, ExtractRunning, {ExtractPending}, w.now);
    if t.Some? {
      var d := w.t.sent[i].doc;
      var w1 := w.(t := t.value, handlers := w.handlers[h := Handler(d, Started)]);
      assert DoStart(w, h, i) == Some(w1);
      hide DoStart, DoLoad, DoAssemble;
      LoadedIs(w1, h);
      var w2 := DoLoad(w1, h).value;
      AssembledIs(w2, h);
      assert DoAssemble(w2, h).value.handlers == AfterPrepare(w, h, d, t.value).handlers;
    }
  }

  lemma LoadedIs(w: World, h: nat)
    requires h in w.handlers && w.handlers[h].pc.Started? && w.handlers[h].doc in w.t.docs
    ensures var d := w.handlers[h].doc;
      DoLoad(w, h) == Some(w.(handlers := w.handlers[h := Handler(d, Loaded(w.t.docs[d]))]))
  {
  }

  lemma AssembledIs(w: World, h: nat)
    requires h in w.handlers && w.handlers[h].pc.Loaded?
    ensures var x := w.handlers[h];
      var r := EnsureAssembledSpec(w.outs, w.assembled, x.doc, x.pc.row.shardsTotal);
      DoAssemble(w, h) ==
        Some(w.(assembled := if r.Some? then w.assembled[x.doc := r.value] else w.assembled,
                handlers := w.handlers[h := Handler(x.doc, if r.Some? then Checked(x.pc.row, r.value) else UNFIT)]))
  {
    hide EnsureAssembledSpec, Checked;
  }

  /** The funnel of handler h, on the tables its counted attempt left. */
  ghost function VerdictOf(w: World, d: DocId, row: Doc, pages: seq<Page>, script: Funnel.Script): Funnel.FunnelResult {
    Funnel.FunnelSpec(CountAttempt(w.t, d).docs, d, row.docType, SourceText(pages), script)
  }

  lemma JudgedIs(env: Env, w: World, h: nat, script: Funnel.Script)
    requires h in w.handlers && w.handlers[h].pc.Assembled? && Funnel.Ready(script, env.cfg.maxRepair)
    ensures var x := w.handlers[h];
      var r := VerdictOf(w, x.doc, x.pc.row, x.pc.pages, script);
      Judged(env, w, h, script) ==
        Some(w.(t := CountRepairs(CountAttempt(w.t, x.doc), x.doc, r.repairs),
                handlers := w.handlers[h := Handler(x.doc, Decided(x.pc.row, x.pc.pages, r.fields, r.report))],
                asked := w.asked + Asks(x.doc, Cheap, script.cheap, r.cheapCalls) +
                         Asks(x.doc, Strong, script.strong, r.strongCalls)))
  {
    hide Funnel.FunnelSpec, SourceText, Asks, CountRepairs, CountAttempt;
    var x := w.handlers[h];
    var r := VerdictOf(w, x.doc, x.pc.row, x.pc.pages, script);
    var w1 := w.(t := CountAttempt(w.t, x.doc),
                 handlers := w.handlers[h := Handler(x.doc, Attempted(x.pc.row, x.pc.pages))]);
    assert DoAttempt(w, h) == Some(w1);
    assert FunnelOf(w1, h, script) == r;
    var w2 := DoFunnel(env, w1, h, script).value;
    assert w2.handlers == w.handlers[h := Handler(x.doc, Decided(x.pc.row, x.pc.pages, r.fields, r.report))];
  }

  /** The verdict is what the funnel makes of the artifact's text. */
  lemma VerdictIs(env: Env, w: World, h: nat, i: nat, script: Funnel.Script)
    requires Prepared(w, h, i).Some? && h in Prepared(w, h, i).value.handlers
    requires Prepared(w, h, i).value.handlers[h].pc.Assembled? && Funnel.Ready(script, env.cfg.maxRepair)
    ensures var v := Prepared(w, h, i).value;
      var x := v.handlers[h];
      var docs, text := CountAttempt(v.t, x.doc).docs, SourceText(x.pc.pages);
      var r := Funnel.FunnelSpec(docs, x.doc, x.pc.row.docType, text, script);
      FunnelVerdict(env, w, h, i, script) == (r.fields, r.report)
  {
    hide Funnel.FunnelSpec, SourceText, CountAttempt, CountRepairs, Asks, Judged, Prepared;
    JudgedIs(env, Prepared(w, h, i).value, h, script);
  }

  lemma CountsUnjudged(t: Tables, d: DocId, n: nat)
    requires d in t.docs
    ensures Unjudged(t, CountRepairs(CountAttempt(t, d), d, n), d)
    ensures CountRepairs(CountAttempt(t, d), d, n).docs[d] ==
            t.docs[d].(extractAttempts := t.docs[d].extractAttempts + 1, repairAttempts := n)
  {
  }

  ghost function AfterClose(w: World, h: nat, t: Option<Tables>): World
    requires h in w.handlers && w.handlers[h].pc.Decided?
  {
    var x := w.handlers[h];
    var routed := RouteWithoutWriting(w.t, x.doc, x.pc.report.(dedupe := Some(Fail)), Review, w.now);
    w.(t := if t.Some? then t.value else routed,
       handlers := w.handlers - {h})
  }

  lemma ConcludedIs(w: World, h: nat, autoPost: bool)
    requires h in w.handlers && w.handlers[h].pc.Decided?
    ensures Concluded(w, h, autoPost) ==
              Some(AfterClose(w, h, FinishTx(w.t, w.handlers[h].doc, w.handlers[h].pc.fields, w.handlers[h].pc.report,
                  autoPost, w.now)))
  {
    hide FinishTx, RouteWithoutWriting;
    var t := FinishTx(w.t, w.handlers[h].doc, w.handlers[h].pc.fields, w.handlers[h].pc.report, autoPost, w.now);
    if t.None? {
      var w1 := DoFinish(w, h, autoPost).value;
      assert w1.handlers - {h} == w.handlers - {h};
    }
  }

  // ---- How a message ends ----

  datatype HandlerEnd = Stale | Rejected | Exhausted | KillSwitch | Duplicate | Discarded | Completed

  /** The end of a handler that has its verdict, from the tables it finds. */
  ghost function EndOf(w: World, h: nat, autoPost: bool): HandlerEnd
    requires h in w.handlers && w.handlers[h].pc.Decided?
  {
    var x := w.handlers[h];
    match x.pc.fields
    case None => Exhausted
    case Some(f) =>
      if !autoPost then KillSwitch
      else if Violates(w.t.docs, x.doc, f.seller, f.invoiceNo) then Duplicate
      else if x.doc in w.t.docs && w.t.docs[x.doc].result.None? then Completed
      else Discarded
  }

  /** The end of the whole message. */
  ghost function Ending(env: Env, w: World, h: nat, i: nat, script: Funnel.Script, autoPost: bool): HandlerEnd {
    match Prepared(w, h, i)
    case None => Stale
    case Some(v) =>
      if IsRouting(v, h) then Rejected
      else
        match Judged(env, v, h, script)
        case None => Stale
        case Some(u) => if h in u.handlers && u.handlers[h].pc.Decided? then EndOf(u, h, autoPost) else Stale
  }

  /** The verdict a message's funnel reaches. */
  ghost function FunnelVerdict(env: Env, w: World, h: nat, i: nat, script: Funnel.Script): (Option<Fields>, Report) {
    match Prepared(w, h, i)
    case None => (None, EMPTY_REPORT)
    case Some(v) =>
      match Judged(env, v, h, script)
      case None => (None, EMPTY_REPORT)
      case Some(u) =>
        if h in u.handlers && u.handlers[h].pc.Decided? then (u.handlers[h].pc.fields, u.handlers[h].pc.report)
        else (None, EMPTY_REPORT)
  }

  /** What an end says of the tables t' it leaves, against the tables t it found and the verdict it came with. */
  ghost predicate EndMeans(end: HandlerEnd, t: Tables, t': Tables, d: DocId, fields: Option<Fields>, report: Report) {
    d in t.docs && d in t'.docs &&
    var doc, doc' := t.docs[d], t'.docs[d];
    match end
    case Stale => t' == t
    case Rejected =>
      doc'.state == Review && doc'.gates == EMPTY_REPORT.(completeness := Some(Fail)) && doc'.result == doc.result &&
      t'.sent == t.sent
    case Exhausted =>
      && fields.None? && t'.sent == t.sent
      && (if doc.result.None? then doc'.state == Review && doc'.result == Some(NoFields) && doc'.gates == report
          else doc'.result == doc.result && doc'.gates == doc.gates)
    case KillSwitch =>
      && fields.Some? && t'.sent == t.sent && doc'.vendor == doc.vendor && doc'.invoiceNo == doc.invoiceNo
      && (if doc.result.None?
          then
            doc'.state == Review && doc'.result == Some(HasFields(fields.value)) &&
            doc'.gates == report.(killSwitch := Some(Fail))
          else doc'.result == doc.result && doc'.gates == doc.gates)
    case Duplicate =>
      doc'.state == Review && doc'.gates == report.(dedupe := Some(Fail)) && doc'.result == doc.result &&
      t'.sent == t.sent
    case Discarded =>
      && fields.Some? && doc.result.Some? && doc'.result == doc.result && doc'.gates == doc.gates && t'.sent == t.sent
      && doc'.vendor == fields.value.seller && doc'.invoiceNo == fields.value.invoiceNo
    case Completed =>
      && fields.Some? && doc.result.None? && doc'.state == Complete && doc'.result == Some(HasFields(fields.value))
      && doc'.gates == report && doc'.vendor == fields.value.seller && doc'.invoiceNo == fields.value.invoiceNo
      && t'.sent == t.sent + [Msg(d, DocumentExtracted, AutoPost(fields.value, report), Commit)]
  }

  lemma FinishMeans(t: Tables, d: DocId, fields: Option<Fields>, report: Report, autoPost: bool, now: Time, t': Tables)
    requires d in t.docs && FinishTx(t, d, fields, report, autoPost, now) == Some(t')
    ensures d in t'.docs
    ensures fields.None? ==> EndMeans(Exhausted, t, t', d, fields, report)
    ensures fields.Some? && !autoPost ==> EndMeans(KillSwitch, t, t', d, fields, report)
    ensures fields.Some? && autoPost ==>
              EndMeans(if t.docs[d].result.None? then Completed else Discarded, t, t', d, fields, report)
  {
    hide Violates;
  }

  /** The closing step leaves what its end says, and what it says tells the ends apart from the tables. */
  lemma ConcludedMeans(w: World, h: nat, autoPost: bool)
    requires h in w.handlers && w.handlers[h].pc.Decided? && w.handlers[h].doc in w.t.docs
    ensures Concluded(w, h, autoPost).Some?
    ensures EndMeans(EndOf(w, h, autoPost), w.t, Concluded(w, h, autoPost).value.t, w.handlers[h].doc,
              w.handlers[h].pc.fields, w.handlers[h].pc.report)
  {
    hide FinishTx, Violates, Concluded, EndMeans;
    ConcludedIs(w, h, autoPost);
    var x := w.handlers[h];
    FinishOrClash(w.t, x.doc, x.pc.fields, x.pc.report, autoPost, w.now);
    var t := FinishTx(w.t, x.doc, x.pc.fields, x.pc.report, autoPost, w.now);
    if t.Some? {
      FinishMeans(w.t, x.doc, x.pc.fields, x.pc.report, autoPost, w.now, t.value);
    } else {
      RouteMeans(w.t, x.doc, x.pc.fields, x.pc.report, w.now);
    }
  }

  lemma RouteMeans(t: Tables, d: DocId, fields: Option<Fields>, report: Report, now: Time)
    requires d in t.docs
    ensures EndMeans(Duplicate, t, RouteWithoutWriting(t, d, report.(dedupe := Some(Fail)), Review, now), d, fields,
              report)
    ensures EndMeans(Rejected, t, RouteWithoutWriting(t, d, EMPTY_REPORT.(completeness := Some(Fail)), Review, now), d,
              fields, report)
  {
  }

  /** Nothing an end speaks of has changed yet. */
  ghost predicate Unjudged(t: Tables, t': Tables, d: DocId) {
    && d in t.docs && d in t'.docs && t'.sent == t.sent
    && t'.docs[d].result == t.docs[d].result && t'.docs[d].gates == t.docs[d].gates
    && t'.docs[d].vendor == t.docs[d].vendor && t'.docs[d].invoiceNo == t.docs[d].invoiceNo
  }

  lemma MeansFrom(end: HandlerEnd, t0: Tables, t: Tables, t': Tables, d: DocId, fields: Option<Fields>, report: Report)
    requires Unjudged(t0, t, d) && EndMeans(end, t, t', d, fields, report) && !end.Stale?
    ensures EndMeans(end, t0, t', d, fields, report)
  {
  }

  lemma UnjudgedOn(t0: Tables, t: Tables, t': Tables, d: DocId)
    requires Unjudged(t0, t, d) && Unjudged(t, t', d)
    ensures Unjudged(t0, t', d)
  {
  }

  lemma EndsApart(w: World, h: nat, autoPost: bool)
    requires h in w.handlers && w.handlers[h].pc.Decided?
    ensures EndOf(w, h, autoPost) != Stale && EndOf(w, h, autoPost) != Rejected
  {
    hide Violates;
  }

  // ---- The methods ----

  datatype Prep = Refused | Unfit | Ready(row: Doc, pages: seq<Page>)

  /** Take the message, read the row, and have a complete artifact. */
  method Prepare(db: Database, store: ObjectStore, d: DocId, now: Time, ghost w: World, ghost h: nat,
      ghost i: nat) returns (prep: Prep)
    requires Mirrors(db, store, w) && w.now == now && h !in w.handlers && Delivered(w, i, OcrCompleted) &&
             w.t.sent[i].doc == d
    modifies db`docs, store`asm
    ensures prep.Refused? <==> Prepared(w, h, i).None?
    ensures prep.Refused? ==> Mirrors(db, store, w)
    ensures !prep.Refused? ==> Mirrors(db, store, Prepared(w, h, i).value) && Prepared(w, h, i).value.now == now
    ensures !prep.Refused? ==> Unjudged(old(db.View()), db.View(), d)
    ensures prep.Unfit? ==>
              Prepared(w, h, i).value.handlers ==
              w.handlers[h := Handler(d, Routing(EMPTY_REPORT.(completeness := Some(Fail))))]
    ensures prep.Ready? ==>
              Prepared(w, h, i).value.handlers == w.handlers[h := Handler(d, Assembled(prep.row, prep.pages))]
  {
    PreparedIs(w, h, i);
    hide EnsureAssembledSpec, PageNumbers, Prepared;
    var ok := db.Transition(d, ExtractRunning, {ExtractPending}, now);
    if !ok {
      return Refused;
    }
    var row := db.docs[d];
    var assembled := store.EnsureAssembled(d, row.shardsTotal);
    if assembled.None? {
      return Unfit;
    }
    var pages := assembled.value;
    if row.pageCount.None? || Completeness(PageNumbers(pages), row.pageCount.value) != Pass {
      return Unfit;
    }
    prep := Ready(row, pages);
  }

  /** The attempt is counted, then the funnel runs. */
  method Judge(db: Database, store: ObjectStore, env: Env, d: DocId, row: Doc, pages: seq<Page>, script: Funnel.Script,
      ghost w: World, ghost h: nat)
    returns (fields: Option<Fields>, report: Report)
    requires Mirrors(db, store, w) && h in w.handlers && w.handlers[h] == Handler(d, Assembled(row, pages))
    requires Funnel.Ready(script, env.cfg.maxRepair)
    modifies db`docs
    ensures d in old(db.docs) ==> Unjudged(old(db.View()), db.View(), d)
    ensures fields == VerdictOf(w, d, row, pages, script).fields && report == VerdictOf(w, d, row, pages, script).report
    ensures d in old(db.docs) ==>
              d in db.docs &&
              db.docs[d] == old(db.docs[d]).(extractAttempts := old(db.docs[d]).extractAttempts + 1,
                                             repairAttempts := VerdictOf(w, d, row, pages, script).repairs)
    ensures Judged(env, w, h, script).Some? && Mirrors(db, store, Judged(env, w, h, script).value) &&
              Judged(env, w, h, script).value.now == w.now
    ensures Judged(env, w, h, script).value.handlers == w.handlers[h := Handler(d, Decided(row, pages, fields, report))]
  {
    JudgedIs(env, w, h, script);
    hide Funnel.FunnelSpec, SourceText, Asks, Judged, CountRepairs, CountAttempt, Unjudged;
    ghost var t := db.View();
    db.CountAttempt(d);
    var repairs, cheapCalls, strongCalls;
    fields, report, repairs, cheapCalls, strongCalls :=
      Funnel.RunFunnel(db.docs, d, row.docType, SourceText(pages), env.cfg.maxRepair, script);
    db.CountRepairs(d, repairs);
    if d in t.docs { CountsUnjudged(t, d, repairs); }
  }

  /** Commit or park; a refused commit is rerouted to review in a transaction of its own. */
  method Close(db: Database, store: ObjectStore, d: DocId, fields: Option<Fields>, report: Report, autoPost: bool,
      now: Time, ghost w: World, ghost h: nat)
    returns (end: HandlerEnd)
    requires Mirrors(db, store, w) && w.now == now && h in w.handlers && w.handlers[h].doc == d
    requires w.handlers[h].pc.Decided? && w.handlers[h].pc.fields == fields && w.handlers[h].pc.report == report
    modifies db
    ensures Concluded(w, h, autoPost).Some? && Mirrors(db, store, Concluded(w, h, autoPost).value)
    ensures Concluded(w, h, autoPost).value.handlers == w.handlers - {h}
    ensures end == EndOf(w, h, autoPost)
    ensures d in old(db.docs) ==> EndMeans(end, old(db.View()), db.View(), d, fields, report)
  {
    ConcludedIs(w, h, autoPost);
    if d in db.docs { ConcludedMeans(w, h, autoPost); }
    hide CommitExtraction, Violates, SetBusinessKey, Concluded;
    if fields.None? {
      var won := db.CommitExtractionResult(d, NoFields, report, Review, None, now);
      return Exhausted;
    }
    if !autoPost {
      var won := db.CommitExtractionResult(d, HasFields(fields.value), report.(killSwitch := Some(Fail)), Review, None,
          now);
      return KillSwitch;
    }
    var violation, won := db.CommitComplete(d, fields.value, report, now);
    if violation {
      db.RouteWithoutWriting(d, report.(dedupe := Some(Fail)), Review, now);
      return Duplicate;
    }
    end := if won then Completed else Discarded;
  }

  /** handle_ocr_completed: all of it is a sequence of protocol steps of one handler, none left out and none added. */
  method HandleOcrCompleted(db: Database, store: ObjectStore, env: Env, d: DocId, script: Funnel.Script, autoPost: bool,
      now: Time, ghost w: World, ghost h: nat, ghost i: nat)
    returns (end: HandlerEnd)
    requires Mirrors(db, store, w) && w.now == now && h !in w.handlers && Delivered(w, i, OcrCompleted) &&
             w.t.sent[i].doc == d
    requires Funnel.Ready(script, env.cfg.maxRepair)
    modifies db, store`asm
    ensures end.Stale? <==> Undisturbed(env, w, h, i, script, autoPost).None?
    ensures end == Ending(env, w, h, i, script, autoPost)
    ensures end.Stale? ==> Mirrors(db, store, w)
    ensures !end.Stale? ==>
              EndMeans(end, old(db.View()), db.View(), d, FunnelVerdict(env, w, h, i, script).0,
                FunnelVerdict(env, w, h, i, script).1)
    ensures !end.Stale? ==>
              Mirrors(db, store, Undisturbed(env, w, h, i, script, autoPost).value) &&
              Undisturbed(env, w, h, i, script, autoPost).value.handlers == w.handlers
  {
    hide Prepared, DoAttempt, DoFunnel, DoFinish, DoReroute, Mirrors, EndOf, EndMeans, Unjudged, Concluded;
    assert w.handlers == w.handlers - {h};
    ghost var t0 := db.View();
    var prep := Prepare(db, store, d, now, w, h, i);
    if prep.Refused? {
      return Stale;
    }
    ghost var w1, t1 := Prepared(w, h, i).value, db.View();
    Present(t0, t1, d);
    if prep.Unfit? {
      end := Reroute(db, store, d, EMPTY_REPORT.(completeness := Some(Fail)), now, w1, h, autoPost);
      RouteMeans(t1, d, FunnelVerdict(env, w, h, i, script).0, FunnelVerdict(env, w, h, i, script).1, now);
      ghost var v := FunnelVerdict(env, w, h, i, script);
      MeansFrom(end, t0, t1, db.View(), d, v.0, v.1);
      assert w1.handlers - {h} == w.handlers;
      return;
    }
    var fields, report := Judge(db, store, env, d, prep.row, prep.pages, script, w1, h);
    ghost var w2, t2 := Judged(env, w1, h, script).value, db.View();
    UnjudgedOn(t0, t1, t2, d);
    Present(t0, t2, d);
    end := Close(db, store, d, fields, report, autoPost, now, w2, h);
    EndsApart(w2, h, autoPost);
    MeansFrom(end, t0, t2, db.View(), d, fields, report);
    assert w2.handlers - {h} == w.handlers;
  }

  lemma Present(t: Tables, t': Tables, d: DocId)
    requires Unjudged(t, t', d)
    ensures d in t.docs && d in t'.docs
  {
  }

  method Reroute(db: Database, store: ObjectStore, d: DocId, report: Report, now: Time, ghost w: World, ghost h: nat,
      ghost autoPost: bool)
    returns (end: HandlerEnd)
    requires Mirrors(db, store, w) && w.now == now && h in w.handlers && w.handlers[h] == Handler(d, Routing(report))
    modifies db`docs
    ensures Concluded(w, h, autoPost).Some? && Mirrors(db, store, Concluded(w, h, autoPost).value)
    ensures Concluded(w, h, autoPost).value.handlers == w.handlers - {h}
    ensures end == Rejected
    ensures d in old(db.docs) ==> db.View() == RouteWithoutWriting(old(db.View()), d, report, Review, now)
  {
    db.RouteWithoutWriting(d, report, Review, now);
    end := Rejected;
  }
}

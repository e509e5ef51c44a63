/** What each group of actors can touch, and which messages a step enqueues. */
module Frames {
  import opened Types
  import opened Pages
  import opened Ledger
  import opened Sweeper
  import opened Stages
  import opened Outbox
  import opened Protocol

  // ---- Extraction handlers ----

  /** The columns only extraction handlers and the operator write. */
  predicate SameButVerdict(a: Doc, b: Doc) {
    && b == a.(state := b.state, updatedAt := b.updatedAt, extractAttempts := b.extractAttempts,
        repairAttempts := b.repairAttempts,
               result := b.result, gates := b.gates, vendor := b.vendor, invoiceNo := b.invoiceNo)
    && (IsText(b.state) ==> b.state == a.state)
  }

  function RowOf(pc: Pc): Option<Doc> {
    if pc.Started? || pc.Routing? then None else Some(pc.row)
  }

  /** A handler keeps its document, and the row it works from is one it has just read or had before. */
  ghost predicate HandlerFrame(w: World, w': World, d: DocId, h: nat)
    requires h in w'.handlers
  {
    var x' := w'.handlers[h];
    && ((h in w.handlers && x'.doc == w.handlers[h].doc) || (x'.doc == d && d in w.t.docs))
    && (RowOf(x'.pc).None? || (h in w.handlers && x'.doc == w.handlers[h].doc &&
        RowOf(x'.pc) == RowOf(w.handlers[h].pc)) ||
        (x'.doc in w.t.docs && RowOf(x'.pc) == Some(w.t.docs[x'.doc])))
  }

  ghost predicate VerdictTables(t: Tables, t': Tables, d: DocId) {
    && Outboxed(t, t')
    && t' == t.(docs := t'.docs, sent := t'.sent, pending := t'.pending)
    && t'.docs.Keys == t.docs.Keys
    && (forall e | e in t.docs && e != d :: t'.docs[e] == t.docs[e])
    && (d in t.docs ==> SameButVerdict(t.docs[d], t'.docs[d]))
  }

  ghost predicate ExtractFrame(w: World, w': World, d: DocId) {
    && w' == w.(t := w'.t, assembled := w'.assembled, handlers := w'.handlers, asked := w'.asked)
    && VerdictTables(w.t, w'.t, d)
    && w.asked <= w'.asked
    && (forall e | e in w.assembled :: e in w'.assembled && w'.assembled[e] == w.assembled[e])
    && (forall e | e in w'.assembled :: e in w.assembled || e == d)
    && (forall h | h in w'.handlers :: HandlerFrame(w, w', d, h))
  }

  /** The document a handler step is about. */
  ghost function ExtractDoc(w: World, a: ExtractAction): DocId {
    match a
    case Start(h, i) => if i < |w.t.sent| then w.t.sent[i].doc else 0
    case _ => if a.h in w.handlers then w.handlers[a.h].doc else 0
  }

  ghost function FinishTxMsgs(t: Tables, d: DocId, fields: Option<Fields>, report: Report, autoPost: bool): seq<Msg> {
    if fields.Some? && autoPost && d in t.docs && t.docs[d].result.None? &&
        !Violates(t.docs, d, fields.value.seller, fields.value.invoiceNo)
    then [Msg(d, DocumentExtracted, AutoPost(fields.value, report), Commit)] else []
  }

  ghost function ExtractMsgs(w: World, a: ExtractAction): seq<Msg> {
    if a.Finish? && a.h in w.handlers && w.handlers[a.h].pc.Decided?
    then FinishTxMsgs(w.t, w.handlers[a.h].doc, w.handlers[a.h].pc.fields, w.handlers[a.h].pc.report, a.autoPost)
    else []
  }

  lemma CommitTables(t: Tables, d: DocId, result: Extraction, gates: Report, final: DocState, payload: Option<Payload>,
      now: Time)
    requires !IsText(final)
    ensures var t' := CommitExtraction(t, d, result, gates, final, payload, now).0;
      && VerdictTables(t, t', d)
      && t'.sent == t.sent + (if d in t.docs && t.docs[d].result.None? &&
          payload.Some? then [Msg(d, DocumentExtracted, payload.value, Commit)] else [])
  {
  }

  lemma FinishTables(t: Tables, d: DocId, fields: Option<Fields>, report: Report, autoPost: bool, now: Time, t': Tables)
    requires FinishTx(t, d, fields, report, autoPost, now) == Some(t')
    ensures VerdictTables(t, t', d) && t'.sent == t.sent + FinishTxMsgs(t, d, fields, report, autoPost)
  {
    if fields.None? {
      CommitTables(t, d, NoFields, report, Review, None, now);
    } else if !autoPost {
      CommitTables(t, d, HasFields(fields.value), report.(killSwitch := Some(Fail)), Review, None, now);
    } else {
      var f := fields.value;
      CommitTables(SetBusinessKey(t, d, f.seller, f.invoiceNo), d, HasFields(f), report, Complete,
          Some(AutoPost(f, report)), now);
    }
  }

  /** A step that only moves handler h on, with tables and artifacts already accounted for. */
  lemma MovesHandler(w: World, w': World, h: nat, pc: Pc)
    requires h in w.handlers
    requires w' == w.(t := w'.t, assembled := w'.assembled, handlers := w.handlers[h := Handler(w.handlers[h].doc, pc)])
    requires VerdictTables(w.t, w'.t, w.handlers[h].doc)
    requires RowOf(pc).None? || RowOf(pc) == RowOf(w.handlers[h].pc)
    requires forall e | e in w.assembled :: e in w'.assembled && w'.assembled[e] == w.assembled[e]
    requires forall e | e in w'.assembled :: e in w.assembled || e == w.handlers[h].doc
    ensures ExtractFrame(w, w', w.handlers[h].doc)
  {
    hide VerdictTables, RowOf;
    var d := w.handlers[h].doc;
    forall g | g in w'.handlers ensures HandlerFrame(w, w', d, g) {
    }
  }

  /** A step that ends handler h. */
  lemma EndsHandler(w: World, w': World, h: nat)
    requires h in w.handlers
    requires w' == w.(t := w'.t, handlers := w.handlers - {h})
    requires VerdictTables(w.t, w'.t, w.handlers[h].doc)
    ensures ExtractFrame(w, w', w.handlers[h].doc)
  {
    hide VerdictTables, RowOf;
    var d := w.handlers[h].doc;
    forall g | g in w'.handlers ensures HandlerFrame(w, w', d, g) {
    }
  }

  lemma FinishSteps(w: World, h: nat, autoPost: bool, w': World)
    requires DoFinish(w, h, autoPost) == Some(w')
    ensures ExtractFrame(w, w', w.handlers[h].doc)
    ensures w'.t.sent == w.t.sent + ExtractMsgs(w, Finish(h, autoPost))
    ensures w'.assembled == w.assembled
  {
    hide FinishTx, Violates, VerdictTables, ExtractFrame, FinishTxMsgs;
    var pc := w.handlers[h].pc;
    var r := FinishTx(w.t, w.handlers[h].doc, pc.fields, pc.report, autoPost, w.now);
    if r.Some? {
      FinishTables(w.t, w.handlers[h].doc, pc.fields, pc.report, autoPost, w.now, r.value);
      EndsHandler(w, w', h);
    } else {
      FinishClash(w.t, w.handlers[h].doc, pc.fields, pc.report, autoPost, w.now);
      SameTables(w.t, w.handlers[h].doc);
      MovesHandler(w, w', h, Routing(pc.report.(dedupe := Some(Fail))));
    }
  }

  lemma SameTables(t: Tables, d: DocId)
    ensures VerdictTables(t, t, d)
  {
  }

  lemma FinishClash(t: Tables, d: DocId, fields: Option<Fields>, report: Report, autoPost: bool, now: Time)
    requires FinishTx(t, d, fields, report, autoPost, now).None?
    ensures FinishTxMsgs(t, d, fields, report, autoPost) == []
    ensures fields.Some? && autoPost && Violates(t.docs, d, fields.value.seller, fields.value.invoiceNo)
  {
  }

  lemma StartSteps(w: World, h: nat, i: nat, w': World)
    requires DoStart(w, h, i) == Some(w')
    ensures ExtractFrame(w, w', w.t.sent[i].doc) && w'.t.sent == w.t.sent
    ensures w'.assembled == w.assembled
  {
  }

  lemma KeepsArtifacts(asm: map<DocId, seq<Page>>, d: DocId, pages: seq<Page>)
    requires d in asm ==> asm[d] == pages
    ensures forall e | e in asm :: e in asm[d := pages] && asm[d := pages][e] == asm[e]
    ensures forall e | e in asm[d := pages] :: e in asm || e == d
  {
  }

  lemma ReadsBack(outs: map<(DocId, nat), seq<Page>>, asm: map<DocId, seq<Page>>, d: DocId, total: nat)
    requires d in asm
    ensures EnsureAssembledSpec(outs, asm, d, total) == Some(asm[d])
  {
  }

  lemma CheckedRow(row: Doc, pages: seq<Page>)
    ensures RowOf(Checked(row, pages)).None? || RowOf(Checked(row, pages)) == Some(row)
  {
  }

  lemma AssembleSteps(w: World, h: nat, w': World)
    requires DoAssemble(w, h) == Some(w')
    ensures ExtractFrame(w, w', w.handlers[h].doc) && w'.t == w.t
  {
    hide Checked, EnsureAssembledSpec, VerdictTables, ExtractFrame;
    var d := w.handlers[h].doc;
    SameTables(w.t, d);
    var r := EnsureAssembledSpec(w.outs, w.assembled, d, w.handlers[h].pc.row.shardsTotal);
    if r.Some? {
      CheckedRow(w.handlers[h].pc.row, r.value);
      if d in w.assembled { ReadsBack(w.outs, w.assembled, d, w.handlers[h].pc.row.shardsTotal); }
      KeepsArtifacts(w.assembled, d, r.value);
      MovesHandler(w, w', h, Checked(w.handlers[h].pc.row, r.value));
    } else {
      MovesHandler(w, w', h, Routing(EMPTY_REPORT.(completeness := Some(Fail))));
    }
  }

  lemma LoadSteps(w: World, h: nat, w': World)
    requires DoLoad(w, h) == Some(w') || DoCrash(w, h) == Some(w')
    ensures ExtractFrame(w, w', w.handlers[h].doc) && w'.t == w.t
    ensures w'.assembled == w.assembled
  {
  }

  lemma AttemptSteps(w: World, h: nat, w': World)
    requires DoAttempt(w, h) == Some(w')
    ensures ExtractFrame(w, w', w.handlers[h].doc) && w'.t.sent == w.t.sent
    ensures w'.assembled == w.assembled
  {
  }

  lemma FunnelSteps(env: Env, w: World, h: nat, script: Funnel.Script, w': World)
    requires DoFunnel(env, w, h, script) == Some(w')
    ensures ExtractFrame(w, w', w.handlers[h].doc) && w'.t.sent == w.t.sent
    ensures w'.assembled == w.assembled
  {
    hide FunnelOf;
  }

  lemma RerouteSteps(w: World, h: nat, w': World)
    requires DoReroute(w, h) == Some(w')
    ensures ExtractFrame(w, w', w.handlers[h].doc) && w'.t.sent == w.t.sent
    ensures w'.assembled == w.assembled
  {
  }

  lemma ExtractSteps(env: Env, w: World, a: ExtractAction, w': World)
    requires NextExtract(env, w, a) == Some(w')
    ensures ExtractFrame(w, w', ExtractDoc(w, a))
    ensures w'.t.sent == w.t.sent + ExtractMsgs(w, a)
    ensures !a.Assemble? ==> w'.assembled == w.assembled
  {
    hide ExtractFrame, FinishTxMsgs;
    match a
    case Start(h, i) => StartSteps(w, h, i, w');
    case Load(h) => LoadSteps(w, h, w');
    case Assemble(h) => AssembleSteps(w, h, w');
    case Attempt(h) => AttemptSteps(w, h, w');
    case RunFunnel(h, script) => FunnelSteps(env, w, h, script, w');
    case Finish(h, autoPost) => FinishSteps(w, h, autoPost, w');
    case Reroute(h) => RerouteSteps(w, h, w');
    case Crash(h) => LoadSteps(w, h, w');
  }

  // ---- Where a step leaves its handler ----

  ghost function AfterAssemble(w: World, x: Handler): Pc
    requires x.pc.Loaded?
  {
    match EnsureAssembledSpec(w.outs, w.assembled, x.doc, x.pc.row.shardsTotal)
    case None => Routing(EMPTY_REPORT.(completeness := Some(Fail)))
    case Some(pages) => Checked(x.pc.row, pages)
  }

  ghost function AfterFunnel(w: World, h: nat, script: Funnel.Script): Pc
    requires Active(w, h) && w.handlers[h].pc.Attempted?
  {
    var r := FunnelOf(w, h, script);
    Decided(w.handlers[h].pc.row, w.handlers[h].pc.pages, r.fields, r.report)
  }

  ghost predicate Clash(w: World, x: Handler, autoPost: bool)
    requires x.pc.Decided?
  {
    x.pc.fields.Some? && autoPost && Violates(w.t.docs, x.doc, x.pc.fields.value.seller, x.pc.fields.value.invoiceNo)
  }

  /** When a handler step is possible. */
  ghost predicate Enabled(env: Env, w: World, a: ExtractAction) {
    match a
    case Start(h, i) =>
      h !in w.handlers && i < |w.t.sent| && i in w.log && w.t.sent[i].topic == OcrCompleted &&
      w.t.sent[i].doc in w.t.docs && IsExtract(w.t.docs[w.t.sent[i].doc].state)
    case Load(h) => h in w.handlers && w.handlers[h].pc.Started? && w.handlers[h].doc in w.t.docs
    case Assemble(h) => h in w.handlers && w.handlers[h].pc.Loaded?
    case Attempt(h) => h in w.handlers && w.handlers[h].pc.Assembled?
    case RunFunnel(h, script) => h in w.handlers && w.handlers[h].pc.Attempted? &&
        Funnel.Ready(script, env.cfg.maxRepair)
    case Finish(h, autoPost) => h in w.handlers && w.handlers[h].pc.Decided?
    case Reroute(h) => h in w.handlers && w.handlers[h].pc.Routing?
    case Crash(h) => h in w.handlers
  }

  /** The program counter of handler a.h after the step; None when the handler is over. */
  ghost function PcAfter(env: Env, w: World, a: ExtractAction): Option<Pc>
    requires Enabled(env, w, a)
  {
    match a
    case Start(h, i) => Some(Started)
    case Load(h) => Some(Loaded(w.t.docs[w.handlers[h].doc]))
    case Assemble(h) => Some(AfterAssemble(w, w.handlers[h]))
    case Attempt(h) => Some(Attempted(w.handlers[h].pc.row, w.handlers[h].pc.pages))
    case RunFunnel(h, script) => Some(AfterFunnel(w, h, script))
    case Finish(h, autoPost) =>
      if Clash(w, w.handlers[h], autoPost) then Some(Routing(w.handlers[h].pc.report.(dedupe := Some(Fail)))) else None
    case Reroute(h) => None
    case Crash(h) => None
  }

  ghost predicate Moved(env: Env, w: World, a: ExtractAction, w': World) {
    && Enabled(env, w, a)
    && w'.handlers == (if PcAfter(env, w, a).None? then w.handlers - {a.h}
                       else w.handlers[a.h := Handler(ExtractDoc(w, a), PcAfter(env, w, a).value)])
  }

  lemma FinishMoves(env: Env, w: World, h: nat, autoPost: bool, w': World)
    requires DoFinish(w, h, autoPost) == Some(w')
    ensures Moved(env, w, Finish(h, autoPost), w')
  {
    hide FinishTx, Violates;
    var pc := w.handlers[h].pc;
    FinishOrClash(w.t, w.handlers[h].doc, pc.fields, pc.report, autoPost, w.now);
  }

  lemma FinishOrClash(t: Tables, d: DocId, fields: Option<Fields>, report: Report, autoPost: bool, now: Time)
    ensures FinishTx(t, d, fields, report, autoPost, now).None? <==>
              fields.Some? && autoPost && Violates(t.docs, d, fields.value.seller, fields.value.invoiceNo)
  {
    hide CommitExtraction, SetBusinessKey, Violates;
  }

  lemma AssembleMoves(env: Env, w: World, h: nat, w': World)
    requires DoAssemble(w, h) == Some(w')
    ensures Moved(env, w, Assemble(h), w')
  {
    hide EnsureAssembledSpec, Checked;
  }

  lemma FunnelMoves(env: Env, w: World, h: nat, script: Funnel.Script, w': World)
    requires DoFunnel(env, w, h, script) == Some(w')
    ensures Moved(env, w, RunFunnel(h, script), w')
  {
    hide FunnelOf, CountRepairs, Asks;
  }

  lemma OtherMoves(env: Env, w: World, a: ExtractAction, w': World)
    requires NextExtract(env, w, a) == Some(w') && !a.Finish? && !a.Assemble? && !a.RunFunnel?
    ensures Moved(env, w, a, w')
  {
    hide CountAttempt, RouteWithoutWriting;
  }

  /** When a handler step is possible, and the one handler it moves. */
  lemma HandlersAfter(env: Env, w: World, a: ExtractAction, w': World)
    requires NextExtract(env, w, a) == Some(w')
    ensures Moved(env, w, a, w')
  {
    hide Moved, DoFinish, DoAssemble, DoFunnel;
    match a
    case Finish(h, autoPost) => FinishMoves(env, w, h, autoPost, w');
    case Assemble(h) => AssembleMoves(env, w, h, w');
    case RunFunnel(h, script) => FunnelMoves(env, w, h, script, w');
    case _ => OtherMoves(env, w, a, w');
  }

  // ---- Sweeper and operator ----

  predicate SameButRecovery(a: Doc, b: Doc) {
    && b == a.(state := b.state, updatedAt := b.updatedAt, textAttempts := b.textAttempts,
        extractAttempts := b.extractAttempts,
               lastError := b.lastError, gates := b.gates)
    && (b.state == Review ==> a.state == Review)
    && (a.state == Complete ==> b.state == Complete)
    && (b.state == Complete ==> a.state == Complete || (a.state == Review && b.gates.override.Some?))
    && (b.gates == a.gates || (b.state == Complete && b.gates.override.Some?))
  }

  ghost predicate RecoverFrame(w: World, w': World) {
    && w' == w.(t := w'.t, claimed := w'.claimed, opReads := w'.opReads, sweptText := w'.sweptText,
        sweptExtract := w'.sweptExtract)
    && w'.t == w.t.(docs := w'.t.docs, sent := w'.t.sent, pending := w'.t.pending)
    && Outboxed(w.t, w'.t)
    && w'.t.docs.Keys == w.t.docs.Keys
    && (forall e | e in w.t.docs :: SameButRecovery(w.t.docs[e], w'.t.docs[e]))
    && w.claimed <= w'.claimed && w.opReads <= w'.opReads
    && (forall r | r in w'.claimed && r !in w.claimed :: r.doc in w.t.docs && r.row == w.t.docs[r.doc])
    && (forall r | r in w'.opReads && r !in w.opReads ::
        r.doc in w.t.docs && r.row == w.t.docs[r.doc] && (r.assembled <==> r.doc in w.assembled))
  }

  ghost function ForceMsgs(env: Env, w: World, r: OpRead): seq<Msg> {
    if RedriveTarget(r.row, r.assembled).None? then []
    else RedriveMsgs(env.cfg, w.t, Row(r.doc, r.row.(state := RedriveTarget(r.row, r.assembled).value)), Operator)
  }

  ghost function RecoverMsgs(env: Env, w: World, a: RecoverAction): seq<Msg> {
    match a
    case SweepRedrive(r) => RedriveMsgs(env.cfg, w.t, r, Sweep)
    case ForceRedrive(r) => ForceMsgs(env, w, r)
    case AcceptReview(r, note) => [Msg(r.doc, DocumentExtracted, OperatorOverride, Accept)]
    case _ => []
  }

  lemma ClaimSteps(env: Env, w: World, ids: seq<DocId>, locked: set<DocId>, cap: nat, w': World)
    requires DoSweepClaim(env, w, ids, locked, cap) == Some(w')
    ensures RecoverFrame(w, w') && w'.t.sent == w.t.sent
  {
    hide IsBatch, Tally;
  }

  lemma RedriveSteps(env: Env, w: World, r: Row, w': World)
    requires DoSweepRedrive(env, w, r) == Some(w')
    ensures RecoverFrame(w, w') && w'.t.sent == w.t.sent + RedriveMsgs(env.cfg, w.t, r, Sweep)
  {
    hide RedriveMsgs, EnqueueAll;
    EnqueueAllFacts(w.t, RedriveMsgs(env.cfg, w.t, r, Sweep));
  }

  lemma RedriveReads(cfg: Config, t: Tables, t': Tables, r: Row, cause: Cause)
    requires t.shards == t'.shards
    ensures RedriveMsgs(cfg, t, r, cause) == RedriveMsgs(cfg, t', r, cause)
  {
  }

  lemma ForceSteps(env: Env, w: World, r: OpRead, w': World)
    requires DoForceRedrive(env, w, r) == Some(w')
    ensures RecoverFrame(w, w') && w'.t.sent == w.t.sent + ForceMsgs(env, w, r)
  {
    hide RedriveMsgs, EnqueueAll;
    var target := RedriveTarget(r.row, r.assembled).value;
    var t := Transition(w.t, r.doc, target, Predecessors(target), w.now).value;
    RedriveReads(env.cfg, w.t, t, Row(r.doc, r.row.(state := target)), Operator);
    EnqueueAllFacts(t, RedriveMsgs(env.cfg, t, Row(r.doc, r.row.(state := target)), Operator));
  }

  lemma AcceptSteps(w: World, r: OpRead, note: OperatorNote, w': World)
    requires DoAcceptReview(w, r, note) == Some(w')
    ensures RecoverFrame(w, w') && w'.t.sent == w.t.sent + [Msg(r.doc, DocumentExtracted, OperatorOverride, Accept)]
  {
  }

  lemma RecoverSteps(env: Env, w: World, a: RecoverAction, w': World)
    requires NextRecover(env, w, a) == Some(w')
    ensures RecoverFrame(w, w') && w'.t.sent == w.t.sent + RecoverMsgs(env, w, a)
  {
    hide RecoverFrame;
    match a
    case SweepClaim(ids, locked, cap) => ClaimSteps(env, w, ids, locked, cap, w');
    case SweepRedrive(r) => RedriveSteps(env, w, r, w');
    case OperatorRead(d) => ReadSteps(w, d, w');
    case ForceRedrive(r) => ForceSteps(env, w, r, w');
    case AcceptReview(r, note) => AcceptSteps(w, r, note, w');
  }

  lemma ReadSteps(w: World, d: DocId, w': World)
    requires DoOperatorRead(w, d) == Some(w')
    ensures RecoverFrame(w, w') && w'.t == w.t
  {
  }

  // ---- Relays, sink, clock ----

  ghost predicate BrokerFrame(w: World, w': World) {
    && w' == w.(t := w'.t, produced := w'.produced, log := w'.log, relays := w'.relays, now := w'.now)
    && w'.t == w.t.(pending := w'.t.pending, posted := w'.t.posted)
    && w.log <= w'.log && w.now <= w'.now && w'.t.pending <= w.t.pending
  }

  lemma BrokerSteps(w: World, a: BrokerAction, w': World)
    requires NextBroker(w, a) == Some(w')
    ensures BrokerFrame(w, w')
  {
    hide IsOutboxBatch, LockedRows;
  }

  // ---- Text production ----

  predicate SameButText(a: Doc, b: Doc) {
    && b == a.(state := b.state, updatedAt := b.updatedAt, shardsTotal := b.shardsTotal, shardsDone := b.shardsDone,
               pageCount := b.pageCount, hasTextLayer := b.hasTextLayer)
    && (b.state == a.state || (b.state in {TextPending, TextRunning, ExtractPending} &&
        a.state in {TextPending, TextRunning, ExtractPending}))
  }

  /** The document a text step is about. */
  ghost function TextDoc(w: World, a: TextAction): DocId {
    match a
    case Triage(d) => d
    case _ => if a.msg < |w.t.sent| then w.t.sent[a.msg].doc else 0
  }

  ghost predicate TextTables(t: Tables, t': Tables, d: DocId) {
    && Outboxed(t, t')
    && t' == t.(docs := t'.docs, shards := t'.shards, sent := t'.sent, pending := t'.pending)
    && (forall e | e in t.docs :: e in t'.docs && (e != d ==> t'.docs[e] == t.docs[e]))
    && (d in t.docs ==> SameButText(t.docs[d], t'.docs[d]))
    && (forall e | e in t'.docs :: e in t.docs || e == d)
    && (forall e | e != d :: Recorded(t', e) == Recorded(t, e))
    && Recorded(t, d) <= Recorded(t', d)
  }

  ghost predicate TextFrame(w: World, w': World, d: DocId) {
    && w' == w.(t := w'.t, outs := w'.outs, assembled := w'.assembled, splitting := w'.splitting, begun := w'.begun,
        written := w'.written)
    && TextTables(w.t, w'.t, d)
    && (forall k | k in w.outs :: k in w'.outs && (k.0 != d ==> w'.outs[k] == w.outs[k]))
    && (forall e | e in w.assembled :: e in w'.assembled && (e != d ==> w'.assembled[e] == w.assembled[e]))
    && (forall e | e in w'.assembled :: e in w.assembled || e == d)
  }

  ghost function TriageMsgs(env: Env, w: World, d: DocId): seq<Msg> {
    if d in env.sources && d !in w.t.docs && Dispatched(env.cfg, env.sources[d])
    then [DispatchMsg(env.cfg, d, env.sources[d].textLayer, |env.sources[d].ocr|, env.sources[d].gcsPath, Dispatch)]
    else []
  }

  ghost function EmbeddedMsgs(env: Env, m: Msg): seq<Msg> {
    if m.doc !in env.sources || !m.payload.DocumentRef? then []
    else
      var src := env.sources[m.doc];
      [if src.sane then Msg(m.doc, OcrCompleted, JustId, TierZero)
       else DispatchMsg(env.cfg, m.doc, false, |src.ocr|, m.payload.gcsPath, FallThrough)]
  }

  ghost function SplitCommitMsgs(env: Env, m: Msg): seq<Msg> {
    if m.doc !in env.sources || !env.cfg.Valid() then []
    else
      var n := |env.sources[m.doc].ocr|;
      SplitMsgs(env.cfg, m.doc, ShardCount(n, env.cfg.shardSize), ShardCount(n, env.cfg.shardSize), n)
  }

  ghost predicate Wins(w: World, m: Msg) {
    m.payload.ShardRange? && RecordShard(w.t, m.doc, m.payload.idx, w.now).Done? &&
        RecordShard(w.t, m.doc, m.payload.idx, w.now).won
  }

  ghost function JoinMsgs(w: World, m: Msg): seq<Msg> {
    if Wins(w, m) then [Msg(m.doc, OcrCompleted, JustId, Join)] else []
  }

  ghost function TextMsgs(env: Env, w: World, a: TextAction): seq<Msg> {
    match a
    case Triage(d) => TriageMsgs(env, w, d)
    case EmbeddedCommit(i) => if i < |w.t.sent| then EmbeddedMsgs(env, w.t.sent[i]) else []
    case SplitCommit(i) => if i < |w.t.sent| then SplitCommitMsgs(env, w.t.sent[i]) else []
    case ShardRecord(i) => if i < |w.t.sent| then JoinMsgs(w, w.t.sent[i]) else []
    case _ => []
  }

  lemma EmbeddedTables(env: Env, t: Tables, m: Msg, now: Time, t': Tables)
    requires m.doc in env.sources && m.payload.DocumentRef?
    requires TextEmbeddedTx(env.cfg, t, m.doc, env.sources[m.doc], m.payload.gcsPath, now) == Some(t')
    ensures TextTables(t, t', m.doc) && t'.sent == t.sent + EmbeddedMsgs(env, m)
  {
    hide DispatchMsg;
  }

  lemma SplitTables(cfg: Config, t: Tables, d: DocId, total: nat, pageCount: nat)
    ensures TextTables(t, CommitSplitTx(cfg, t, d, total, pageCount), d)
    ensures CommitSplitTx(cfg, t, d, total, pageCount).sent == t.sent + SplitMsgs(cfg, d, total, total, pageCount)
  {
    hide SplitMsgs, EnqueueAll;
    var t1 := if d in t.docs then t.(docs := t.docs[d := t.docs[d].(shardsTotal := total,
        pageCount := Some(pageCount))]) else t;
    EnqueueAllFacts(t1, SplitMsgs(cfg, d, total, total, pageCount));
  }

  lemma RecordTables(t: Tables, d: DocId, idx: nat, now: Time)
    requires RecordShard(t, d, idx, now).Done?
    ensures var r := RecordShard(t, d, idx, now);
      && TextTables(t, r.tables, d)
      && r.tables.sent == t.sent + (if r.won then [Msg(d, OcrCompleted, JustId, Join)] else [])
  {
  }

  lemma TriageSteps(env: Env, w: World, d: DocId, w': World)
    requires DoTriage(env, w, d) == Some(w')
    ensures TextFrame(w, w', d) && w'.t.sent == w.t.sent + TriageMsgs(env, w, d)
  {
    hide DispatchMsg;
  }

  lemma EmbeddedSteps(env: Env, w: World, i: nat, w': World)
    requires DoEmbeddedCommit(env, w, i) == Some(w')
    ensures TextFrame(w, w', w.t.sent[i].doc) && w'.t.sent == w.t.sent + EmbeddedMsgs(env, w.t.sent[i])
  {
    hide DispatchMsg, AllPages, TextTables, TextEmbeddedTx;
    var m := w.t.sent[i];
    EmbeddedTables(env, w.t, m, w.now, w'.t);
  }

  lemma SplitSteps(env: Env, w: World, i: nat, w': World)
    requires DoSplitCommit(env, w, i) == Some(w')
    ensures TextFrame(w, w', w.t.sent[i].doc) && w'.t.sent == w.t.sent + SplitCommitMsgs(env, w.t.sent[i])
  {
    hide SplitMsgs, ShardCount, TextTables, CommitSplitTx;
    var n := |env.sources[w.t.sent[i].doc].ocr|;
    SplitTables(env.cfg, w.t, w.t.sent[i].doc, ShardCount(n, env.cfg.shardSize), n);
  }

  lemma RecordSteps(w: World, i: nat, w': World)
    requires DoShardRecord(w, i) == Some(w')
    ensures TextFrame(w, w', w.t.sent[i].doc) && w'.t.sent == w.t.sent + JoinMsgs(w, w.t.sent[i])
  {
    hide RecordShard, TextTables;
    RecordTables(w.t, w.t.sent[i].doc, w.t.sent[i].payload.idx, w.now);
  }

  lemma BeginSteps(w: World, i: nat, w': World)
    requires DoSplitBegin(w, i) == Some(w') || DoShardBegin(w, i) == Some(w')
    ensures TextFrame(w, w', w.t.sent[i].doc) && w'.t.sent == w.t.sent
  {
  }

  lemma WriteSteps(env: Env, w: World, i: nat, w': World)
    requires DoEmbeddedWrite(env, w, i) == Some(w') || DoShardWrite(env, w, i) == Some(w')
    ensures TextFrame(w, w', w.t.sent[i].doc) && w'.t == w.t
  {
    hide AllPages, ShardText;
  }

  lemma TextSteps(env: Env, w: World, a: TextAction, w': World)
    requires NextText(env, w, a) == Some(w')
    ensures TextFrame(w, w', TextDoc(w, a)) && w'.t.sent == w.t.sent + TextMsgs(env, w, a)
  {
    hide TextFrame, TriageMsgs, EmbeddedMsgs, SplitCommitMsgs, JoinMsgs;
    match a
    case Triage(d) => TriageSteps(env, w, d, w');
    case EmbeddedWrite(i) => WriteSteps(env, w, i, w');
    case EmbeddedCommit(i) => EmbeddedSteps(env, w, i, w');
    case SplitBegin(i) => BeginSteps(w, i, w');
    case SplitCommit(i) => SplitSteps(env, w, i, w');
    case ShardBegin(i) => BeginSteps(w, i, w');
    case ShardWrite(i) => WriteSteps(env, w, i, w');
    case ShardRecord(i) => RecordSteps(w, i, w');
  }

  // ---- All steps ----

  ghost function NewMsgs(env: Env, w: World, a: Action): seq<Msg> {
    match a
    case Text(x) => TextMsgs(env, w, x)
    case Extract(x) => ExtractMsgs(w, x)
    case Recover(x) => RecoverMsgs(env, w, x)
    case Broker(x) => []
  }

  /** Every step appends its messages to the history, keeps every row, and loses no object and no broker record. */
  lemma StepGrows(env: Env, w: World, a: Action, w': World)
    requires Next(env, w, a) == Some(w')
    ensures w'.t.sent == w.t.sent + NewMsgs(env, w, a)
    ensures forall d | d in w.t.docs :: d in w'.t.docs
    ensures w.log <= w'.log && w.now <= w'.now
    ensures forall d | d in w.assembled :: d in w'.assembled
    ensures forall d :: Recorded(w.t, d) <= Recorded(w'.t, d)
  {
    hide NextText, NextExtract, NextRecover, NextBroker, TextMsgs, ExtractMsgs, RecoverMsgs, SameButText,
         SameButVerdict, SameButRecovery;
    match a
    case Text(x) => TextSteps(env, w, x, w');
    case Extract(x) => ExtractSteps(env, w, x, w');
    case Recover(x) => RecoverSteps(env, w, x, w');
    case Broker(x) => BrokerSteps(w, x, w');
  }

  /** Only handler steps move handlers. */
  lemma OnlyExtract(env: Env, w: World, a: Action, w': World)
    requires Next(env, w, a) == Some(w') && !a.Extract?
    ensures w'.handlers == w.handlers && w'.asked == w.asked
  {
    hide NextText, NextRecover, NextBroker, TextMsgs, RecoverMsgs, SameButText, SameButRecovery;
    match a
    case Text(x) => TextSteps(env, w, x, w');
    case Recover(x) => RecoverSteps(env, w, x, w');
    case Broker(x) => BrokerSteps(w, x, w');
  }
}

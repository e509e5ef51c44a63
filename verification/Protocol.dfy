/** The whole pipeline as one transition system. A step is one committed transaction, one object written, or one
    event of the broker or the clock. Handlers may be delayed, repeated or abandoned between their steps. */
module Protocol {
  import opened Types
  import opened Pages
  import opened Ledger
  import opened Sweeper
  import opened Stages
  import opened Outbox
  import Funnel

  /** Fixed for a run: the limits, and what each document's bytes contain. */
  datatype Env = Env(cfg: Config, sources: map<DocId, Source>)
  {
    predicate Valid() {
      && cfg.Valid()
      && forall d | d in sources :: |sources[d].embedded| == |sources[d].ocr|
    }
  }

  /** Where an extraction handler stands between its transactions. */
  datatype Pc =
    | Started
    | Loaded(row: Doc)
    | Assembled(row: Doc, pages: seq<Page>)
    | Attempted(row: Doc, pages: seq<Page>)
    | Decided(row: Doc, pages: seq<Page>, fields: Option<Fields>, report: Report)
    | Routing(report: Report)

  datatype Handler = Handler(doc: DocId, pc: Pc)

  /** An operator's unlocked read: a row version and whether the artifact existed. */
  datatype OpRead = OpRead(doc: DocId, row: Doc, assembled: bool)

  /** A relay's open transaction: the rows it locked and the deliveries confirmed to it. */
  datatype Relay = Relay(ids: set<nat>, acked: set<nat>)

  /** A model reply a handler received. */
  datatype Ask = Ask(doc: DocId, tier: Tier, reply: Funnel.Reply)

  /** Tables, object store, the ids handed to a producer and those the broker has, and the open work of every actor.
      The sets splitting, begun, written, claimed and opReads only grow: work once started may be finished at any
      later time, any number of times.
      asked, sweptText and sweptExtract record history and steer nothing. */
  datatype World = World(
    t: Tables,
    outs: map<(DocId, nat), seq<Page>>,
    assembled: map<DocId, seq<Page>>,
    produced: set<nat>,
    log: set<nat>,
    splitting: set<nat>,
    begun: set<nat>,
    written: set<nat>,
    handlers: map<nat, Handler>,
    claimed: set<Row>,
    opReads: set<OpRead>,
    relays: map<nat, Relay>,
    asked: set<Ask>,
    sweptText: map<DocId, nat>,
    sweptExtract: map<DocId, nat>,
    now: Time)

  /** Triage, the PDF worker and the shard workers; msg is the id of the message being handled. */
  datatype TextAction =
    | Triage(d: DocId)
    | EmbeddedWrite(msg: nat)
    | EmbeddedCommit(msg: nat)
    | SplitBegin(msg: nat)
    | SplitCommit(msg: nat)
    | ShardBegin(msg: nat)
    | ShardWrite(msg: nat)
    | ShardRecord(msg: nat)

  /** Extraction handlers, by handler id. */
  datatype ExtractAction =
    | Start(h: nat, msg: nat)
    | Load(h: nat)
    | Assemble(h: nat)
    | Attempt(h: nat)
    | RunFunnel(h: nat, script: Funnel.Script)
    | Finish(h: nat, autoPost: bool)
    | Reroute(h: nat)
    | Crash(h: nat)

  /** The sweeper and the operator. */
  datatype RecoverAction =
    | SweepClaim(ids: seq<DocId>, locked: set<DocId>, cap: nat)
    | SweepRedrive(claim: Row)
    | OperatorRead(d: DocId)
    | ForceRedrive(seen: OpRead)
    | AcceptReview(seen: OpRead, note: OperatorNote)

  /** The clock, the relays and the sink. */
  datatype BrokerAction =
    | Tick(elapsed: nat)
    | RelayClaim(r: nat, rows: set<nat>, cap: nat)
    | RelayLand(id: nat)
    | RelayAck(r: nat, id: nat)
    | RelayCommit(r: nat)
    | RelayRollback(r: nat)
    | SinkPost(msg: nat)

  datatype Action =
    | Text(text: TextAction)
    | Extract(ext: ExtractAction)
    | Recover(rec: RecoverAction)
    | Broker(bro: BrokerAction)

  function InitWorld(now: Time): World {
    World(EMPTY_TABLES, map[], map[], {}, {}, {}, {}, {}, map[], {}, {}, map[], {}, map[], map[], now)
  }

  // ---- Text production ----

  /** Message i has reached the broker and carries this topic. */
  predicate Delivered(w: World, i: nat, topic: Topic) {
    i in w.log && i < |w.t.sent| && w.t.sent[i].topic == topic
  }

  function DoTriage(env: Env, w: World, d: DocId): Option<World> {
    if d !in env.sources then None
    else Some(w.(t := TriageTx(env.cfg, w.t, d, env.sources[d], w.now)))
  }

  /** The artifact is written inside the transaction; this is the write without the commit. */
  function DoEmbeddedWrite(env: Env, w: World, i: nat): Option<World> {
    if !Delivered(w, i, TextEmbedded) || w.t.sent[i].doc !in env.sources then None
    else
      var d := w.t.sent[i].doc;
      if env.sources[d].sane && Transition(w.t, d, TextRunning, {TextPending}, w.now).Some?
      then Some(w.(assembled := w.assembled[d := AllPages(env.sources[d].embedded)]))
      else None
  }

  function DoEmbeddedCommit(env: Env, w: World, i: nat): Option<World> {
    if !Delivered(w, i, TextEmbedded) || w.t.sent[i].doc !in env.sources || !w.t.sent[i].payload.DocumentRef? then None
    else
      var d := w.t.sent[i].doc;
      var src := env.sources[d];
      match TextEmbeddedTx(env.cfg, w.t, d, src, w.t.sent[i].payload.gcsPath, w.now)
      case None => None
      case Some(t) =>
        Some(w.(t := t, assembled := if src.sane then w.assembled[d := AllPages(src.embedded)] else w.assembled))
  }

  function DoSplitBegin(w: World, i: nat): Option<World> {
    if !Delivered(w, i, OcrSplit) then None
    else match Transition(w.t, w.t.sent[i].doc, TextRunning, {TextPending}, w.now)
      case None => None
      case Some(t) => Some(w.(t := t, splitting := w.splitting + {i}))
  }

  function DoSplitCommit(env: Env, w: World, i: nat): Option<World> {
    if i !in w.splitting || i >= |w.t.sent| || w.t.sent[i].doc !in env.sources || !env.cfg.Valid() then None
    else
      var d := w.t.sent[i].doc;
      var n := |env.sources[d].ocr|;
      Some(w.(t := CommitSplitTx(env.cfg, w.t, d, ShardCount(n, env.cfg.shardSize), n)))
  }

  function DoShardBegin(w: World, i: nat): Option<World> {
    if !Delivered(w, i, OcrShard) then None
    else match Transition(w.t, w.t.sent[i].doc, TextRunning, {TextPending}, w.now)
      case None => None
      case Some(t) => Some(w.(t := t, begun := w.begun + {i}))
  }

  function DoShardWrite(env: Env, w: World, i: nat): Option<World> {
    if i !in w.begun || i >= |w.t.sent| || w.t.sent[i].doc !in env.sources || !IsShardMsg(w.t.sent[i]) then None
    else
      var m := w.t.sent[i];
      Some(w.(outs := w.outs[(m.doc, m.payload.idx) := ShardText(env.sources[m.doc], m)], written := w.written + {i}))
  }

  /** An aborted claim is no step: its transaction leaves nothing behind. */
  function DoShardRecord(w: World, i: nat): Option<World> {
    if i !in w.written || i >= |w.t.sent| || !w.t.sent[i].payload.ShardRange? then None
    else match RecordShard(w.t, w.t.sent[i].doc, w.t.sent[i].payload.idx, w.now)
      case Aborted => None
      case Done(t, _) => Some(w.(t := t))
  }

  // ---- Extraction ----

  predicate Active(w: World, h: nat) {
    h in w.handlers
  }

  function WithPc(w: World, h: nat, pc: Pc): World
    requires Active(w, h)
  {
    w.(handlers := w.handlers[h := Handler(w.handlers[h].doc, pc)])
  }

  function Ended(w: World, h: nat): World {
    w.(handlers := w.handlers - {h})
  }

  function DoStart(w: World, h: nat, i: nat): Option<World> {
    if h in w.handlers || !Delivered(w, i, OcrCompleted) then None
    else match Transition(w.t, w.t.sent[i].doc, ExtractRunning, {ExtractPending}, w.now)
      case None => None
      case Some(t) => Some(w.(t := t, handlers := w.handlers[h := Handler(w.t.sent[i].doc, Started)]))
  }

  function DoLoad(w: World, h: nat): Option<World> {
    if !Active(w, h) || !w.handlers[h].pc.Started? || w.handlers[h].doc !in w.t.docs then None
    else Some(WithPc(w, h, Loaded(w.t.docs[w.handlers[h].doc])))
  }

  function Checked(row: Doc, pages: seq<Page>): Pc {
    if row.pageCount.Some? && Completeness(PageNumbers(pages), row.pageCount.value) == Pass
    then Assembled(row, pages)
    else Routing(EMPTY_REPORT.(completeness := Some(Fail)))
  }

  /** Assemble (or read) the artifact and check it; an object missing or an incomplete artifact goes to review. */
  function DoAssemble(w: World, h: nat): Option<World> {
    if !Active(w, h) || !w.handlers[h].pc.Loaded? then None
    else
      var d, row := w.handlers[h].doc, w.handlers[h].pc.row;
      match EnsureAssembledSpec(w.outs, w.assembled, d, row.shardsTotal)
      case None => Some(WithPc(w, h, Routing(EMPTY_REPORT.(completeness := Some(Fail)))))
      case Some(pages) => Some(WithPc(w.(assembled := w.assembled[d := pages]), h, Checked(row, pages)))
  }

  function DoAttempt(w: World, h: nat): Option<World> {
    if !Active(w, h) || !w.handlers[h].pc.Assembled? then None
    else Some(WithPc(w, h, Attempted(w.handlers[h].pc.row, w.handlers[h].pc.pages)).(t := CountAttempt(w.t,
        w.handlers[h].doc)))
  }

  function Asks(d: DocId, tier: Tier, calls: seq<Funnel.Call>, n: nat): set<Ask> {
    set k | 0 <= k < |calls| && k < n :: Ask(d, tier, calls[k].reply)
  }

  function FunnelOf(w: World, h: nat, script: Funnel.Script): Funnel.FunnelResult
    requires Active(w, h) && w.handlers[h].pc.Attempted?
  {
    Funnel.FunnelSpec(w.t.docs, w.handlers[h].doc, w.handlers[h].pc.row.docType, SourceText(w.handlers[h].pc.pages),
        script)
  }

  function DoFunnel(env: Env, w: World, h: nat, script: Funnel.Script): Option<World> {
    if !Active(w, h) || !w.handlers[h].pc.Attempted? || !Funnel.Ready(script, env.cfg.maxRepair) then None
    else
      var d, pc := w.handlers[h].doc, w.handlers[h].pc;
      var r := FunnelOf(w, h, script);
      Some(WithPc(w, h, Decided(pc.row, pc.pages, r.fields, r.report)).(
        t := CountRepairs(w.t, d, r.repairs),
        asked := w.asked + Asks(d, Cheap, script.cheap, r.cheapCalls) + Asks(d, Strong, script.strong, r.strongCalls)))
  }

  /** The handler's last transaction; only the unique violation leaves one more to do. */
  function DoFinish(w: World, h: nat, autoPost: bool): Option<World> {
    if !Active(w, h) || !w.handlers[h].pc.Decided? then None
    else
      var pc := w.handlers[h].pc;
      match FinishTx(w.t, w.handlers[h].doc, pc.fields, pc.report, autoPost, w.now)
      case None => Some(WithPc(w, h, Routing(pc.report.(dedupe := Some(Fail)))))
      case Some(t) => Some(Ended(w, h).(t := t))
  }

  function DoReroute(w: World, h: nat): Option<World> {
    if !Active(w, h) || !w.handlers[h].pc.Routing? then None
    else Some(Ended(w, h).(t := RouteWithoutWriting(w.t, w.handlers[h].doc, w.handlers[h].pc.report, Review, w.now)))
  }

  /** The process dies, or an error sends the message back to the broker. */
  function DoCrash(w: World, h: nat): Option<World> {
    if !Active(w, h) then None else Some(Ended(w, h))
  }

  // ---- Sweeper and operator ----

  function Count(m: map<DocId, nat>, d: DocId): nat {
    if d in m then m[d] else 0
  }

  /** One more for each claimed row that was swept back from `state`. */
  function Tally(cfg: Config, docs: map<DocId, Doc>, ids: seq<DocId>, state: DocState, m: map<DocId, nat>,
      now: Time): map<DocId, nat> {
    map d | d in docs :: Count(m, d) + (if d in ids && docs[d].state == state &&
        ClaimedDoc(cfg, docs[d], now).state != Failed then 1 else 0)
  }

  function DoSweepClaim(env: Env, w: World, ids: seq<DocId>, locked: set<DocId>, cap: nat): Option<World> {
    if !IsBatch(env.cfg, w.t.docs, locked, w.now, cap, ids) then None
    else Some(w.(
      t := ClaimAll(env.cfg, w.t, ids, w.now),
      claimed := w.claimed + (set d | d in ids && d in w.t.docs &&
          ClaimedDoc(env.cfg, w.t.docs[d], w.now).state != Failed :: Row(d, w.t.docs[d])),
      sweptText := Tally(env.cfg, w.t.docs, ids, TextRunning, w.sweptText, w.now),
      sweptExtract := Tally(env.cfg, w.t.docs, ids, ExtractRunning, w.sweptExtract, w.now)))
  }

  function DoSweepRedrive(env: Env, w: World, r: Row): Option<World> {
    if r !in w.claimed then None
    else Some(w.(t := EnqueueAll(w.t, RedriveMsgs(env.cfg, w.t, r, Sweep))))
  }

  function DoOperatorRead(w: World, d: DocId): Option<World> {
    if d !in w.t.docs then None
    else Some(w.(opReads := w.opReads + {OpRead(d, w.t.docs[d], d in w.assembled)}))
  }

  /** review goes to extract_pending; failed goes where the artifact says, unless triage never learnt a page count. */
  function RedriveTarget(row: Doc, assembled: bool): Option<DocState> {
    if row.state == Review then Some(ExtractPending)
    else if row.state == Failed && row.pageCount.Some? then Some(if assembled then ExtractPending else TextPending)
    else None
  }

  function DoForceRedrive(env: Env, w: World, r: OpRead): Option<World> {
    if r !in w.opReads || RedriveTarget(r.row, r.assembled).None? then None
    else
      var target := RedriveTarget(r.row, r.assembled).value;
      match Transition(w.t, r.doc, target, Predecessors(target), w.now)
      case None => None
      case Some(t) => Some(w.(t := EnqueueAll(t, RedriveMsgs(env.cfg, t, Row(r.doc, r.row.(state := target)),
          Operator))))
  }

  /** The override is stamped on the gates as read; the transition also passes when the row is already complete. */
  function DoAcceptReview(w: World, r: OpRead, note: OperatorNote): Option<World> {
    if r !in w.opReads || r.row.state != Review || r.doc !in w.t.docs then None
    else
      var t1 := w.t.(docs := w.t.docs[r.doc := w.t.docs[r.doc].(gates := r.row.gates.(override := Some(note)))]);
      match Transition(t1, r.doc, Complete, {Review}, w.now)
      case None => None
      case Some(t) => Some(w.(t := Enqueue(t, Msg(r.doc, DocumentExtracted, OperatorOverride, Accept))))
  }

  // ---- Relays and sink ----

  function LockedRows(w: World): set<nat> {
    set r, i | r in w.relays && i in w.relays[r].ids :: i
  }

  function DoRelayClaim(w: World, r: nat, ids: set<nat>, cap: nat): Option<World> {
    if r in w.relays || !IsOutboxBatch(w.t.pending, LockedRows(w), cap, ids) then None
    else Some(w.(relays := w.relays[r := Relay(ids, {})], produced := w.produced + ids))
  }

  /** A message once handed to the producer may reach the broker late, even after its transaction was rolled back. */
  function DoRelayLand(w: World, i: nat): Option<World> {
    if i !in w.produced then None
    else Some(w.(log := w.log + {i}))
  }

  function DoRelayAck(w: World, r: nat, i: nat): Option<World> {
    if r !in w.relays || i !in w.relays[r].ids || i !in w.log then None
    else Some(w.(relays := w.relays[r := Relay(w.relays[r].ids, w.relays[r].acked + {i})]))
  }

  /** Delete on ack: only when every delivery of the batch was confirmed. */
  function DoRelayCommit(w: World, r: nat): Option<World> {
    if r !in w.relays || w.relays[r].acked != w.relays[r].ids then None
    else Some(w.(t := w.t.(pending := w.t.pending - w.relays[r].ids), relays := w.relays - {r}))
  }

  function DoRelayRollback(w: World, r: nat): Option<World> {
    if r !in w.relays then None else Some(w.(relays := w.relays - {r}))
  }

  function DoSinkPost(w: World, i: nat): Option<World> {
    if !Delivered(w, i, DocumentExtracted) then None else Some(w.(t := Post(w.t, w.t.sent[i])))
  }

  // ---- Steps and runs ----

  function NextText(env: Env, w: World, a: TextAction): Option<World> {
    match a
    case Triage(d) => DoTriage(env, w, d)
    case EmbeddedWrite(i) => DoEmbeddedWrite(env, w, i)
    case EmbeddedCommit(i) => DoEmbeddedCommit(env, w, i)
    case SplitBegin(i) => DoSplitBegin(w, i)
    case SplitCommit(i) => DoSplitCommit(env, w, i)
    case ShardBegin(i) => DoShardBegin(w, i)
    case ShardWrite(i) => DoShardWrite(env, w, i)
    case ShardRecord(i) => DoShardRecord(w, i)
  }

  function NextExtract(env: Env, w: World, a: ExtractAction): Option<World> {
    match a
    case Start(h, i) => DoStart(w, h, i)
    case Load(h) => DoLoad(w, h)
    case Assemble(h) => DoAssemble(w, h)
    case Attempt(h) => DoAttempt(w, h)
    case RunFunnel(h, script) => DoFunnel(env, w, h, script)
    case Finish(h, autoPost) => DoFinish(w, h, autoPost)
    case Reroute(h) => DoReroute(w, h)
    case Crash(h) => DoCrash(w, h)
  }

  function NextRecover(env: Env, w: World, a: RecoverAction): Option<World> {
    match a
    case SweepClaim(ids, locked, cap) => DoSweepClaim(env, w, ids, locked, cap)
    case SweepRedrive(r) => DoSweepRedrive(env, w, r)
    case OperatorRead(d) => DoOperatorRead(w, d)
    case ForceRedrive(r) => DoForceRedrive(env, w, r)
    case AcceptReview(r, note) => DoAcceptReview(w, r, note)
  }

  function NextBroker(w: World, a: BrokerAction): Option<World> {
    match a
    case Tick(elapsed) => Some(w.(now := w.now + elapsed))
    case RelayClaim(r, rows, cap) => DoRelayClaim(w, r, rows, cap)
    case RelayLand(i) => DoRelayLand(w, i)
    case RelayAck(r, i) => DoRelayAck(w, r, i)
    case RelayCommit(r) => DoRelayCommit(w, r)
    case RelayRollback(r) => DoRelayRollback(w, r)
    case SinkPost(i) => DoSinkPost(w, i)
  }

  /** None when the action cannot happen, or is refused and leaves nothing behind. */
  function Next(env: Env, w: World, a: Action): Option<World> {
    match a
    case Text(x) => NextText(env, w, x)
    case Extract(x) => NextExtract(env, w, x)
    case Recover(x) => NextRecover(env, w, x)
    case Broker(x) => NextBroker(w, x)
  }

  /** ws[0] is a fresh system and each world follows from the one before by an action. */
  ghost predicate IsRun(env: Env, ws: seq<World>, acts: seq<Action>) {
    && |ws| == |acts| + 1
    && ws[0] == InitWorld(ws[0].now)
    && forall k | 0 <= k < |acts| :: Next(env, ws[k], acts[k]) == Some(ws[k + 1])
  }

  // ---- Hypotheses ----

  /** H1: at most one extraction handler is active per document. */
  predicate H1(w: World, a: Action) {
    a.Extract? && a.ext.Start? && a.ext.msg < |w.t.sent| ==>
      forall h | h in w.handlers :: w.handlers[h].doc != w.t.sent[a.ext.msg].doc
  }

  predicate SplitSent(w: World, d: DocId, j: nat) {
    j < |w.t.sent| && w.t.sent[j].doc == d && w.t.sent[j].cause == Split
  }

  ghost predicate SplitDone(w: World, d: DocId) {
    exists j: nat :: SplitSent(w, d, j)
  }

  /** H2: no text.embedded is handled for a document whose split has committed. */
  ghost predicate H2(w: World, a: Action) {
    a.Text? && a.text.EmbeddedCommit? && a.text.msg < |w.t.sent| ==> !SplitDone(w, w.t.sent[a.text.msg].doc)
  }

  predicate JoinSent(w: World, d: DocId, j: nat) {
    j < |w.t.sent| && w.t.sent[j].doc == d && w.t.sent[j].cause == Join
  }

  ghost predicate JoinFired(w: World, d: DocId) {
    exists j: nat :: JoinSent(w, d, j)
  }

  /** H3: no forced re-drive takes a document whose join has fired back to text_pending. */
  ghost predicate H3(w: World, a: Action, w': World) {
    a.Recover? && a.rec.ForceRedrive? && a.rec.seen.doc in w'.t.docs &&
    w'.t.docs[a.rec.seen.doc].state == TextPending ==>
      !JoinFired(w, a.rec.seen.doc)
  }

  ghost predicate Under1(ws: seq<World>, acts: seq<Action>)
    requires |ws| == |acts| + 1
  {
    forall k | 0 <= k < |acts| :: H1(ws[k], acts[k])
  }

  ghost predicate Under2(ws: seq<World>, acts: seq<Action>)
    requires |ws| == |acts| + 1
  {
    forall k | 0 <= k < |acts| :: H2(ws[k], acts[k])
  }

  ghost predicate Under3(ws: seq<World>, acts: seq<Action>)
    requires |ws| == |acts| + 1
  {
    forall k | 0 <= k < |acts| :: H3(ws[k], acts[k], ws[k + 1])
  }
}

/** The document ledger: each function is one statement group of a transaction on the tables. */
module Ledger {
  import opened Types
  import opened Pages

  datatype Posted = Posted(fields: Extraction)

  /** The tables. `sent` is every outbox row ever inserted, by id; `pending` the ids still in the outbox. */
  datatype Tables = Tables(
    docs: map<DocId, Doc>,
    shards: map<DocId, set<nat>>,
    sent: seq<Msg>,
    pending: set<nat>,
    posted: map<DocId, Posted>)

  const EMPTY_TABLES := Tables(map[], map[], [], {}, map[])

  // ---- The state machine ----

  predicate Allowed(from: DocState, to: DocState) {
    match from
    case TextPending => to == TextRunning
    case TextRunning => to == ExtractPending || to == TextPending || to == Review || to == Failed
    case ExtractPending => to == ExtractRunning
    case ExtractRunning => to == Complete || to == Review || to == ExtractPending || to == Failed
    case Review => to == ExtractPending || to == Complete
    case Failed => to == TextPending || to == ExtractPending
    case Complete => false
  }

  /** The from_states a transition uses when its caller names none. */
  function Predecessors(to: DocState): set<DocState> {
    set s: DocState | Allowed(s, to)
  }

  /** The predecessors of each state. A running state is entered only from its own pending state; nothing leaves
      complete. */
  lemma PredecessorsAre(s: DocState)
    ensures Predecessors(TextPending) == {TextRunning, Failed} && Predecessors(TextRunning) == {TextPending}
    ensures Predecessors(ExtractPending) == {TextRunning, ExtractRunning, Review, Failed}
    ensures Predecessors(ExtractRunning) == {ExtractPending} && Predecessors(Complete) == {ExtractRunning, Review}
    ensures Predecessors(Review) == Predecessors(Failed) == {TextRunning, ExtractRunning}
    ensures Complete !in Predecessors(s)
  {
  }

  /** Applies only when the row is in one of `from` or already in `to`; None is IllegalTransition. */
  function Transition(t: Tables, d: DocId, to: DocState, from: set<DocState>, now: Time): Option<Tables> {
    if d in t.docs && (t.docs[d].state in from || t.docs[d].state == to)
    then Some(t.(docs := t.docs[d := t.docs[d].(state := to, updatedAt := now)]))
    else None
  }

  function Enqueue(t: Tables, m: Msg): Tables {
    t.(sent := t.sent + [m], pending := t.pending + {|t.sent|})
  }

  function EnqueueAll(t: Tables, ms: seq<Msg>): Tables {
    t.(sent := t.sent + ms, pending := t.pending + (UpTo(|t.sent| + |ms|) - UpTo(|t.sent|)))
  }

  lemma EnqueueNothing(t: Tables)
    ensures EnqueueAll(t, []) == t
  {
  }

  lemma EnqueueSnoc(t: Tables, ms: seq<Msg>, m: Msg)
    ensures EnqueueAll(t, ms + [m]) == Enqueue(EnqueueAll(t, ms), m)
  {
    var a, b := EnqueueAll(t, ms + [m]), Enqueue(EnqueueAll(t, ms), m);
    assert a.sent == b.sent;
    assert a.pending == b.pending;
  }

  /** Exactly the new rows were added to the outbox. */
  ghost predicate Outboxed(t: Tables, t': Tables) {
    forall i: nat :: i in t'.pending <==> i in t.pending || |t.sent| <= i < |t'.sent|
  }

  lemma EnqueueAllFacts(t: Tables, ms: seq<Msg>)
    ensures var t' := EnqueueAll(t, ms);
      && t' == t.(sent := t.sent + ms, pending := t'.pending)
      && Outboxed(t, t')
  {
  }

  // ---- Dispatch ----

  function RouteTextProduction(cfg: Config, hasTextLayer: bool, pageCount: nat): Topic {
    if hasTextLayer then TextEmbedded
    else if pageCount <= cfg.shardSize then OcrShard
    else OcrSplit
  }

  function DispatchPayload(topic: Topic, gcsPath: string, pageCount: nat): Payload {
    if topic == OcrShard then ShardRange(0, 1, 0, pageCount, Original(gcsPath)) else DocumentRef(gcsPath, pageCount)
  }

  function DispatchMsg(cfg: Config, d: DocId, hasTextLayer: bool, pageCount: nat, gcsPath: string, cause: Cause): Msg {
    var topic := RouteTextProduction(cfg, hasTextLayer, pageCount);
    Msg(d, topic, DispatchPayload(topic, gcsPath, pageCount), cause)
  }

  /** The message for shard idx of a document that was split. */
  function ShardMsg(cfg: Config, d: DocId, idx: nat, total: nat, pageCount: nat, cause: Cause): Msg {
    Msg(d, OcrShard,
        ShardRange(idx, total, RangeStart(idx, cfg.shardSize), RangeEnd(idx, pageCount, cfg.shardSize),
            SplitShard(d, idx)),
        cause)
  }

  /** Which of the three ways a text is produced: from its own layer; in one piece if one shard holds every page; else
      after a split. */
  lemma DispatchMeans(cfg: Config, d: DocId, hasTextLayer: bool, pageCount: nat, gcsPath: string, cause: Cause)
    requires cfg.Valid()
    ensures DispatchMsg(cfg, d, hasTextLayer, pageCount, gcsPath, cause) ==
            if hasTextLayer then Msg(d, TextEmbedded, DocumentRef(gcsPath, pageCount), cause)
            else if ShardCount(pageCount, cfg.shardSize) == 1
            then Msg(d, OcrShard, ShardRange(0, 1, 0, pageCount, Original(gcsPath)), cause)
            else Msg(d, OcrSplit, DocumentRef(gcsPath, pageCount), cause)
  {
    hide ShardCount;
    ShardCountOne(pageCount, cfg.shardSize);
  }

  /** Each shard message carries its own index and reads its own object; its pages are those of its range. */
  lemma ShardMsgMeans(cfg: Config, d: DocId, i: nat, j: nat, total: nat, pageCount: nat, cause: Cause, p: nat)
    requires cfg.Valid() && p < pageCount
    ensures var m := ShardMsg(cfg, d, i, total, pageCount, cause);
      && m.doc == d && m.topic == OcrShard && m.payload.ShardRange? && m.payload.idx == i && m.payload.total == total
      && (m.payload.start <= p < m.payload.end <==> i == p / cfg.shardSize)
      && (m.payload.path == ShardMsg(cfg, d, j, total, pageCount, cause).payload.path <==> i == j)
  {
    InRange(i, pageCount, cfg.shardSize, p);
  }

  function NewDoc(gcsPath: string, state: DocState, pageCount: Option<nat>, hasTextLayer: Option<bool>,
      docType: DocType, why: Option<LastError>, now: Time): Doc {
    Doc(gcsPath, state, now, 1, 0, 0, 0, 0, None, EMPTY_REPORT, pageCount, 0, hasTextLayer, docType, None, None, why)
  }

  /** INSERT ... ON CONFLICT DO NOTHING */
  function InsertDocument(t: Tables, d: DocId, doc: Doc): Option<Tables> {
    if d in t.docs then None else Some(t.(docs := t.docs[d := doc]))
  }

  // ---- The scatter-gather join ----

  function Recorded(t: Tables, d: DocId): set<nat> {
    if d in t.shards then t.shards[d] else {}
  }

  /** The claim and the increment, before the winner's own statements. */
  function CountShard(t: Tables, d: DocId, idx: nat): Tables
    requires d in t.docs
  {
    t.(shards := t.shards[d := Recorded(t, d) + {idx}],
       docs := t.docs[d := t.docs[d].(shardsDone := t.docs[d].shardsDone + 1)])
  }

  datatype JoinResult = Aborted | Done(tables: Tables, won: bool)

  /** Claims the shard, counts it, and fires the join when the count is full. Aborted is a rolled-back
      transaction: the foreign key or the winner's transition failed. */
  function RecordShard(t: Tables, d: DocId, idx: nat, now: Time): JoinResult {
    if d !in t.docs then Aborted
    else if idx in Recorded(t, d) then Done(t, false)
    else
      var t1 := CountShard(t, d, idx);
      if t1.docs[d].shardsDone != t1.docs[d].shardsTotal then Done(t1, false)
      else match Transition(t1, d, ExtractPending, {TextRunning}, now)
        case None => Aborted
        case Some(t2) => Done(Enqueue(t2, Msg(d, OcrCompleted, JustId, Join)), true)
  }

  /** The indices below `total` that are not recorded, in order. */
  function Missing(present: set<nat>, total: nat): seq<nat> {
    if total == 0 then []
    else Missing(present, total - 1) + (if total - 1 in present then [] else [total - 1])
  }

  // ---- Committing an extraction ----

  /** First writer wins: a row that already has a result is left alone. */
  function CommitExtraction(t: Tables, d: DocId, result: Extraction, gates: Report, final: DocState,
      payload: Option<Payload>, now: Time): (Tables, bool) {
    if d in t.docs && t.docs[d].result.None? then
      var t1 := t.(docs := t.docs[d := t.docs[d].(result := Some(result), gates := gates, state := final,
          updatedAt := now)]);
      (if payload.Some? then Enqueue(t1, Msg(d, DocumentExtracted, payload.value, Commit)) else t1, true)
    else (t, false)
  }

  /** No guard at all: neither the state nor the result is tested. */
  function RouteWithoutWriting(t: Tables, d: DocId, gates: Report, final: DocState, now: Time): Tables {
    if d in t.docs then t.(docs := t.docs[d := t.docs[d].(gates := gates, state := final, updatedAt := now)]) else t
  }

  function SetBusinessKey(t: Tables, d: DocId, vendor: Option<string>, invoiceNo: Option<string>): Tables {
    if d in t.docs then t.(docs := t.docs[d := t.docs[d].(vendor := vendor, invoiceNo := invoiceNo)]) else t
  }

  predicate SameKey(a: Doc, b: Doc) {
    a.vendor.Some? && a.invoiceNo.Some? && a.vendor == b.vendor && a.invoiceNo == b.invoiceNo
  }

  predicate KeyClash(docs: map<DocId, Doc>, d: DocId, e: DocId) {
    d in docs && e in docs && d != e && SameKey(docs[d], docs[e])
  }

  /** The unique index on (vendor, invoice_no): no state filter, nulls never clash. */
  predicate UniqueIndex(docs: map<DocId, Doc>) {
    forall d, e | d in docs && e in docs :: !KeyClash(docs, d, e)
  }

  /** Would giving row d this key violate the index? */
  predicate Violates(docs: map<DocId, Doc>, d: DocId, vendor: Option<string>, invoiceNo: Option<string>) {
    d in docs && exists e | e in docs :: KeyClash(docs[d := docs[d].(vendor := vendor, invoiceNo := invoiceNo)], d, e)
  }

  /** The completing transaction: set the key, then commit. None is the unique violation. */
  function CompleteTx(t: Tables, d: DocId, f: Fields, gates: Report, now: Time): Option<(Tables, bool)> {
    if Violates(t.docs, d, f.seller, f.invoiceNo) then None
    else Some(CommitExtraction(SetBusinessKey(t, d, f.seller, f.invoiceNo), d, HasFields(f), gates, Complete,
        Some(AutoPost(f, gates)), now))
  }

  /** The handler's last transaction: park the document in review, or complete it. None is the unique violation. */
  function FinishTx(t: Tables, d: DocId, fields: Option<Fields>, report: Report, autoPost: bool,
      now: Time): Option<Tables> {
    match fields
    case None => Some(CommitExtraction(t, d, NoFields, report, Review, None, now).0)
    case Some(f) =>
      if !autoPost then Some(CommitExtraction(t, d, HasFields(f), report.(killSwitch := Some(Fail)), Review, None,
          now).0)
      else match CompleteTx(t, d, f, report, now)
        case None => None
        case Some(r) => Some(r.0)
  }

  function CountAttempt(t: Tables, d: DocId): Tables {
    if d in t.docs then t.(docs := t.docs[d := t.docs[d].(extractAttempts := t.docs[d].extractAttempts + 1,
        repairAttempts := 0)]) else t
  }

  function CountRepairs(t: Tables, d: DocId, n: nat): Tables {
    if d in t.docs then t.(docs := t.docs[d := t.docs[d].(repairAttempts := t.docs[d].repairAttempts + n)]) else t
  }

  // ---- The sink ----

  /** payload.get("fields", {}) */
  function PostedFields(p: Payload): Extraction {
    if p.AutoPost? then HasFields(p.fields) else NoFields
  }

  function Post(t: Tables, m: Msg): Tables {
    if m.doc in t.posted then t else t.(posted := t.posted[m.doc := Posted(PostedFields(m.payload))])
  }

  // ---- First writer wins, one call ----

  /** A losing commit changes nothing at all; a winning one writes what was empty and, with a payload,
      enqueues exactly one document.extracted. */
  lemma CommitFirstWriter(t: Tables, d: DocId, result: Extraction, gates: Report, final: DocState,
      payload: Option<Payload>, now: Time)
    requires d in t.docs
    ensures var (t', won) := CommitExtraction(t, d, result, gates, final, payload, now);
      && (won <==> t.docs[d].result.None?)
      && (!won ==> t' == t)
      && (won ==> t'.docs[d].result == Some(result) && t'.docs[d].state == final && t'.docs[d].gates == gates &&
                  t'.docs[d].updatedAt == now &&
                  t'.sent == t.sent + (if payload.Some? then [Msg(d, DocumentExtracted, payload.value,
                      Commit)] else []))
      && (forall e | e in t.docs && e != d :: e in t'.docs && t'.docs[e] == t.docs[e])
  {
  }

  lemma {:induction false} MissingExactly(present: set<nat>, total: nat)
    ensures forall i: nat :: i in Missing(present, total) <==> i < total && i !in present
    ensures forall i, j | 0 <= i < j < |Missing(present, total)| ::
              Missing(present, total)[i] < Missing(present, total)[j]
  {
    if total > 0 {
      MissingExactly(present, total - 1);
      var ms := Missing(present, total - 1);
      forall i | 0 <= i < |ms| ensures ms[i] < total - 1 {
        assert ms[i] in ms;
      }
    }
  }
}

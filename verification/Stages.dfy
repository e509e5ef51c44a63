/** The transactions of triage, the PDF worker and the shard workers. */
module Stages {
  import opened Types
  import opened Pages
  import opened Ledger
  import opened Database

  /** What classification finds when it opens the object. */
  datatype Verdict = ZeroByte | UnsupportedMime | Encrypted | Corrupt | Readable

  /** The facts fixed by a document's bytes: its pages as the OCR engine and as the embedded text layer give them. */
  datatype Source = Source(
    gcsPath: string,
    verdict: Verdict,
    ocr: seq<string>,
    embedded: seq<string>,
    textLayer: bool,
    sane: bool,
    docType: DocType)

  // ---- Triage ----

  function TriageDoc(cfg: Config, src: Source, now: Time): Doc {
    match src.verdict
    case ZeroByte => NewDoc(src.gcsPath, Failed, None, None, Invoice, Some(TriageRejected("zero_byte_object")), now)
    case UnsupportedMime => NewDoc(src.gcsPath, Failed, None, None, Invoice, Some(TriageRejected("unsupported_mime")),
        now)
    case Encrypted => NewDoc(src.gcsPath, Review, None, None, Invoice, Some(TriageRejected("encrypted_pdf")), now)
    case Corrupt => NewDoc(src.gcsPath, Review, None, None, Invoice, Some(TriageRejected("corrupt_pdf")), now)
    case Readable =>
      if |src.ocr| > cfg.pageCeiling
      then NewDoc(src.gcsPath, Review, Some(|src.ocr|), None, Invoice, Some(TriageRejected("page_ceiling_exceeded")),
          now)
      else NewDoc(src.gcsPath, TextPending, Some(|src.ocr|), Some(src.textLayer), src.docType, None, now)
  }

  predicate Dispatched(cfg: Config, src: Source) {
    src.verdict == Readable && |src.ocr| <= cfg.pageCeiling
  }

  /** What triage makes of each verdict: dispatched documents start clean in text_pending, unreadable uploads have
      failed, and the rest is parked in review; whatever is not dispatched says why. */
  lemma TriageMeans(cfg: Config, src: Source, now: Time)
    ensures var doc := TriageDoc(cfg, src, now);
      && (doc.state == TextPending <==> Dispatched(cfg, src))
      && (doc.state == Failed <==> src.verdict in {ZeroByte, UnsupportedMime})
      && (doc.state == Review <==>
            src.verdict in {Encrypted, Corrupt} || (src.verdict == Readable && |src.ocr| > cfg.pageCeiling))
      && (doc.lastError.None? <==> Dispatched(cfg, src))
      && (doc.lastError.Some? ==> doc.lastError == Some(TriageRejected(Reason(src.verdict))))
      && (doc.pageCount == if src.verdict == Readable then Some(|src.ocr|) else None)
      && doc.hasTextLayer == (if Dispatched(cfg, src) then Some(src.textLayer) else None)
      && doc.shardsTotal == 1 && doc.shardsDone == doc.textAttempts == doc.extractAttempts == doc.repairAttempts == 0
      && doc.result.None? && doc.gates == EMPTY_REPORT && doc.vendor.None? && doc.invoiceNo.None?
      && doc.docType == (if Dispatched(cfg, src) then src.docType else Invoice)
      && doc.updatedAt == now && doc.gcsPath == src.gcsPath && doc.priority == 0
  {
  }

  /** Why an upload with this verdict is not dispatched. */
  function Reason(v: Verdict): string {
    match v
    case ZeroByte => "zero_byte_object"
    case UnsupportedMime => "unsupported_mime"
    case Encrypted => "encrypted_pdf"
    case Corrupt => "corrupt_pdf"
    case Readable => "page_ceiling_exceeded"
  }

  /** Insert, then dispatch in the same transaction; a second upload of the same bytes is a no-op. */
  function TriageTx(cfg: Config, t: Tables, d: DocId, src: Source, now: Time): Tables {
    match InsertDocument(t, d, TriageDoc(cfg, src, now))
    case None => t
    case Some(t1) =>
      if Dispatched(cfg, src)
      then Enqueue(t1, DispatchMsg(cfg, d, src.textLayer, |src.ocr|, src.gcsPath, Dispatch))
      else t1
  }

  method HandleGcsPath(db: Database, cfg: Config, d: DocId, src: Source, now: Time)
    requires db.Valid()
    modifies db
    ensures db.Valid() && db.View() == TriageTx(cfg, old(db.View()), d, src, now)
  {
    if src.verdict != Readable || |src.ocr| > cfg.pageCeiling {
      var _ := db.InsertInitialDocument(d, TriageDoc(cfg, src, now));
      return;
    }
    var topic := RouteTextProduction(cfg, src.textLayer, |src.ocr|);
    var doc := NewDoc(src.gcsPath, TextPending, Some(|src.ocr|), Some(src.textLayer), src.docType, None, now);
    var inserted := db.InsertInitialDocument(d, doc);
    if !inserted {
      return;
    }
    db.Enqueue(Msg(d, topic, DispatchPayload(topic, src.gcsPath, |src.ocr|), Dispatch));
  }

  // ---- text.embedded ----

  /** The fall-through also resets shards_total to 1. None is IllegalTransition. */
  function TextEmbeddedTx(cfg: Config, t: Tables, d: DocId, src: Source, gcsPath: string, now: Time): Option<Tables> {
    match Transition(t, d, TextRunning, {TextPending}, now)
    case None => None
    case Some(t1) =>
      if src.sane then
        match Transition(t1, d, ExtractPending, {TextRunning}, now)
        case None => None
        case Some(t2) => Some(Enqueue(t2, Msg(d, OcrCompleted, JustId, TierZero)))
      else
        var t2 := t1.(docs := t1.docs[d := t1.docs[d].(hasTextLayer := Some(false), shardsTotal := 1)]);
        var t3 := Enqueue(t2, DispatchMsg(cfg, d, false, |src.ocr|, gcsPath, FallThrough));
        Transition(t3, d, TextPending, {TextRunning}, now)
  }

  /** One transaction; on the tier-0 path the artifact is written before it commits. */
  method HandleTextEmbedded(db: Database, store: ObjectStore, cfg: Config, d: DocId, src: Source, gcsPath: string,
      now: Time) returns (ok: bool)
    requires db.Valid()
    modifies db, store`asm
    ensures db.Valid()
    ensures ok <==> TextEmbeddedTx(cfg, old(db.View()), d, src, gcsPath, now).Some?
    ensures db.View() == if ok then TextEmbeddedTx(cfg, old(db.View()), d, src, gcsPath, now).value else old(db.View())
    ensures store.asm == if ok && src.sane then old(store.asm)[d := AllPages(src.embedded)] else old(store.asm)
  {
    ok := db.Transition(d, TextRunning, {TextPending}, now);
    if !ok {
      return;
    }
    if !src.sane {
      var topic := RouteTextProduction(cfg, false, |src.ocr|);
      db.docs := db.docs[d := db.docs[d].(hasTextLayer := Some(false), shardsTotal := 1)];
      db.Enqueue(Msg(d, topic, DispatchPayload(topic, gcsPath, |src.ocr|), FallThrough));
      ok := db.Transition(d, TextPending, {TextRunning}, now);
      return;
    }
    var pages := new Page[|src.embedded|](i requires 0 <= i < |src.embedded| => Page(i, src.embedded[i]));
    assert pages[..] == AllPages(src.embedded);
    store.WriteAssembled(d, pages[..]);
    ok := db.Transition(d, ExtractPending, {TextRunning}, now);
    db.Enqueue(Msg(d, OcrCompleted, JustId, TierZero));
  }

  // ---- ocr.split ----

  /** No state guard: the authoritative totals, and one message per shard. */
  function CommitSplitTx(cfg: Config, t: Tables, d: DocId, total: nat, pageCount: nat): Tables {
    var t1 := if d in t.docs then t.(docs := t.docs[d := t.docs[d].(shardsTotal := total,
        pageCount := Some(pageCount))]) else t;
    EnqueueAll(t1, SplitMsgs(cfg, d, total, total, pageCount))
  }

  function SplitMsgs(cfg: Config, d: DocId, k: nat, total: nat, pageCount: nat): (ms: seq<Msg>)
    ensures |ms| == k
    ensures forall i | 0 <= i < k :: ms[i] == ShardMsg(cfg, d, i, total, pageCount, Split)
  {
    if k == 0 then []
    else SplitMsgs(cfg, d, k - 1, total, pageCount) + [ShardMsg(cfg, d, k - 1, total, pageCount, Split)]
  }

  /** The page ranges the split step cuts. */
  method DoSplit(cfg: Config, pageCount: nat) returns (total: nat, ranges: seq<(nat, nat)>)
    requires cfg.Valid()
    ensures total == ShardCount(pageCount, cfg.shardSize) && |ranges| == total
    ensures forall i | 0 <= i < total :: ranges[i] == (RangeStart(i, cfg.shardSize),
              RangeEnd(i, pageCount, cfg.shardSize))
  {
    total := (pageCount + cfg.shardSize - 1) / cfg.shardSize;
    if total < 1 {
      total := 1;
    }
    ranges := [];
    for idx := 0 to total
      invariant |ranges| == idx
      invariant forall i | 0 <= i < idx :: ranges[i] == (RangeStart(i, cfg.shardSize),
                RangeEnd(i, pageCount, cfg.shardSize))
    {
      var start := idx * cfg.shardSize;
      var end := if start + cfg.shardSize < pageCount then start + cfg.shardSize else pageCount;
      ranges := ranges + [(start, end)];
    }
  }

  method CommitSplitResult(db: Database, cfg: Config, d: DocId, total: nat, pageCount: nat)
    requires db.Valid()
    modifies db
    ensures db.Valid() && db.View() == CommitSplitTx(cfg, old(db.View()), d, total, pageCount)
    ensures d in old(db.docs) ==>
              db.docs == old(db.docs)[d := old(db.docs[d]).(shardsTotal := total, pageCount := Some(pageCount))]
    ensures |db.sent| == |old(db.sent)| + total && db.sent[..|old(db.sent)|] == old(db.sent)
    ensures forall i | 0 <= i < total ::
              db.sent[|old(db.sent)| + i] == ShardMsg(cfg, d, i, total, pageCount, Split)
  {
    if d in db.docs {
      db.docs := db.docs[d := db.docs[d].(shardsTotal := total, pageCount := Some(pageCount))];
    }
    var rows: seq<Msg> := [];
    for idx := 0 to total
      invariant rows == SplitMsgs(cfg, d, idx, total, pageCount)
    {
      rows := rows + [ShardMsg(cfg, d, idx, total, pageCount, Split)];
    }
    db.EnqueueMany(rows);
  }

  // ---- ocr.shard ----

  predicate IsShardMsg(m: Msg) {
    m.topic == OcrShard && m.payload.ShardRange? && m.payload.start <= m.payload.end
  }

  /** What the engine makes of a shard's page range: the pages there are. */
  function ShardText(src: Source, m: Msg): seq<Page>
    requires IsShardMsg(m)
  {
    var end := if m.payload.end < |src.ocr| then m.payload.end else |src.ocr|;
    if m.payload.start <= end then OcrRange(src.ocr, m.payload.start, end) else []
  }

  /** Exactly the pages of the range that the document has, in order, each with the engine's text. */
  lemma ShardTextMeans(src: Source, m: Msg, p: Page)
    requires IsShardMsg(m)
    ensures p in ShardText(src, m) <==> m.payload.start <= p.no < m.payload.end && p.no < |src.ocr| &&
                                        p.text == src.ocr[p.no]
    ensures forall i, j | 0 <= i < j < |ShardText(src, m)| :: ShardText(src, m)[i].no < ShardText(src, m)[j].no
  {
    if m.payload.start <= p.no < m.payload.end && p.no < |src.ocr| && p.text == src.ocr[p.no] {
      assert ShardText(src, m)[p.no - m.payload.start] == p;
    }
  }

  datatype ShardEnd = Illegal | RolledBack | Finished(won: bool)

  /** The worker undisturbed: advance the state, OCR and store the pages, then claim and join. */
  method HandleShard(db: Database, store: ObjectStore, src: Source, m: Msg, now: Time,
      later: Time) returns (end: ShardEnd)
    requires db.Valid() && IsShardMsg(m)
    modifies db, store`outs
    ensures db.Valid()
    ensures end.Illegal? <==> Transition(old(db.View()), m.doc, TextRunning, {TextPending}, now).None?
    ensures end.Illegal? ==> db.View() == old(db.View()) && store.outs == old(store.outs)
    ensures !end.Illegal? ==>
      var t1 := Transition(old(db.View()), m.doc, TextRunning, {TextPending}, now).value;
      && store.outs == old(store.outs)[(m.doc, m.payload.idx) := ShardText(src, m)]
      && (end.RolledBack? ==> RecordShard(t1, m.doc, m.payload.idx, later).Aborted? && db.View() == t1)
      && (end.Finished? ==> RecordShard(t1, m.doc, m.payload.idx, later) == Done(db.View(), end.won))
  {
    var ok := db.Transition(m.doc, TextRunning, {TextPending}, now);
    if !ok {
      return Illegal;
    }
    var pages: seq<Page> := [];
    var last := if m.payload.end < |src.ocr| then m.payload.end else |src.ocr|;
    var images := if m.payload.start <= last then last - m.payload.start else 0;
    for i := 0 to images
      invariant images > 0 ==> pages == OcrRange(src.ocr, m.payload.start, m.payload.start + i)
      invariant i == 0 ==> pages == []
    {
      var pageNo := m.payload.start + i;
      pages := pages + [Page(pageNo, src.ocr[pageNo])];
    }
    assert pages == ShardText(src, m);
    store.WriteShardOutput(m.doc, m.payload.idx, pages);
    var aborted, won := db.RecordShardAndMaybeJoin(m.doc, m.payload.idx, later);
    end := if aborted then RolledBack else Finished(won);
  }
}

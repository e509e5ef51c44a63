/** The rows, messages and reports the pipeline passes around. */
module Types {

  datatype Option<+T> = None | Some(value: T)

  /** A document is named by the checksum of its bytes. */
  type DocId = nat

  /** Database time, in microseconds. */
  type Time = int

  datatype DocState =
    | TextPending
    | TextRunning
    | ExtractPending
    | ExtractRunning
    | Complete
    | Review
    | Failed

  predicate IsText(s: DocState) {
    s.TextPending? || s.TextRunning?
  }

  predicate IsExtract(s: DocState) {
    s.ExtractPending? || s.ExtractRunning?
  }

  predicate InFlight(s: DocState) {
    IsText(s) || IsExtract(s)
  }

  datatype DocType = Invoice | Receipt | CreditMemo

  datatype LineItem = LineItem(description: string, amount: int)

  /** Schema-valid fields of one document; amounts are in cents. */
  datatype Fields = Fields(
    invoiceNo: Option<string>,
    seller: Option<string>,
    total: Option<int>,
    subtotal: Option<int>,
    tax: Option<int>,
    iban: Option<string>,
    lineItems: Option<seq<LineItem>>)

  const BLANK_FIELDS := Fields(None, None, None, None, None, None, None)

  /** A stored extraction result: the empty object, or the extracted fields. */
  datatype Extraction = NoFields | HasFields(fields: Fields)

  datatype Outcome = Pass | Fail | Inconclusive | NotApplicable

  datatype Tier = Cheap | Strong

  datatype OperatorNote = OperatorNote(actor: string, reason: string)

  /** The gate_results object: each key is absent (None) or present. */
  datatype Report = Report(
    layoutCache: Option<Outcome>,
    schema: Option<Outcome>,
    grounding: Option<Outcome>,
    arithmetic: Option<Outcome>,
    ibanCheck: Option<Outcome>,
    dedupe: Option<Outcome>,
    completeness: Option<Outcome>,
    killSwitch: Option<Outcome>,
    tierUsed: Option<Tier>,
    override: Option<OperatorNote>)

  const EMPTY_REPORT := Report(None, None, None, None, None, None, None, None, None, None)

  datatype LastError =
    | TriageRejected(why: string)
    | CapExceeded(state: DocState, attempts: nat, max: nat)

  /** One row of the documents table. */
  datatype Doc = Doc(
    gcsPath: string,
    state: DocState,
    updatedAt: Time,
    shardsTotal: nat,
    shardsDone: nat,
    textAttempts: nat,
    extractAttempts: nat,
    repairAttempts: nat,
    result: Option<Extraction>,
    gates: Report,
    pageCount: Option<nat>,
    priority: int,
    hasTextLayer: Option<bool>,
    docType: DocType,
    vendor: Option<string>,
    invoiceNo: Option<string>,
    lastError: Option<LastError>)

  datatype Topic = TextEmbedded | OcrSplit | OcrShard | OcrCompleted | DocumentExtracted

  /** Where a shard worker reads its bytes from. */
  datatype ObjectPath = Original(gcsPath: string) | SplitShard(doc: DocId, idx: nat)

  datatype Payload =
    | DocumentRef(gcsPath: string, pageCount: nat)
    | ShardRange(idx: nat, total: nat, start: nat, end: nat, path: ObjectPath)
    | JustId
    | AutoPost(fields: Fields, report: Report)
    | OperatorOverride

  /** Which code enqueued a message. A bookkeeping tag: no handler reads it. */
  datatype Cause =
    | Dispatch
    | FallThrough
    | TierZero
    | Split
    | Join
    | Sweep
    | Operator
    | Commit
    | Accept

  datatype Msg = Msg(doc: DocId, topic: Topic, payload: Payload, cause: Cause)

  /** What a consumer can tell apart: everything but the tag. */
  predicate SameMessage(a: Msg, b: Msg) {
    a.doc == b.doc && a.topic == b.topic && a.payload == b.payload
  }

  /** A text page as every text producer writes it. */
  datatype Page = Page(no: nat, text: string)

  /** The limits of config.py that the ledger depends on. Thresholds are in microseconds. */
  datatype Config = Config(
    shardSize: nat,
    pageCeiling: nat,
    maxText: nat,
    maxExtract: nat,
    maxRepair: nat,
    stuckText: nat,
    stuckExtract: nat)
  {
    predicate Valid() {
      shardSize >= 1
    }
  }
}

/** Stuck-state recovery: an ordered, capped claim of stuck rows, then one re-drive per claimed row. */
module Sweeper {
  import opened Types
  import opened Ledger
  import opened Database

  /** A row version some actor has read. */
  datatype Row = Row(doc: DocId, row: Doc)

  // ---- Selection ----

  /** Older than its stage's own threshold. */
  predicate Stuck(cfg: Config, doc: Doc, now: Time) {
    (IsText(doc.state) && doc.updatedAt < now - cfg.stuckText) ||
    (IsExtract(doc.state) && doc.updatedAt < now - cfg.stuckExtract)
  }

  function Eligible(cfg: Config, docs: map<DocId, Doc>, locked: set<DocId>, now: Time): set<DocId> {
    set d | d in docs && d !in locked && Stuck(cfg, docs[d], now)
  }

  /** ORDER BY priority DESC, state_updated_at ASC: a does not come after b. */
  predicate NotAfter(a: Doc, b: Doc) {
    a.priority > b.priority || (a.priority == b.priority && a.updatedAt <= b.updatedAt)
  }

  predicate Ordered(docs: map<DocId, Doc>, d: DocId, e: DocId) {
    d in docs && e in docs && NotAfter(docs[d], docs[e])
  }

  predicate Distinct(ids: seq<DocId>) {
    forall i, j | 0 <= i < j < |ids| :: ids[i] != ids[j]
  }

  /** What the query may return: at most `cap` unlocked stuck rows, in order, skipping none that sorts strictly
      earlier, and fewer than `cap` only when there are no more. Ties are the database's choice. */
  predicate IsBatch(cfg: Config, docs: map<DocId, Doc>, locked: set<DocId>, now: Time, cap: nat, ids: seq<DocId>) {
    var all := Eligible(cfg, docs, locked, now);
    && Distinct(ids) && |ids| <= cap
    && (forall d | d in ids :: d in all)
    && (forall i, j | 0 <= i < j < |ids| :: Ordered(docs, ids[i], ids[j]))
    && (forall d, e | d in ids && e in all && e !in ids :: Ordered(docs, d, e))
    && (|ids| < cap ==> forall e | e in all :: e in ids)
  }

  /** A batch in the terms of the query: rows that are not locked and whose state is older than its stage's threshold,
      by priority and then by age; and a row of that kind is left out only by a full batch of rows that sort no later
      than it. */
  lemma BatchIff(cfg: Config, docs: map<DocId, Doc>, locked: set<DocId>, now: Time, cap: nat, ids: seq<DocId>)
    ensures IsBatch(cfg, docs, locked, now, cap, ids) <==>
      && |ids| <= cap && (forall i, j | 0 <= i < j < |ids| :: ids[i] != ids[j])
      && (forall d | d in ids ::
            d in docs && d !in locked &&
            ((docs[d].state in {TextPending, TextRunning} && docs[d].updatedAt < now - cfg.stuckText) ||
             (docs[d].state in {ExtractPending, ExtractRunning} && docs[d].updatedAt < now - cfg.stuckExtract)))
      && (forall i, j | 0 <= i < j < |ids| && ids[i] in docs && ids[j] in docs ::
            docs[ids[i]].priority > docs[ids[j]].priority ||
            (docs[ids[i]].priority == docs[ids[j]].priority && docs[ids[i]].updatedAt <= docs[ids[j]].updatedAt))
      && (forall e | e in docs && e !in locked && e !in ids &&
            ((docs[e].state in {TextPending, TextRunning} && docs[e].updatedAt < now - cfg.stuckText) ||
             (docs[e].state in {ExtractPending, ExtractRunning} && docs[e].updatedAt < now - cfg.stuckExtract)) ::
            |ids| == cap &&
            forall d | d in ids && d in docs ::
              docs[d].priority > docs[e].priority ||
              (docs[d].priority == docs[e].priority && docs[d].updatedAt <= docs[e].updatedAt))
  {
    var all := Eligible(cfg, docs, locked, now);
    forall d ensures d in all <==> d in docs && d !in locked && Stuck(cfg, docs[d], now) { }
    if IsBatch(cfg, docs, locked, now, cap, ids) {
      forall i, j | 0 <= i < j < |ids| ensures Ordered(docs, ids[i], ids[j]) { }
      forall e, d | e in all && e !in ids && d in ids ensures Ordered(docs, d, e) { }
    }
  }

  lemma BatchInTable(cfg: Config, docs: map<DocId, Doc>, locked: set<DocId>, now: Time, cap: nat, ids: seq<DocId>)
    requires IsBatch(cfg, docs, locked, now, cap, ids)
    ensures forall i | 0 <= i < |ids| :: ids[i] in docs && ids[i] !in locked && Stuck(cfg, docs[ids[i]], now)
    ensures Distinct(ids)
  {
    forall i | 0 <= i < |ids| ensures ids[i] in Eligible(cfg, docs, locked, now) {
      assert ids[i] in ids;
    }
  }

  lemma {:induction false} FirstExists(docs: map<DocId, Doc>, s: set<DocId>) returns (d: DocId)
    requires s != {} && forall e | e in s :: e in docs
    ensures d in s && forall e | e in s :: Ordered(docs, d, e)
    decreases |s|
  {
    var x :| x in s;
    if s == {x} {
      d := x;
    } else {
      assert |s - {x}| < |s|;
      var y := FirstExists(docs, s - {x});
      d := if NotAfter(docs[x], docs[y]) then x else y;
      forall e | e in s ensures Ordered(docs, d, e) {
        assert e == x || e in s - {x};
      }
    }
  }

  /** SELECT ... ORDER BY ... LIMIT cap FOR UPDATE SKIP LOCKED */
  method SelectStuck(cfg: Config, docs: map<DocId, Doc>, locked: set<DocId>, now: Time,
      cap: nat) returns (ids: seq<DocId>)
    ensures IsBatch(cfg, docs, locked, now, cap, ids)
    ensures forall d | d in ids ::
              d in docs && d !in locked &&
              ((docs[d].state in {TextPending, TextRunning} && docs[d].updatedAt < now - cfg.stuckText) ||
               (docs[d].state in {ExtractPending, ExtractRunning} && docs[d].updatedAt < now - cfg.stuckExtract))
    ensures forall e | e in docs && e !in locked && e !in ids &&
              ((docs[e].state in {TextPending, TextRunning} && docs[e].updatedAt < now - cfg.stuckText) ||
               (docs[e].state in {ExtractPending, ExtractRunning} && docs[e].updatedAt < now - cfg.stuckExtract)) ::
              |ids| == cap &&
              forall d | d in ids && d in docs ::
                docs[d].priority > docs[e].priority ||
                (docs[d].priority == docs[e].priority && docs[d].updatedAt <= docs[e].updatedAt)
  {
    var all := Eligible(cfg, docs, locked, now);
    var rest := all;
    ids := [];
    while |ids| < cap && rest != {}
      invariant |ids| <= cap && Distinct(ids)
      invariant rest <= all
      invariant forall d :: d in ids <==> d in all && d !in rest
      invariant forall i, j | 0 <= i < j < |ids| :: Ordered(docs, ids[i], ids[j])
      invariant forall d, e | d in ids && e in rest :: Ordered(docs, d, e)
      decreases rest
    {
      ghost var w := FirstExists(docs, rest);
      var d :| d in rest && forall e | e in rest :: Ordered(docs, d, e);
      ids := ids + [d];
      rest := rest - {d};
    }
    BatchIff(cfg, docs, locked, now, cap, ids);
  }

  // ---- Claiming ----

  /** One claimed row: a running one spends an attempt or, at its cap, fails with a reason; a pending one is free. */
  function ClaimedDoc(cfg: Config, doc: Doc, now: Time): Doc {
    match doc.state
    case TextRunning =>
      if doc.textAttempts >= cfg.maxText
      then doc.(state := Failed, updatedAt := now, lastError := Some(CapExceeded(TextRunning, doc.textAttempts,
          cfg.maxText)))
      else doc.(state := TextPending, updatedAt := now, textAttempts := doc.textAttempts + 1)
    case ExtractRunning =>
      if doc.extractAttempts >= cfg.maxExtract
      then doc.(state := Failed, updatedAt := now, lastError := Some(CapExceeded(ExtractRunning, doc.extractAttempts,
          cfg.maxExtract)))
      else doc.(state := ExtractPending, updatedAt := now, extractAttempts := doc.extractAttempts + 1)
    case _ => doc.(updatedAt := now)
  }

  /** What a claim does to a row: only a running one spends anything. It goes back to its stage's pending state with
      one more attempt while it has any left, and otherwise fails with the attempts it made; a pending row is only
      touched. */
  ghost predicate ClaimMeans(cfg: Config, doc: Doc, doc': Doc, now: Time, failed: bool) {
    && doc'.updatedAt == now
    && doc' == doc.(state := doc'.state, updatedAt := now, textAttempts := doc'.textAttempts,
                    extractAttempts := doc'.extractAttempts, lastError := doc'.lastError)
    && (failed <==> (doc.state == TextRunning && doc.textAttempts >= cfg.maxText) ||
                    (doc.state == ExtractRunning && doc.extractAttempts >= cfg.maxExtract))
    && doc'.textAttempts == doc.textAttempts + (if doc.state == TextRunning && !failed then 1 else 0)
    && doc'.extractAttempts == doc.extractAttempts + (if doc.state == ExtractRunning && !failed then 1 else 0)
    && (!failed ==> doc'.lastError == doc.lastError &&
                    doc'.state == (if doc.state == TextRunning then TextPending
                                   else if doc.state == ExtractRunning then ExtractPending else doc.state))
    && (failed ==> doc'.state == Failed &&
                   doc'.lastError == Some(if doc.state == TextRunning
                                          then CapExceeded(TextRunning, doc.textAttempts, cfg.maxText)
                                          else CapExceeded(ExtractRunning, doc.extractAttempts, cfg.maxExtract)))
  }

  lemma ClaimedMeans(cfg: Config, doc: Doc, now: Time)
    ensures ClaimMeans(cfg, doc, ClaimedDoc(cfg, doc, now), now,
              IsRunning(doc.state) && ClaimedDoc(cfg, doc, now).state == Failed)
  {
  }

  function ClaimAll(cfg: Config, t: Tables, ids: seq<DocId>, now: Time): Tables {
    t.(docs := map d | d in t.docs :: if d in ids then ClaimedDoc(cfg, t.docs[d], now) else t.docs[d])
  }

  predicate IsRunning(s: DocState) {
    s.TextRunning? || s.ExtractRunning?
  }

  /** The rows that go on to be re-driven: all but those that just failed. */
  function Redriven(cfg: Config, t: Tables, ids: seq<DocId>, now: Time): seq<Row>
    requires forall i | 0 <= i < |ids| :: ids[i] in t.docs
  {
    if ids == [] then []
    else
      var last := ids[|ids| - 1];
      Redriven(cfg, t, ids[..|ids| - 1], now) +
      (if IsRunning(t.docs[last].state) && ClaimedDoc(cfg, t.docs[last],
          now).state == Failed then [] else [Row(last, t.docs[last])])
  }

  /** The rows that go on, exactly: as they were read, and not out of attempts. */
  lemma {:induction false} RedrivenExactly(cfg: Config, t: Tables, ids: seq<DocId>, now: Time, r: Row)
    requires forall i | 0 <= i < |ids| :: ids[i] in t.docs
    ensures r in Redriven(cfg, t, ids, now) <==>
      && r.doc in ids && r.doc in t.docs && r.row == t.docs[r.doc]
      && (r.row.state == TextRunning ==> r.row.textAttempts < cfg.maxText)
      && (r.row.state == ExtractRunning ==> r.row.extractAttempts < cfg.maxExtract)
  {
    if ids != [] {
      var init, last := ids[..|ids| - 1], ids[|ids| - 1];
      RedrivenExactly(cfg, t, init, now, r);
      assert ids == init + [last];
    }
  }

  method ClaimBatch(db: Database, cfg: Config, locked: set<DocId>, now: Time, cap: nat) returns (ids: seq<DocId>,
      claimed: seq<Row>)
    requires db.Valid()
    modifies db`docs
    ensures db.Valid()
    ensures IsBatch(cfg, old(db.docs), locked, now, cap, ids)
    ensures db.View() == ClaimAll(cfg, old(db.View()), ids, now)
    ensures (forall i | 0 <= i < |ids| :: ids[i] in old(db.docs)) && claimed == Redriven(cfg, old(db.View()), ids, now)
  {
    hide IsBatch, ClaimMeans, Stuck;
    ghost var was := db.View();
    ids := SelectStuck(cfg, db.docs, locked, now, cap);
    claimed := [];
    BatchInTable(cfg, was.docs, locked, now, cap, ids);
    assert db.docs == ClaimAll(cfg, was, ids[..0], now).docs;
    for k := 0 to |ids|
      invariant db.Valid()
      invariant db.View() == ClaimAll(cfg, was, ids[..k], now)
      invariant forall i | 0 <= i < k :: ids[..k][i] in was.docs
      invariant claimed == Redriven(cfg, was, ids[..k], now)
    {
      var d := ids[k];
      ClaimAllSnoc(cfg, was, ids, k, now);
      assert d in db.docs;
      var row := db.docs[d];
      var failed := ClaimRow(db, cfg, d, now);
      assert ids[..k + 1][..k] == ids[..k];
      if !failed {
        claimed := claimed + [Row(d, row)];
      }
    }
    assert ids[..|ids|] == ids;
  }

  lemma ClaimAllSnoc(cfg: Config, t: Tables, ids: seq<DocId>, k: nat, now: Time)
    requires Distinct(ids) && k < |ids| && ids[k] in t.docs
    ensures ClaimAll(cfg, t, ids[..k], now).docs[ids[k]] == t.docs[ids[k]]
    ensures ClaimAll(cfg, t, ids[..k + 1], now).docs == ClaimAll(cfg, t, ids[..k],
              now).docs[ids[k] := ClaimedDoc(cfg, t.docs[ids[k]], now)]
  {
    assert ids[..k + 1] == ids[..k] + [ids[k]];
  }

  /** The body of the claim loop for one locked row. */
  method ClaimRow(db: Database, cfg: Config, d: DocId, now: Time) returns (failed: bool)
    requires db.Valid() && d in db.docs
    modifies db`docs
    ensures db.Valid() && db.docs == old(db.docs)[d := ClaimedDoc(cfg, old(db.docs[d]), now)]
    ensures failed <==> ClaimedDoc(cfg, old(db.docs[d]), now).state == Failed && IsRunning(old(db.docs[d]).state)
    ensures ClaimMeans(cfg, old(db.docs[d]), db.docs[d], now, failed)
  {
    var row := db.docs[d];
    var target := row.state;
    failed := false;
    if IsRunning(row.state) {
      var attempts := if row.state.TextRunning? then row.textAttempts else row.extractAttempts;
      var max := if row.state.TextRunning? then cfg.maxText else cfg.maxExtract;
      if attempts >= max {
        var ok := db.Transition(d, Failed, Predecessors(Failed), now);
        db.docs := db.docs[d := db.docs[d].(lastError := Some(CapExceeded(row.state, attempts, max)))];
        return true;
      }
      if row.state.TextRunning? {
        db.docs := db.docs[d := row.(textAttempts := attempts + 1)];
        target := TextPending;
      } else {
        db.docs := db.docs[d := row.(extractAttempts := attempts + 1)];
        target := ExtractPending;
      }
    }
    var ok := db.Transition(d, target, Predecessors(target), now);
  }

  // ---- Re-driving ----

  /** Truthiness of has_text_layer. */
  predicate Truthy(b: Option<bool>) {
    b == Some(true)
  }

  function ShardMsgs(cfg: Config, d: DocId, ids: seq<nat>, total: nat, pageCount: nat, cause: Cause): (ms: seq<Msg>)
    ensures |ms| == |ids|
    ensures forall i | 0 <= i < |ids| :: ms[i] == ShardMsg(cfg, d, ids[i], total, pageCount, cause)
  {
    if ids == [] then []
    else ShardMsgs(cfg, d, ids[..|ids| - 1], total, pageCount,
        cause) + [ShardMsg(cfg, d, ids[|ids| - 1], total, pageCount, cause)]
  }

  /** The messages the row's stage needs again. The row may be stale; the recorded shards are read now.
      A row without a page count cannot be routed: the exception enqueues nothing. */
  function RedriveMsgs(cfg: Config, t: Tables, r: Row, cause: Cause): seq<Msg> {
    var doc := r.row;
    if IsText(doc.state) && doc.pageCount.None? then []
    else if IsText(doc.state) && doc.shardsTotal <= 1 then
      [DispatchMsg(cfg, r.doc, Truthy(doc.hasTextLayer), doc.pageCount.value, doc.gcsPath, cause)]
    else if doc.state.TextRunning? then
      ShardMsgs(cfg, r.doc, Missing(Recorded(t, r.doc), doc.shardsTotal), doc.shardsTotal, doc.pageCount.value, cause)
    else if doc.state.TextPending? then
      [Msg(r.doc, OcrSplit, DocumentRef(doc.gcsPath, doc.pageCount.value), cause)]
    else if IsExtract(doc.state) then [Msg(r.doc, OcrCompleted, JustId, cause)]
    else []
  }

  lemma ShardMsgsSnoc(cfg: Config, d: DocId, ids: seq<nat>, k: nat, total: nat, pageCount: nat, cause: Cause)
    requires k < |ids|
    ensures ShardMsgs(cfg, d, ids[..k + 1], total, pageCount, cause) ==
            ShardMsgs(cfg, d, ids[..k], total, pageCount, cause) + [ShardMsg(cfg, d, ids[k], total, pageCount, cause)]
  {
    assert ids[..k + 1][..k] == ids[..k];
  }

  method EnqueueShards(db: Database, cfg: Config, d: DocId, missing: seq<nat>, total: nat, pageCount: nat, cause: Cause)
    requires db.Valid()
    modifies db
    ensures db.Valid() && db.View() == EnqueueAll(old(db.View()), ShardMsgs(cfg, d, missing, total, pageCount, cause))
  {
    ghost var was := db.View();
    EnqueueNothing(was);
    for k := 0 to |missing|
      invariant db.Valid()
      invariant db.View() == EnqueueAll(was, ShardMsgs(cfg, d, missing[..k], total, pageCount, cause))
    {
      ShardMsgsSnoc(cfg, d, missing, k, total, pageCount, cause);
      EnqueueSnoc(was, ShardMsgs(cfg, d, missing[..k], total, pageCount, cause),
          ShardMsg(cfg, d, missing[k], total, pageCount, cause));
      db.Enqueue(ShardMsg(cfg, d, missing[k], total, pageCount, cause));
    }
    assert missing[..|missing|] == missing;
  }

  method RedriveDocument(db: Database, cfg: Config, r: Row, cause: Cause)
    requires db.Valid()
    modifies db
    ensures db.Valid() && db.View() == EnqueueAll(old(db.View()), RedriveMsgs(cfg, old(db.View()), r, cause))
  {
    hide EnqueueAll, ShardMsgs, DispatchMsg, Missing;
    var doc := r.row;
    EnqueueNothing(db.View());
    if IsText(doc.state) && doc.pageCount.None? {
      return;
    }
    if IsText(doc.state) && doc.shardsTotal <= 1 {
      db.EnqueueMany([DispatchMsg(cfg, r.doc, Truthy(doc.hasTextLayer), doc.pageCount.value, doc.gcsPath, cause)]);
      return;
    }
    if doc.state.TextRunning? {
      var missing := db.MissingShards(r.doc, doc.shardsTotal);
      EnqueueShards(db, cfg, r.doc, missing, doc.shardsTotal, doc.pageCount.value, cause);
      return;
    }
    if doc.state.TextPending? {
      db.EnqueueMany([Msg(r.doc, OcrSplit, DocumentRef(doc.gcsPath, doc.pageCount.value), cause)]);
    } else if IsExtract(doc.state) {
      db.EnqueueMany([Msg(r.doc, OcrCompleted, JustId, cause)]);
    }
  }

  /** Re-drives in sequence, each seeing the tables its predecessors left. */
  function RedriveAll(cfg: Config, t: Tables, rows: seq<Row>): Tables {
    if rows == [] then t
    else
      var t1 := RedriveAll(cfg, t, rows[..|rows| - 1]);
      EnqueueAll(t1, RedriveMsgs(cfg, t1, rows[|rows| - 1], Sweep))
  }

  method SweepOnce(db: Database, cfg: Config, locked: set<DocId>, now: Time, cap: nat) returns (ids: seq<DocId>,
      claimed: seq<Row>)
    requires db.Valid()
    modifies db
    ensures db.Valid()
    ensures IsBatch(cfg, old(db.docs), locked, now, cap, ids)
    ensures (forall i | 0 <= i < |ids| :: ids[i] in old(db.docs)) && claimed == Redriven(cfg, old(db.View()), ids, now)
    ensures db.View() == RedriveAll(cfg, ClaimAll(cfg, old(db.View()), ids, now), claimed)
  {
    ids, claimed := ClaimBatch(db, cfg, locked, now, cap);
    ghost var mid := db.View();
    for k := 0 to |claimed|
      invariant db.Valid()
      invariant db.View() == RedriveAll(cfg, mid, claimed[..k])
    {
      assert claimed[..k + 1][..k] == claimed[..k];
      RedriveDocument(db, cfg, claimed[k], Sweep);
    }
    assert claimed[..|claimed|] == claimed;
  }
}

/** The operator's two writes, as methods over the database, against the steps of the protocol. */
module Operator {
  import opened Types
  import opened Ledger
  import opened Database
  import opened Sweeper
  import opened Protocol

  /** Where a row may be re-driven to; None is the refusal. `assembled` tells whether the artifact exists. */
  method RedriveTargetState(row: Doc, assembled: bool) returns (target: Option<DocState>)
    ensures target == RedriveTarget(row, assembled)
    ensures target.Some? ==> Allowed(row.state, target.value)
    ensures row.state == Review ==> target == Some(ExtractPending)
    ensures row.state == Failed && row.pageCount.Some? ==>
              target == Some(if assembled then ExtractPending else TextPending)
    ensures row.state !in {Review, Failed} || (row.state == Failed && row.pageCount.None?) ==> target.None?
  {
    if row.state == Review {
      return Some(ExtractPending);
    }
    if row.state == Failed {
      if row.pageCount.None? {
        return None;
      }
      return Some(if assembled then ExtractPending else TextPending);
    }
    target := None;
  }

  /** The row was read without a lock, so by now it may be stale: the transition decides. A refusal leaves no trace. */
  method ForceRedrive(db: Database, env: Env, seen: OpRead, now: Time, ghost w: World) returns (ok: bool)
    requires db.Valid() && db.View() == w.t && w.now == now && seen in w.opReads
    modifies db
    ensures db.Valid()
    ensures ok <==> DoForceRedrive(env, w, seen).Some?
    ensures db.View() == if ok then DoForceRedrive(env, w, seen).value.t else w.t
  {
    hide RedriveMsgs, EnqueueAll;
    var target := RedriveTargetState(seen.row, seen.assembled);
    if target.None? {
      return false;
    }
    ok := db.Transition(seen.doc, target.value, Predecessors(target.value), now);
    if ok {
      RedriveDocument(db, env.cfg, Row(seen.doc, seen.row.(state := target.value)), Operator);
    }
  }

  /** The gates are stamped first; when the transition is refused the stamp is rolled back with it. */
  method AcceptReview(db: Database, env: Env, seen: OpRead, note: OperatorNote, now: Time,
      ghost w: World) returns (ok: bool)
    requires db.Valid() && db.View() == w.t && w.now == now && seen in w.opReads
    modifies db
    ensures db.Valid()
    ensures ok <==> DoAcceptReview(w, seen, note).Some?
    ensures db.View() == if ok then DoAcceptReview(w, seen, note).value.t else w.t
  {
    if seen.row.state != Review || seen.doc !in db.docs {
      return false;
    }
    var savedDocs := db.docs;
    db.docs := db.docs[seen.doc := db.docs[seen.doc].(gates := seen.row.gates.(override := Some(note)))];
    ok := db.Transition(seen.doc, Complete, {Review}, now);
    if !ok {
      db.Rollback(savedDocs, db.shards, db.outbox, db.nextId, db.sent);
      return;
    }
    db.Enqueue(Msg(seen.doc, DocumentExtracted, OperatorOverride, Accept));
  }

  // ---- What the two writes promise ----

  /** Accepting works exactly on a document that is in review, or already complete through someone else's accept or a
      handler's commit since it was read; it then carries the override and posts. */
  lemma AcceptWorks(w: World, seen: OpRead, note: OperatorNote)
    requires seen in w.opReads && seen.row.state == Review
    ensures DoAcceptReview(w, seen, note).Some? <==>
              seen.doc in w.t.docs && w.t.docs[seen.doc].state in {Review, Complete}
    ensures DoAcceptReview(w, seen, note).Some? ==>
              var t' := DoAcceptReview(w, seen, note).value.t;
              && seen.doc in t'.docs && t'.docs[seen.doc].state == Complete
              && t'.docs[seen.doc].gates == seen.row.gates.(override := Some(note))
              && t'.docs[seen.doc].result == w.t.docs[seen.doc].result
              && t'.sent == w.t.sent + [Msg(seen.doc, DocumentExtracted, OperatorOverride, Accept)]
  {
  }

  /** A re-drive from a fresh read always goes through: the state machine allows its edge. */
  lemma FreshRedriveWorks(env: Env, w: World, d: DocId)
    requires d in w.t.docs && OpRead(d, w.t.docs[d], d in w.assembled) in w.opReads
    ensures DoForceRedrive(env, w, OpRead(d, w.t.docs[d], d in w.assembled)).Some? <==>
              w.t.docs[d].state == Review || (w.t.docs[d].state == Failed && w.t.docs[d].pageCount.Some?)
  {
    hide RedriveMsgs;
    var r := OpRead(d, w.t.docs[d], d in w.assembled);
    if RedriveTarget(r.row, r.assembled).Some? {
      var target := RedriveTarget(r.row, r.assembled).value;
      assert r.row.state in Predecessors(target);
    }
  }

  /** Where a re-drive from a fresh read leads: to extraction if the document was in review or its text exists, and
      otherwise back to text production. To extraction it sends one ocr.completed and nothing else. */
  lemma RedriveLeads(env: Env, w: World, d: DocId, w': World)
    requires d in w.t.docs
    requires var r := OpRead(d, w.t.docs[d], d in w.assembled);
      Next(env, w, Recover(RecoverAction.ForceRedrive(r))) == Some(w')
    ensures d in w'.t.docs && w'.t.docs == w.t.docs[d := w'.t.docs[d]]
    ensures w.t.docs[d].state == Review || d in w.assembled ==>
              && w'.t.docs[d] == w.t.docs[d].(state := ExtractPending, updatedAt := w.now)
              && w'.t.sent == w.t.sent + [Msg(d, OcrCompleted, JustId, Types.Operator)]
    ensures w.t.docs[d].state != Review && d !in w.assembled ==>
              w'.t.docs[d] == w.t.docs[d].(state := TextPending, updatedAt := w.now)
  {
    hide NextText, NextExtract, NextBroker, EnqueueAll, DispatchMsg, ShardMsgs;
    var r := OpRead(d, w.t.docs[d], d in w.assembled);
    var target := RedriveTarget(r.row, r.assembled).value;
    var t := Transition(w.t, d, target, Predecessors(target), w.now).value;
    EnqueueAllFacts(t, RedriveMsgs(env.cfg, t, Row(d, r.row.(state := target)), Operator));
  }

  /** A stale read decides where to; the guard of the transition decides whether. */
  lemma StaleRedriveLeads(env: Env, w: World, r: OpRead, w': World)
    requires Next(env, w, Recover(RecoverAction.ForceRedrive(r))) == Some(w')
    ensures r.doc in w.t.docs && r.doc in w'.t.docs && r.row.state in {Review, Failed}
    ensures w'.t.docs[r.doc].state ==
              if r.row.state == Review || r.assembled then ExtractPending else TextPending
    ensures w.t.docs[r.doc].state == w'.t.docs[r.doc].state || Allowed(w.t.docs[r.doc].state, w'.t.docs[r.doc].state)
  {
    hide NextText, NextExtract, NextBroker, EnqueueAll, RedriveMsgs;
    var target := RedriveTarget(r.row, r.assembled).value;
    var t := Transition(w.t, r.doc, target, Predecessors(target), w.now).value;
    EnqueueAllFacts(t, RedriveMsgs(env.cfg, t, Row(r.doc, r.row.(state := target)), Operator));
  }
}

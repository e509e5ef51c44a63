# A verified model of the document pipeline's ledger protocol

The pipeline moves a document from upload to a posted extraction through several kinds of actor: triage, the PDF
worker, shard workers, extraction workers, outbox relays, the sweeper and an operator. They share four tables, an
object store and a broker log, and each does its work as a sequence of short transactions. Deliveries repeat, processes
die between transactions, and the guards of the individual statements are partial: a transition accepts its own target
state, and the commit and the route of an extraction test no state at all. What the system promises therefore only
holds over whole runs. This project models the transactions one by one and proves those promises.

## How the model is built

- `Types`, `Ledger`: the rows, messages and reports, and each transaction of the ledger as a function on the tables.
- `Database`, `Pages.ObjectStore`, `Outbox.Producer`: the same tables, the object store and the producer as objects
  updated in place. Each method is proved equal to its ledger function. `Stages`, `Sweeper`, `Operator`, `Outbox` and
  `Extraction` hold the actors' own code as methods over these objects, with the loops the program has.
- `Pages`, `Money`, `Iban`, `Gates`, `Funnel`: splitting and reassembly, the money printer and parser, the MOD 97-10
  check, the gates, and the two-tier extraction funnel against an arbitrary script of model replies.
- `Protocol`: the transition system. A `World` is the tables, the objects, the broker log and every actor's open work.
  An `Action` is one committed transaction, one object written, or one event of the broker or the clock, and `Next` says
  what it does (`None` when it cannot happen, or is refused and rolled back). A run (`IsRun`) is any sequence of them:
  any interleaving, duplicate delivery, abandoned handlers, any number of handlers and relays, stale unlocked operator
  reads, late landings of messages whose relay rolled back.
- `Frames`, `Basics`: what each group of actors can touch, and an invariant that needs no hypothesis.
- `Artifacts`, `Joining`, `Storage`, `Stranding`, `Redriving`, `Verdicts`, `Completing`, `Reviews`, `Unique`,
  `FirstWriter`, `Keys`, `Retries`, `Fairness`, `LiveWork`, `HeldBack`, `Relaying`: the theorems over whole runs, each
  with its invariant.
- `Progress`: the other direction. `Leads(env, rules, v, w)` says that a run within the chosen hypotheses reaches w by
  way of v. The actors' methods are sequences of protocol steps, and from any world reached there are continuations that
  take one document on. `Journeys` takes a document from upload to posting, read in however many shards; `Reopening`
  does it for documents in review, `Overrides` follows an operator's accept, `Undispatched` the uploads that triage
  parks or fails, and `Hypotheses` gives runs in which one hypothesis is dropped.

Each `Protocol.Do...` function is one step: `DoTriage` docpipeline/stages/triage_1.py:36-100, `DoEmbeddedWrite` and
`DoEmbeddedCommit` docpipeline/stages/pdf_worker_2.py:26-65, `DoSplitBegin` and `DoSplitCommit`
docpipeline/stages/pdf_worker_2.py:68-102, `DoShardBegin`, `DoShardWrite` and `DoShardRecord`
docpipeline/stages/ocr_shard_3.py:34-64, `DoStart` to `DoReroute` docpipeline/stages/extraction_4.py:147-242,
`DoSweepClaim` and `DoSweepRedrive` docpipeline/reconciliation/sweeper.py:27-133, `DoOperatorRead`, `DoForceRedrive`
and `DoAcceptReview` docpipeline/reconciliation/operator.py:54-150, the `DoRelay...` steps
docpipeline/core/outbox.py:26-89, `DoSinkPost` docpipeline/stages/sink_stub_5.py:21-30.

## Hypotheses

They are defined once, in `Protocol`, and each theorem names those it needs.

- `H1`: at most one extraction handler is active per document. Its transition does not see to that: a second delivery
  starts a second handler (`Hypotheses.SecondDeliveryStarts`). A complete document leaves complete in exactly the steps
  that `Hypotheses.LeavesComplete` names, and `Hypotheses.WithoutH1` gives a run in which one does.
- `H2`: no `text.embedded` is handled for a document whose split has committed. `Hypotheses.WithoutH2` gives a run
  without it in which the join fires at the first of several shards. It can fail only for a document whose embedded text
  was found unusable (`Hypotheses.SplitDocumentsKeepH2`).
- `H3`: no forced re-drive takes a document whose join has fired back to `text_pending`. What it keeps out is exactly
  the one row a re-drive has nothing to send for (`Stranding.NothingToSend`); `Hypotheses.WithoutH3` gives a run without
  it that puts any document that is split there.
- Each of these runs keeps the other two hypotheses, and all three exist in one concrete system
  (`Hypotheses.EachHypothesisIsNeeded`).
- Object bytes do not change, the split of a document is a function of its bytes, SHARD_SIZE_PAGES is at least 1, and
  database time does not run backwards (`Env.Valid`, `Tick`).

## Where the code and its prose differ

The model follows the code.

- A losing worker is said to match zero rows and change nothing. It still overwrites vendor and invoice_no;
  `FirstWriter.LosingCommitKey` says exactly when.
- A document held back in review is said not to occupy the business key, so that it cannot block another one
  (docpipeline/stages/extraction_4.py:204-210). The write that parks it does keep the key out; but after a forced
  re-drive its losing commit writes it. A row that is not complete holds a key only from such a commit
  (`Keys.IncompleteKeyWasLost`), each such commit leaves one (`Keys.LosingWriteHoldsKey`), and what refuses a commit is
  always a complete document or such a row (`Keys.RefusedBecause`). `Reopening.LostKeyBlocks` gives the run, and
  `Hypotheses.ExampleKeyBlocked` one concrete system: a commit is refused although no document is complete and its
  dedupe gate passes.
- A forced re-drive of a document in review is offered as a retry. It is one exactly for a document without a result:
  `Reopening.RetryCompletesIff`. One whose gates were exhausted has a result, and only an override completes it:
  `FirstWriter.HeldBackNeedsOverride`. Left alone, it ends failed at its cap, or in review again after a refused commit:
  `HeldBack.HeldBackFate`.
- `completeness` is described as an exact union of pages, but is handed the set of page numbers, so by itself it does
  not see a page that occurs twice. A list that passes is free of repeats exactly when it has as many pages as the
  document (`Pages.CompleteWithoutRepeats`). In the pipeline the difference does not matter: no artifact of any run
  repeats a page, and one that passes is the whole direct pass (`Artifacts.ArtifactsRepeatNothing`).
- Accepting a review also passes when the document is already complete, and stamps the gate results as they were read
  (`Operator.AcceptWorks`). So a document can have more than one `document.extracted`: two operators who both read it
  in review and then both accept it give it two, from any world reached (`Overrides.AcceptedTwice`). A complete document
  has one, and one more for every accept that found it complete (`Overrides.ExtractedCount`). The sink still posts one
  row. It holds the result, or nothing after an accept (`Overrides.PostedResultOrNothing`); when a stale accept follows
  an automatic completion, either can happen (`Overrides.EitherIsPosted`).
- Triage parks encrypted and corrupt uploads, and those over the page ceiling, in review without dispatching them; a
  forced re-drive takes any document in review to extract_pending. Ledger and storage then disagree: the document waits
  for extraction, and nothing is stored for it. Within the hypotheses this is reachable for exactly these uploads
  (`Undispatched.UnbackedIff`). The theorems that speak of a dispatched document exclude them.

## Model

| member | source | states |
|---|---|---|
| `Pages.RangesAdjacent` | docpipeline/stages/pdf_worker_2.py:79-81 | the shard ranges start at page 0, touch one another, and end at the last page |
| `Pages.RangesPartition` | docpipeline/stages/pdf_worker_2.py:78-81 | every page lies in exactly one of the max(1, ceil(n/s)) shard ranges |
| `Pages.SortCorrect` | docpipeline/stages/extraction_4.py:62-62 | sorting the pages orders them by number and loses or invents none |
| `Pages.SortStable` | docpipeline/stages/extraction_4.py:62-62 | pages of the same number keep their order |
| `Pages.SortInPlace` | docpipeline/stages/extraction_4.py:62-62 | the in-place sort leaves in the array the stable sort of what was there |
| `Pages.ObjectStore.EnsureAssembled` | docpipeline/stages/extraction_4.py:47-64 | returns an existing artifact untouched, else stores and returns the sorted pages of all shard outputs, or reports a missing one and stores nothing |
| `Pages.AssembledMeans` | docpipeline/stages/extraction_4.py:47-64 | assembling fails iff an output is missing, and otherwise gives exactly the pages of all outputs, ordered by number |
| `Pages.ShardedEqualsUnsharded` | docpipeline/stages/extraction_4.py:47-64 | once every shard output is stored, assembly yields pages 0..n-1 in order, once each, with the engine's text of that page; completeness passes, and the source text is every one of those texts whole and in order, one newline between neighbours and nothing else |
| `Pages.JoinLinesJoins` | docpipeline/stages/extraction_4.py:182-182 | the joined text has each page whole at its place, a newline before the next, and the length this takes |
| `Pages.SourceTextMeans` | docpipeline/stages/extraction_4.py:182-182 | the source text of any page list is that of exactly its pages, ordered by number |
| `Pages.JoinLinesConcat` | docpipeline/stages/extraction_4.py:182-182 | the text of two non-empty page lists is the text of the one, a newline, and the text of the other |
| `Pages.CompleteWithoutRepeats` | docpipeline/core/gates.py:109-119 | a page list that passes completeness has at least the expected number of pages, and repeats none iff it has exactly that number |
| `Money.PrintThenParse` | docpipeline/core/gates.py:44-46 | the plain and grouped signed forms of any amount, with or without a dollar sign, read back as the amount, the unsigned form as its absolute value |
| `Money.ParenthesesParse` | docpipeline/core/gates.py:44-46 | the parenthesised form of any amount reads back as minus its absolute value |
| `Money.ParseThenPrint` | docpipeline/stages/deterministic_extractor.py:32-37 | every printed form is among the printed forms of the amount read from it |
| `Money.PrintedForms` | docpipeline/core/gates.py:44-46 | the printed forms are exactly the plain numeral with and without its sign, the one with a comma before every third digit with its sign, and that one in parentheses |
| `Money.WhitespaceIgnored` | docpipeline/stages/deterministic_extractor.py:32-37 | white space around an amount does not change what is read |
| `Money.DollarIgnored` | docpipeline/stages/deterministic_extractor.py:32-37 | nor does a dollar sign, with or without white space behind it |
| `Iban.CleanEach` | docpipeline/core/gates.py:99-99 | cleaning goes character by character: blanks go, small letters become capitals |
| `Iban.UpperIs` | docpipeline/core/gates.py:99-99 | each small letter becomes its capital, and nothing else changes |
| `Iban.ValueIsPlace` | docpipeline/core/gates.py:102-102 | a character's value is its place in the alphabet of base 36 |
| `Iban.PlaceIsValid` | docpipeline/core/gates.py:102-102 | every character of that alphabet has a value |
| `Iban.RearrangeRotates` | docpipeline/core/gates.py:101-101 | rearranging turns the string by four places |
| `Iban.NumeralIsBig` | docpipeline/core/gates.py:102-103 | joining the decimal numerals of the characters and parsing the result gives the number of the character-by-character recurrence |
| `Iban.BigEqualsFold` | docpipeline/core/gates.py:101-103 | for strings of any length the remainder of the number that the joined numerals denote equals a character-by-character remainder fold |
| `Iban.SubstitutionDetected` | docpipeline/core/gates.py:101-103 | replacing a digit by another digit or a letter by another letter changes the remainder |
| `Iban.TranspositionDetected` | docpipeline/core/gates.py:101-103 | swapping two different neighbours of one kind changes the remainder |
| `Iban.GateCatchesSubstitution` | docpipeline/core/gates.py:95-106 | a passing IBAN, however written with blanks and in either case, fails after any such substitution, wherever it stands |
| `Iban.GateCatchesTransposition` | docpipeline/core/gates.py:95-106 | a passing IBAN, however written, fails after any such swap in its rearranged form |
| `Gates.Grounding` | docpipeline/core/gates.py:49-64 | the loop names exactly the unsupported fields, and passes iff there is none |
| `Gates.NameGroundedIff` | docpipeline/core/gates.py:54-58 | a name is supported iff it is absent or empty, or lowered is a contiguous part of the lowered text |
| `Gates.LowerCase` | docpipeline/core/gates.py:54-57 | lowering turns each capital into its small letter and changes nothing else |
| `Gates.SumConcat` | docpipeline/core/gates.py:82-82 | the sum over two lists of items is the sum of their sums, and that of one item its amount |
| `Gates.GroundingAcceptsReadTotal` | docpipeline/core/gates.py:59-61 | a total read from any printed form in the text is accepted |
| `Gates.ArithmeticPasses` | docpipeline/core/gates.py:67-92 | arithmetic passes iff the document is an invoice with line items, total = sum + tax and any declared subtotal = sum; it is not applicable iff it is no invoice, and inconclusive iff an invoice lacks items, or lacks a total and no subtotal contradicts |
| `Gates.DedupeIff` | docpipeline/core/gates.py:146-157 | dedupe fails iff another complete document holds the non-empty key, and does not apply iff the key is incomplete |
| `Gates.ClearedIffSound` | docpipeline/core/gates.py:159-169 | no gate blocks iff the fields are grounded, add up on an invoice, and no other complete document holds their non-empty key |
| `Funnel.RunFunnel` | docpipeline/stages/extraction_4.py:67-144 | the nested tier and repair loops compute, for every script of replies, the tier-by-tier verdict, report, repairs and call counts of the specification |
| `Funnel.FunnelCallBound` | docpipeline/config.py:157-170 | at most MAX_REPAIR_ATTEMPTS + 1 calls per tier and twice that in all, whatever the model answers |
| `Funnel.FunnelAnswers` | docpipeline/stages/extraction_4.py:121-144 | from the replies alone: the answer is the cheap tier's if it clears, else, if the cheap tier hands over, the strong tier's if that clears; there is none iff a tier that was asked refused or both handed over; the strong tier is asked iff the cheap one hands over |
| `Funnel.CallsMade` | docpipeline/stages/extraction_4.py:77-119 | each tier that is asked is called up to and including its first reply that asks for no repair or retry |
| `Funnel.RepairsMade` | docpipeline/stages/extraction_4.py:100-119 | the repairs counted are the unparseable and schema-invalid replies among the calls made |
| `Funnel.FunnelReports` | docpipeline/stages/extraction_4.py:121-144 | with an answer gate_results holds exactly its outcomes and its tier; never a completeness, kill-switch or override entry |
| `Funnel.FunnelLeaves` | docpipeline/stages/extraction_4.py:86-130 | gate_results is what the tiers that were asked left one after the other, cleared or not, overflow and transient errors included |
| `Funnel.FunnelSound` | docpipeline/stages/extraction_4.py:121-144 | fields come out only if the last call of the tier in tier_used answered exactly them, the schema passed and the blocking gates cleared them |
| `Ledger.CommitFirstWriter` | docpipeline/core/sql/extraction.sql:10-13 | the commit wins iff the row has no result; a losing one changes nothing, a winning one writes result, gates, state and time and enqueues at most its one payload |
| `Ledger.MissingExactly` | docpipeline/core/ledger.py:175-178 | the missing shards are exactly the unrecorded indices, in order |
| `Ledger.PredecessorsAre` | docpipeline/core/ledger.py:29-53 | the predecessors of every state; a running state is entered only from its own pending state, and nothing leaves complete |
| `Ledger.DispatchMeans` | docpipeline/core/ledger.py:106-133 | the text comes from its own layer, else in one piece if one shard holds every page, else after a split |
| `Ledger.ShardMsgMeans` | docpipeline/stages/pdf_worker_2.py:87-102 | each shard message carries its own index, reads its own object, and covers exactly the pages of its range |
| `Database.Database.Transition` | docpipeline/core/ledger.py:74-85 | the guarded update of state and time, refused without a trace unless the row is in a predecessor or already in the target |
| `Database.Database.EnqueueMany` | docpipeline/core/ledger.py:95-103 | the rows are appended to the outbox in order, each under a new id |
| `Database.Database.InsertInitialDocument` | docpipeline/core/ledger.py:136-155 | inserts once per document; an existing row is left alone |
| `Database.Database.RecordShardAndMaybeJoin` | docpipeline/core/ledger.py:158-172 | claim, count and join in one transaction; when the winner's transition is refused every table is as before |
| `Database.Database.MissingShards` | docpipeline/core/ledger.py:175-178 | the loop collects the missing indices |
| `Database.Database.CommitExtractionResult` | docpipeline/core/ledger.py:181-196 | the write-once commit on the tables |
| `Database.Database.RouteWithoutWriting` | docpipeline/core/ledger.py:199-204 | gates and state are written whatever the state, the result never |
| `Database.Database.UpdateBusinessKey` | docpipeline/stages/extraction_4.py:229-233 | the key is set unless another row holds it, in which case nothing changes |
| `Database.Database.CommitComplete` | docpipeline/stages/extraction_4.py:227-236 | key and commit together, or the unique violation that undoes both |
| `Database.Database.CountAttempt` | docpipeline/stages/extraction_4.py:184-187 | one more attempt, and the repairs start at zero |
| `Database.Database.HandleDocumentExtracted` | docpipeline/stages/sql/sink.sql:9-12 | one posted row per document; a later message changes nothing |
| `Sweeper.SelectStuck` | docpipeline/reconciliation/sql/sweeper.sql:13-24 | at most cap unlocked rows, each in a text state older than the text threshold or in an extract state older than the extract threshold, by priority and age; such a row is left out only by a full batch of rows that sort no later |
| `Sweeper.BatchIff` | docpipeline/reconciliation/sql/sweeper.sql:13-24 | those clauses are exactly what a batch of the protocol is |
| `Sweeper.RedrivenExactly` | docpipeline/reconciliation/sweeper.py:47-74 | the rows that go on to be re-driven are those claimed that had an attempt left, as they were read |
| `Sweeper.ClaimBatch` | docpipeline/reconciliation/sweeper.py:27-74 | the loop over the locked rows swaps each for its claimed version and returns those to re-drive |
| `Sweeper.ClaimRow` | docpipeline/reconciliation/sweeper.py:47-73 | a running row below its cap goes back to its pending state with exactly one more attempt, at its cap to failed with the attempts it made; a pending one is only touched |
| `Sweeper.ClaimedMeans` | docpipeline/reconciliation/sweeper.py:47-73 | the same of the claim of the protocol |
| `Sweeper.RedriveDocument` | docpipeline/reconciliation/sweeper.py:77-122 | enqueues exactly the messages the row's stage needs again |
| `Sweeper.SweepOnce` | docpipeline/reconciliation/sweeper.py:125-133 | claims a batch, then re-drives each claimed row on the tables its predecessors left |
| `Stages.TriageMeans` | docpipeline/stages/triage_1.py:36-100 | dispatched documents start clean in text_pending, unreadable uploads fail, the rest is parked in review, and whatever is not dispatched says why |
| `Stages.HandleGcsPath` | docpipeline/stages/triage_1.py:36-100 | insert and dispatch together, once per document; rejected uploads are inserted and not dispatched |
| `Stages.HandleTextEmbedded` | docpipeline/stages/pdf_worker_2.py:26-65 | either the artifact is stored and ocr.completed sent, or the document falls through to OCR with its total reset to 1, or nothing happens |
| `Stages.DoSplit` | docpipeline/stages/pdf_worker_2.py:72-84 | the authoritative total and the page range of every shard |
| `Stages.CommitSplitResult` | docpipeline/stages/pdf_worker_2.py:87-102 | the totals and one message per shard, whatever the state |
| `Stages.HandleShard` | docpipeline/stages/ocr_shard_3.py:27-64 | refused without a trace, or the pages of the range that exist are stored before the shard is claimed, and the claim either commits or leaves only the first transition |
| `Stages.ShardTextMeans` | docpipeline/stages/ocr_shard_3.py:38-57 | what is stored for a shard is exactly the pages of its range that the document has, in order, each with the engine's text |
| `Outbox.ClaimOutboxBatch` | docpipeline/core/sql/outbox.sql:9-12 | the first cap unlocked ids in increasing order |
| `Outbox.PublishAll` | docpipeline/core/outbox.py:47-60 | every row is handed over in order; no failure and nothing queued iff all were confirmed |
| `Outbox.RelayOnce` | docpipeline/core/outbox.py:26-89 | the batch is deleted iff every one of its messages was confirmed, and then all are in the log; otherwise the outbox is unchanged |
| `Outbox.Drain` | docpipeline/core/outbox.py:103-114 | the relay's loop with every delivery confirmed empties an outbox of b rows in exactly ceil(b/cap) ticks, publishing exactly its ids, in increasing order |
| `Outbox.DrainsInOrder` | docpipeline/core/outbox.py:26-89 | in any such sequence of backlogs the k-th is empty iff k >= ceil(b/cap), every tick before that takes something, and always the lowest ids |
| `Operator.RedriveTargetState` | docpipeline/reconciliation/operator.py:54-73 | from review to extract_pending; from failed with a page count to extract_pending if the artifact exists, else to text_pending; otherwise a refusal; always along an allowed edge |
| `Operator.ForceRedrive` | docpipeline/reconciliation/operator.py:76-100 | from a possibly stale read: transition and messages together, or no trace |
| `Operator.AcceptReview` | docpipeline/reconciliation/operator.py:106-153 | stamp, transition and message together, or everything rolled back |
| `Operator.AcceptWorks` | docpipeline/reconciliation/operator.py:129-147 | accepting a row read in review works iff the document is now in review or complete; it then is complete, posts, keeps its result, and carries the gate results of the earlier read with the override added |
| `Operator.FreshRedriveWorks` | docpipeline/reconciliation/operator.py:54-94 | with a fresh read, a re-drive works iff the document is in review, or failed with a page count |
| `Operator.RedriveLeads` | docpipeline/reconciliation/operator.py:54-94 | a fresh re-drive leads to extract_pending with one ocr.completed and nothing else if the document was in review or its artifact exists, and to text_pending otherwise |
| `Operator.StaleRedriveLeads` | docpipeline/reconciliation/operator.py:76-94 | where a stale re-drive leads is decided by what was read, and only along an allowed edge from what is there now |
| `Extraction.HandleOcrCompleted` | docpipeline/stages/extraction_4.py:147-256 | the handler run undisturbed is exactly its sequence of protocol steps, is stale iff the first transition is refused, and returns the outcome that its artifact, verdict, kill switch, the unique index and the first writer decide |
| `Extraction.Prepare` | docpipeline/stages/extraction_4.py:147-180 | take the message, read the row, assemble; unfit artifacts lead to the completeness route |
| `Extraction.Judge` | docpipeline/stages/extraction_4.py:182-191 | one more attempt is counted, the repairs are those of this funnel, and the verdict is the funnel's on the text of the artifact |
| `Extraction.VerdictIs` | docpipeline/stages/extraction_4.py:182-191 | the verdict of a message is what the funnel makes of its artifact's text |
| `Extraction.Close` | docpipeline/stages/extraction_4.py:193-256 | the final transaction, the reroute after a unique violation, and which outcome is returned |
| `Extraction.ConcludedMeans` | docpipeline/stages/extraction_4.py:193-256 | what each outcome says of the tables: completed and posted with the verdict's fields, key and gates; held back by the kill switch with those fields and that entry; exhausted with the empty result and the funnel's gates; duplicate; or discarded with the winner's verdict kept |
| `Basics.BasicRun` | docpipeline/core/ledger.py:106-133 | in every run, rows, messages and stored objects agree with the documents' bytes: only the one right payload per shard is ever sent, and only the engine's pages of a shard's range are ever stored for it |
| `Joining.ExactlyOnceJoin` | docpipeline/core/ledger.py:158-172 | under H2, always: shards_done is the number of recorded shards, all below the total; the join has fired iff all are recorded; and it fired once |
| `Joining.JoinAtLastShard` | docpipeline/core/sql/scatter_gather_join.sql:10-25 | under H2 the join fires in the very step that records the last missing shard, which leaves the document in extract_pending |
| `Joining.RecordEffect` | docpipeline/core/ledger.py:158-172 | what one shard claim does to its document, duplicate or not |
| `Artifacts.ArtifactStable` | docpipeline/core/artifact.py:29-42 | no step changes an artifact that exists |
| `Artifacts.ArtifactsRepeatNothing` | docpipeline/stages/extraction_4.py:47-64 | in every run, with no hypothesis, an artifact is a prefix of one direct pass, in order and without repeats; it passes completeness iff it is the whole pass |
| `Artifacts.ModelSeesDirectPass` | docpipeline/stages/extraction_4.py:174-191 | in every run, with no hypothesis and for every document, the pages a handler takes to the funnel are those of one direct pass, and the text is every page of it, whole and in order, one newline between neighbours |
| `Storage.LedgerMatchesStorage` | docpipeline/stages/ocr_shard_3.py:59-63 | under H2 a dispatched document in an extract state has its artifact, with the right pages, or all its shard outputs |
| `Undispatched.UnbackedIff` | docpipeline/reconciliation/operator.py:54-94 | within the hypotheses a document can be in extraction with no artifact and no shard output iff triage parked it: encrypted, corrupt, or readable and over the page ceiling |
| `Storage.AssemblyNeverRejects` | docpipeline/stages/extraction_4.py:160-180 | under H2 assembling for a dispatched document always goes on, with the pages of one direct pass: both reject routes are unreachable |
| `Stranding.AlwaysUnrecorded` | docpipeline/core/ledger.py:175-178 | under H2 and H3 every document in a text state has an unrecorded shard |
| `Stranding.NothingToSend` | docpipeline/reconciliation/sweeper.py:87-122 | a re-drive of an in-flight row sends nothing iff it is a split document in text_running with every shard recorded |
| `Stranding.NoStrandedDocument` | docpipeline/reconciliation/sweeper.py:27-122 | under H2 and H3 every sweep claim below the cap leads to at least one message, and the first transition of each message's handler is enabled |
| `Stranding.FirstTransitionBegins` | docpipeline/core/ledger.py:74-85 | that first transition is enabled iff the message's handler can take its first step |
| `Stranding.LateRedriveSends` | docpipeline/reconciliation/sweeper.py:125-133 | under H2, however late the re-drive runs, it sends something unless the join fired meanwhile |
| `Relaying.NothingLost` | docpipeline/core/outbox.py:26-89 | in every run each message ever enqueued is in the outbox or the broker log, and live claims are disjoint |
| `Relaying.DeletedOnlyWhenAcked` | docpipeline/core/outbox.py:66-88 | a row leaves the outbox only in the commit of its relay, after its own message was confirmed |
| `Relaying.NothingInvented` | docpipeline/core/outbox.py:26-89 | the broker holds only messages that were enqueued and handed over |
| `Verdicts.CompleteIsAbsorbing` | docpipeline/stages/extraction_4.py:147-256 | under H1 a complete document stays complete and keeps what was extracted, in every run |
| `Verdicts.HandlerDocumentOpen` | docpipeline/stages/extraction_4.py:147-256 | under H1 an active handler's document is neither in review nor complete |
| `Completing.CompleteIffExtracted` | docpipeline/core/ledger.py:181-196 | under H1 a document is complete iff a document.extracted for it is in the outbox or the broker log |
| `Completing.PostedIsComplete` | docpipeline/stages/sink_stub_5.py:21-30 | under H1 every posted document is complete and, without an override, its posted fields are its result |
| `Completing.PostedOnce` | docpipeline/stages/sql/sink.sql:9-12 | in every run a posted row is never replaced |
| `Overrides.AnotherExtracted` | docpipeline/reconciliation/operator.py:129-147 | under H1 a step that finds a document complete enqueues another document.extracted for it iff it is an accept of that document |
| `Overrides.ExtractedCount` | docpipeline/reconciliation/operator.py:129-147 | under H1 a document has no document.extracted while it is not complete, and then one and one more for every accept that found it complete |
| `Overrides.AcceptedTwice` | docpipeline/reconciliation/operator.py:106-153 | from any world reached with the document in review, two accepts of one and the same row version read lead to two messages, within any hypotheses |
| `Overrides.PostedResultOrNothing` | docpipeline/stages/sink_stub_5.py:21-30 | in every run, with no hypothesis, posted fields are the document's result, or none, and none only after an accept |
| `Overrides.EitherIsPosted` | docpipeline/reconciliation/operator.py:106-153 | from a read of a review that is then re-driven and completes by itself, a stale accept leads to one run that posts the result and one that posts nothing, with the gate results of the earlier read stamped on the row |
| `Completing.GateSoundness` | docpipeline/stages/extraction_4.py:67-144 | under H1, for any replies: the artifact of a complete document without override is one whole direct pass, and the document holds fields that the tier in tier_used answered, schema-valid, grounded in the joined text of all its pages and, on an invoice, adding up |
| `Reviews.SwitchedOffHoldsFields` | docpipeline/stages/extraction_4.py:201-217 | in every run, with no hypothesis: a document that the kill switch stopped and no operator accepted holds fields that the tier in tier_used answered, schema-valid, grounded in the joined text of all its pages and, on an invoice, adding up |
| `Reviews.ReviewHasReason` | docpipeline/stages/extraction_4.py:160-244 | in every run a document in review was parked by triage, or its row shows an unfit artifact, a taken key, exhausted gates or the kill switch |
| `Unique.IndexHolds` | migrations/001_init.sql:76-77 | in every run no two rows share a non-null vendor and invoice number |
| `Unique.ClashGoesToReview` | docpipeline/stages/extraction_4.py:237-244 | a refused commit changes no table; the next write parks the document in review with a dedupe failure and leaves its result alone |
| `Unique.NoInvoiceTwice` | docpipeline/stages/extraction_4.py:227-242 | under H1 no two complete documents without override have results with the same seller and invoice number |
| `FirstWriter.ResultWrittenOnce` | docpipeline/core/sql/extraction.sql:10-13 | in every run, with any number of workers, a result once written never changes |
| `FirstWriter.AtMostOneCommitMessage` | docpipeline/core/ledger.py:181-196 | in every run the commit path enqueues at most one document.extracted per document |
| `FirstWriter.LosingCommitIsQuiet` | docpipeline/core/ledger.py:181-196 | a losing commit leaves state, result, gates, outbox and all other rows unchanged |
| `FirstWriter.LosingCommitKey` | docpipeline/stages/extraction_4.py:229-234 | a losing commit leaves its whole row unchanged iff it was not about to complete it with another business key |
| `FirstWriter.HeldBackNeedsOverride` | docpipeline/stages/extraction_4.py:193-217 | under H1 a document with a result that is not complete can only become complete by an override |
| `HeldBack.HeldLeaves` | docpipeline/reconciliation/sweeper.py:47-73 | while the operator leaves it alone, a document with a result leaves extraction iff a sweep finds it running with its attempts used up, or its handler reroutes it |
| `HeldBack.HeldBackFate` | docpipeline/stages/extraction_4.py:227-249 | under H2, while the operator leaves it alone, a dispatched document with a result that is in extraction keeps its result and goes round within the cap until it has failed at its cap or is in review with the dedupe failure of a refused commit, and then stays out of extraction |
| `Keys.KeyIsLastWritten` | docpipeline/stages/extraction_4.py:227-236 | in every run each row holds exactly the business key that its document's last auto-posting commit wrote, won or lost |
| `Keys.IncompleteKeyWasLost` | docpipeline/stages/extraction_4.py:204-236 | under H1 a row that is not complete holds a key only from a commit of its own document that lost |
| `Keys.LosingWriteHoldsKey` | docpipeline/stages/extraction_4.py:227-236 | under H1 such a commit leaves the key in the row of a document that is not complete, and its state and result as they were |
| `Keys.RefusedBecause` | docpipeline/stages/extraction_4.py:227-242 | a commit is refused iff another row holds its key; under H1 that row is complete or took the key in a commit it lost |
| `Reopening.RetryCompletes` | docpipeline/reconciliation/operator.py:76-100 | from any world reached, a dispatched document in review without a result can complete by a re-drive, if the model has a sound answer whose key is free |
| `Reopening.RetryCompletesIff` | docpipeline/reconciliation/operator.py:54-100 | for such a document some continuation within the hypotheses completes it without an override iff it has no result |
| `Reopening.LostKeyBlocks` | docpipeline/stages/extraction_4.py:204-242 | a run within all hypotheses in which a held-back document, re-driven, takes a key and another document's commit is refused, with no document complete and the dedupe gate passed |
| `Retries.RetriesBounded` | docpipeline/reconciliation/sweeper.py:51-73 | in every run text_attempts is within its cap and counts the sweeps back from text_running; the sweeps back from extract_running are within theirs |
| `Retries.AttemptsExact` | docpipeline/core/ledger.py:229-241 | in every run extract_attempts is exactly the attempts that handlers counted plus the sweeps back from extract_running |
| `Retries.NextClaimFails` | docpipeline/reconciliation/sweeper.py:59-68 | with the sweeps of a running state used up, the next claim from it fails the document with the reason |
| `Retries.RemainingDecreases` | docpipeline/core/ledger.py:229-241 | the sweeps left are a measure: never negative, never growing, one less with each sweep back |
| `Fairness.QueueShrinks` | docpipeline/reconciliation/sql/sweeper.sql:13-24 | while a document stays eligible and unlocked nobody joins the queue ahead of it, and each sweep takes a full batch off that queue |
| `Fairness.ClaimedWithinBound` | docpipeline/reconciliation/sql/sweeper.sql:13-24 | a document that stays beyond its stage's threshold and unlocked, with k others not newer, is claimed by the (k/cap + 1)-th sweep at the latest, whatever else happens |
| `Fairness.TextClaimedWithinBound` | docpipeline/reconciliation/sql/sweeper.sql:17-18 | so is a text document left alone for longer than the text threshold |
| `Redriving.RedriveResendsMissingShards` | docpipeline/reconciliation/sweeper.py:93-108 | under H2 the re-drive of a split document in text_running sends exactly the unrecorded shards, once each, with the messages of the split |
| `Redriving.RedriveRepeatsDispatch` | docpipeline/reconciliation/sweeper.py:87-91 | under H2 any other re-drive in a text state sends the one message triage or the fall-through first sent |
| `LiveWork.SpentBounded` | docpipeline/config.py:157-170 | the model calls of one message take at most the extraction budget |
| `LiveWork.CreditBounded` | docpipeline/config.py:157-170 | the calls made and under way take at most the extraction budget together |
| `LiveWork.BudgetAttained` | docpipeline/config.py:157-170 | the budget is exact: a model that never answers usably, at the last moment each time, takes all of it |
| `LiveWork.DefaultFigures` | docpipeline/config.py:157-189 | with the defaults the budget is 1200 seconds and the threshold 1500 |
| `LiveWork.NoTheft` | docpipeline/config.py:186-189 | with the derived threshold, H1 and a worker that has kept its time so far, inside its calls or past them, its document is in extract_running and no sweep claims it |
| `LiveWork.StepEdges` | docpipeline/core/ledger.py:31-53 | every state change of every step follows the allowed edges, but for a final write that finds its document moved |
| `LiveWork.EveryChangeIsAnEdge` | docpipeline/core/ledger.py:31-53 | in a run whose workers keep their time, every state change is an allowed edge or a self-loop |
| `Progress.Upload` | docpipeline/stages/pdf_worker_2.py:26-65 | from any world reached, a new document with a usable embedded text can be carried to extract_pending with its artifact stored and its message delivered |
| `Progress.TickIsARun` | docpipeline/core/outbox.py:26-89 | from any world reached, a relay tick with every delivery confirmed is a sequence of protocol steps with the effect RelayOnce has |
| `Progress.SweepIsARun` | docpipeline/reconciliation/sweeper.py:125-133 | from any world reached, a sweep as SweepOnce performs it is a sequence of protocol steps |
| `Journeys.UploadRead` | docpipeline/stages/ocr_shard_3.py:27-64 | from any world reached, a new document that the engine must read, in however many shards and after a fall-through or not, can be carried through the join, with every shard recorded and the message about its text delivered |
| `Journeys.SoundAnswerIsPosted` | docpipeline/stages/extraction_4.py:147-256 | from every world reached within the hypotheses, every new document that triage dispatches has a continuation within them that completes it and posts exactly the sound answer its script comes to, at any call of either tier, if no row holds its key |
| `Hypotheses.SecondDeliveryStarts` | docpipeline/core/ledger.py:74-85 | a second delivery for a running document starts a second handler |
| `Hypotheses.LeavesComplete` | docpipeline/core/sql/extraction.sql:10-22 | a step takes a complete document out of complete iff a handler of that document reroutes, or finds no result and parks it in review |
| `Hypotheses.WithoutH1` | docpipeline/stages/extraction_4.py:147-242 | a run from a fresh start that keeps H2 and H3 and takes a document from complete to review |
| `Hypotheses.WithoutH2` | docpipeline/stages/pdf_worker_2.py:26-44 | for any document of several shards whose embedded text is unusable: a run from a fresh start that keeps H1 and H3 and fires the join with one shard recorded |
| `Hypotheses.WithoutH3` | docpipeline/reconciliation/operator.py:54-94 | for any document the engine must read: a run from a fresh start that keeps H1 and H2 and leaves it in text_running with every shard recorded and the join fired, and with nothing for a re-drive to send if it was split |
| `Hypotheses.EachHypothesisIsNeeded` | docpipeline/core/ledger.py:74-85 | all three runs exist in one concrete system |
| `Hypotheses.ExampleKeyBlocked` | docpipeline/stages/extraction_4.py:204-242 | so does, within all hypotheses, the commit refused with no document complete |
| `Hypotheses.SplitDocumentsKeepH2` | docpipeline/stages/pdf_worker_2.py:26-44 | H2 can fail only for a document sent to the embedded text whose text was found unusable |

## Left out

- Kafka, Postgres, the object store client, PDF parsing, rasterising, OCR engines and the model call: a log, maps, a
  page-text function per document and an arbitrary reply per call stand for them. Topics have no partitions or offsets;
  a delivered message may be handled any number of times, at any later time.
- A transaction is one step at the time it commits. Two reads inside longer transactions are taken at that step: the
  dedupe read (with the funnel) and the missing-shards read (with the re-drive).
- Work once begun (a split, a shard, a claimed row) may be finished at any later time and repeatedly, so runs include
  some that no single process could produce. The split sub-documents themselves are not stored.
- Sharing of one object by several callers inside a process: `Database` is one object, used by one method at a time.
- Logging, heartbeats, attempt_log, audit rows, build stamps, metrics and scores; the feature flag is an input of the
  step that reads it; plausibility and document classification (an input), and bulk re-drive.
- Fields that no gate reads (buyer, currency, dates). A schema check is a choice of the reply. The detail text of gate
  results and of last_error is reduced to what decides.
- Letter case is ASCII only, and so are digits and blanks; `int()` has no digit limit.
- Money: exact decimals for floats, and the parser is defined on amounts with exactly two decimals.
- `math.ceil` of a float division is the exact integer ceiling.
- A PDF with no pages: the shard worker rasterises one page of an empty document; the model stores no page.
- Object paths are data with no bucket or formatting.
- LiveWork.NoTheft: the timeout is a whole number of seconds, as in the default.
- Fairness.ClaimedWithinBound: all priorities are equal, because no caller sets one.

/** The extraction funnel: two model tiers, a bounded number of calls per tier, gates after each tier. */
module Funnel {
  import opened Types
  import opened Gates
  import Iban

  /** What the model sends back before the schema check. */
  datatype Raw = Malformed | WellFormed(fields: Fields)

  function ValidateSchema(raw: Raw): Option<Fields> {
    if raw.WellFormed? then Some(raw.fields) else None
  }

  /** One model call: an answer, or the kind of the extraction error it raised. */
  datatype Reply = Refusal | ContextOverflow | Unparseable | Transient | Answer(raw: Raw)

  /** A call and how long it took. */
  datatype Call = Call(reply: Reply, duration: Time)

  /** An adversary's plan: what each tier will answer to its k-th call. */
  datatype Script = Script(cheap: seq<Call>, strong: seq<Call>)
  {
    function Of(tier: Tier): seq<Call> {
      if tier == Cheap then cheap else strong
    }
  }

  predicate Ready(script: Script, maxRepair: nat) {
    |script.cheap| == |script.strong| == maxRepair + 1
  }

  datatype TierEnd = Refused | GaveUp | Got(fields: Fields)

  /** schema is None when the tier left no schema entry behind. */
  datatype TierResult = TierResult(end: TierEnd, schema: Option<Outcome>, repairs: nat, calls: nat)

  /** The repair loop of one tier, from call k on. */
  function TierLoop(calls: seq<Call>, k: nat, schema: Option<Outcome>, repairs: nat): TierResult
    requires k <= |calls|
    decreases |calls| - k
  {
    if k == |calls| then TierResult(GaveUp, schema, repairs, k)
    else match calls[k].reply
      case Refusal => TierResult(Refused, Some(Fail), repairs, k + 1)
      case ContextOverflow => TierResult(GaveUp, schema, repairs, k + 1)
      case Unparseable => TierLoop(calls, k + 1, Some(Fail), repairs + 1)
      case Transient => TierLoop(calls, k + 1, schema, repairs)
      case Answer(raw) =>
        match ValidateSchema(raw)
        case Some(f) => TierResult(Got(f), Some(Pass), repairs, k + 1)
        case None => TierLoop(calls, k + 1, Some(Fail), repairs + 1)
  }

  /** Did the tier stop at a context overflow? Then gate_results gets a schema failure of its own. */
  predicate Overflowed(calls: seq<Call>, r: TierResult) {
    r.end.GaveUp? && 1 <= r.calls <= |calls| && calls[r.calls - 1].reply.ContextOverflow?
  }

  /** gate_results["schema"] after a tier: the tier's own entry wins, then an overflow, then what was there. */
  function SchemaAfter(before: Option<Outcome>, calls: seq<Call>, r: TierResult): Option<Outcome> {
    if r.schema.Some? then r.schema
    else if Overflowed(calls, r) then Some(Fail)
    else before
  }

  function WithGates(report: Report, g: GateSet, tier: Tier): Report {
    report.(grounding := Some(g.grounding), arithmetic := Some(g.arithmetic), ibanCheck := Some(g.ibanCheck),
            dedupe := Some(g.dedupe), tierUsed := Some(tier))
  }

  datatype FunnelResult = FunnelResult(fields: Option<Fields>, report: Report, repairs: nat, cheapCalls: nat,
      strongCalls: nat)

  const STARTING_REPORT := EMPTY_REPORT.(layoutCache := Some(NotApplicable))

  /** What a tier leaves behind: a verdict that ends the funnel, or a report to go on with. */
  datatype TierVerdict = Ends(fields: Option<Fields>, report: Report) | Escalates(report: Report)

  function TierSpec(docs: map<DocId, Doc>, d: DocId, docType: DocType, text: string, tier: Tier, calls: seq<Call>,
      report: Report): TierVerdict {
    var r := TierLoop(calls, 0, None, 0);
    var report1 := report.(schema := SchemaAfter(report.schema, calls, r));
    match r.end
    case Refused => Ends(None, report1)
    case GaveUp => Escalates(report1)
    case Got(f) =>
      var g := RunAll(docs, d, docType, f, text);
      var report2 := WithGates(report1, g, tier);
      if Cleared(g) then Ends(Some(f), report2) else Escalates(report2)
  }

  function FunnelSpec(docs: map<DocId, Doc>, d: DocId, docType: DocType, text: string, script: Script): FunnelResult {
    var c := TierLoop(script.cheap, 0, None, 0);
    match TierSpec(docs, d, docType, text, Cheap, script.cheap, STARTING_REPORT)
    case Ends(f, rep) => FunnelResult(f, rep, c.repairs, c.calls, 0)
    case Escalates(rep) =>
      var s := TierLoop(script.strong, 0, None, 0);
      var v := TierSpec(docs, d, docType, text, Strong, script.strong, rep);
      FunnelResult(if v.Ends? then v.fields else None, v.report, c.repairs + s.repairs, c.calls, s.calls)
  }

  /** The funnel as written: nested loops over tiers and repairs that update raw, the schema entry and gate_results.
      `docs` is what the dedupe gate reads. */
  method RunFunnel(docs: map<DocId, Doc>, d: DocId, docType: DocType, text: string, maxRepair: nat, script: Script)
    returns (fields: Option<Fields>, report: Report, repairs: nat, cheapCalls: nat, strongCalls: nat)
    requires Ready(script, maxRepair)
    ensures FunnelResult(fields, report, repairs, cheapCalls, strongCalls) == FunnelSpec(docs, d, docType, text, script)
  {
    report := STARTING_REPORT;
    repairs, cheapCalls, strongCalls := 0, 0, 0;
    var tiers := [Cheap, Strong];
    ghost var c := TierLoop(script.cheap, 0, None, 0);
    ghost var v := TierSpec(docs, d, docType, text, Cheap, script.cheap, STARTING_REPORT);
    for t := 0 to 2
      invariant t == 0 ==> report == STARTING_REPORT && repairs == cheapCalls == strongCalls == 0
      invariant t >= 1 ==> v.Escalates? && cheapCalls == c.calls
      invariant t == 1 ==> report == v.report && repairs == c.repairs && strongCalls == 0
      invariant t == 2 ==> FunnelResult(None, report, repairs, cheapCalls, strongCalls) == FunnelSpec(docs, d, docType,
                text, script)
    {
      var tier := tiers[t];
      var calls := script.Of(tier);
      ghost var before := report;
      ghost var spec := TierLoop(calls, 0, None, 0);
      var raw: Option<Fields> := None;
      var schema: Option<Outcome> := None;
      var tierRepairs, made := 0, 0;
      var overflow := false;
      while made < maxRepair + 1
        invariant 0 <= made <= |calls|
        invariant raw == None && !overflow && report == before
        invariant spec == TierLoop(calls, made, schema, tierRepairs)
        invariant made > 0 ==> !calls[made - 1].reply.ContextOverflow?
      {
        var reply := calls[made].reply;
        made := made + 1;
        if reply.Refusal? {
          report := report.(schema := Some(Fail));
          repairs := repairs + tierRepairs;
          if tier == Cheap { cheapCalls := made; } else { strongCalls := made; }
          return None, report, repairs, cheapCalls, strongCalls;
        }
        if reply.ContextOverflow? {
          overflow := true;
          break;
        }
        if reply.Unparseable? {
          schema := Some(Fail);
          tierRepairs := tierRepairs + 1;
          continue;
        }
        if reply.Transient? {
          continue;
        }
        raw := ValidateSchema(reply.raw);
        schema := Some(if raw.Some? then Pass else Fail);
        if raw.Some? {
          break;
        }
        tierRepairs := tierRepairs + 1;
      }
      assert overflow == Overflowed(calls, spec);
      if overflow {
        report := report.(schema := Some(Fail));
      }
      if schema.Some? {
        report := report.(schema := schema);
      }
      repairs := repairs + tierRepairs;
      if tier == Cheap { cheapCalls := made; } else { strongCalls := made; }
      if raw.Some? {
        var g := RunAll(docs, d, docType, raw.value, text);
        report := WithGates(report, g, tier);
        if Cleared(g) {
          return raw, report, repairs, cheapCalls, strongCalls;
        }
      }
    }
    fields := None;
  }

  // ---- What the funnel promises, whatever the model does ----

  lemma {:induction false} TierLoopFacts(calls: seq<Call>, k: nat, schema: Option<Outcome>, repairs: nat)
    requires k <= |calls|
    ensures var r := TierLoop(calls, k, schema, repairs);
      && k <= r.calls <= |calls|
      && (r.end.Got? ==>
          r.schema == Some(Pass) && k < r.calls && calls[r.calls - 1].reply == Answer(WellFormed(r.end.fields)))
      && r.repairs - repairs <= r.calls - k
    decreases |calls| - k
  {
    if k < |calls| {
      match calls[k].reply
      case Unparseable => TierLoopFacts(calls, k + 1, Some(Fail), repairs + 1);
      case Transient => TierLoopFacts(calls, k + 1, schema, repairs);
      case Answer(raw) => if raw.Malformed? { TierLoopFacts(calls, k + 1, Some(Fail), repairs + 1); }
      case _ =>
    }
  }

  function CallsOf(tier: Tier, r: FunnelResult): nat {
    if tier == Cheap then r.cheapCalls else r.strongCalls
  }

  /** At most 2 * (MAX_REPAIR_ATTEMPTS + 1) model calls, whatever the model answers. */
  lemma FunnelCallBound(docs: map<DocId, Doc>, d: DocId, docType: DocType, text: string, maxRepair: nat, script: Script)
    requires Ready(script, maxRepair)
    ensures var r := FunnelSpec(docs, d, docType, text, script);
      r.cheapCalls <= maxRepair + 1 && r.strongCalls <= maxRepair + 1 &&
      r.cheapCalls + r.strongCalls <= 2 * (maxRepair + 1)
  {
    TierLoopFacts(script.cheap, 0, None, 0);
    TierLoopFacts(script.strong, 0, None, 0);
  }

  /** Fields come out only when a tier's last call gave exactly them, the schema accepted them and no blocking
      gate objected: for every script the result is grounded and, for an invoice, adds up. */
  lemma FunnelSound(docs: map<DocId, Doc>, d: DocId, docType: DocType, text: string, maxRepair: nat, script: Script)
    requires Ready(script, maxRepair)
    requires FunnelSpec(docs, d, docType, text, script).fields.Some?
    ensures var r := FunnelSpec(docs, d, docType, text, script);
      && Sound(docType, r.fields.value, text)
      && r.report.schema == Some(Pass) && r.report.tierUsed.Some?
      && 1 <= CallsOf(r.report.tierUsed.value, r) <= maxRepair + 1
      && script.Of(r.report.tierUsed.value)[CallsOf(r.report.tierUsed.value, r) - 1].reply ==
          Answer(WellFormed(r.fields.value))
  {
    TierLoopFacts(script.cheap, 0, None, 0);
    TierLoopFacts(script.strong, 0, None, 0);
    ClearedIffSound(docs, d, docType, FunnelSpec(docs, d, docType, text, script).fields.value, text);
  }

  // ---- What the replies alone decide ----

  /** A reply after which the same tier is asked again. */
  predicate Futile(r: Reply) {
    r.Unparseable? || r.Transient? || r == Answer(Malformed)
  }

  /** The first k replies were of that kind. */
  ghost predicate AfterFutile(calls: seq<Call>, k: nat) {
    k <= |calls| && forall i | 0 <= i < k :: Futile(calls[i].reply)
  }

  /** Reply k is the first that is not. */
  ghost predicate StopsAt(calls: seq<Call>, k: nat) {
    AfterFutile(calls, k) && k < |calls| && !Futile(calls[k].reply)
  }

  /** Of the first k replies, those that used up a repair: all futile ones but the transient errors. */
  function Repaired(calls: seq<Call>, k: nat): nat
    requires k <= |calls|
  {
    if k == 0 then 0 else Repaired(calls, k - 1) + (if calls[k - 1].reply.Transient? then 0 else 1)
  }

  lemma {:induction false} PastFutile(calls: seq<Call>, k: nat) returns (schema: Option<Outcome>)
    requires AfterFutile(calls, k)
    ensures TierLoop(calls, 0, None, 0) == TierLoop(calls, k, schema, Repaired(calls, k))
    ensures schema == if Repaired(calls, k) > 0 then Some(Fail) else None
  {
    if k == 0 {
      schema := None;
    } else {
      schema := PastFutile(calls, k - 1);
      if !calls[k - 1].reply.Transient? { schema := Some(Fail); }
    }
  }

  /** Where a tier stops, and how. */
  lemma TierStops(calls: seq<Call>, k: nat)
    requires StopsAt(calls, k)
    ensures var r := TierLoop(calls, 0, None, 0);
      && r.calls == k + 1 && r.repairs == Repaired(calls, k)
      && (r.end.Refused? <==> calls[k].reply.Refusal?) && (r.end.Refused? ==> r.schema == Some(Fail))
      && (r.end.GaveUp? <==> calls[k].reply.ContextOverflow?)
      && (r.end.Got? <==> calls[k].reply.Answer?)
      && (r.end.Got? ==> calls[k].reply == Answer(WellFormed(r.end.fields)) && r.schema == Some(Pass))
      && (r.end.GaveUp? ==> r.schema in {None, Some(Fail)})
  {
    var schema := PastFutile(calls, k);
  }

  lemma TierExhausts(calls: seq<Call>)
    requires AfterFutile(calls, |calls|)
    ensures var r := TierLoop(calls, 0, None, 0);
      && r.calls == |calls| && r.repairs == Repaired(calls, |calls|) && r.end.GaveUp?
      && r.schema == if r.repairs > 0 then Some(Fail) else None
  {
    var schema := PastFutile(calls, |calls|);
  }

  lemma {:induction false} StopsSomewhere(calls: seq<Call>, j: nat) returns (k: nat)
    requires AfterFutile(calls, j)
    ensures k <= |calls| && (StopsAt(calls, k) || (k == |calls| && AfterFutile(calls, k)))
    decreases |calls| - j
  {
    if j == |calls| || !Futile(calls[j].reply) { k := j; } else { k := StopsSomewhere(calls, j + 1); }
  }

  /** What the model's answer is held against: sound for the text, and no other complete document with its key. */
  ghost predicate Clears(docs: map<DocId, Doc>, d: DocId, docType: DocType, f: Fields, text: string) {
    Sound(docType, f, text) && !HeldByOther(docs, d, f)
  }

  /** The tier's first reply that is not futile is this answer, and the schema accepts it. */
  ghost predicate AnswersAt(calls: seq<Call>, k: nat, f: Fields) {
    StopsAt(calls, k) && calls[k].reply == Answer(WellFormed(f))
  }

  ghost predicate RefusesAt(calls: seq<Call>, k: nat) {
    StopsAt(calls, k) && calls[k].reply.Refusal?
  }

  ghost predicate Refuses(calls: seq<Call>) {
    exists k: nat :: RefusesAt(calls, k)
  }

  /** The tier gives neither a refusal nor an answer that clears: it runs out of calls or context, or its answer is
      stopped by a gate. */
  ghost predicate HandsOver(docs: map<DocId, Doc>, d: DocId, docType: DocType, text: string, calls: seq<Call>) {
    forall k: nat | StopsAt(calls, k) ::
      calls[k].reply.ContextOverflow? ||
      (calls[k].reply.Answer? && calls[k].reply.raw.WellFormed? &&
       !Clears(docs, d, docType, calls[k].reply.raw.fields, text))
  }

  lemma StopsOnce(calls: seq<Call>, j: nat, k: nat)
    requires StopsAt(calls, j) && StopsAt(calls, k)
    ensures j == k
  {
  }

  /** The verdict of one tier, by its replies. */
  lemma TierSays(docs: map<DocId, Doc>, d: DocId, docType: DocType, text: string, tier: Tier, calls: seq<Call>,
      report: Report)
    ensures var v := TierSpec(docs, d, docType, text, tier, calls, report);
      && (v.Escalates? <==> HandsOver(docs, d, docType, text, calls))
      && (v.Ends? && v.fields.None? <==> Refuses(calls))
      && (forall k: nat, f | AnswersAt(calls, k, f) && Clears(docs, d, docType, f, text) ::
            v.Ends? && v.fields == Some(f))
      && (v.Ends? && v.fields.Some? ==>
            Clears(docs, d, docType, v.fields.value, text) && exists k: nat :: AnswersAt(calls, k, v.fields.value))
  {
    hide TierLoop, Sound, HeldByOther, RunAll, Cleared;
    var k := StopsSomewhere(calls, 0);
    if StopsAt(calls, k) {
      TierStops(calls, k);
      var r := TierLoop(calls, 0, None, 0);
      if r.end.Got? {
        ClearedIffSound(docs, d, docType, r.end.fields, text);
        assert AnswersAt(calls, k, r.end.fields);
      }
      if r.end.Refused? { assert RefusesAt(calls, k); }
      forall j: nat | StopsAt(calls, j) ensures j == k { StopsOnce(calls, j, k); }
    } else {
      TierExhausts(calls);
    }
  }

  /** The funnel's answer, decided by the replies: the cheap tier's if it clears; else, if the cheap tier hands over,
      the strong tier's if that clears. Nothing comes out exactly when a tier that was asked refused, or both handed
      over; and the strong tier is asked exactly when the cheap one hands over. */
  lemma FunnelAnswers(docs: map<DocId, Doc>, d: DocId, docType: DocType, text: string, maxRepair: nat, script: Script,
      f: Fields)
    requires Ready(script, maxRepair)
    ensures var r := FunnelSpec(docs, d, docType, text, script);
      var over := HandsOver(docs, d, docType, text, script.cheap);
      && (r.fields == Some(f) <==>
            Clears(docs, d, docType, f, text) &&
            ((exists k: nat :: AnswersAt(script.cheap, k, f)) ||
             (over && exists k: nat :: AnswersAt(script.strong, k, f))))
      && (r.fields.None? <==>
            Refuses(script.cheap) ||
            (over && (Refuses(script.strong) || HandsOver(docs, d, docType, text, script.strong))))
      && (r.strongCalls > 0 <==> over)
  {
    hide TierSpec, Clears, HandsOver, AnswersAt, TierLoop, Refuses;
    var cheap := TierSpec(docs, d, docType, text, Cheap, script.cheap, STARTING_REPORT);
    TierSays(docs, d, docType, text, Cheap, script.cheap, STARTING_REPORT);
    AskedOnce(script.strong);
    if cheap.Escalates? { TierSays(docs, d, docType, text, Strong, script.strong, cheap.report); }
  }

  lemma AskedOnce(calls: seq<Call>)
    requires calls != []
    ensures TierLoop(calls, 0, None, 0).calls >= 1
  {
    hide TierLoop;
    var k := StopsSomewhere(calls, 0);
    if StopsAt(calls, k) { TierStops(calls, k); } else { TierExhausts(calls); }
  }

  lemma CheapCount(docs: map<DocId, Doc>, d: DocId, docType: DocType, text: string, script: Script)
    ensures FunnelSpec(docs, d, docType, text, script).cheapCalls == TierLoop(script.cheap, 0, None, 0).calls
    ensures var r := FunnelSpec(docs, d, docType, text, script);
      r.strongCalls > 0 ==> r.strongCalls == TierLoop(script.strong, 0, None, 0).calls
  {
    hide TierLoop, TierSpec;
  }

  /** How many calls that takes: up to and including the answer, and none of the strong tier before the cheap one has
      handed over. */
  lemma CallsMade(docs: map<DocId, Doc>, d: DocId, docType: DocType, text: string, maxRepair: nat, script: Script,
      k: nat)
    requires Ready(script, maxRepair)
    ensures var r := FunnelSpec(docs, d, docType, text, script);
      && (StopsAt(script.cheap, k) ==> r.cheapCalls == k + 1)
      && (AfterFutile(script.cheap, |script.cheap|) ==> r.cheapCalls == maxRepair + 1)
      && (r.strongCalls > 0 && StopsAt(script.strong, k) ==> r.strongCalls == k + 1)
      && (r.strongCalls > 0 && AfterFutile(script.strong, |script.strong|) ==> r.strongCalls == maxRepair + 1)
  {
    hide TierLoop, FunnelSpec, StopsAt, AfterFutile;
    CheapCount(docs, d, docType, text, script);
    if StopsAt(script.cheap, k) { TierStops(script.cheap, k); }
    if StopsAt(script.strong, k) { TierStops(script.strong, k); }
    if AfterFutile(script.cheap, |script.cheap|) { TierExhausts(script.cheap); }
    if AfterFutile(script.strong, |script.strong|) { TierExhausts(script.strong); }
  }

  /** The repairs counted are the unparseable and schema-invalid replies among the calls made. */
  lemma RepairsMade(docs: map<DocId, Doc>, d: DocId, docType: DocType, text: string, maxRepair: nat, script: Script)
    requires Ready(script, maxRepair)
    ensures var r := FunnelSpec(docs, d, docType, text, script);
      && r.cheapCalls <= |script.cheap| && r.strongCalls <= |script.strong|
      && r.repairs == Bad(script.cheap, r.cheapCalls) + Bad(script.strong, r.strongCalls)
  {
    hide TierLoop, TierSpec;
    BadIsRepaired(script.cheap);
    BadIsRepaired(script.strong);
  }

  /** The replies among the first n that were unparseable or failed the schema. */
  function Bad(calls: seq<Call>, n: nat): nat
    requires n <= |calls|
  {
    if n == 0 then 0
    else
      Bad(calls, n - 1) +
      (if calls[n - 1].reply.Unparseable? || calls[n - 1].reply == Answer(Malformed) then 1 else 0)
  }

  lemma {:induction false} BadWhileFutile(calls: seq<Call>, k: nat)
    requires AfterFutile(calls, k)
    ensures Bad(calls, k) == Repaired(calls, k)
  {
    if k > 0 { BadWhileFutile(calls, k - 1); }
  }

  lemma BadIsRepaired(calls: seq<Call>)
    ensures var r := TierLoop(calls, 0, None, 0);
      r.calls <= |calls| && r.repairs == Bad(calls, r.calls)
  {
    hide TierLoop;
    var k := StopsSomewhere(calls, 0);
    BadWhileFutile(calls, k);
    if StopsAt(calls, k) { TierStops(calls, k); } else { TierExhausts(calls); }
  }

  /** What gate_results then holds: the schema passed, the outcomes of the gates, and the tier that answered. */
  ghost predicate ReportsAnswer(report: Report, docType: DocType, f: Fields, tier: Tier) {
    && report.dedupe == Some(if HasKey(f) then Pass else NotApplicable)
    && report == STARTING_REPORT.(schema := Some(Pass), grounding := Some(Pass),
                                  arithmetic := Some(if docType.Invoice? then Pass else NotApplicable),
                                  ibanCheck := Some(Iban.IbanGate(f.iban)), dedupe := report.dedupe,
                                  tierUsed := Some(tier))
  }

  lemma TierReports(docs: map<DocId, Doc>, d: DocId, docType: DocType, text: string, tier: Tier, calls: seq<Call>,
      report: Report)
    requires report == STARTING_REPORT.(schema := report.schema, grounding := report.grounding,
               arithmetic := report.arithmetic, ibanCheck := report.ibanCheck, dedupe := report.dedupe,
               tierUsed := report.tierUsed)
    ensures var v := TierSpec(docs, d, docType, text, tier, calls, report);
      && (v.Ends? && v.fields.Some? ==> ReportsAnswer(v.report, docType, v.fields.value, tier))
      && (v.Ends? && v.fields.None? ==> v.report == report.(schema := Some(Fail)))
      && v.report == STARTING_REPORT.(schema := v.report.schema, grounding := v.report.grounding,
           arithmetic := v.report.arithmetic, ibanCheck := v.report.ibanCheck, dedupe := v.report.dedupe,
           tierUsed := v.report.tierUsed)
  {
    hide TierLoop, RunAll, Cleared, DedupeGate;
    var k := StopsSomewhere(calls, 0);
    if StopsAt(calls, k) { TierStops(calls, k); } else { TierExhausts(calls); }
    var r := TierLoop(calls, 0, None, 0);
    if r.end.Got? {
      var g := RunAll(docs, d, docType, r.end.fields, text);
      if Cleared(g) {
        ClearedOutcomes(docs, d, docType, r.end.fields, text);
        KeyOutcome(docs, d, docType, r.end.fields, text);
      }
    }
  }

  lemma KeyOutcome(docs: map<DocId, Doc>, d: DocId, docType: DocType, f: Fields, text: string)
    requires Cleared(RunAll(docs, d, docType, f, text))
    ensures RunAll(docs, d, docType, f, text).dedupe == if HasKey(f) then Pass else NotApplicable
  {
    hide GroundingGate, ArithmeticGate, Iban.IbanGate;
    DedupeIff(docs, d, f);
  }

  /** gate_results of the whole funnel: with an answer exactly those of that answer; never a completeness, kill-switch
      or override entry; and after a refusal a failed schema. */
  lemma FunnelReports(docs: map<DocId, Doc>, d: DocId, docType: DocType, text: string, maxRepair: nat, script: Script)
    requires Ready(script, maxRepair)
    ensures var r := FunnelSpec(docs, d, docType, text, script);
      && (r.fields.Some? ==>
            ReportsAnswer(r.report, docType, r.fields.value, if r.strongCalls == 0 then Cheap else Strong))
      && (Refuses(script.cheap) ==> r.report.schema == Some(Fail))
      && r.report.completeness.None? && r.report.killSwitch.None? && r.report.override.None?
      && r.report.layoutCache == Some(NotApplicable)
  {
    hide TierSpec, TierLoop, ReportsAnswer, Refuses;
    TierReports(docs, d, docType, text, Cheap, script.cheap, STARTING_REPORT);
    TierSays(docs, d, docType, text, Cheap, script.cheap, STARTING_REPORT);
    var v := TierSpec(docs, d, docType, text, Cheap, script.cheap, STARTING_REPORT);
    AskedOnce(script.strong);
    if v.Escalates? { TierReports(docs, d, docType, text, Strong, script.strong, v.report); }
  }

  /** What a tier adds to gate_results, by its replies: with an answer, the schema passed and the outcomes of the gates
      on it, cleared or not; without one, at most a failed schema, and none if there were only transient errors. */
  ghost predicate TierLeft(docs: map<DocId, Doc>, d: DocId, docType: DocType, text: string, tier: Tier,
      calls: seq<Call>, before: Report, after: Report) {
    && (forall k: nat, f | AnswersAt(calls, k, f) ::
          after == before.(schema := Some(Pass), grounding := Some(GroundingGate(f, text)),
                           arithmetic := Some(ArithmeticGate(docType, f)), ibanCheck := Some(Iban.IbanGate(f.iban)),
                           dedupe := Some(DedupeGate(docs, d, f.seller, f.invoiceNo)), tierUsed := Some(tier)))
    && (forall k: nat | StopsAt(calls, k) && !calls[k].reply.Answer? :: after == before.(schema := Some(Fail)))
    && (AfterFutile(calls, |calls|) ==>
          after == if Bad(calls, |calls|) > 0 then before.(schema := Some(Fail)) else before)
  }

  lemma TierLeaves(docs: map<DocId, Doc>, d: DocId, docType: DocType, text: string, tier: Tier, calls: seq<Call>,
      report: Report)
    ensures TierLeft(docs, d, docType, text, tier, calls, report,
              TierSpec(docs, d, docType, text, tier, calls, report).report)
  {
    hide TierLoop, Cleared, DedupeGate, GroundingGate, ArithmeticGate, Iban.IbanGate, Bad, Repaired;
    var k := StopsSomewhere(calls, 0);
    if StopsAt(calls, k) {
      TierStops(calls, k);
      forall j: nat | StopsAt(calls, j) ensures j == k { StopsOnce(calls, j, k); }
    } else {
      TierExhausts(calls);
      BadWhileFutile(calls, |calls|);
    }
  }

  /** gate_results of the whole funnel is what the tiers that were asked left, one after the other. */
  lemma FunnelLeaves(docs: map<DocId, Doc>, d: DocId, docType: DocType, text: string, maxRepair: nat, script: Script)
    requires Ready(script, maxRepair)
    ensures var r := FunnelSpec(docs, d, docType, text, script);
      if r.strongCalls == 0
      then TierLeft(docs, d, docType, text, Cheap, script.cheap, STARTING_REPORT, r.report)
      else exists mid ::
             && TierLeft(docs, d, docType, text, Cheap, script.cheap, STARTING_REPORT, mid)
             && TierLeft(docs, d, docType, text, Strong, script.strong, mid, r.report)
  {
    hide TierSpec, TierLoop, TierLeft;
    TierLeaves(docs, d, docType, text, Cheap, script.cheap, STARTING_REPORT);
    AskedOnce(script.strong);
    var mid := TierSpec(docs, d, docType, text, Cheap, script.cheap, STARTING_REPORT).report;
    TierLeaves(docs, d, docType, text, Strong, script.strong, mid);
  }
}

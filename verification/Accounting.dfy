/** The invocation ledger and its outbox (accounting.py): dispatch, observation, terminal, soft warning, each one
    transaction, retried and rejected in any order. */
module Accounting {
  import opened Text

  datatype Billing = Dispatched | ProviderReported | Estimated | ZeroLocal | UnknownAfterDispatch

  datatype Status = CandidateSuccess | CandidateFailure

  /** What a provider call is dispatched with. */
  datatype Dispatch = Dispatch(host: string, identifierKind: string, nativeId: string, plane: string, provider: string,
                               model: Option<string>, estimate: Option<real>, policy: string, tier: Option<string>)

  datatype Usage = Usage(input: Option<nat>, output: Option<nat>, reasoning: Option<nat>, cached: Option<nat>)

  /** The columns an observation fills; all NULL before it. */
  datatype Evidence = Evidence(returnedModel: Option<string>, usage: Usage, durationMs: Option<nat>, cost: Option<real>,
                               costKind: Option<string>, pricingBasis: Option<string>, finishReason: Option<string>,
                               networkAttempted: Option<bool>, responseReceived: Option<bool>, httpStatus: Option<int>,
                               errorCode: Option<string>, transportStage: Option<string>)

  const NO_EVIDENCE := Evidence(None, Usage(None, None, None, None), None, None, None, None, None, None, None, None, None, None)

  datatype Observation = Observation(provider: string, evidence: Evidence)

  datatype Terminal = Terminal(at: int, status: Status, failureCode: Option<string>, failureStage: Option<string>)

  datatype Invocation = Invocation(dispatch: Dispatch, softWarning: bool, dispatchedAt: int, evidence: Evidence,
                                   billing: Billing, terminal: Option<Terminal>)

  /** The outbox document: the row without its origin identifiers. */
  datatype Payload = Payload(run: string, host: string, plane: string, provider: string, model: Option<string>,
                             estimate: Option<real>, policy: string, tier: Option<string>, dispatchedAt: int,
                             evidence: Evidence, billing: Billing, softWarning: bool, terminal: Option<Terminal>)

  datatype Record = Record(run: string, payload: Payload, pending: bool, createdAt: int)

  /** `invocations` by run id and `accounting_outbox` by outbox id. */
  datatype Ledger = Ledger(invocations: map<string, Invocation>, outbox: map<string, Record>)

  datatype Call =
    | RecordDispatch(run: string, dispatch: Dispatch, softWarning: bool, now: int)
    | RecordObservation(run: string, observation: Observation)
    | RecordTerminal(run: string, status: Status, billing: Billing, failureCode: Option<string>,
                     failureStage: Option<string>, now: int, outboxId: string)
    | MarkSoftWarning(run: string)

  datatype Reply = Inserted | Done | Conflict | ValueError

  predicate ValidDispatch(d: Dispatch) {
    && 1 <= |Strip(d.provider)| <= 256
    && (d.model.Some? ==> 1 <= |Strip(d.model.value)| <= 512)
    && (d.estimate.Some? ==> 0.0 <= d.estimate.value)
  }

  function Normalised(d: Dispatch): Dispatch {
    d.(provider := Strip(d.provider), model := if d.model.Some? then Some(Strip(d.model.value)) else None)
  }

  function SafeFinishReason(reason: Option<string>): Option<string> {
    if reason.None? then None
    else
      var text := Lower(Strip(reason.value));
      if 1 <= |text| <= 64 && forall i :: 0 <= i < |text| ==> IsLower(text[i]) || IsDigit(text[i]) || text[i] in ['.', '_', '-']
      then Some(text) else Some("other")
  }

  function BillingOf(e: Evidence): Billing {
    if e.cost.None? then UnknownAfterDispatch
    else if e.costKind in {Some("provider_reported"), Some("actual")} then ProviderReported
    else if e.costKind == Some("zero_local") then ZeroLocal
    else Estimated
  }

  function Recorded(e: Evidence): Evidence { e.(finishReason := SafeFinishReason(e.finishReason)) }

  function PayloadOf(run: string, r: Invocation): Payload {
    Payload(run, r.dispatch.host, r.dispatch.plane, r.dispatch.provider, r.dispatch.model, r.dispatch.estimate,
            r.dispatch.policy, r.dispatch.tier, r.dispatchedAt, r.evidence, r.billing, r.softWarning, r.terminal)
  }

  function Store(l: Ledger, run: string, row: Invocation): Ledger { l.(invocations := l.invocations[run := row]) }

  function ApplyDispatch(l: Ledger, run: string, d: Dispatch, softWarning: bool, now: int): (Ledger, Reply) {
    if run in l.invocations then
      var row := l.invocations[run];
      if row.dispatch == d && row.softWarning == softWarning then (l, Done) else (l, Conflict)
    else (Store(l, run, Invocation(d, softWarning, now, NO_EVIDENCE, Dispatched, None)), Inserted)
  }

  function ApplyObservation(l: Ledger, run: string, o: Observation): (Ledger, Reply) {
    if run !in l.invocations then (l, Conflict)
    else
      var row := l.invocations[run];
      if row.terminal.Some? || row.dispatch.provider != o.provider then (l, Conflict)
      else if row.billing == Dispatched then
        (Store(l, run, row.(evidence := Recorded(o.evidence), billing := BillingOf(o.evidence))), Done)
      else if row.evidence == Recorded(o.evidence) && row.billing == BillingOf(o.evidence) then (l, Done)
      else (l, Conflict)
  }

  function Closed(row: Invocation, t: Terminal, billing: Billing): Invocation {
    row.(terminal := Some(t), billing := billing)
  }

  function ApplyTerminal(l: Ledger, run: string, t: Terminal, billing: Billing, outboxId: string): (Ledger, Reply) {
    if run !in l.invocations then (l, Conflict)
    else
      var row := l.invocations[run];
      if row.terminal.Some? then
        if row.terminal.value.(at := t.at) == t && row.billing == billing then (l, Done) else (l, Conflict)
      else if billing != UnknownAfterDispatch && row.evidence.cost.None? then (l, Conflict)
      else if outboxId in l.outbox || HasRecord(l, run) then (l, Conflict)
      else
        var closed := Closed(row, t, billing);
        (Ledger(l.invocations[run := closed], l.outbox[outboxId := Record(run, PayloadOf(run, closed), true, t.at)]), Done)
  }

  function ApplySoftWarning(l: Ledger, run: string): (Ledger, Reply) {
    if run !in l.invocations then (l, Conflict) else (Store(l, run, l.invocations[run].(softWarning := true)), Done)
  }

  function StripOption(s: Option<string>): Option<string> { if s.Some? then Some(Strip(s.value)) else None }

  predicate ValidTerminal(billing: Billing, code: Option<string>, stage: Option<string>) {
    && billing != Dispatched && code.Some? == stage.Some?
    && (code.Some? ==> SafeId(code.value, 256)) && (stage.Some? ==> SafeId(stage.value, 256))
  }

  /** One transaction and its reply. */
  function Apply(l: Ledger, call: Call): (Ledger, Reply) {
    match call
    case RecordDispatch(run, d, softWarning, now) =>
      if !ValidDispatch(d) then (l, ValueError) else ApplyDispatch(l, run, Normalised(d), softWarning, now)
    case RecordObservation(run, o) => ApplyObservation(l, run, o)
    case RecordTerminal(run, status, billing, code, stage, now, outboxId) =>
      if !ValidTerminal(billing, StripOption(code), StripOption(stage)) then (l, ValueError)
      else ApplyTerminal(l, run, Terminal(now, status, StripOption(code), StripOption(stage)), billing, outboxId)
    case MarkSoftWarning(run) => ApplySoftWarning(l, run)
  }

  /** The store object. Each method is one `BEGIN IMMEDIATE` transaction; a clash on the outbox indexes rolls it back. */
  class AccountingStore {
    var invocations: map<string, Invocation>
    var outbox: map<string, Record>

    ghost function Model(): Ledger reads this { Ledger(invocations, outbox) }

    constructor ()
      ensures Model() == Ledger(map[], map[])
    {
      invocations, outbox := map[], map[];
    }

    method Dispatch(run: string, d: Dispatch, softWarning: bool, now: int) returns (reply: Reply)
      modifies this
      ensures (Model(), reply) == Apply(old(Model()), RecordDispatch(run, d, softWarning, now))
    {
      hide Strip;
      if !ValidDispatch(d) { return ValueError; }
      var values := Normalised(d);
      if run in invocations {
        var existing := invocations[run];
        if existing.dispatch != values || existing.softWarning != softWarning { return Conflict; }
        return Done;
      }
      invocations := invocations[run := Invocation(values, softWarning, now, NO_EVIDENCE, Dispatched, None)];
      return Inserted;
    }

    method Observe(run: string, o: Observation) returns (reply: Reply)
      modifies this
      ensures (Model(), reply) == Apply(old(Model()), RecordObservation(run, o))
    {
      hide SafeFinishReason, BillingOf;
      var billing := BillingOf(o.evidence);
      if run !in invocations { return Conflict; }
      var row := invocations[run];
      if row.terminal.Some? { return Conflict; }
      if row.dispatch.provider != o.provider { return Conflict; }
      var observed := Recorded(o.evidence);
      if row.billing != Dispatched {
        if row.evidence == observed && row.billing == billing { return Done; }
        return Conflict;
      }
      invocations := invocations[run := row.(evidence := observed, billing := billing)];
      return Done;
    }

    method Terminate(run: string, status: Status, billing: Billing, failureCode: Option<string>,
                     failureStage: Option<string>, now: int, outboxId: string) returns (reply: Reply)
      modifies this
      ensures (Model(), reply)
           == Apply(old(Model()), RecordTerminal(run, status, billing, failureCode, failureStage, now, outboxId))
    {
      hide Strip, SafeId;
      var code, stage := StripOption(failureCode), StripOption(failureStage);
      if !ValidTerminal(billing, code, stage) { return ValueError; }
      if run !in invocations { return Conflict; }
      var row := invocations[run];
      if row.terminal.Some? {
        var t := row.terminal.value;
        if t.status == status && row.billing == billing && t.failureCode == code && t.failureStage == stage { return Done; }
        return Conflict;
      }
      if billing != UnknownAfterDispatch && row.evidence.cost.None? { return Conflict; }
      if outboxId in outbox || exists id :: id in outbox && outbox[id].run == run { return Conflict; }
      var updated := row.(terminal := Some(Terminal(now, status, code, stage)), billing := billing);
      invocations := invocations[run := updated];
      outbox := outbox[outboxId := Record(run, PayloadOf(run, updated), true, now)];
      return Done;
    }

    method SoftWarn(run: string) returns (reply: Reply)
      modifies this
      ensures (Model(), reply) == Apply(old(Model()), MarkSoftWarning(run))
    {
      if run !in invocations { return Conflict; }
      if !invocations[run].softWarning {
        invocations := invocations[run := invocations[run].(softWarning := true)];
      }
      assert invocations == old(invocations)[run := old(invocations)[run].(softWarning := true)];
      return Done;
    }
  }

  // ----- what every reachable ledger satisfies

  /** The payload shows the row as it stands, key by key; of the soft warning it shows what was there at the terminal mark. */
  predicate Shows(p: Payload, run: string, row: Invocation) {
    && p.run == run && p.host == row.dispatch.host && p.plane == row.dispatch.plane && p.provider == row.dispatch.provider
    && p.model == row.dispatch.model && p.estimate == row.dispatch.estimate && p.policy == row.dispatch.policy
    && p.tier == row.dispatch.tier && p.dispatchedAt == row.dispatchedAt && p.evidence == row.evidence && p.billing == row.billing
    && p.terminal == row.terminal && (p.softWarning ==> row.softWarning)
  }

  predicate RowInv(row: Invocation) {
    && (row.billing in {ProviderReported, Estimated, ZeroLocal} ==> row.evidence.cost.Some?)
    && (row.billing == Dispatched ==> row.evidence == NO_EVIDENCE && row.terminal.None?)
  }

  ghost predicate Inv(l: Ledger) {
    && (forall run :: run in l.invocations ==> RowInv(l.invocations[run]))
    && (forall id :: id in l.outbox ==> RecordInv(l, l.outbox[id]))
    && OneRecordPerRun(l)
    && (forall run :: run in l.invocations && l.invocations[run].terminal.Some? ==> HasRecord(l, run))
  }

  predicate RecordInv(l: Ledger, record: Record) {
    && record.pending && record.run in l.invocations && l.invocations[record.run].terminal.Some?
    && Shows(record.payload, record.run, l.invocations[record.run])
    && record.createdAt == l.invocations[record.run].terminal.value.at
  }

  ghost predicate OneRecordPerRun(l: Ledger) {
    forall id, other :: id in l.outbox && other in l.outbox && l.outbox[id].run == l.outbox[other].run ==> id == other
  }

  predicate HasRecord(l: Ledger, run: string) { exists id :: id in l.outbox && l.outbox[id].run == run }

  lemma DispatchKeepsInv(l: Ledger, run: string, d: Dispatch, softWarning: bool, now: int)
    requires Inv(l)
    ensures Inv(ApplyDispatch(l, run, d, softWarning, now).0)
  {
  }

  lemma ObservationKeepsInv(l: Ledger, run: string, o: Observation)
    requires Inv(l)
    ensures Inv(ApplyObservation(l, run, o).0)
  {
    hide SafeFinishReason;
  }

  lemma TerminalKeepsInv(l: Ledger, run: string, t: Terminal, billing: Billing, outboxId: string)
    requires Inv(l) && billing != Dispatched
    ensures Inv(ApplyTerminal(l, run, t, billing, outboxId).0)
  {
    var l' := ApplyTerminal(l, run, t, billing, outboxId).0;
    if l' != l {
      var record := l'.outbox[outboxId];
      assert RecordInv(l', record) && l' == Ledger(l.invocations[run := l'.invocations[run]], l.outbox[outboxId := record]);
      AddRecord(l, run, l'.invocations[run], outboxId, record);
    }
  }

  lemma AddRecord(l: Ledger, run: string, row: Invocation, outboxId: string, record: Record)
    requires Inv(l) && RowInv(row) && outboxId !in l.outbox && !HasRecord(l, run) && record.run == run
    requires var l' := Ledger(l.invocations[run := row], l.outbox[outboxId := record]); RecordInv(l', record)
    ensures Inv(Ledger(l.invocations[run := row], l.outbox[outboxId := record]))
  {
    hide RowInv, Shows;
    var l' := Ledger(l.invocations[run := row], l.outbox[outboxId := record]);
    forall id | id in l'.outbox ensures RecordInv(l', l'.outbox[id]) {
      if id != outboxId { assert RecordInv(l, l.outbox[id]); }
    }
    forall r | r in l'.invocations && l'.invocations[r].terminal.Some? ensures HasRecord(l', r) {
      if r == run {
        assert l'.outbox[outboxId].run == r;
      } else {
        assert HasRecord(l, r);
        var id :| id in l.outbox && l.outbox[id].run == r;
        assert l'.outbox[id].run == r;
      }
    }
  }

  lemma SoftWarningKeepsInv(l: Ledger, run: string)
    requires Inv(l)
    ensures Inv(ApplySoftWarning(l, run).0)
  {
  }

  lemma CallKeepsInv(l: Ledger, call: Call)
    requires Inv(l)
    ensures Inv(Apply(l, call).0)
  {
    hide Inv, ApplyDispatch, ApplyObservation, ApplyTerminal, ApplySoftWarning, Strip, ValidDispatch, SafeId;
    match call
    case RecordDispatch(run, d, softWarning, now) => DispatchKeepsInv(l, run, Normalised(d), softWarning, now);
    case RecordObservation(run, o) => ObservationKeepsInv(l, run, o);
    case RecordTerminal(run, status, billing, code, stage, now, outboxId) =>
      if billing != Dispatched {
        TerminalKeepsInv(l, run, Terminal(now, status, StripOption(code), StripOption(stage)), billing, outboxId);
      }
    case MarkSoftWarning(run) => SoftWarningKeepsInv(l, run);
  }

  /** Any sequence of calls, accepted or not. */
  function AfterCalls(l: Ledger, calls: seq<Call>): Ledger
    decreases |calls|
  {
    if calls == [] then l else AfterCalls(Apply(l, calls[0]).0, calls[1..])
  }

  lemma {:induction false} RunsKeepInv(l: Ledger, calls: seq<Call>)
    requires Inv(l)
    ensures Inv(AfterCalls(l, calls))
    decreases |calls|
  {
    hide Inv, Apply;
    if calls != [] {
      CallKeepsInv(l, calls[0]);
      RunsKeepInv(Apply(l, calls[0]).0, calls[1..]);
    }
  }

  /** In every reachable ledger an invocation has an outbox record exactly when it is terminal, only one,
      and that record's payload is the row's. */
  lemma OneRecordIffTerminal(calls: seq<Call>, run: string)
    requires run in AfterCalls(Ledger(map[], map[]), calls).invocations
    ensures var l := AfterCalls(Ledger(map[], map[]), calls);
            && (l.invocations[run].terminal.Some? <==> HasRecord(l, run))
            && (forall id, other :: id in l.outbox && other in l.outbox && l.outbox[id].run == run == l.outbox[other].run
                  ==> id == other)
            && (forall id :: id in l.outbox && l.outbox[id].run == run ==>
                  && l.invocations[run].terminal.Some?
                  && Shows(l.outbox[id].payload, run, l.invocations[run]) && l.outbox[id].pending
                  && l.outbox[id].createdAt == l.invocations[run].terminal.value.at)
            && (l.invocations[run].billing in {ProviderReported, Estimated, ZeroLocal} ==>
                  l.invocations[run].evidence.cost.Some?)
  {
    hide Shows, Apply;
    RunsKeepInv(Ledger(map[], map[]), calls);
  }

  // ----- what each accepted call writes

  /** A call is invalid exactly for what its own arguments say. */
  lemma InvalidArguments(l: Ledger, call: Call)
    ensures Apply(l, call).1 == ValueError <==>
              match call
              case RecordDispatch(_, d, _, _) =>
                || !(1 <= |Strip(d.provider)| <= 256) || (d.model.Some? && !(1 <= |Strip(d.model.value)| <= 512))
                || (d.estimate.Some? && d.estimate.value < 0.0)
              case RecordTerminal(_, _, billing, code, stage, _, _) =>
                || billing == Dispatched || (code.Some? && stage.None?) || (code.None? && stage.Some?)
                || (code.Some? && !SafeId(Strip(code.value), 256)) || (stage.Some? && !SafeId(Strip(stage.value), 256))
              case _ => false
  {
    hide Strip, SafeId, HasRecord, PayloadOf, Recorded, BillingOf;
  }

  /** A new row holds the dispatch of the call, its names stripped, and no evidence yet. */
  lemma DispatchWrites(l: Ledger, call: Call)
    requires call.RecordDispatch? && Apply(l, call).1 == Inserted
    ensures var l' := Apply(l, call).0;
            && call.run !in l.invocations && l' == l.(invocations := l'.invocations) && l'.invocations.Keys == l.invocations.Keys + {call.run}
            && var row, d := l'.invocations[call.run], call.dispatch;
               && row.dispatch.provider == Strip(d.provider) && row.dispatch.(provider := d.provider, model := d.model) == d
               && (if d.model.None? then row.dispatch.model.None? else row.dispatch.model == Some(Strip(d.model.value)))
               && row.softWarning == call.softWarning && row.dispatchedAt == call.now
               && row.evidence == NO_EVIDENCE && row.billing == Dispatched && row.terminal.None?
  {
    hide Strip, ValidDispatch;
  }

  /** A first observation puts its own figures into the row, the finish reason made safe, and its billing state. */
  lemma ObservationWrites(l: Ledger, call: Call)
    requires call.RecordObservation? && Apply(l, call).1 == Done
    ensures var l', o := Apply(l, call).0, call.observation;
            && call.run in l.invocations && call.run in l'.invocations && o.provider == l.invocations[call.run].dispatch.provider
            && var row, e := l'.invocations[call.run], o.evidence;
               && row.evidence.(finishReason := e.finishReason) == e
               && (row.evidence.finishReason.Some? <==> e.finishReason.Some?)
               && row == l.invocations[call.run].(evidence := row.evidence, billing := row.billing)
               && (row.billing == UnknownAfterDispatch <==> e.cost.None?)
               && (row.billing == ProviderReported <==> e.cost.Some? && e.costKind in {Some("provider_reported"), Some("actual")})
               && (row.billing == ZeroLocal <==> e.cost.Some? && e.costKind == Some("zero_local"))
               && row.billing != Dispatched
  {
    hide Lower, Strip;
  }

  /** A finish reason is made safe once and for all: a short lower-case code stays, anything else becomes "other". */
  lemma FinishReasonIsSafe(reason: string)
    ensures var safe, text := SafeFinishReason(Some(reason)), Lower(Strip(reason));
            && safe in {Some(text), Some("other")} && SafeFinishReason(safe) == safe
            && forall i :: 0 <= i < |safe.value| ==> IsLower(safe.value[i]) || IsDigit(safe.value[i]) || safe.value[i] in {'.', '_', '-'}
  {
    hide Strip, Lower;
    var safe := SafeFinishReason(Some(reason)).value;
    SafeStays(safe);
  }

  lemma SafeStays(s: string)
    requires 1 <= |s| <= 64 && forall i :: 0 <= i < |s| ==> IsLower(s[i]) || IsDigit(s[i]) || s[i] in ['.', '_', '-']
    ensures SafeFinishReason(Some(s)) == Some(s)
  {
    hide Strip;
    StripFixed(s);
    assert Lower(s) == s;
  }

  /** A terminal call leaves the row with its own status, codes and billing state; the first one also its time and its record. */
  lemma TerminalWrites(l: Ledger, call: Call)
    requires call.RecordTerminal? && Apply(l, call).1 == Done
    ensures var l' := Apply(l, call).0;
            && call.run in l.invocations && call.run in l'.invocations
            && var before, row := l.invocations[call.run], l'.invocations[call.run];
               && row.terminal.Some? && row.terminal.value.status == call.status && row.billing == call.billing
               && row.terminal.value.failureCode == StripOption(call.failureCode)
               && row.terminal.value.failureStage == StripOption(call.failureStage)
               && row == before.(terminal := row.terminal, billing := row.billing)
               && if before.terminal.Some? then l' == l
                  else row.terminal.value.at == call.now && call.outboxId !in l.outbox && call.outboxId in l'.outbox
                       && l'.outbox[call.outboxId].run == call.run && l'.outbox == l.outbox[call.outboxId := l'.outbox[call.outboxId]]
  {
    hide Strip, SafeId, PayloadOf, HasRecord;
  }

  // ----- what later calls keep

  /** Evidence is written once and never after the terminal mark; a terminal row only gains the soft warning. */
  ghost predicate Later(l: Ledger, l': Ledger) {
    forall run :: run in l.invocations ==>
      run in l'.invocations &&
      var a, b := l.invocations[run], l'.invocations[run];
      && a.dispatch == b.dispatch && a.dispatchedAt == b.dispatchedAt && (a.softWarning ==> b.softWarning)
      && (a.billing != Dispatched ==> b.evidence == a.evidence && b.billing != Dispatched)
      && (a.billing != Dispatched && b.terminal.None? ==> b.billing == a.billing)
      && (a.terminal.Some? ==> b.evidence == a.evidence && b.terminal == a.terminal && b.billing == a.billing)
  }

  lemma DispatchIsLater(l: Ledger, run: string, d: Dispatch, softWarning: bool, now: int)
    ensures Later(l, ApplyDispatch(l, run, d, softWarning, now).0)
  {
  }

  lemma ObservationIsLater(l: Ledger, run: string, o: Observation)
    ensures Later(l, ApplyObservation(l, run, o).0)
  {
    hide SafeFinishReason, BillingOf;
  }

  lemma TerminalIsLater(l: Ledger, run: string, t: Terminal, billing: Billing, outboxId: string)
    requires billing != Dispatched
    ensures Later(l, ApplyTerminal(l, run, t, billing, outboxId).0)
  {
  }

  lemma SoftWarningIsLater(l: Ledger, run: string)
    ensures Later(l, ApplySoftWarning(l, run).0)
  {
  }

  lemma LaterReflexive(l: Ledger)
    ensures Later(l, l)
  {
  }

  lemma LaterTransitive(a: Ledger, b: Ledger, c: Ledger)
    requires Later(a, b) && Later(b, c)
    ensures Later(a, c)
  {
  }

  lemma CallIsLater(l: Ledger, call: Call)
    ensures Later(l, Apply(l, call).0)
  {
    hide Later, ApplyDispatch, ApplyObservation, ApplyTerminal, ApplySoftWarning, Strip, ValidDispatch, SafeId;
    LaterReflexive(l);
    match call
    case RecordDispatch(run, d, softWarning, now) => DispatchIsLater(l, run, Normalised(d), softWarning, now);
    case RecordObservation(run, o) => ObservationIsLater(l, run, o);
    case RecordTerminal(run, status, billing, code, stage, now, outboxId) =>
      if billing != Dispatched {
        TerminalIsLater(l, run, Terminal(now, status, StripOption(code), StripOption(stage)), billing, outboxId);
      }
    case MarkSoftWarning(run) => SoftWarningIsLater(l, run);
  }

  lemma {:induction false} RunsAreLater(l: Ledger, calls: seq<Call>)
    ensures Later(l, AfterCalls(l, calls))
    decreases |calls|
  {
    hide Later, Apply;
    if calls == [] {
      LaterReflexive(l);
    } else {
      CallIsLater(l, calls[0]);
      RunsAreLater(Apply(l, calls[0]).0, calls[1..]);
      LaterTransitive(l, Apply(l, calls[0]).0, AfterCalls(l, calls));
    }
  }

  /** The row of a recorded observation. */
  predicate Observed(l: Ledger, run: string, o: Observation) {
    && run in l.invocations
    && var row := l.invocations[run];
       && row.dispatch.provider == o.provider && row.evidence == Recorded(o.evidence) && row.billing != Dispatched
       && (row.terminal.None? ==> row.billing == BillingOf(o.evidence))
  }

  lemma ObservationIsRecorded(l: Ledger, run: string, o: Observation)
    requires Apply(l, RecordObservation(run, o)).1 == Done
    ensures Observed(Apply(l, RecordObservation(run, o)).0, run, o)
  {
    hide Recorded;
  }

  lemma ObservedStays(l: Ledger, l': Ledger, run: string, o: Observation)
    requires Later(l, l') && Observed(l, run, o)
    ensures Observed(l', run, o)
  {
    hide Recorded, BillingOf;
  }

  /** An observation that was recorded can be sent again at any later time: the ledger does not change, and the retry
      is accepted exactly while the run is not terminal. */
  lemma RetriedObservationChangesNothing(l: Ledger, run: string, o: Observation, calls: seq<Call>)
    requires Apply(l, RecordObservation(run, o)).1 == Done
    ensures var later := AfterCalls(Apply(l, RecordObservation(run, o)).0, calls);
            && run in later.invocations
            && Apply(later, RecordObservation(run, o))
            == (later, if later.invocations[run].terminal.None? then Done else Conflict)
  {
    hide Recorded, BillingOf, Later, AfterCalls;
    var observed := Apply(l, RecordObservation(run, o)).0;
    ObservationIsRecorded(l, run, o);
    RunsAreLater(observed, calls);
    ObservedStays(observed, AfterCalls(observed, calls), run, o);
  }

  /** A different observation is always refused once one is recorded, and changes nothing. */
  lemma SecondObservationIsRefused(l: Ledger, run: string, o: Observation, other: Observation, calls: seq<Call>)
    requires Apply(l, RecordObservation(run, o)).1 == Done
    requires Recorded(other.evidence) != Recorded(o.evidence)
    ensures var later := AfterCalls(Apply(l, RecordObservation(run, o)).0, calls);
            Apply(later, RecordObservation(run, other)) == (later, Conflict)
  {
    hide Recorded, BillingOf, Later, AfterCalls;
    var observed := Apply(l, RecordObservation(run, o)).0;
    ObservationIsRecorded(l, run, o);
    RunsAreLater(observed, calls);
    ObservedStays(observed, AfterCalls(observed, calls), run, o);
  }

  /** A terminal call that succeeded can be sent again at any later time, with any clock reading and outbox id:
      it is accepted and the ledger does not change. */
  lemma RetriedTerminalChangesNothing(l: Ledger, call: Call, now: int, outboxId: string, calls: seq<Call>)
    requires call.RecordTerminal? && Apply(l, call).1 == Done
    ensures var later := AfterCalls(Apply(l, call).0, calls);
            Apply(later, RecordTerminal(call.run, call.status, call.billing, call.failureCode, call.failureStage, now, outboxId))
              == (later, Done)
  {
    hide Strip, SafeId;
    RunsAreLater(Apply(l, call).0, calls);
  }

  /** A dispatch can be retried exactly until the soft warning it was sent with changes. */
  lemma RetriedDispatch(l: Ledger, call: Call, now: int, calls: seq<Call>)
    requires call.RecordDispatch? && Apply(l, call).1 in {Inserted, Done}
    ensures var later := AfterCalls(Apply(l, call).0, calls);
            && call.run in later.invocations
            && Apply(later, RecordDispatch(call.run, call.dispatch, call.softWarning, now))
            == (later, if later.invocations[call.run].softWarning == call.softWarning then Done else Conflict)
  {
    hide Strip, ValidDispatch;
    RunsAreLater(Apply(l, call).0, calls);
  }

  // ----- one run at a time

  /** A call touches no other run's row. */
  lemma OnlyItsRun(l: Ledger, call: Call)
    ensures forall r :: r != call.run ==>
              (r in Apply(l, call).0.invocations <==> r in l.invocations)
              && (r in l.invocations ==> Apply(l, call).0.invocations[r] == l.invocations[r])
    ensures call.run in l.invocations ==> call.run in Apply(l, call).0.invocations
  {
    hide Strip, ValidDispatch, SafeId, SafeFinishReason, BillingOf, HasRecord, PayloadOf;
  }

  lemma DispatchOpensRow(l: Ledger, run: string, d: Dispatch, now: int)
    requires run !in l.invocations
    ensures var (l', reply) := Apply(l, RecordDispatch(run, d, false, now));
            if ValidDispatch(d) then reply == Inserted && run in l'.invocations
                 && l'.invocations[run] == Invocation(Normalised(d), false, now, NO_EVIDENCE, Dispatched, None)
            else reply == ValueError && l' == l
  {
    hide Strip, ValidDispatch;
  }

  lemma ObservationFillsRow(l: Ledger, run: string, o: Observation)
    requires run in l.invocations
    requires var row := l.invocations[run]; row.terminal.None? && row.billing == Dispatched && row.dispatch.provider == o.provider
    ensures Apply(l, RecordObservation(run, o))
         == (Store(l, run, l.invocations[run].(evidence := Recorded(o.evidence), billing := BillingOf(o.evidence))), Done)
  {
    hide SafeFinishReason, BillingOf;
  }

  /** The terminal call agrees with the observation on the billing state, so its cost check never refuses; only an outbox
      id that is already there can. */
  lemma TerminalClosesRow(l: Ledger, run: string, status: Status, e: Evidence, now: int, outboxId: string)
    requires Inv(l) && run in l.invocations
    requires var row := l.invocations[run]; row.terminal.None? && row.evidence == Recorded(e) && row.billing == BillingOf(e)
    ensures var (l', reply) := Apply(l, RecordTerminal(run, status, BillingOf(e), None, None, now, outboxId));
            if outboxId in l.outbox then reply == Conflict && l' == l
            else reply == Done && run in l'.invocations && l'.invocations[run].terminal.Some?
                 && l'.invocations[run].terminal.value.status == status
                 && l'.invocations[run] == l.invocations[run].(terminal := l'.invocations[run].terminal)
  {
    hide Strip, SafeFinishReason, PayloadOf;
    assert forall id :: id in l.outbox ==> RecordInv(l, l.outbox[id]);
  }

  lemma WarningMarksRow(l: Ledger, run: string)
    requires run in l.invocations
    ensures Apply(l, MarkSoftWarning(run)) == (Store(l, run, l.invocations[run].(softWarning := true)), Done)
  {
  }

  /** A refused call leaves the ledger as it was. */
  lemma RefusalChangesNothing(l: Ledger, call: Call)
    ensures Apply(l, call).1 in {Conflict, ValueError} ==> Apply(l, call).0 == l
  {
    hide Strip, ValidDispatch, SafeId, SafeFinishReason, BillingOf, HasRecord, PayloadOf;
  }
}

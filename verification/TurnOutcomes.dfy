/** What the stores answer to each write of a turn, and how a turn that reached its adapter ends. */
module TurnOutcomes {
  import opened Text
  import opened RoleCheck
  import opened DirectTurns
  import opened TurnSteps
  import opened TurnRuns
  import A = Accounting
  import P = DirectSettings
  import S = DirectStore
  import Utf8

  /** A failure text that a run can be failed with. */
  predicate Failable(failure: string) { 1 <= |Strip(failure)| && |failure| <= 128 }

  /** How a turn is settled: an error by its text, an answer by its decoded content; what cannot be stored is raised. */
  ghost function Outcome(reply: Reply): Result {
    if reply.error.Some? then (if Failable(reply.error.value) then FailedAfter(reply.error.value) else Raised)
    else if reply.answer.Some? && Utf8.Decode(reply.answer.value).Some? && S.ValidContent(Utf8.Decode(reply.answer.value).value)
    then Completed
    else Raised
  }

  // ----- the stores one by one

  lemma FailsIff(db: S.Db, run: string, state: S.RunState, failure: string)
    requires state in {S.RefusedBeforeNetwork, S.FailedAfterDispatch} && run in db.runs && db.runs[run].state == S.Created
    ensures S.FailRunAt(db, run, state, failure).1.Done? <==> Failable(failure)
    ensures !Failable(failure) ==> S.FailRunAt(db, run, state, failure).0 == db
  {
    hide Strip;
  }

  lemma AnswersIff(db: S.Db, conversation: string, run: string, content: string, estimate: nat)
    requires run in db.runs && db.runs[run].conversation == conversation && db.runs[run].state == S.Created
    requires conversation in db.conversations
    ensures S.AppendAssistantAt(db, conversation, run, content, estimate).1.Appended? <==> S.ValidContent(content)
    ensures !S.ValidContent(content) ==> S.AppendAssistantAt(db, conversation, run, content, estimate).0 == db
  {
    hide S.ValidContent, S.LastOrdinal;
  }

  lemma RefusesIff(w: World, id: nat, why: Why)
    requires Inv(w) && id in w.turns && w.turns[id].phase == Refusing(why)
    ensures id in Refuse(w, id, why).turns
    ensures Refuse(w, id, why).turns[id].phase == Ended(if Failable(WhyText(why)) then Refused(why) else Raised)
  {
    hide S.Inv, A.Inv, ShapesInv, OverLimit, Pinned, WhyText, Failable, S.FailRunAt, AtEnd;
    TurnFacts(w, id);
    FailsIff(w.db, w.turns[id].run, S.RefusedBeforeNetwork, WhyText(why));
  }

  /** A context refusal is always stored. */
  lemma ContextTextIsFailable()
    ensures Failable(WhyText(ContextLimit))
  {
    hide Strip;
    StripFixed(WhyText(ContextLimit));
  }

  lemma OpensWhen(w: World, id: nat, eventId: string)
    requires Inv(w) && id in w.turns && w.turns[id].phase.Opening? && eventId !in w.eventIds
    ensures id in OpenEvent(w, id, eventId, true).turns && OpenEvent(w, id, eventId, true).turns[id].phase == Dispatching
  {
    hide S.Inv, A.Inv, ShapesInv, Sending, Pinned;
    TurnFacts(w, id);
  }

  lemma DispatchesIff(w: World, id: nat, now: int)
    requires Inv(w) && id in w.turns && w.turns[id].phase.Dispatching?
    ensures var t, w' := w.turns[id], RecordDispatch(w, id, now);
            id in w'.turns && w'.turns[id].phase == if A.ValidDispatch(DispatchOf(t.spec, t.origin)) then Calling else Releasing(Raised)
  {
    hide S.Inv, A.Inv, ShapesInv, Sending, Pinned, A.Apply, A.ValidDispatch, DispatchOf;
    TurnFacts(w, id);
    A.DispatchOpensRow(w.ledger, w.turns[id].run, DispatchOf(w.turns[id].spec, w.turns[id].origin), now);
  }

  lemma SettlesAs(w: World, id: nat, reply: Reply)
    requires Inv(w) && id in w.turns && w.turns[id].phase == Settling(reply)
    ensures id in Settle(w, id, reply).turns && Settle(w, id, reply).turns[id].phase == Releasing(Outcome(reply))
    ensures Outcome(reply) == Raised ==> Settle(w, id, reply) == To(w, id, Releasing(Raised))
  {
    hide S.Inv, Inv, S.FailRunAt, S.AppendAssistantAt, Utf8.Decode, S.ValidContent, Failable;
    var t := w.turns[id];
    SettlingRow(w, id, reply);
    if reply.error.Some? {
      FailsIff(w.db, t.run, S.FailedAfterDispatch, reply.error.value);
    } else if reply.answer.Some? && Utf8.Decode(reply.answer.value).Some? {
      AnswersIff(w.db, t.conversation, t.run, Utf8.Decode(reply.answer.value).value, t.estimate);
    }
  }

  lemma SettlingRow(w: World, id: nat, reply: Reply)
    requires Inv(w) && id in w.turns && w.turns[id].phase == Settling(reply)
    ensures var t := w.turns[id];
            && DirectRun(w, t) && t.conversation in w.db.conversations && ClosedAs(w, t.run, reply) && TerminalAs(w, t, reply)
            && VaultHas(w, t, reply.answer)
  {
    hide S.Inv, A.Inv, ShapesInv, AtEnd, SentOf, LimitsOf;
    TurnFacts(w, id);
  }

  // ----- every write of a turn

  /** What the next transaction of a turn does, given ids that are not used yet and a payload the event ledger lets through. */
  ghost predicate NextIs(t: Turn, next: Phase) {
    match t.phase
    case Starting(_) => next == Checking
    case Refusing(why) => next == Ended(if Failable(WhyText(why)) then Refused(why) else Raised)
    case Opening => next == Dispatching
    case Dispatching => next == if A.ValidDispatch(DispatchOf(t.spec, t.origin)) then Calling else Releasing(Raised)
    case Capturing(reply) => next == Observing(reply)
    case Observing(reply) => next == Warning(reply)
    case Warning(reply) => next == Terminating(reply)
    case Terminating(reply) => next == Closing(reply)
    case Closing(reply) => next == Settling(reply)
    case Settling(reply) => next == Releasing(Outcome(reply))
    case Releasing(result) => next == Ended(result)
    case _ => true
  }

  ghost predicate Unused(w: World, env: Env) { env.eventId !in w.eventIds && env.acceptable && env.outboxId !in w.ledger.outbox }

  lemma NextPhase(w: World, id: nat, env: Env)
    requires Inv(w) && id in w.turns && Unused(w, env)
    ensures id in StepOf(w, id, env).turns && NextIs(w.turns[id], StepOf(w, id, env).turns[id].phase)
  {
    hide Inv, Safe, Load, Append, Start, Check, Refuse, Admit, OpenEvent, RecordDispatch, Capture, Observe, Warn;
    hide Terminate, CloseEvent, Settle, Answered, Outcome, Failable, A.ValidDispatch, DispatchOf;
    TurnStays(w, id, env);
    match w.turns[id].phase
    case Starting(ordinal) => StartIsSafe(w, id, ordinal);
    case Refusing(why) => RefusesIff(w, id, why);
    case Opening => OpensWhen(w, id, env.eventId);
    case Dispatching => DispatchesIff(w, id, env.now);
    case Capturing(reply) => CaptureIsSafe(w, id, reply);
    case Observing(reply) => ObserveIsSafe(w, id, reply);
    case Warning(reply) => WarnIsSafe(w, id, reply);
    case Terminating(reply) => TerminateIsSafe(w, id, reply, env.now, env.outboxId);
    case Closing(reply) => CloseIsSafe(w, id, reply, env.eventId, env.acceptable); ClosesToSettling(w, id, reply, env.eventId, env.acceptable);
    case Settling(reply) => SettlesAs(w, id, reply);
    case _ =>
  }

  lemma TurnStays(w: World, id: nat, env: Env)
    requires Inv(w) && id in w.turns
    ensures id in StepOf(w, id, env).turns
  {
    hide Inv, StepOf, Safe;
    if w.turns[id].phase.Ended? { EndedStays(w, id, env); } else { StepIsSafe(w, id, env); SafeHasTurn(w, StepOf(w, id, env), id); }
  }

  lemma SafeHasTurn(w: World, w': World, id: nat)
    requires Safe(w, w', id)
    ensures id in w'.turns
  {
  }

  lemma ClosesToSettling(w: World, id: nat, reply: Reply, eventId: string, acceptable: bool)
    requires id in w.turns && CloseEvent(w, id, reply, eventId, acceptable).turns[id].phase.Settling?
    ensures CloseEvent(w, id, reply, eventId, acceptable).turns[id].phase == Settling(reply)
  {
  }

  /** In every reachable world, with unused event and outbox ids and a payload the event ledger lets through, each write of a
      turn after its user message has the stated answer: the run is started, the dispatch event and the accounting row
      written, the answer captured, the observation, the terminal mark and the terminal event recorded. Only three writes can
      be refused, each on an exact condition: the accounting row for an invalid dispatch, a refusal for its text, and the
      settling write for an error text or an answer that cannot be stored. */
  lemma StoresAcceptTheTurn(profiles: P.Profiles, events: seq<Event>, id: nat, env: Env)
    requires var w := Run(Empty(profiles), events); id in w.turns && Unused(w, env)
    ensures var w := Run(Empty(profiles), events);
            id in StepOf(w, id, env).turns && NextIs(w.turns[id], StepOf(w, id, env).turns[id].phase)
  {
    hide Run, Inv, Growing, StepOf, NextIs, Unused;
    EmptyInv(profiles);
    RunKeepsInv(Empty(profiles), events);
    NextPhase(Run(Empty(profiles), events), id, env);
  }

  // ----- from the adapter to the end

  /** `n` steps of one turn, nobody else moving. */
  ghost function StepsOf(w: World, id: nat, env: Env, n: nat): World {
    if n == 0 then w
    else
      var v := StepsOf(w, id, env, n - 1);
      if id in v.turns then StepOf(v, id, env) else v
  }

  lemma Further(w: World, id: nat, env: Env, n: nat)
    requires id in StepsOf(w, id, env, n).turns
    ensures StepsOf(w, id, env, n + 1) == StepOf(StepsOf(w, id, env, n), id, env)
  {
    hide StepOf;
  }

  ghost predicate Stands(w: World, id: nat, run: string, phase: Phase) {
    Inv(w) && id in w.turns && w.turns[id].run == run && w.turns[id].phase == phase
  }

  lemma StepStands(w: World, id: nat, env: Env, run: string, phase: Phase)
    requires Stands(w, id, run, phase)
    ensures id in StepOf(w, id, env).turns && Stands(StepOf(w, id, env), id, run, StepOf(w, id, env).turns[id].phase)
  {
    hide Inv, StepOf;
    EventKeepsInv(w, Step(id, env));
    TurnStays(w, id, env);
    GrowthKeepsRun(w, StepOf(w, id, env), id);
  }

  lemma GrowthKeepsRun(w: World, w': World, id: nat)
    requires Growing(w, w') && id in w.turns
    ensures id in w'.turns && w'.turns[id].run == w.turns[id].run && w'.turns[id].conversation == w.turns[id].conversation
  {
    hide OverLimit;
  }

  /** The steps before the terminal mark use no outbox id, and those before the terminal event no event id. */
  lemma IdsKept(w: World, id: nat, env: Env)
    requires id in w.turns
    ensures var p, w' := w.turns[id].phase, StepOf(w, id, env);
            && (p.Calling? || p.Capturing? || p.Observing? || p.Warning? ==> w'.ledger.outbox == w.ledger.outbox)
            && (p.Calling? || p.Capturing? || p.Observing? || p.Warning? || p.Terminating? ==> w'.eventIds == w.eventIds)
  {
    hide Load, Append, Start, Check, Refuse, Admit, OpenEvent, RecordDispatch, Capture, Observe, Warn, Terminate, CloseEvent;
    hide Settle, Release, Answered;
    match w.turns[id].phase
    case Capturing(reply) => CaptureKeepsIds(w, id, reply);
    case Observing(reply) => ObserveKeepsIds(w, id, reply);
    case Warning(reply) => WarnKeepsIds(w, id, reply);
    case Terminating(reply) => TerminateKeepsIds(w, id, reply, env.now, env.outboxId);
    case _ =>
  }

  lemma CaptureKeepsIds(w: World, id: nat, reply: Reply)
    requires id in w.turns
    ensures Capture(w, id, reply).ledger == w.ledger && Capture(w, id, reply).eventIds == w.eventIds
  {
  }

  lemma ObserveKeepsIds(w: World, id: nat, reply: Reply)
    requires id in w.turns
    ensures Observe(w, id, reply).ledger.outbox == w.ledger.outbox && Observe(w, id, reply).eventIds == w.eventIds
  {
    hide A.Apply, Strip;
    var o := A.Observation.Observation(Strip(w.turns[id].spec.provider), reply.evidence);
    OutboxKept(w.ledger, A.RecordObservation(w.turns[id].run, o));
  }

  lemma WarnKeepsIds(w: World, id: nat, reply: Reply)
    requires id in w.turns
    ensures Warn(w, id, reply).ledger.outbox == w.ledger.outbox && Warn(w, id, reply).eventIds == w.eventIds
  {
    hide A.Apply, OverBudget;
    OutboxKept(w.ledger, A.MarkSoftWarning(w.turns[id].run));
  }

  lemma TerminateKeepsIds(w: World, id: nat, reply: Reply, now: int, outboxId: string)
    requires id in w.turns
    ensures Terminate(w, id, reply, now, outboxId).eventIds == w.eventIds
  {
    hide A.Apply;
  }

  lemma OutboxKept(l: A.Ledger, call: A.Call)
    requires !call.RecordTerminal?
    ensures A.Apply(l, call).0.outbox == l.outbox
  {
    hide A.Recorded, A.BillingOf, A.ValidDispatch, A.Normalised;
  }

  lemma OneStep(w: World, id: nat, env: Env, run: string, phase: Phase)
    requires Stands(w, id, run, phase) && Unused(w, env)
    ensures var w' := StepOf(w, id, env);
            && id in w'.turns && Stands(w', id, run, w'.turns[id].phase) && NextIs(w.turns[id], w'.turns[id].phase)
            && (phase.Calling? || phase.Capturing? || phase.Observing? || phase.Warning? ==> Unused(w', env))
            && (phase.Calling? || phase.Capturing? || phase.Observing? || phase.Warning? || phase.Terminating? ==>
                  w'.eventIds == w.eventIds)
  {
    hide Inv, StepOf, NextIs;
    StepStands(w, id, env, run, phase);
    NextPhase(w, id, env);
    IdsKept(w, id, env);
  }

  /** The steps from the call to the settling write. */
  lemma ReachesTerminating(w: World, id: nat, env: Env, run: string, r: Reply)
    requires Stands(w, id, run, Calling) && Unused(w, env) && r == Answered(w.turns[id], env.reply)
    ensures Stands(StepsOf(w, id, env, 4), id, run, Terminating(r)) && Unused(StepsOf(w, id, env, 4), env)
  {
    hide Inv, StepOf, Answered, StepsOf, Unused, Stands;
    Zero(w, id, env);
    CallStep(w, id, env, run, r);
    Further(w, id, env, 0);
    PlainStep(StepsOf(w, id, env, 1), id, env, run, r, Capturing(r), Observing(r));
    Further(w, id, env, 1);
    PlainStep(StepsOf(w, id, env, 2), id, env, run, r, Observing(r), Warning(r));
    Further(w, id, env, 2);
    PlainStep(StepsOf(w, id, env, 3), id, env, run, r, Warning(r), Terminating(r));
    Further(w, id, env, 3);
  }

  lemma CallStep(w: World, id: nat, env: Env, run: string, r: Reply)
    requires Stands(w, id, run, Calling) && Unused(w, env) && r == Answered(w.turns[id], env.reply)
    ensures id in w.turns && Stands(StepOf(w, id, env), id, run, Capturing(r)) && Unused(StepOf(w, id, env), env)
  {
    hide Inv, StepOf, Answered, Unused;
    CallsAs(w, id, env);
    OneStep(w, id, env, run, Calling);
  }

  lemma PlainStep(w: World, id: nat, env: Env, run: string, r: Reply, phase: Phase, next: Phase)
    requires Stands(w, id, run, phase) && Unused(w, env)
    requires (phase, next) in {(Capturing(r), Observing(r)), (Observing(r), Warning(r)), (Warning(r), Terminating(r))}
    ensures id in w.turns && Stands(StepOf(w, id, env), id, run, next) && Unused(StepOf(w, id, env), env)
  {
    hide Inv, StepOf, Unused;
    OneStep(w, id, env, run, phase);
  }

  lemma ReachesSettling(w: World, id: nat, env: Env, run: string, r: Reply)
    requires Stands(w, id, run, Calling) && Unused(w, env) && r == Answered(w.turns[id], env.reply)
    ensures Stands(StepsOf(w, id, env, 6), id, run, Settling(r))
  {
    hide Inv, StepOf, Answered, StepsOf, NextIs;
    ReachesTerminating(w, id, env, run, r);
    var u := StepsOf(w, id, env, 4);
    OneStep(u, id, env, run, Terminating(r));
    TerminateStep(u, id, env, r);
    Further(w, id, env, 4);
    ClosingStep(StepsOf(w, id, env, 5), id, env, run, r);
    Further(w, id, env, 5);
  }

  lemma TerminateStep(w: World, id: nat, env: Env, r: Reply)
    requires id in w.turns && id in StepOf(w, id, env).turns && w.turns[id].phase == Terminating(r)
    requires NextIs(w.turns[id], StepOf(w, id, env).turns[id].phase)
    ensures StepOf(w, id, env).turns[id].phase == Closing(r)
  {
    hide StepOf;
  }

  lemma Zero(w: World, id: nat, env: Env)
    ensures StepsOf(w, id, env, 0) == w
  {
  }

  lemma CallsAs(w: World, id: nat, env: Env)
    requires id in w.turns && w.turns[id].phase == Calling
    ensures id in StepOf(w, id, env).turns
    ensures StepOf(w, id, env).turns[id].phase == Capturing(Answered(w.turns[id], env.reply))
  {
    hide Answered;
  }

  lemma ClosingStep(w: World, id: nat, env: Env, run: string, reply: Reply)
    requires Stands(w, id, run, Closing(reply)) && env.eventId !in w.eventIds && env.acceptable
    ensures Stands(StepOf(w, id, env), id, run, Settling(reply))
  {
    hide Inv, CloseEvent, Safe;
    StepStands(w, id, env, run, Closing(reply));
    CloseIsSafe(w, id, reply, env.eventId, env.acceptable);
    ClosesToSettling(w, id, reply, env.eventId, env.acceptable);
  }

  /** A turn that reached its adapter and is left alone ends with the outcome of its reply: its answer captured, its row terminal
      with the evidence, the billing state and the warning that the reply gives it, and its event closed likewise. If the outcome
      cannot be stored, the run stays as created all the same. */
  lemma TurnEndsAs(profiles: P.Profiles, events: seq<Event>, id: nat, env: Env)
    requires var w := Run(Empty(profiles), events); id in w.turns && w.turns[id].phase == Calling && Unused(w, env)
    ensures var w := Run(Empty(profiles), events); EndsAs(StepsOf(w, id, env, 8), id, w.turns[id].run, Answered(w.turns[id], env.reply))
  {
    hide Run, Inv, Growing, StepOf, StepsOf, Answered, EndsAs;
    EmptyInv(profiles);
    RunKeepsInv(Empty(profiles), events);
    EndsFrom(Run(Empty(profiles), events), id, env);
  }

  ghost predicate EndsAs(v: World, id: nat, run: string, reply: Reply) {
    && id in v.turns && v.turns[id].run == run && v.turns[id].phase == Ended(Outcome(reply))
    && ClosedAs(v, run, reply) && TerminalAs(v, v.turns[id], reply) && VaultHas(v, v.turns[id], reply.answer)
    && (Outcome(reply) == Raised ==> RunIs(v, run, S.Created))
  }

  lemma EndsFrom(w: World, id: nat, env: Env)
    requires Inv(w) && id in w.turns && w.turns[id].phase == Calling && Unused(w, env)
    ensures EndsAs(StepsOf(w, id, env, 8), id, w.turns[id].run, Answered(w.turns[id], env.reply))
  {
    hide Inv, StepOf, StepsOf, Answered, EndsAs;
    var run, reply := w.turns[id].run, Answered(w.turns[id], env.reply);
    ReachesSettling(w, id, env, run, reply);
    var u := StepsOf(w, id, env, 6);
    LastSteps(u, id, env, run, reply);
    Further(w, id, env, 6);
    Further(w, id, env, 7);
  }

  lemma LastSteps(u: World, id: nat, env: Env, run: string, reply: Reply)
    requires Stands(u, id, run, Settling(reply))
    ensures id in StepOf(u, id, env).turns
    ensures EndsAs(StepOf(StepOf(u, id, env), id, env), id, run, reply)
  {
    hide Inv, Outcome, Settle;
    SettlesAs(u, id, reply);
    SettlingRow(u, id, reply);
    SettleKeepsLedgers(u, id, reply);
    StepStands(u, id, env, run, Settling(reply));
    Releases(StepOf(u, id, env), id, env, Outcome(reply));
  }

  /** The settling write is on the conversation store alone. */
  lemma SettleKeepsLedgers(w: World, id: nat, reply: Reply)
    requires id in w.turns
    ensures var w' := Settle(w, id, reply);
            && w' == w.(db := w'.db, turns := w'.turns) && id in w'.turns && w'.turns[id] == w.turns[id].(phase := w'.turns[id].phase)
  {
    hide S.FailRunAt, S.AppendAssistantAt, Utf8.Decode;
  }

  lemma Releases(w: World, id: nat, env: Env, result: Result)
    requires id in w.turns && w.turns[id].phase == Releasing(result)
    ensures StepOf(w, id, env) == Release(w, id, result)
  {
  }

  // ----- answers that the adapter lets through and the store does not

  /** An answer is stored exactly when its text is not blank and not too long. */
  lemma TextOutcome(reply: Reply, text: string)
    requires reply.error.None? && reply.answer == Some(Utf8.Encode(text))
    ensures Outcome(reply) == if S.ValidContent(text) then Completed else Raised
  {
    hide S.ValidContent, Utf8.Encode, Utf8.Decode, Failable;
    Utf8.DecodeEncode(text);
  }

  const NO_BREAK_SPACE := "\U{a0}"

  /** A no-break space: its bytes are not blank to the adapter, its text is blank to the store. */
  lemma NoBreakSpaceIsRaised(evidence: A.Evidence)
    ensures !Blank(Utf8.Encode(NO_BREAK_SPACE))
    ensures Outcome(Reply(evidence, Some(Utf8.Encode(NO_BREAK_SPACE)), None)) == Raised
  {
    var s := NO_BREAK_SPACE;
    EncodedSpace();
    assert Utf8.Encode(s)[0] !in {9, 10, 11, 12, 13, 32};
    BlankToTheStore(s);
    hide Strip, Utf8.Encode;
    TextOutcome(Reply(evidence, Some(Utf8.Encode(s)), None), s);
  }

  lemma EncodedSpace()
    ensures Utf8.Encode(NO_BREAK_SPACE) == [0xC2, 0xA0]
  {
    var s := NO_BREAK_SPACE;
    assert s[0] == '\U{a0}' && s[1..] == "";
    assert Utf8.Encode("") == [];
    assert Utf8.EncodeChar(s[0]) == [0xC2, 0xA0];
  }

  lemma BlankToTheStore(s: string)
    requires |s| == 1 && IsSpace(s[0])
    ensures Strip(s) == ""
  {
    hide IsSpace;
    assert s[1..] == "" && StripLeft("") == "" && StripRight("") == "";
  }

  // ----- a turn that reaches its adapter

  /** What a first turn of a conversation needs to be let through to its adapter. */
  ghost predicate Admissible(w: World, c: string, run: string, content: string, origin: string, env: Env) {
    && c in w.db.conversations && !w.db.conversations[c].archived && w.db.conversations[c].messages == [] && c !in w.locks
    && Fresh(w, run) && S.ValidContent(content) && LimitsOf(w, c).Some?
    && !TooLong(FirstSent(SpecOf(w, c), content), LimitsOf(w, c).value)
    && A.ValidDispatch(DispatchOf(SpecOf(w, c), origin)) && env.admitted && Unused(w, env)
  }

  function FirstSent(spec: S.Spec, content: string): seq<Sent> {
    (if spec.system != "" then [Sent(S.System, spec.system)] else []) + [Sent(S.User, content)]
  }

  /** The turn once its conversation is loaded, and once its context was checked. */
  function LoadedTurn(w: World, c: string, run: string, content: string, origin: string): Turn
    requires c in w.db.conversations && LimitsOf(w, c).Some?
  {
    Turn(c, run, content, origin, SpecOf(w, c), LimitsOf(w, c).value, [], 0, false, Appending)
  }

  function CheckedTurn(w: World, c: string, run: string, content: string, origin: string): Turn
    requires c in w.db.conversations && LimitsOf(w, c).Some?
  {
    var sent := FirstSent(SpecOf(w, c), content);
    LoadedTurn(w, c, run, content, origin).(sent := sent, estimate := Estimate(sent), passed := true, phase := Admitting)
  }

  ghost predicate Ready(w: World, id: nat, t: Turn) { Inv(w) && id in w.turns && w.turns[id] == t }

  lemma ReadyNext(w: World, id: nat, env: Env, t: Turn, next: Turn)
    requires Ready(w, id, t) && id in StepOf(w, id, env).turns && StepOf(w, id, env).turns[id] == next
    ensures Ready(StepOf(w, id, env), id, next)
  {
    hide Inv, StepOf;
    EventKeepsInv(w, Step(id, env));
  }

  lemma LoadsTurn(w: World, id: nat, env: Env, c: string, run: string, content: string, origin: string)
    requires Inv(w) && id !in w.turns && Admissible(w, c, run, content, origin, env)
    ensures var u := BeginAt(w, id, c, run, content, origin);
            && id in u.turns && Ready(StepOf(u, id, env), id, LoadedTurn(w, c, run, content, origin))
            && StepOf(u, id, env) == u.(turns := u.turns[id := LoadedTurn(w, c, run, content, origin)])
  {
    hide Inv, Fresh, S.ValidContent, TooLong, A.ValidDispatch, DispatchOf, P.Lookup;
    var u := BeginAt(w, id, c, run, content, origin);
    BeginKeepsInv(w, id, c, run, content, origin);
    assert LimitsOf(u, c) == LimitsOf(w, c);
    EventKeepsInv(u, Step(id, env));
  }

  /** The first user message is stored. */
  lemma AppendsFirst(w: World, id: nat, env: Env, t: Turn)
    requires Ready(w, id, t) && t.phase == Appending && S.ValidContent(t.content)
    requires t.conversation in w.db.conversations && !w.db.conversations[t.conversation].archived && Msgs(w, t.conversation) == []
    ensures var w' := StepOf(w, id, env);
            && Ready(w', id, t.(phase := Starting(1))) && w' == w.(db := w'.db, turns := w'.turns)
            && Msgs(w', t.conversation) == [S.Message(1, S.User, t.content, t.run)]
  {
    hide Inv, S.ValidContent;
    assert S.LastOrdinal([]) == 0;
    ReadyNext(w, id, env, t, t.(phase := Starting(1)));
  }

  lemma StartsFirst(w: World, id: nat, env: Env, t: Turn)
    requires Ready(w, id, t) && t.phase == Starting(1)
    ensures var w' := StepOf(w, id, env);
            && Ready(w', id, t.(phase := Checking)) && w' == w.(db := w'.db, turns := w'.turns)
            && Msgs(w', t.conversation) == Msgs(w, t.conversation)
  {
    hide Inv, Safe, S.StartRunAt;
    StartIsSafe(w, id, 1);
    StartKeepsMessages(w.db, t.run, t.conversation, 1);
    ReadyNext(w, id, env, t, t.(phase := Checking));
  }

  lemma StartKeepsMessages(db: S.Db, run: string, conversation: string, ordinal: nat)
    ensures S.StartRunAt(db, run, conversation, ordinal).0.conversations == db.conversations
  {
  }

  lemma PassesCheck(w: World, id: nat, env: Env, t: Turn)
    requires Ready(w, id, t) && t.phase == Checking && Msgs(w, t.conversation) == [S.Message(1, S.User, t.content, t.run)]
    requires !TooLong(FirstSent(t.spec, t.content), t.limits)
    ensures var w', sent := StepOf(w, id, env), FirstSent(t.spec, t.content);
            && Ready(w', id, t.(sent := sent, estimate := Estimate(sent), passed := true, phase := Admitting))
            && w' == w.(turns := w'.turns)
  {
    hide Inv, Estimate;
    var sent := FirstSent(t.spec, t.content);
    assert SentOf(w, t.conversation, t.spec) == sent;
    ReadyNext(w, id, env, t, t.(sent := sent, estimate := Estimate(sent), passed := true, phase := Admitting));
  }

  /** Admission, the dispatch event and the accounting row. */
  lemma AdmitsTurn(w: World, id: nat, env: Env, t: Turn)
    requires Ready(w, id, t) && t.phase == Admitting && env.admitted
    ensures Ready(StepOf(w, id, env), id, t.(phase := Opening))
    ensures StepOf(w, id, env).eventIds == w.eventIds && StepOf(w, id, env).ledger == w.ledger
  {
    hide Inv;
    ReadyNext(w, id, env, t, t.(phase := Opening));
  }

  lemma OpensTurn(w: World, id: nat, env: Env, t: Turn)
    requires Ready(w, id, t) && t.phase == Opening && env.eventId !in w.eventIds && env.acceptable
    ensures Ready(StepOf(w, id, env), id, t.(phase := Dispatching))
    ensures StepOf(w, id, env).eventIds == w.eventIds + {env.eventId} && StepOf(w, id, env).ledger == w.ledger
  {
    hide Inv;
    OpensWhen(w, id, env.eventId);
    ReadyNext(w, id, env, t, t.(phase := Dispatching));
  }

  lemma DispatchesTurn(w: World, id: nat, env: Env, t: Turn)
    requires Ready(w, id, t) && t.phase == Dispatching && A.ValidDispatch(DispatchOf(t.spec, t.origin))
    ensures Ready(StepOf(w, id, env), id, t.(phase := Calling))
    ensures StepOf(w, id, env).eventIds == w.eventIds && StepOf(w, id, env).ledger.outbox == w.ledger.outbox
  {
    hide Inv, A.ValidDispatch, DispatchOf, A.Apply;
    DispatchesIff(w, id, env.now);
    OutboxKept(w.ledger, A.RecordDispatch(t.run, DispatchOf(t.spec, t.origin), false, env.now));
    ReadyNext(w, id, env, t, t.(phase := Calling));
  }

  /** A first turn that is let through reaches its adapter after seven steps, with roles that the adapter accepts. */
  lemma FirstTurnCalls(w: World, id: nat, env: Env, c: string, run: string, content: string, origin: string)
    requires Inv(w) && id !in w.turns && Admissible(w, c, run, content, origin, env)
    ensures var v := StepsOf(BeginAt(w, id, c, run, content, origin), id, env, 7);
            && Inv(v) && id in v.turns && v.turns[id].phase == Calling && v.turns[id].run == run && ValidMessages(v.turns[id].sent)
            && v.eventIds == w.eventIds + {env.eventId} && v.ledger.outbox == w.ledger.outbox
  {
    hide Inv, StepOf, StepsOf, FirstSent, TooLong, Estimate, S.ValidContent, A.ValidDispatch, DispatchOf, Fresh, LimitsOf, Msgs;
    var u, loaded, checked := BeginAt(w, id, c, run, content, origin), LoadedTurn(w, c, run, content, origin),
                              CheckedTurn(w, c, run, content, origin);
    Zero(u, id, env);
    LoadsTurn(w, id, env, c, run, content, origin);
    Further(u, id, env, 0);
    var w1 := StepsOf(u, id, env, 1);
    NoMessages(w, w1, c);
    AppendsFirst(w1, id, env, loaded);
    Further(u, id, env, 1);
    StartsFirst(StepsOf(u, id, env, 2), id, env, loaded.(phase := Starting(1)));
    Further(u, id, env, 2);
    PassesCheck(StepsOf(u, id, env, 3), id, env, loaded.(phase := Checking));
    Further(u, id, env, 3);
    FirstRolesAccepted(SpecOf(w, c), content);
    LetThrough(StepsOf(u, id, env, 4), id, env, checked);
    Further(u, id, env, 4);
    Further(u, id, env, 5);
    Further(u, id, env, 6);
  }

  lemma NoMessages(w: World, w': World, c: string)
    requires w'.db == w.db && c in w.db.conversations && w.db.conversations[c].messages == []
    ensures Msgs(w', c) == []
  {
  }

  lemma FirstRolesAccepted(spec: S.Spec, content: string)
    ensures ValidMessages(FirstSent(spec, content))
  {
    var sent := FirstSent(spec, content);
    assert Body(sent) == [Sent(S.User, content)];
  }

  lemma LetThrough(w: World, id: nat, env: Env, t: Turn)
    requires Ready(w, id, t) && t.phase == Admitting && env.admitted && env.eventId !in w.eventIds && env.acceptable
    requires A.ValidDispatch(DispatchOf(t.spec, t.origin))
    ensures id in StepOf(w, id, env).turns && id in StepOf(StepOf(w, id, env), id, env).turns
    ensures var v := StepOf(StepOf(StepOf(w, id, env), id, env), id, env);
            Ready(v, id, t.(phase := Calling)) && v.eventIds == w.eventIds + {env.eventId} && v.ledger.outbox == w.ledger.outbox
  {
    hide Inv, StepOf, A.ValidDispatch, DispatchOf;
    AdmitsTurn(w, id, env, t);
    var a := StepOf(w, id, env);
    OpensTurn(a, id, env, t.(phase := Opening));
    var b := StepOf(a, id, env);
    DispatchesTurn(b, id, env, t.(phase := Dispatching));
  }

  // ----- such a run

  function Repeated(id: nat, env: Env, n: nat): seq<Event> { seq(n, _ => Step(id, env)) }

  lemma {:induction false} StepsAreRun(w: World, events: seq<Event>, id: nat, env: Env, n: nat)
    ensures StepsOf(Run(w, events), id, env, n) == Run(w, events + Repeated(id, env, n))
  {
    hide StepOf, Run;
    if n == 0 {
      assert events + Repeated(id, env, n) == events;
    } else {
      StepsAreRun(w, events, id, env, n - 1);
      assert events + Repeated(id, env, n) == events + Repeated(id, env, n - 1) + [Step(id, env)];
      RunSnoc(w, events + Repeated(id, env, n - 1), Step(id, env));
    }
  }

  const GUARDED := P.Settings("guarded", 1, 10, 900, 1000, false, None, "local")
  const PROFILES := P.Profiles(map[P.Key("guarded", 1) := GUARDED], P.Key("guarded", 1))
  const SPEC := S.Spec("local", "model", "", "guarded", 1, None, "snapshot")
  const NO_BREAK_REPLY := Reply(A.NO_EVIDENCE, Some(Utf8.Encode(NO_BREAK_SPACE)), None)
  const FIRST_ENV := Env(true, "", NO_BREAK_REPLY, "dispatched", true, "outbox", 0)
  const SECOND_ENV := FIRST_ENV.(eventId := "finished")
  const OPENING := [NewConversation("talk", SPEC), Begin(1, "talk", "run", "hi", "origin")]
  const NO_BREAK_EVENTS := OPENING + Repeated(1, FIRST_ENV, 7) + Repeated(1, SECOND_ENV, 8)

  const START := World(S.Db(map["talk" := S.Conversation(SPEC, false, [])], map[]), PROFILES, map[], {}, A.Ledger(map[], map[]), map[],
                       {}, map[], map[])

  lemma Opens()
    ensures Run(Empty(PROFILES), [NewConversation("talk", SPEC)]) == START
  {
    hide P.Apply;
    var e := NewConversation("talk", SPEC);
    assert [e][1..] == [];
    assert SPEC.(profileName := PROFILES.active.name, profileVersion := PROFILES.active.version) == SPEC;
    assert Apply(Empty(PROFILES), e) == START;
    assert Run(START, []) == START;
  }

  lemma FreshAtStart()
    ensures Fresh(START, "run")
  {
  }

  lemma OpeningBegins()
    ensures Run(Empty(PROFILES), OPENING) == BeginAt(START, 1, "talk", "run", "hi", "origin")
  {
    hide Run, Fresh, BeginAt;
    Opens();
    FreshAtStart();
    assert OPENING == [NewConversation("talk", SPEC)] + [Begin(1, "talk", "run", "hi", "origin")];
    RunSnoc(Empty(PROFILES), [NewConversation("talk", SPEC)], Begin(1, "talk", "run", "hi", "origin"));
  }

  lemma LimitsAtStart()
    ensures LimitsOf(START, "talk") == Some(Limits(10, 1000, None))
  {
    hide Strip;
    StripFixed("guarded");
  }

  lemma ShortEnough()
    ensures !TooLong(FirstSent(SPEC, "hi"), Limits(10, 1000, None))
  {
    hide ByteCount, Utf8.Encode;
    assert FirstSent(SPEC, "hi") == [Sent(S.User, "hi")];
    OneMessageCount(Sent(S.User, "hi"));
    EncodedShort("hi");
  }

  lemma OneMessageCount(m: Sent)
    ensures ByteCount([m]) == |Utf8.Encode(m.content)|
  {
    hide Utf8.Encode;
    assert [m][..0] == [] && ByteCount([]) == 0;
  }

  lemma {:induction false} EncodedShort(s: string)
    ensures |Utf8.Encode(s)| <= 4 * |s|
  {
    hide Utf8.EncodeChar;
    if s != "" { EncodedShort(s[1..]); }
  }

  lemma PlainTexts()
    ensures S.ValidContent("hi") && A.ValidDispatch(DispatchOf(SPEC, "origin"))
  {
    hide Strip;
    StripFixed("hi");
    StripFixed("local");
    StripFixed("model");
  }

  lemma OpeningAdmissible()
    ensures Admissible(START, "talk", "run", "hi", "origin", FIRST_ENV)
  {
    hide Fresh, S.ValidContent, LimitsOf, TooLong, A.ValidDispatch, DispatchOf;
    FreshAtStart();
    LimitsAtStart();
    ShortEnough();
    PlainTexts();
  }

  /** One conversation, one turn, a no-break space for an answer: it is captured and its row and event are closed as a success,
      but the turn raises and the run stays as created. */
  lemma NoBreakSpaceStrandsARun()
    ensures var w := Run(Empty(PROFILES), NO_BREAK_EVENTS);
            && 1 in w.turns && w.turns[1].phase == Ended(Raised) && RunIs(w, "run", S.Created)
            && Succeeded(w, "run") && VaultHas(w, w.turns[1], Some(Utf8.Encode(NO_BREAK_SPACE)))
  {
    hide Run, Inv, StepOf, StepsOf, Utf8.Encode, Admissible, BeginAt, Outcome;
    var w0 := Run(Empty(PROFILES), OPENING);
    EmptyInv(PROFILES);
    RunKeepsInv(Empty(PROFILES), [NewConversation("talk", SPEC)]);
    Opens();
    OpeningAdmissible();
    FirstTurnCalls(START, 1, FIRST_ENV, "talk", "run", "hi", "origin");
    OpeningBegins();
    StepsAreRun(Empty(PROFILES), OPENING, 1, FIRST_ENV, 7);
    var v := StepsOf(w0, 1, FIRST_ENV, 7);
    assert SECOND_ENV.eventId !in v.eventIds && SECOND_ENV.outboxId !in v.ledger.outbox;
    EndsFrom(v, 1, SECOND_ENV);
    StepsAreRun(Empty(PROFILES), OPENING + Repeated(1, FIRST_ENV, 7), 1, SECOND_ENV, 8);
    NoBreakSpaceIsRaised(A.NO_EVIDENCE);
  }
}

/** One Direct turn writes to the conversation store, the lease table, the event ledger, the vault and the accounting
    ledger with no common transaction (direct_runtime.py, local provider). Turns of many conversations interleave step by
    step and may stop at any step; each conversation has one lock. */
module DirectTurns {
  import opened Text
  import opened RoleCheck
  import A = Accounting
  import E = EventLedger
  import P = DirectSettings
  import S = DirectStore
  import Utf8

  datatype Limits = Limits(output: nat, hard: nat, softBudget: Option<real>)

  datatype Why = ContextLimit | NotAdmitted(error: string)

  /** What calling the adapter gives; an exception is an error without an answer. */
  datatype Reply = Reply(evidence: A.Evidence, answer: Option<Bytes>, error: Option<string>)

  datatype Result = Completed | Refused(why: Why) | FailedAfter(error: string) | Raised | Crashed

  /** The next thing a turn does. */
  datatype Phase =
    | Loading
    | Appending
    | Starting(ordinal: nat)
    | Checking
    | Refusing(why: Why)
    | Admitting
    | Opening
    | Dispatching
    | Calling
    | Capturing(reply: Reply)
    | Observing(reply: Reply)
    | Warning(reply: Reply)
    | Terminating(reply: Reply)
    | Closing(reply: Reply)
    | Settling(reply: Reply)
    | Releasing(result: Result)
    | Ended(result: Result)

  /** A call of `send_message`, with the conversation and the limits it read first. `passed` records that it got past the
      context check. */
  datatype Turn = Turn(conversation: string, run: string, content: string, origin: string, spec: S.Spec, limits: Limits,
                       sent: seq<Sent>, estimate: nat, passed: bool, phase: Phase)

  datatype TurnDigest = TurnDigest(conversation: string, run: string, snapshot: string)

  /** A vault capture. */
  datatype Kept = Kept(provider: string, data: Bytes, task: TurnDigest)

  datatype World = World(db: S.Db, profiles: P.Profiles, events: map<string, E.EventRun>, eventIds: set<string>, ledger: A.Ledger,
                         vault: map<string, Kept>, leases: set<string>, turns: map<nat, Turn>, locks: map<string, nat>)

  /** What the surroundings decide at a step. */
  datatype Env = Env(admitted: bool, refusal: string, reply: Reply, eventId: string, acceptable: bool, outboxId: string, now: int)

  datatype Event =
    | Begin(id: nat, conversation: string, run: string, content: string, origin: string)
    | Step(id: nat, env: Env)
    | Crash(id: nat)
    | NewConversation(conversation: string, spec: S.Spec)
    | Archive(conversation: string, archived: bool)
    | Configure(call: P.Call)

  // ----- the steps

  function Msgs(w: World, conversation: string): seq<S.Message> {
    if conversation in w.db.conversations then w.db.conversations[conversation].messages else []
  }

  function LimitsOf(w: World, conversation: string): Option<Limits> {
    if conversation !in w.db.conversations then None
    else
      var spec := w.db.conversations[conversation].spec;
      match P.Lookup(w.profiles, spec.profileName, spec.profileVersion)
      case None => None
      case Some(s) =>
        Some(Limits(if spec.policy.Some? then spec.policy.value.output else s.maxOutput,
                    if spec.policy.Some? then spec.policy.value.hard else s.hard, if s.hardCap then None else s.softBudget))
  }

  function SpecOf(w: World, conversation: string): S.Spec
    requires conversation in w.db.conversations
  {
    w.db.conversations[conversation].spec
  }

  function Copies(messages: seq<S.Message>): seq<Sent> {
    seq(|messages|, i requires 0 <= i < |messages| => Sent(messages[i].role, messages[i].content))
  }

  /** The system prompt, if any, and the conversation. */
  function SentOf(w: World, conversation: string, spec: S.Spec): seq<Sent> {
    (if spec.system != "" then [Sent(S.System, spec.system)] else []) + Copies(Msgs(w, conversation))
  }

  function ByteCount(sent: seq<Sent>): nat {
    if sent == [] then 0 else ByteCount(sent[..|sent| - 1]) + |Utf8.Encode(sent[|sent| - 1].content)|
  }

  /** Four bytes to a token, rounded up. */
  function Estimate(sent: seq<Sent>): nat { (ByteCount(sent) + 3) / 4 }

  predicate TooLong(sent: seq<Sent>, l: Limits) { Estimate(sent) + l.output > l.hard }

  function To(w: World, id: nat, phase: Phase): World
    requires id in w.turns
  {
    w.(turns := w.turns[id := w.turns[id].(phase := phase)])
  }

  /** The call returns or raises, and the lock is freed. */
  function Stop(w: World, id: nat, result: Result): World
    requires id in w.turns
  {
    To(w, id, Ended(result)).(locks := w.locks - {w.turns[id].conversation})
  }

  function Load(w: World, id: nat): World
    requires id in w.turns
  {
    match LimitsOf(w, w.turns[id].conversation)
    case None => Stop(w, id, Raised)
    case Some(l) =>
      w.(turns := w.turns[id := w.turns[id].(spec := SpecOf(w, w.turns[id].conversation), limits := l, phase := Appending)])
  }

  function Append(w: World, id: nat): World
    requires id in w.turns
  {
    var t := w.turns[id];
    var (db, reply) := S.AppendUserAt(w.db, t.conversation, t.content, t.run);
    if reply.Appended? then To(w.(db := db), id, Starting(reply.message.ordinal)) else Stop(w, id, Raised)
  }

  function Start(w: World, id: nat, ordinal: nat): World
    requires id in w.turns
  {
    var t := w.turns[id];
    var (db, reply) := S.StartRunAt(w.db, t.run, t.conversation, ordinal);
    if reply.Done? then To(w.(db := db), id, Checking) else Stop(w, id, Raised)
  }

  function Check(w: World, id: nat): World
    requires id in w.turns
  {
    var t := w.turns[id];
    var sent := SentOf(w, t.conversation, t.spec);
    var over := TooLong(sent, t.limits);
    w.(turns := w.turns[id := t.(sent := sent, estimate := Estimate(sent), passed := !over,
                                 phase := if over then Refusing(ContextLimit) else Admitting)])
  }

  function WhyText(why: Why): string { if why.ContextLimit? then "ContextLimitExceeded" else why.error }

  function Refuse(w: World, id: nat, why: Why): World
    requires id in w.turns
  {
    var (db, reply) := S.FailRunAt(w.db, w.turns[id].run, S.RefusedBeforeNetwork, WhyText(why));
    if reply.Done? then Stop(w.(db := db), id, Refused(why)) else Stop(w, id, Raised)
  }

  function Admit(w: World, id: nat, env: Env): World
    requires id in w.turns
  {
    if env.admitted then To(w.(leases := w.leases + {w.turns[id].run}), id, Opening)
    else To(w, id, Refusing(NotAdmitted(env.refusal)))
  }

  function OpenEvent(w: World, id: nat, eventId: string, acceptable: bool): World
    requires id in w.turns
  {
    var (l, reply) := E.Apply(E.Ledger(w.events, w.eventIds), E.StartRun(w.turns[id].run, eventId, acceptable));
    if reply.Done? then To(w.(events := l.runs, eventIds := l.ids), id, Dispatching) else To(w, id, Releasing(Raised))
  }

  function DispatchOf(spec: S.Spec, origin: string): A.Dispatch {
    A.Dispatch.Dispatch("direct_ui", "browser_session", origin, "direct", spec.provider, Some(spec.model), None, spec.snapshot, None)
  }

  function RecordDispatch(w: World, id: nat, now: int): World
    requires id in w.turns
  {
    var t := w.turns[id];
    var (ledger, reply) := A.Apply(w.ledger, A.RecordDispatch(t.run, DispatchOf(t.spec, t.origin), false, now));
    if reply in {A.Inserted, A.Done} then To(w.(ledger := ledger), id, Calling) else To(w, id, Releasing(Raised))
  }

  /** The adapter checks the roles before anything else. */
  function Answered(t: Turn, reply: Reply): Reply {
    if ValidMessages(t.sent) then reply else Reply(reply.evidence, None, Some("ProviderProtocolError"))
  }

  function Capture(w: World, id: nat, reply: Reply): World
    requires id in w.turns
  {
    var t := w.turns[id];
    if reply.answer.None? then To(w, id, Observing(reply))
    else
      var kept := Kept(t.spec.provider, reply.answer.value, TurnDigest(t.conversation, t.run, t.spec.snapshot));
      if t.run in w.vault && w.vault[t.run] != kept then To(w, id, Releasing(Raised))
      else To(w.(vault := w.vault[t.run := kept]), id, Observing(reply))
  }

  function Observe(w: World, id: nat, reply: Reply): World
    requires id in w.turns
  {
    var t := w.turns[id];
    var o := A.Observation.Observation(Strip(t.spec.provider), reply.evidence);
    var (ledger, done) := A.Apply(w.ledger, A.RecordObservation(t.run, o));
    if done == A.Done then To(w.(ledger := ledger), id, Warning(reply)) else To(w, id, Releasing(Raised))
  }

  predicate OverBudget(l: Limits, e: A.Evidence) { l.softBudget.Some? && e.cost.Some? && e.cost.value > l.softBudget.value }

  function Warn(w: World, id: nat, reply: Reply): World
    requires id in w.turns
  {
    var t := w.turns[id];
    if !OverBudget(t.limits, reply.evidence) then To(w, id, Terminating(reply))
    else
      var (ledger, done) := A.Apply(w.ledger, A.MarkSoftWarning(t.run));
      if done == A.Done then To(w.(ledger := ledger), id, Terminating(reply)) else To(w, id, Releasing(Raised))
  }

  function StatusOf(reply: Reply): A.Status { if reply.error.None? then A.CandidateSuccess else A.CandidateFailure }

  function Terminate(w: World, id: nat, reply: Reply, now: int, outboxId: string): World
    requires id in w.turns
  {
    var t := w.turns[id];
    var call := A.RecordTerminal(t.run, StatusOf(reply), A.BillingOf(reply.evidence), None, None, now, outboxId);
    var (ledger, done) := A.Apply(w.ledger, call);
    if done == A.Done then To(w.(ledger := ledger), id, Closing(reply)) else To(w, id, Releasing(Raised))
  }

  function StateText(reply: Reply): string { if reply.error.None? then "candidate_success" else "candidate_failure" }

  function CloseEvent(w: World, id: nat, reply: Reply, eventId: string, acceptable: bool): World
    requires id in w.turns
  {
    var call := E.FinishRun(w.turns[id].run, eventId, StateText(reply), acceptable);
    var (l, done) := E.Apply(E.Ledger(w.events, w.eventIds), call);
    if done.Done? then To(w.(events := l.runs, eventIds := l.ids), id, Settling(reply)) else To(w, id, Releasing(Raised))
  }

  ghost function Settle(w: World, id: nat, reply: Reply): World
    requires id in w.turns
  {
    var t := w.turns[id];
    if reply.error.Some? then
      var (db, done) := S.FailRunAt(w.db, t.run, S.FailedAfterDispatch, reply.error.value);
      if done.Done? then To(w.(db := db), id, Releasing(FailedAfter(reply.error.value))) else To(w, id, Releasing(Raised))
    else if reply.answer.None? || Utf8.Decode(reply.answer.value).None? then To(w, id, Releasing(Raised))
    else
      var text := Utf8.Decode(reply.answer.value).value;
      var (db, done) := S.AppendAssistantAt(w.db, t.conversation, t.run, text, t.estimate);
      if done.Appended? then To(w.(db := db), id, Releasing(Completed)) else To(w, id, Releasing(Raised))
  }

  function Release(w: World, id: nat, result: Result): World
    requires id in w.turns
  {
    Stop(w.(leases := w.leases - {w.turns[id].run}), id, result)
  }

  /** The next transaction of a turn. */
  ghost function StepOf(w: World, id: nat, env: Env): World
    requires id in w.turns
  {
    match w.turns[id].phase
    case Loading => Load(w, id)
    case Appending => Append(w, id)
    case Starting(ordinal) => Start(w, id, ordinal)
    case Checking => Check(w, id)
    case Refusing(why) => Refuse(w, id, why)
    case Admitting => Admit(w, id, env)
    case Opening => OpenEvent(w, id, env.eventId, env.acceptable)
    case Dispatching => RecordDispatch(w, id, env.now)
    case Calling => To(w, id, Capturing(Answered(w.turns[id], env.reply)))
    case Capturing(reply) => Capture(w, id, reply)
    case Observing(reply) => Observe(w, id, reply)
    case Warning(reply) => Warn(w, id, reply)
    case Terminating(reply) => Terminate(w, id, reply, env.now, env.outboxId)
    case Closing(reply) => CloseEvent(w, id, reply, env.eventId, env.acceptable)
    case Settling(reply) => Settle(w, id, reply)
    case Releasing(result) => Release(w, id, result)
    case Ended(_) => w
  }

  /** A run id that no table and no turn knows. */
  ghost predicate Fresh(w: World, run: string) {
    && run !in w.db.runs && Unsent(w, run) && Untouched(w, run)
    && forall id :: id in w.turns ==> w.turns[id].run != run
  }

  ghost predicate Unsent(w: World, run: string) {
    forall c, i :: c in w.db.conversations && 0 <= i < |Msgs(w, c)| ==> Msgs(w, c)[i].run != run
  }

  predicate Untouched(w: World, run: string) {
    run !in w.events && run !in w.ledger.invocations && run !in w.vault && run !in w.leases
  }

  function BeginAt(w: World, id: nat, conversation: string, run: string, content: string, origin: string): World {
    var t := Turn(conversation, run, content, origin, S.Spec("", "", "", "", 0, None, ""), Limits(0, 0, None), [], 0, false, Loading);
    w.(turns := w.turns[id := t],
       locks := w.locks[conversation := id])
  }

  /** One step of the whole system; a step that is not possible changes nothing. */
  ghost function Apply(w: World, e: Event): World {
    match e
    case Begin(id, conversation, run, content, origin) =>
      if id in w.turns || conversation in w.locks || !Fresh(w, run) then w else BeginAt(w, id, conversation, run, content, origin)
    case Step(id, env) => if id in w.turns then StepOf(w, id, env) else w
    case Crash(id) => if id in w.turns && !w.turns[id].phase.Ended? then Stop(w, id, Crashed) else w
    case NewConversation(conversation, spec) =>
      w.(db := S.Apply(w.db, S.Create(conversation, spec.(profileName := w.profiles.active.name,
                                                          profileVersion := w.profiles.active.version))).0)
    case Archive(conversation, archived) => w.(db := S.Apply(w.db, S.SetArchived(conversation, archived)).0)
    case Configure(call) => w.(profiles := P.Apply(w.profiles, call).0)
  }

  ghost function Run(w: World, events: seq<Event>): World
    decreases |events|
  {
    if events == [] then w else Run(Apply(w, events[0]), events[1..])
  }

  lemma {:induction false} RunSnoc(w: World, events: seq<Event>, e: Event)
    ensures Run(w, events + [e]) == Apply(Run(w, events), e)
    decreases |events|
  {
    hide Apply;
    if events == [] {
      assert events + [e] == [e] && [e][1..] == [];
    } else {
      assert (events + [e])[1..] == events[1..] + [e];
      RunSnoc(Apply(w, events[0]), events[1..], e);
    }
  }

  function Empty(profiles: P.Profiles): World {
    World(S.Db(map[], map[]), profiles, map[], {}, A.Ledger(map[], map[]), map[], {}, map[], map[])
  }

  // ----- what the stores say of one run, at every point

  predicate HasRow(w: World, run: string) { run in w.ledger.invocations }

  predicate IsTerminal(w: World, run: string) { run in w.ledger.invocations && w.ledger.invocations[run].terminal.Some? }

  predicate IsClosed(w: World, run: string) { run in w.events && w.events[run].Closed? }

  predicate RunIs(w: World, run: string, state: S.RunState) { run in w.db.runs && w.db.runs[run].state == state }

  /** The assistant message of a run has these bytes. */
  ghost predicate Answers(messages: seq<S.Message>, run: string, data: Bytes) {
    exists i :: 0 <= i < |messages| && messages[i].role == S.Assistant && messages[i].run == run
                && Utf8.Encode(messages[i].content) == data
  }

  /** Both ledgers say that the run succeeded, or both that it failed. */
  predicate Succeeded(w: World, run: string) {
    && IsTerminal(w, run) && w.ledger.invocations[run].terminal.value.status == A.CandidateSuccess
    && IsClosed(w, run) && w.events[run].state == "candidate_success"
  }

  predicate Failed(w: World, run: string) {
    && IsTerminal(w, run) && w.ledger.invocations[run].terminal.value.status == A.CandidateFailure
    && IsClosed(w, run) && w.events[run].state == "candidate_failure"
  }

  /** The order of the writes, read off the stores. */
  ghost predicate Consistent(w: World, conversation: string, run: string) {
    && (RunIs(w, run, S.Completed) ==> Succeeded(w, run))
    && (RunIs(w, run, S.FailedAfterDispatch) ==> Failed(w, run))
    && (IsClosed(w, run) ==> Succeeded(w, run) || Failed(w, run))
    && (HasRow(w, run) ==> run in w.events)
    && (RunIs(w, run, S.RefusedBeforeNetwork) ==> run !in w.events && !HasRow(w, run) && run !in w.vault)
    && (RunIs(w, run, S.Completed) ==> run in w.vault && Answers(Msgs(w, conversation), run, w.vault[run].data))
  }

  ghost predicate DirectRun(w: World, t: Turn) {
    RunIs(w, t.run, S.Created) && w.db.runs[t.run].conversation == t.conversation
  }

  /** The turn's user message ends the conversation. */
  predicate AtEnd(w: World, t: Turn) {
    var ms := Msgs(w, t.conversation);
    ms != [] && ms[|ms| - 1].role == S.User && ms[|ms| - 1].run == t.run
  }

  /** The row was dispatched for this turn. */
  predicate DispatchedBy(w: World, t: Turn) {
    && HasRow(w, t.run)
    && var d := w.ledger.invocations[t.run].dispatch;
       && d.host == "direct_ui" && d.plane == "direct" && d.nativeId == t.origin && d.provider == Strip(t.spec.provider)
       && d.model == Some(Strip(t.spec.model)) && d.policy == t.spec.snapshot
  }

  /** The row as dispatched, or as observed with the evidence of the reply. */
  predicate RowOpen(w: World, t: Turn) {
    && DispatchedBy(w, t)
    && var row := w.ledger.invocations[t.run]; row.terminal.None? && row.billing == A.Dispatched && !row.softWarning
  }

  predicate RowObserved(w: World, t: Turn, e: A.Evidence) {
    && DispatchedBy(w, t)
    && var row := w.ledger.invocations[t.run];
       row.terminal.None? && row.evidence == A.Recorded(e) && row.billing == A.BillingOf(e)
  }

  /** The row carries the soft warning exactly when the reply cost more than a budget that only warns. */
  predicate Warned(w: World, t: Turn, e: A.Evidence) {
    && HasRow(w, t.run)
    && (w.ledger.invocations[t.run].softWarning <==>
          t.limits.softBudget.Some? && e.cost.Some? && e.cost.value > t.limits.softBudget.value)
  }

  predicate Unwarned(w: World, t: Turn) { HasRow(w, t.run) && !w.ledger.invocations[t.run].softWarning }

  /** The terminal row has the evidence, the billing state and the outcome of the reply. */
  predicate TerminalAs(w: World, t: Turn, reply: Reply) {
    && IsTerminal(w, t.run) && DispatchedBy(w, t) && Warned(w, t, reply.evidence)
    && var row := w.ledger.invocations[t.run];
       && row.evidence == A.Recorded(reply.evidence) && row.billing == A.BillingOf(reply.evidence)
       && row.terminal.value.status == if reply.error.None? then A.CandidateSuccess else A.CandidateFailure
  }

  predicate ClosedAs(w: World, run: string, reply: Reply) {
    IsClosed(w, run) && w.events[run].state == if reply.error.None? then "candidate_success" else "candidate_failure"
  }

  predicate IsOpen(w: World, run: string) { run in w.events && w.events[run].Open? }

  /** The vault has the answer, if there is one, filed under the turn. */
  predicate VaultHas(w: World, t: Turn, answer: Option<Bytes>) {
    match answer
    case None => t.run !in w.vault
    case Some(data) =>
      t.run in w.vault && w.vault[t.run] == Kept(t.spec.provider, data, TurnDigest(t.conversation, t.run, t.spec.snapshot))
  }

  /** The limits and the history a turn works with are those of its conversation. */
  ghost predicate Pinned(w: World, t: Turn) {
    && t.conversation in w.db.conversations && t.spec == w.db.conversations[t.conversation].spec
    && LimitsOf(w, t.conversation) == Some(t.limits)
  }

  ghost predicate Sending(w: World, t: Turn) { AtEnd(w, t) && DirectRun(w, t) && t.sent == SentOf(w, t.conversation, t.spec) }

  /** The conversation no longer fits its context. */
  ghost predicate OverLimit(w: World, conversation: string) {
    && conversation in w.db.conversations && LimitsOf(w, conversation).Some?
    && TooLong(SentOf(w, conversation, SpecOf(w, conversation)), LimitsOf(w, conversation).value)
  }

  ghost predicate ResultRight(w: World, t: Turn, result: Result) {
    match result
    case Completed => RunIs(w, t.run, S.Completed)
    case FailedAfter(_) => RunIs(w, t.run, S.FailedAfterDispatch)
    case Refused(why) => RunIs(w, t.run, S.RefusedBeforeNetwork) && (why.ContextLimit? ==> OverLimit(w, t.conversation))
    case _ => true
  }

  /** Where each phase leaves the stores. */
  ghost predicate PhaseInv(w: World, t: Turn) {
    match t.phase
    case Loading => t.run !in w.db.runs && Unsent(w, t.run) && Untouched(w, t.run)
    case Appending => t.run !in w.db.runs && Unsent(w, t.run) && Untouched(w, t.run)
    case Starting(ordinal) => t.run !in w.db.runs && Untouched(w, t.run) && AtEnd(w, t) && ordinal == |Msgs(w, t.conversation)|
    case Checking => DirectRun(w, t) && Untouched(w, t.run) && AtEnd(w, t)
    case Refusing(why) =>
      DirectRun(w, t) && Untouched(w, t.run) && AtEnd(w, t) && (why.ContextLimit? ==> OverLimit(w, t.conversation))
    case Admitting => Sending(w, t) && Untouched(w, t.run)
    case Opening => Sending(w, t) && t.run !in w.events && !HasRow(w, t.run) && t.run !in w.vault
    case Dispatching => Sending(w, t) && IsOpen(w, t.run) && !HasRow(w, t.run) && t.run !in w.vault
    case Calling => Sending(w, t) && IsOpen(w, t.run) && RowOpen(w, t) && t.run !in w.vault
    case Capturing(reply) => Sending(w, t) && IsOpen(w, t.run) && RowOpen(w, t) && t.run !in w.vault
    case Observing(reply) => Sending(w, t) && IsOpen(w, t.run) && RowOpen(w, t) && VaultHas(w, t, reply.answer)
    case Warning(reply) =>
      && Sending(w, t) && IsOpen(w, t.run) && RowObserved(w, t, reply.evidence) && Unwarned(w, t)
      && VaultHas(w, t, reply.answer)
    case Terminating(reply) =>
      && Sending(w, t) && IsOpen(w, t.run) && RowObserved(w, t, reply.evidence) && Warned(w, t, reply.evidence)
      && VaultHas(w, t, reply.answer)
    case Closing(reply) => Sending(w, t) && IsOpen(w, t.run) && TerminalAs(w, t, reply) && VaultHas(w, t, reply.answer)
    case Settling(reply) =>
      Sending(w, t) && ClosedAs(w, t.run, reply) && TerminalAs(w, t, reply) && VaultHas(w, t, reply.answer)
    case Releasing(result) => Consistent(w, t.conversation, t.run) && ResultRight(w, t, result)
    case Ended(result) => Consistent(w, t.conversation, t.run) && ResultRight(w, t, result)
  }

  /** The reply a turn works with, if the role check refused, has no answer to be appended. */
  predicate ReplyRight(t: Turn) {
    match t.phase
    case Capturing(reply) => reply.error.None? ==> ValidMessages(t.sent)
    case Observing(reply) => reply.error.None? ==> ValidMessages(t.sent)
    case Warning(reply) => reply.error.None? ==> ValidMessages(t.sent)
    case Terminating(reply) => reply.error.None? ==> ValidMessages(t.sent)
    case Closing(reply) => reply.error.None? ==> ValidMessages(t.sent)
    case Settling(reply) => reply.error.None? ==> ValidMessages(t.sent)
    case _ => true
  }

  /** Phases after the context check that only a turn that passed it can be in. */
  predicate BeforeCheck(p: Phase) {
    p.Loading? || p.Appending? || p.Starting? || p.Checking? || (p.Refusing? && p.why.ContextLimit?)
    || (p.Ended? && (p.result in {Raised, Crashed} || (p.result.Refused? && p.result.why.ContextLimit?)))
  }

  ghost predicate TurnInv(w: World, id: nat, t: Turn) {
    && PhaseInv(w, t) && ReplyRight(t)
    && (!t.phase.Loading? && !t.phase.Ended? && !t.phase.Releasing? ==> Pinned(w, t))
    && (!t.passed ==> Untouched(w, t.run) && BeforeCheck(t.phase))
    && (!t.phase.Ended? ==> t.conversation in w.locks && w.locks[t.conversation] == id)
  }

  /** Named so that the invariant of a turn is looked up only where a proof asks for it. */
  ghost predicate Tracked(w: World, id: nat) { id in w.turns }

  ghost predicate TurnsInv(w: World) {
    && (forall id {:trigger Tracked(w, id)} :: Tracked(w, id) ==> TurnInv(w, id, w.turns[id]))
    && (forall a, b :: a in w.turns && b in w.turns && a != b ==> w.turns[a].run != w.turns[b].run)
  }

  /** An assistant message comes only after a strict alternation and answers the user message before it. */
  ghost predicate Shaped(messages: seq<S.Message>) {
    && (forall i :: 0 <= i < |messages| && messages[i].role == S.Assistant ==>
          i % 2 == 1 && messages[i - 1].run == messages[i].run
          && forall j :: 0 <= j < i ==> messages[j].role == (if j % 2 == 0 then S.User else S.Assistant))
    && (forall i :: 0 <= i < |messages| ==> messages[i].role != S.System)
    && (forall i, j :: 0 <= i < j < |messages| && messages[i].role == S.User && messages[j].role == S.User ==>
          messages[i].run != messages[j].run)
  }

  ghost predicate ShapesInv(w: World) { forall c :: c in w.db.conversations ==> Shaped(Msgs(w, c)) }

  ghost predicate Inv(w: World) { TurnsInv(w) && ShapesInv(w) && S.Inv(w.db) && A.Inv(w.ledger) }

  /** Each phase satisfies the order of the writes. */
  lemma PhaseIsConsistent(w: World, t: Turn)
    requires PhaseInv(w, t)
    ensures Consistent(w, t.conversation, t.run)
  {
    hide Answers, SentOf, OverLimit, Unsent;
  }
}

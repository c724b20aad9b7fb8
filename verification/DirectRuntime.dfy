/** The runtime object that writes store after store (direct_runtime.py, local provider). What `SendMessage` does alone is a
    run of the turn machine, so what is proved of every interleaving holds of it. */
module DirectRuntime {
  import opened Text
  import opened RoleCheck
  import opened DirectTurns
  import A = Accounting
  import E = EventLedger
  import P = DirectSettings
  import S = DirectStore
  import Utf8

  /** Every event of the sequence is a step of one turn. */
  predicate Steps(trace: seq<Event>, id: nat) { forall i :: 0 <= i < |trace| ==> trace[i].Step? && trace[i].id == id }

  lemma OneMore(w: World, trace: seq<Event>, id: nat, env: Env)
    requires id in Run(w, trace).turns
    ensures Run(w, trace + [Step(id, env)]) == StepOf(Run(w, trace), id, env)
  {
    hide StepOf, Run;
    RunSnoc(w, trace, Step(id, env));
  }

  class DirectRuntime {
    const conversations: S.DirectConversationStore
    const settings: P.DirectSettingsStore
    const events: E.SqliteEventStore
    const accounting: A.AccountingStore
    const decode: Bytes -> Option<string>
    var vault: map<string, Kept>
    var leases: set<string>

    constructor (conversations: S.DirectConversationStore, settings: P.DirectSettingsStore, events: E.SqliteEventStore,
                 accounting: A.AccountingStore, decode: Bytes -> Option<string>)
      ensures this.conversations == conversations && this.settings == settings && this.events == events
      ensures this.accounting == accounting && this.decode == decode && vault == map[] && leases == {}
    {
      this.conversations, this.settings, this.events, this.accounting := conversations, settings, events, accounting;
      this.decode := decode;
      vault, leases := map[], {};
    }

    /** The world has the contents of the stores, and turn `id` stands at `t`. */
    ghost predicate At(w: World, id: nat, t: Turn)
      reads this, conversations, settings, events, accounting
    {
      && w.db == conversations.Model() && w.profiles == settings.Model() && E.Ledger(w.events, w.eventIds) == events.Model()
      && w.ledger == accounting.Model() && w.vault == vault && w.leases == leases && id in w.turns && w.turns[id] == t
    }

    /** `decode` is strict UTF-8 decoding. */
    ghost predicate DecodesStrictly() { forall b :: decode(b) == Utf8.Decode(b) }

    // Each method below is one transaction of a turn, or the local work before it.

    method LoadTurn(ghost w: World, ghost id: nat, env: Env, t: Turn) returns (next: Turn)
      requires At(w, id, t) && t.phase.Loading?
      ensures At(StepOf(w, id, env), id, next) && next.phase in {Appending, Ended(Raised)}
    {
      hide P.Lookup;
      if t.conversation !in conversations.conversations { return t.(phase := Ended(Raised)); }
      var spec := conversations.conversations[t.conversation].spec;
      var profile := settings.GetProfile(spec.profileName, spec.profileVersion);
      if profile.None? { return t.(phase := Ended(Raised)); }
      var s := profile.value;
      var output, hard := s.maxOutput, s.hard;
      if spec.policy.Some? { output, hard := spec.policy.value.output, spec.policy.value.hard; }
      return t.(spec := spec, limits := Limits(output, hard, if s.hardCap then None else s.softBudget), phase := Appending);
    }

    method AppendUser(ghost w: World, ghost id: nat, env: Env, t: Turn) returns (next: Turn)
      requires At(w, id, t) && t.phase.Appending?
      modifies conversations
      ensures At(StepOf(w, id, env), id, next) && (next.phase.Starting? || next.phase == Ended(Raised))
    {
      hide S.AppendUserAt;
      S.RefusalChangesNothing(w.db, S.AppendUser(t.conversation, t.content, t.run));
      UserReplies(w.db, t.conversation, t.content, t.run);
      var reply := conversations.AppendUserMessage(t.conversation, t.content, t.run);
      if !reply.Appended? { return t.(phase := Ended(Raised)); }
      return t.(phase := Starting(reply.message.ordinal));
    }

    method StartRun(ghost w: World, ghost id: nat, env: Env, t: Turn) returns (next: Turn)
      requires At(w, id, t) && t.phase.Starting?
      modifies conversations
      ensures At(StepOf(w, id, env), id, next) && next.phase in {Checking, Ended(Raised)}
    {
      hide S.StartRunAt;
      S.RefusalChangesNothing(w.db, S.StartRun(t.run, t.conversation, t.phase.ordinal));
      StartReplies(w.db, t.run, t.conversation, t.phase.ordinal);
      var reply := conversations.StartDirectRun(t.run, t.conversation, t.phase.ordinal);
      if !reply.Done? { return t.(phase := Ended(Raised)); }
      return t.(phase := Checking);
    }

    method CheckContext(ghost w: World, ghost id: nat, env: Env, t: Turn) returns (next: Turn)
      requires At(w, id, t) && t.phase.Checking?
      ensures At(StepOf(w, id, env), id, next) && next.phase in {Refusing(ContextLimit), Admitting}
    {
      hide ByteCount, Copies;
      var messages := if t.conversation in conversations.conversations then conversations.conversations[t.conversation].messages else [];
      var sent := (if t.spec.system != "" then [Sent(S.System, t.spec.system)] else []) + Copies(messages);
      var estimate := Estimate(sent);
      var projected := estimate + t.limits.output;
      if projected > t.limits.hard {
        return t.(sent := sent, estimate := estimate, passed := false, phase := Refusing(ContextLimit));
      }
      return t.(sent := sent, estimate := estimate, passed := true, phase := Admitting);
    }

    method RefuseRun(ghost w: World, ghost id: nat, env: Env, t: Turn) returns (next: Turn)
      requires At(w, id, t) && t.phase.Refusing?
      modifies conversations
      ensures At(StepOf(w, id, env), id, next) && next.phase in {Ended(Refused(t.phase.why)), Ended(Raised)}
    {
      hide S.FailRunAt;
      var failure := WhyText(t.phase.why);
      S.RefusalChangesNothing(w.db, S.FailRun(t.run, S.RefusedBeforeNetwork, failure));
      FailReplies(w.db, t.run, S.RefusedBeforeNetwork, failure);
      var reply := conversations.Fail(t.run, S.RefusedBeforeNetwork, failure);
      if !reply.Done? { return t.(phase := Ended(Raised)); }
      return t.(phase := Ended(Refused(t.phase.why)));
    }

    method Admit(ghost w: World, ghost id: nat, env: Env, t: Turn) returns (next: Turn)
      requires At(w, id, t) && t.phase.Admitting?
      modifies `leases
      ensures At(StepOf(w, id, env), id, next) && next.phase in {Opening, Refusing(NotAdmitted(env.refusal))}
    {
      if !env.admitted { return t.(phase := Refusing(NotAdmitted(env.refusal))); }
      leases := leases + {t.run};
      return t.(phase := Opening);
    }

    method OpenRun(ghost w: World, ghost id: nat, env: Env, t: Turn) returns (next: Turn)
      requires At(w, id, t) && t.phase.Opening?
      modifies events
      ensures At(StepOf(w, id, env), id, next) && next.phase in {Dispatching, Releasing(Raised)}
    {
      hide E.Apply;
      E.RefusalChangesNothing(E.Ledger(w.events, w.eventIds), E.StartRun(t.run, env.eventId, env.acceptable));
      var reply := events.Start(t.run, env.eventId, env.acceptable);
      if !reply.Done? { return t.(phase := Releasing(Raised)); }
      return t.(phase := Dispatching);
    }

    method RecordTurnDispatch(ghost w: World, ghost id: nat, env: Env, t: Turn) returns (next: Turn)
      requires At(w, id, t) && t.phase.Dispatching?
      modifies accounting
      ensures At(StepOf(w, id, env), id, next) && next.phase in {Calling, Releasing(Raised)}
    {
      hide A.Apply, DispatchOf;
      A.RefusalChangesNothing(w.ledger, A.RecordDispatch(t.run, DispatchOf(t.spec, t.origin), false, env.now));
      var reply := accounting.Dispatch(t.run, DispatchOf(t.spec, t.origin), false, env.now);
      if reply.Conflict? || reply.ValueError? { return t.(phase := Releasing(Raised)); }
      return t.(phase := Calling);
    }

    method Invoke(ghost w: World, ghost id: nat, env: Env, t: Turn) returns (next: Turn)
      requires At(w, id, t) && t.phase.Calling?
      ensures At(StepOf(w, id, env), id, next) && next.phase.Capturing?
    {
      hide ValidMessages;
      var valid := ValidateMessages(t.sent);
      var reply := env.reply;
      if !valid { reply := Reply(env.reply.evidence, None, Some("ProviderProtocolError")); }
      return t.(phase := Capturing(reply));
    }

    method CaptureAnswer(ghost w: World, ghost id: nat, env: Env, t: Turn) returns (next: Turn)
      requires At(w, id, t) && t.phase.Capturing?
      modifies `vault
      ensures At(StepOf(w, id, env), id, next) && next.phase in {Observing(t.phase.reply), Releasing(Raised)}
    {
      var reply := t.phase.reply;
      if reply.answer.None? { return t.(phase := Observing(reply)); }
      var kept := Kept(t.spec.provider, reply.answer.value, TurnDigest(t.conversation, t.run, t.spec.snapshot));
      if t.run in vault && vault[t.run] != kept { return t.(phase := Releasing(Raised)); }
      vault := vault[t.run := kept];
      return t.(phase := Observing(reply));
    }

    method ObserveReply(ghost w: World, ghost id: nat, env: Env, t: Turn) returns (next: Turn)
      requires At(w, id, t) && t.phase.Observing?
      modifies accounting
      ensures At(StepOf(w, id, env), id, next) && next.phase in {Warning(t.phase.reply), Releasing(Raised)}
    {
      hide A.Apply, Strip;
      var o := A.Observation.Observation(Strip(t.spec.provider), t.phase.reply.evidence);
      A.RefusalChangesNothing(w.ledger, A.RecordObservation(t.run, o));
      ObserveReplies(w.ledger, t.run, o);
      var done := accounting.Observe(t.run, o);
      if !done.Done? { return t.(phase := Releasing(Raised)); }
      return t.(phase := Warning(t.phase.reply));
    }

    method WarnOverBudget(ghost w: World, ghost id: nat, env: Env, t: Turn) returns (next: Turn)
      requires At(w, id, t) && t.phase.Warning?
      modifies accounting
      ensures At(StepOf(w, id, env), id, next) && next.phase in {Terminating(t.phase.reply), Releasing(Raised)}
    {
      hide A.Apply, OverBudget;
      if OverBudget(t.limits, t.phase.reply.evidence) {
        A.RefusalChangesNothing(w.ledger, A.MarkSoftWarning(t.run));
        WarnReplies(w.ledger, t.run);
        var done := accounting.SoftWarn(t.run);
        if !done.Done? { return t.(phase := Releasing(Raised)); }
      }
      return t.(phase := Terminating(t.phase.reply));
    }

    method TerminateRow(ghost w: World, ghost id: nat, env: Env, t: Turn) returns (next: Turn)
      requires At(w, id, t) && t.phase.Terminating?
      modifies accounting
      ensures At(StepOf(w, id, env), id, next) && next.phase in {Closing(t.phase.reply), Releasing(Raised)}
    {
      hide A.Apply, A.BillingOf;
      var reply := t.phase.reply;
      var status := if reply.error.None? then A.CandidateSuccess else A.CandidateFailure;
      var billing := A.BillingOf(reply.evidence);
      A.RefusalChangesNothing(w.ledger, A.RecordTerminal(t.run, status, billing, None, None, env.now, env.outboxId));
      TerminalReplies(w.ledger, t.run, status, billing, env.now, env.outboxId);
      var done := accounting.Terminate(t.run, status, billing, None, None, env.now, env.outboxId);
      if !done.Done? { return t.(phase := Releasing(Raised)); }
      return t.(phase := Closing(reply));
    }

    method CloseRun(ghost w: World, ghost id: nat, env: Env, t: Turn) returns (next: Turn)
      requires At(w, id, t) && t.phase.Closing?
      modifies events
      ensures At(StepOf(w, id, env), id, next) && next.phase in {Settling(t.phase.reply), Releasing(Raised)}
    {
      hide E.Apply, StateText;
      var reply := t.phase.reply;
      E.RefusalChangesNothing(E.Ledger(w.events, w.eventIds), E.FinishRun(t.run, env.eventId, StateText(reply), env.acceptable));
      var done := events.Finish(t.run, env.eventId, StateText(reply), env.acceptable);
      if !done.Done? { return t.(phase := Releasing(Raised)); }
      return t.(phase := Settling(reply));
    }

    method FailSettled(ghost w: World, ghost id: nat, env: Env, t: Turn) returns (next: Turn)
      requires At(w, id, t) && t.phase.Settling? && t.phase.reply.error.Some?
      modifies conversations
      ensures At(StepOf(w, id, env), id, next) && next.phase in {Releasing(FailedAfter(t.phase.reply.error.value)), Releasing(Raised)}
    {
      hide S.FailRunAt, S.AppendAssistantAt, Utf8.Decode, Utf8.Encode;
      var error := t.phase.reply.error.value;
      S.RefusalChangesNothing(w.db, S.FailRun(t.run, S.FailedAfterDispatch, error));
      FailReplies(w.db, t.run, S.FailedAfterDispatch, error);
      var done := conversations.Fail(t.run, S.FailedAfterDispatch, error);
      if !done.Done? { return t.(phase := Releasing(Raised)); }
      return t.(phase := Releasing(FailedAfter(error)));
    }

    method AppendAnswer(ghost w: World, ghost id: nat, env: Env, t: Turn) returns (next: Turn)
      requires At(w, id, t) && t.phase.Settling? && t.phase.reply.error.None? && DecodesStrictly()
      modifies conversations
      ensures At(StepOf(w, id, env), id, next) && next.phase in {Releasing(Completed), Releasing(Raised)}
    {
      hide S.FailRunAt, S.AppendAssistantAt, Utf8.Decode, Utf8.Encode;
      var answer := t.phase.reply.answer;
      if answer.None? { return t.(phase := Releasing(Raised)); }
      var text := decode(answer.value);
      if text.None? { return t.(phase := Releasing(Raised)); }
      S.RefusalChangesNothing(w.db, S.AppendAssistant(t.conversation, t.run, text.value, t.estimate));
      AssistantReplies(w.db, t.conversation, t.run, text.value, t.estimate);
      var appended := conversations.AppendAssistantAtomic(t.conversation, t.run, text.value, t.estimate);
      if !appended.Appended? { return t.(phase := Releasing(Raised)); }
      return t.(phase := Releasing(Completed));
    }

    method ReleaseLease(ghost w: World, ghost id: nat, env: Env, t: Turn) returns (next: Turn)
      requires At(w, id, t) && t.phase.Releasing?
      modifies `leases
      ensures At(StepOf(w, id, env), id, next) && next.phase == Ended(t.phase.result)
    {
      leases := leases - {t.run};
      return t.(phase := Ended(t.phase.result));
    }

    /** `_finish_reply` and `_finish_failed_exception`: capture, observe, warn, terminate, close, settle, each only after the
        one before it succeeded. */
    method FinishReply(ghost w: World, ghost id: nat, env: Env, begun: Turn) returns (t: Turn, ghost trace: seq<Event>)
      requires At(w, id, begun) && begun.phase.Capturing? && DecodesStrictly()
      modifies this, conversations, events, accounting
      ensures Steps(trace, id) && At(Run(w, trace), id, t) && t.phase.Releasing?
    {
      hide Run, StepOf, Steps;
      NoSteps(w, id);
      ghost var u := w;
      trace := [];
      t := CaptureAnswer(u, id, env, begun);
      u, trace := Advance(w, u, trace, id, env);
      if t.phase.Releasing? { return; }
      t := ObserveReply(u, id, env, t);
      u, trace := Advance(w, u, trace, id, env);
      if t.phase.Releasing? { return; }
      t := WarnOverBudget(u, id, env, t);
      u, trace := Advance(w, u, trace, id, env);
      if t.phase.Releasing? { return; }
      t := TerminateRow(u, id, env, t);
      u, trace := Advance(w, u, trace, id, env);
      if t.phase.Releasing? { return; }
      t := CloseRun(u, id, env, t);
      u, trace := Advance(w, u, trace, id, env);
      if t.phase.Releasing? { return; }
      if t.phase.reply.error.Some? {
        t := FailSettled(u, id, env, t);
      } else {
        t := AppendAnswer(u, id, env, t);
      }
      u, trace := Advance(w, u, trace, id, env);
    }

    /** From the lease to its release: the `try` block and its `finally`. */
    method DispatchTurn(ghost w: World, ghost id: nat, first: Env, second: Env, begun: Turn) returns (t: Turn, ghost trace: seq<Event>)
      requires At(w, id, begun) && begun.phase.Opening? && DecodesStrictly()
      modifies this, conversations, events, accounting
      ensures Steps(trace, id) && At(Run(w, trace), id, t) && t.phase.Ended?
    {
      hide Run, StepOf, Steps;
      NoSteps(w, id);
      ghost var u := w;
      trace := [];
      t := OpenRun(u, id, first, begun);
      u, trace := Advance(w, u, trace, id, first);
      if t.phase.Dispatching? {
        t := RecordTurnDispatch(u, id, first, t);
        u, trace := Advance(w, u, trace, id, first);
        if t.phase.Calling? {
          t := Invoke(u, id, first, t);
          u, trace := Advance(w, u, trace, id, first);
          ghost var rest: seq<Event>;
          t, rest := FinishReply(u, id, second, t);
          JoinRuns(w, trace, rest, id);
          u, trace := Run(u, rest), trace + rest;
        }
      }
      t := ReleaseLease(u, id, second, t);
      u, trace := Advance(w, u, trace, id, second);
    }

    /** `_send_message_locked`. Whatever is decided around it, it returns with the turn ended, and what it did is a run of the
        machine in which no other turn moves. */
    method SendMessage(ghost w: World, ghost id: nat, first: Env, second: Env, begun: Turn) returns (t: Turn, ghost trace: seq<Event>)
      requires At(w, id, begun) && begun.phase.Loading? && DecodesStrictly()
      modifies this, conversations, events, accounting
      ensures Steps(trace, id) && At(Run(w, trace), id, t) && t.phase.Ended?
    {
      hide Run, StepOf, Steps;
      NoSteps(w, id);
      ghost var u := w;
      trace := [];
      t := LoadTurn(u, id, first, begun);
      u, trace := Advance(w, u, trace, id, first);
      if t.phase.Ended? { return; }
      t := AppendUser(u, id, first, t);
      u, trace := Advance(w, u, trace, id, first);
      if t.phase.Ended? { return; }
      t := StartRun(u, id, first, t);
      u, trace := Advance(w, u, trace, id, first);
      if t.phase.Ended? { return; }
      t := CheckContext(u, id, first, t);
      u, trace := Advance(w, u, trace, id, first);
      if t.phase.Admitting? {
        t := Admit(u, id, first, t);
        u, trace := Advance(w, u, trace, id, first);
      }
      if t.phase.Refusing? {
        t := RefuseRun(u, id, first, t);
        u, trace := Advance(w, u, trace, id, first);
        return;
      }
      ghost var rest: seq<Event>;
      t, rest := DispatchTurn(u, id, first, second, t);
      JoinRuns(w, trace, rest, id);
      trace := trace + rest;
    }
  }

  lemma {:induction false} JoinRuns(w: World, trace: seq<Event>, rest: seq<Event>, id: nat)
    requires Steps(trace, id) && Steps(rest, id)
    ensures Run(w, trace + rest) == Run(Run(w, trace), rest) && Steps(trace + rest, id)
    decreases |trace|
  {
    hide Apply;
    if trace == [] {
      assert trace + rest == rest;
    } else {
      assert (trace + rest)[1..] == trace[1..] + rest;
      JoinRuns(Apply(w, trace[0]), trace[1..], rest, id);
    }
  }

  lemma NoSteps(w: World, id: nat)
    ensures Run(w, []) == w && Steps([], id)
  {
  }

  /** One more step of the turn in the trace. */
  ghost method Advance(w: World, u: World, trace: seq<Event>, id: nat, env: Env) returns (u': World, trace': seq<Event>)
    requires u == Run(w, trace) && Steps(trace, id) && id in u.turns
    ensures trace' == trace + [Step(id, env)] && u' == StepOf(u, id, env) == Run(w, trace') && Steps(trace', id)
  {
    hide Run, StepOf;
    OneMore(w, trace, id, env);
    u', trace' := StepOf(u, id, env), trace + [Step(id, env)];
  }

  // ----- what the stores can reply

  lemma UserReplies(db: S.Db, conversation: string, content: string, run: string)
    ensures var reply := S.AppendUserAt(db, conversation, content, run).1;
            reply.Appended? || reply in {S.Conflict, S.ValueError}
  {
    hide Strip, S.LastOrdinal;
  }

  lemma StartReplies(db: S.Db, run: string, conversation: string, ordinal: nat)
    ensures S.StartRunAt(db, run, conversation, ordinal).1 in {S.Done, S.Conflict, S.ValueError}
  {
    hide S.MessageAt;
  }

  lemma FailReplies(db: S.Db, run: string, state: S.RunState, failure: string)
    ensures S.FailRunAt(db, run, state, failure).1 in {S.Done, S.Conflict, S.ValueError}
  {
    hide Strip;
  }

  lemma AssistantReplies(db: S.Db, conversation: string, run: string, content: string, estimate: nat)
    ensures var reply := S.AppendAssistantAt(db, conversation, run, content, estimate).1;
            reply.Appended? || reply in {S.Conflict, S.ValueError}
  {
    hide Strip, S.LastOrdinal;
  }

  lemma ObserveReplies(l: A.Ledger, run: string, o: A.Observation)
    ensures A.Apply(l, A.RecordObservation(run, o)).1 in {A.Done, A.Conflict}
  {
    hide A.SafeFinishReason;
  }

  lemma WarnReplies(l: A.Ledger, run: string)
    ensures A.Apply(l, A.MarkSoftWarning(run)).1 in {A.Done, A.Conflict}
  {
  }

  lemma TerminalReplies(l: A.Ledger, run: string, status: A.Status, billing: A.Billing, now: int, outboxId: string)
    ensures A.Apply(l, A.RecordTerminal(run, status, billing, None, None, now, outboxId)).1 in {A.Done, A.Conflict, A.ValueError}
  {
    hide Strip;
  }
}

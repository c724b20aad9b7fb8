/** Whole runs of the Direct runtime: the stores agree at every point where any turn may stop, completed runs form a prefix
    of their conversation, and a conversation over its context limit stays refused. */
module TurnRuns {
  import opened Text
  import opened DirectTurns
  import opened TurnSteps
  import A = Accounting
  import P = DirectSettings
  import S = DirectStore

  // ----- every event keeps the invariant

  lemma StepIsSafe(w: World, id: nat, env: Env)
    requires Inv(w) && id in w.turns && !w.turns[id].phase.Ended?
    ensures Safe(w, StepOf(w, id, env), id)
  {
    hide Inv, Safe, Load, Append, Start, Check, Refuse, Admit, OpenEvent, RecordDispatch, Capture, Observe;
    hide Warn, Terminate;
    hide CloseEvent, Settle, Release, Answered;
    match w.turns[id].phase
    case Loading => LoadIsSafe(w, id);
    case Appending => AppendIsSafe(w, id);
    case Starting(ordinal) => StartIsSafe(w, id, ordinal);
    case Checking => CheckIsSafe(w, id);
    case Refusing(why) => RefuseIsSafe(w, id, why);
    case Admitting => AdmitIsSafe(w, id, env);
    case Opening => OpenIsSafe(w, id, env.eventId, env.acceptable);
    case Dispatching => DispatchIsSafe(w, id, env.now);
    case Calling => CallIsSafe(w, id, env.reply);
    case Capturing(reply) => CaptureIsSafe(w, id, reply);
    case Observing(reply) => ObserveIsSafe(w, id, reply);
    case Warning(reply) => WarnIsSafe(w, id, reply);
    case Terminating(reply) => TerminateIsSafe(w, id, reply, env.now, env.outboxId);
    case Closing(reply) => CloseIsSafe(w, id, reply, env.eventId, env.acceptable);
    case Settling(reply) => SettleIsSafe(w, id, reply);
    case Releasing(result) => ReleaseIsSafe(w, id, result);
    case Ended(_) =>
  }

  lemma SafeKeepsInv(w: World, w': World, id: nat)
    requires Inv(w) && id in w.turns && !w.turns[id].phase.Ended? && Safe(w, w', id)
    ensures Inv(w') && Growing(w, w')
  {
    hide Frame, TurnInv, S.Inv, A.Inv, ShapesInv, TurnsInv;
    OthersKept(w, w', id);
    FrameGrows(w, w', id);
  }

  /** What every event keeps for later: specifications, limits, and turns that have ended; what is over its limit stays so. */
  ghost predicate Growing(w: World, w': World) {
    && (forall id :: id in w.turns ==> id in w'.turns && w'.turns[id].run == w.turns[id].run
                                       && w'.turns[id].conversation == w.turns[id].conversation
                                       && (w.turns[id].phase.Ended? ==> w'.turns[id] == w.turns[id]))
    && (forall c :: OverLimit(w, c) ==> OverLimit(w', c))
  }

  lemma FrameGrows(w: World, w': World, id: nat)
    requires Frame(w, w', id) && !w.turns[id].phase.Ended?
    ensures Growing(w, w')
  {
    hide OverLimit, SameRun, MessagesGrow;
    forall c | OverLimit(w, c) ensures OverLimit(w', c) { OverLimitKept(w, w', c, w.turns[id].run, w.turns[id].conversation); }
  }

  lemma BeginKeepsInv(w: World, id: nat, conversation: string, run: string, content: string, origin: string)
    requires Inv(w) && id !in w.turns && conversation !in w.locks && Fresh(w, run)
    ensures Inv(BeginAt(w, id, conversation, run, content, origin)) && Growing(w, BeginAt(w, id, conversation, run, content, origin))
  {
    hide S.Inv, A.Inv, Shaped, TurnInv, OverLimit;
    var w' := BeginAt(w, id, conversation, run, content, origin);
    forall u | u in w'.turns ensures TurnInv(w', u, w'.turns[u]) {
      if u == id { NewTurnIsRight(w, w', id); } else { BeginKeepsTurn(w, w', u, conversation); }
    }
    assert forall c :: Msgs(w', c) == Msgs(w, c);
    forall c | OverLimit(w, c) ensures OverLimit(w', c) { StillOver(w, w', c); }
  }

  lemma NewTurnIsRight(w: World, w': World, id: nat)
    requires id in w'.turns && w'.db == w.db && w'.events == w.events && w'.ledger == w.ledger && w'.vault == w.vault && w'.leases == w.leases
    requires w'.turns[id].phase.Loading? && !w'.turns[id].passed && Fresh(w, w'.turns[id].run)
    requires w'.turns[id].conversation in w'.locks && w'.locks[w'.turns[id].conversation] == id
    ensures TurnInv(w', id, w'.turns[id])
  {
    hide Unsent;
    UnsentSame(w, w', w'.turns[id].run);
  }

  lemma StillOver(w: World, w': World, c: string)
    requires w'.db == w.db && w'.profiles == w.profiles && OverLimit(w, c)
    ensures OverLimit(w', c)
  {
    hide P.Lookup, ByteCount, Copies;
    assert SentOf(w', c, SpecOf(w', c)) == SentOf(w, c, SpecOf(w, c));
  }

  /** Nothing that a turn is judged by changes but the lock table elsewhere. */
  lemma BeginKeepsTurn(w: World, w': World, u: nat, conversation: string)
    requires TurnsInv(w) && u in w.turns && w' == w.(turns := w'.turns, locks := w'.locks) && u in w'.turns && w'.turns[u] == w.turns[u]
    requires conversation !in w.locks && forall c :: c != conversation && c in w.locks ==> c in w'.locks && w'.locks[c] == w.locks[c]
    ensures TurnInv(w', u, w'.turns[u])
  {
    hide PhaseInv, Pinned, ReplyRight, BeforeCheck;
    assert Tracked(w, u);
    SameJudgement(w, w', w.turns[u]);
  }

  lemma SameJudgement(w: World, w': World, t: Turn)
    requires w' == w.(turns := w'.turns, locks := w'.locks)
    ensures PhaseInv(w', t) == PhaseInv(w, t) && Pinned(w', t) == Pinned(w, t) && Untouched(w', t.run) == Untouched(w, t.run)
  {
    hide Answers, Copies, P.Lookup, ByteCount, Strip, A.Recorded, A.BillingOf, TooLong, Pinned, Consistent;
    hide OverLimit, Unsent, Sending, RowOpen, RowObserved, Warned, TerminalAs, ClosedAs, Unwarned, VaultHas, IsOpen, AtEnd, DirectRun;
    hide Msgs, HasRow, RunIs;
    SameViews(w, w', t);
    SameRow(w, w', t);
  }

  lemma SameRow(w: World, w': World, t: Turn)
    requires w' == w.(turns := w'.turns, locks := w'.locks)
    ensures AtEnd(w', t) == AtEnd(w, t) && DirectRun(w', t) == DirectRun(w, t) && IsOpen(w', t.run) == IsOpen(w, t.run)
    ensures Unwarned(w', t) == Unwarned(w, t) && HasRow(w', t.run) == HasRow(w, t.run)
    ensures forall state :: RunIs(w', t.run, state) == RunIs(w, t.run, state)
    ensures forall answer :: VaultHas(w', t, answer) == VaultHas(w, t, answer)
  {
  }

  lemma SameViews(w: World, w': World, t: Turn)
    requires w' == w.(turns := w'.turns, locks := w'.locks)
    ensures Pinned(w', t) == Pinned(w, t) && Sending(w', t) == Sending(w, t)
    ensures OverLimit(w', t.conversation) == OverLimit(w, t.conversation)
    ensures Consistent(w', t.conversation, t.run) == Consistent(w, t.conversation, t.run)
    ensures Unsent(w', t.run) == Unsent(w, t.run) && Msgs(w', t.conversation) == Msgs(w, t.conversation)
    ensures RowOpen(w', t) == RowOpen(w, t)
    ensures forall e :: RowObserved(w', t, e) == RowObserved(w, t, e) && Warned(w', t, e) == Warned(w, t, e)
    ensures forall reply :: TerminalAs(w', t, reply) == TerminalAs(w, t, reply) && ClosedAs(w', t.run, reply) == ClosedAs(w, t.run, reply)
  {
    hide Answers, Copies, P.Lookup, ByteCount, Strip, A.Recorded, A.BillingOf;
    assert forall spec :: SentOf(w', t.conversation, spec) == SentOf(w, t.conversation, spec);
    assert LimitsOf(w', t.conversation) == LimitsOf(w, t.conversation);
    assert forall c :: Msgs(w', c) == Msgs(w, c);
  }

  lemma CrashKeepsInv(w: World, id: nat)
    requires Inv(w) && id in w.turns && !w.turns[id].phase.Ended?
    ensures Inv(Stop(w, id, Crashed)) && Growing(w, Stop(w, id, Crashed))
  {
    hide Inv, Safe, Growing;
    StopIsSafe(w, id, Crashed);
    SafeKeepsInv(w, Stop(w, id, Crashed), id);
  }

  // ----- events outside the turns

  /** Conversations are created or archived and settings saved; nothing a turn is judged by changes. */
  ghost predicate Elsewhere(w: World, w': World) {
    && w' == w.(db := w'.db, profiles := w'.profiles) && w'.db.runs == w.db.runs
    && (forall c :: c in w.db.conversations ==> c in w'.db.conversations && w'.db.conversations[c].spec == w.db.conversations[c].spec)
    && (forall c :: Msgs(w', c) == Msgs(w, c))
    && (forall k :: k in w.profiles.saved ==> k in w'.profiles.saved && w'.profiles.saved[k] == w.profiles.saved[k])
  }

  lemma ElsewhereViews(w: World, w': World, t: Turn)
    requires Elsewhere(w, w')
    ensures Pinned(w, t) ==> Pinned(w', t)
    ensures Sending(w, t) ==> Sending(w', t)
    ensures OverLimit(w, t.conversation) ==> OverLimit(w', t.conversation)
    ensures Consistent(w, t.conversation, t.run) ==> Consistent(w', t.conversation, t.run)
    ensures Unsent(w, t.run) ==> Unsent(w', t.run)
    ensures RowOpen(w, t) ==> RowOpen(w', t)
    ensures forall e :: RowObserved(w, t, e) ==> RowObserved(w', t, e)
  {
    hide Answers, Copies, ByteCount, Strip, A.Recorded, A.BillingOf;
    LimitsStay(w, w', t.conversation);
    hide LimitsOf;
    assert forall spec :: SentOf(w', t.conversation, spec) == SentOf(w, t.conversation, spec);
    hide SentOf;
    if Unsent(w, t.run) { UnsentStays(w, w', t.run); }
  }

  lemma UnsentStays(w: World, w': World, run: string)
    requires Elsewhere(w, w') && Unsent(w, run)
    ensures Unsent(w', run)
  {
    forall c, i | c in w'.db.conversations && 0 <= i < |Msgs(w', c)| ensures Msgs(w', c)[i].run != run {
      assert Msgs(w', c) == Msgs(w, c);
    }
  }

  lemma LimitsStay(w: World, w': World, c: string)
    requires Elsewhere(w, w')
    ensures LimitsOf(w, c).Some? ==> LimitsOf(w', c) == LimitsOf(w, c)
  {
    hide Strip;
  }

  lemma ElsewhereKeepsTurn(w: World, w': World, id: nat, t: Turn)
    requires Elsewhere(w, w') && TurnInv(w, id, t)
    ensures TurnInv(w', id, t)
  {
    hide Answers, Copies, P.Lookup, ByteCount, Strip, A.Recorded, A.BillingOf, TooLong, Pinned, Consistent;
    hide OverLimit, Unsent, Sending, RowOpen, RowObserved;
    ElsewhereViews(w, w', t);
  }

  lemma ElsewhereKeepsInv(w: World, w': World)
    requires Inv(w) && Elsewhere(w, w') && S.Inv(w'.db)
    ensures Inv(w') && Growing(w, w')
  {
    hide TurnInv, S.Inv, A.Inv, Shaped, OverLimit;
    forall id | id in w'.turns ensures TurnInv(w', id, w'.turns[id]) {
      assert Tracked(w, id);
      ElsewhereKeepsTurn(w, w', id, w.turns[id]);
    }
    forall c | c in w'.db.conversations ensures Shaped(Msgs(w', c)) {
      assert Msgs(w', c) == Msgs(w, c);
      if c !in w.db.conversations { NothingIsShaped(); }
    }
    forall c | OverLimit(w, c) ensures OverLimit(w', c) { OverLimitStays(w, w', c); }
  }

  lemma NothingIsShaped()
    ensures Shaped([])
  {
  }

  lemma OverLimitStays(w: World, w': World, c: string)
    requires Elsewhere(w, w') && OverLimit(w, c)
    ensures OverLimit(w', c)
  {
    hide LimitsOf, Copies, ByteCount;
    LimitsStay(w, w', c);
    assert SentOf(w', c, SpecOf(w', c)) == SentOf(w, c, SpecOf(w, c));
  }

  lemma OutsideKeepsInv(w: World, e: Event)
    requires Inv(w) && (e.NewConversation? || e.Archive? || e.Configure?)
    ensures Inv(Apply(w, e)) && Growing(w, Apply(w, e))
  {
    hide Inv, Growing, S.Inv, Elsewhere, Apply;
    DbInv(w);
    match e
    case NewConversation(conversation, spec) => CreatesElsewhere(w, conversation, spec); ElsewhereKeepsInv(w, Apply(w, e));
    case Archive(conversation, archived) => ArchivesElsewhere(w, conversation, archived); ElsewhereKeepsInv(w, Apply(w, e));
    case Configure(call) => ConfiguresElsewhere(w, call); ElsewhereKeepsInv(w, Apply(w, e));
  }

  lemma CreatesElsewhere(w: World, conversation: string, spec: S.Spec)
    requires S.Inv(w.db)
    ensures var w' := Apply(w, NewConversation(conversation, spec)); Elsewhere(w, w') && S.Inv(w'.db)
  {
    hide S.Inv;
    S.CallKeepsInv(w.db, S.Create(conversation, spec.(profileName := w.profiles.active.name, profileVersion := w.profiles.active.version)));
  }

  lemma ArchivesElsewhere(w: World, conversation: string, archived: bool)
    requires S.Inv(w.db)
    ensures var w' := Apply(w, Archive(conversation, archived)); Elsewhere(w, w') && S.Inv(w'.db)
  {
    hide S.Inv, S.Apply;
    S.CallKeepsInv(w.db, S.SetArchived(conversation, archived));
    ArchiveKeepsMessages(w.db, conversation, archived);
    var w' := Apply(w, Archive(conversation, archived));
    assert forall c :: Msgs(w', c) == Msgs(w, c);
  }

  lemma ArchiveKeepsMessages(db: S.Db, conversation: string, archived: bool)
    ensures var db' := S.Apply(db, S.SetArchived(conversation, archived)).0;
            && db'.runs == db.runs && db'.conversations.Keys == db.conversations.Keys
            && forall c :: c in db.conversations ==>
                 db'.conversations[c].spec == db.conversations[c].spec && db'.conversations[c].messages == db.conversations[c].messages
  {
  }

  lemma ConfiguresElsewhere(w: World, call: P.Call)
    requires S.Inv(w.db)
    ensures var w' := Apply(w, Configure(call)); Elsewhere(w, w') && S.Inv(w'.db)
  {
    hide S.Inv, Strip, P.Apply;
    P.CallIsLater(w.profiles, call);
    var w' := Apply(w, Configure(call));
    assert forall c :: Msgs(w', c) == Msgs(w, c);
  }

  lemma DbInv(w: World)
    requires Inv(w)
    ensures S.Inv(w.db) && A.Inv(w.ledger) && ShapesInv(w)
  {
  }

  lemma GrowingReflexive(w: World)
    ensures Growing(w, w)
  {
  }

  lemma GrowingTransitive(a: World, b: World, c: World)
    requires Growing(a, b) && Growing(b, c)
    ensures Growing(a, c)
  {
    hide OverLimit;
  }

  /** Every event keeps the invariant. */
  lemma EventKeepsInv(w: World, e: Event)
    requires Inv(w)
    ensures Inv(Apply(w, e)) && Growing(w, Apply(w, e))
  {
    hide Inv, Growing, Safe, StepOf, BeginAt, Stop, Fresh;
    GrowingReflexive(w);
    match e
    case Begin(id, conversation, run, content, origin) =>
      if id !in w.turns && conversation !in w.locks && Fresh(w, run) { BeginKeepsInv(w, id, conversation, run, content, origin); }
    case Step(id, env) =>
      if id in w.turns {
        if w.turns[id].phase.Ended? {
          EndedStays(w, id, env);
        } else {
          StepIsSafe(w, id, env);
          SafeKeepsInv(w, StepOf(w, id, env), id);
        }
      }
    case Crash(id) => if id in w.turns && !w.turns[id].phase.Ended? { CrashKeepsInv(w, id); }
    case _ => OutsideKeepsInv(w, e);
  }

  lemma EndedStays(w: World, id: nat, env: Env)
    requires id in w.turns && w.turns[id].phase.Ended?
    ensures StepOf(w, id, env) == w
  {
  }

  lemma {:induction false} RunKeepsInv(w: World, events: seq<Event>)
    requires Inv(w)
    ensures Inv(Run(w, events)) && Growing(w, Run(w, events))
    decreases |events|
  {
    hide Inv, Growing, Apply;
    if events == [] {
      GrowingReflexive(w);
    } else {
      EventKeepsInv(w, events[0]);
      RunKeepsInv(Apply(w, events[0]), events[1..]);
      GrowingTransitive(w, Apply(w, events[0]), Run(w, events));
    }
  }

  lemma EmptyInv(profiles: P.Profiles)
    ensures Inv(Empty(profiles))
  {
  }
}

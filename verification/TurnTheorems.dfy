/** What the interleaved runs of the Direct runtime guarantee a reader of its stores. */
module TurnTheorems {
  import opened Text
  import opened RoleCheck
  import opened DirectTurns
  import opened TurnSteps
  import opened TurnRuns
  import A = Accounting
  import P = DirectSettings
  import S = DirectStore
  import Utf8

  ghost predicate HasTurn(w: World, run: string) { exists id :: id in w.turns && w.turns[id].run == run }

  /** Every run the stores know is the run of a turn. */
  ghost predicate Owned(w: World) {
    forall run :: run in w.db.runs || run in w.events || HasRow(w, run) ==> HasTurn(w, run)
  }

  lemma OwnedAfterStep(w: World, w': World, id: nat)
    requires Owned(w) && Frame(w, w', id)
    ensures Owned(w')
  {
    hide MessagesGrow;
    forall run | run in w'.db.runs || run in w'.events || HasRow(w', run) ensures HasTurn(w', run) {
      if run == w.turns[id].run {
        assert w'.turns[id].run == run;
      } else {
        assert SameRun(w, w', run) && HasTurn(w, run);
        var u :| u in w.turns && w.turns[u].run == run;
        assert w'.turns[u].run == run;
      }
    }
  }

  lemma OwnedGrows(w: World, w': World)
    requires Owned(w) && w'.db.runs == w.db.runs && w'.events == w.events && w'.ledger == w.ledger
    requires forall id :: id in w.turns ==> id in w'.turns && w'.turns[id].run == w.turns[id].run
    ensures Owned(w')
  {
    forall run | HasTurn(w, run) ensures HasTurn(w', run) {
      var u :| u in w.turns && w.turns[u].run == run;
      assert w'.turns[u].run == run;
    }
  }

  lemma OwnedAfterEvent(w: World, e: Event)
    requires Inv(w) && Owned(w)
    ensures Owned(Apply(w, e))
  {
    hide Inv, Owned, Safe, StepOf, Fresh, Frame, S.Apply, P.Apply;
    match e
    case Begin(id, conversation, run, content, origin) =>
      if id !in w.turns && conversation !in w.locks && Fresh(w, run) { OwnedGrows(w, BeginAt(w, id, conversation, run, content, origin)); }
    case Step(id, env) =>
      if id in w.turns {
        if w.turns[id].phase.Ended? {
          EndedStays(w, id, env);
        } else {
          StepIsSafe(w, id, env);
          SafeIsFrame(w, StepOf(w, id, env), id);
          OwnedAfterStep(w, StepOf(w, id, env), id);
        }
      }
    case Crash(id) => if id in w.turns && !w.turns[id].phase.Ended? { OwnedGrows(w, Stop(w, id, Crashed)); }
    case NewConversation(conversation, spec) =>
      var active := w.profiles.active;
      SameRuns(w.db, S.Create(conversation, spec.(profileName := active.name, profileVersion := active.version)));
      OwnedGrows(w, Apply(w, e));
    case Archive(conversation, archived) =>
      SameRuns(w.db, S.SetArchived(conversation, archived));
      OwnedGrows(w, Apply(w, e));
    case Configure(call) => OwnedGrows(w, Apply(w, e));
  }

  lemma SafeIsFrame(w: World, w': World, id: nat)
    requires Safe(w, w', id)
    ensures Frame(w, w', id)
  {
  }

  lemma SameRuns(db: S.Db, call: S.Call)
    requires call.Create? || call.SetArchived?
    ensures S.Apply(db, call).0.runs == db.runs
  {
  }

  lemma {:induction false} RunOwned(w: World, events: seq<Event>)
    requires Inv(w) && Owned(w)
    ensures Owned(Run(w, events))
    decreases |events|
  {
    hide Inv, Owned, Apply, Growing;
    if events != [] {
      EventKeepsInv(w, events[0]);
      OwnedAfterEvent(w, events[0]);
      RunOwned(Apply(w, events[0]), events[1..]);
    }
  }

  lemma TurnIsConsistent(w: World, run: string) returns (id: nat)
    requires Inv(w) && HasTurn(w, run)
    ensures id in w.turns && w.turns[id].run == run && Consistent(w, w.turns[id].conversation, run)
  {
    hide S.Inv, A.Inv, ShapesInv, Consistent, PhaseInv, Pinned;
    id :| id in w.turns && w.turns[id].run == run;
    assert Tracked(w, id);
    PhaseIsConsistent(w, w.turns[id]);
  }

  /** At every point where any turn may stop: a completed Direct run is a success in both ledgers and a failed one a failure in
      both; a terminal event-ledger run has a terminal accounting row that says the same, with its outbox record; an accounting
      row has a dispatch event; a run refused before the network has neither, and no capture. */
  lemma StoresAgree(profiles: P.Profiles, events: seq<Event>, run: string)
    ensures var w := Run(Empty(profiles), events);
            && (RunIs(w, run, S.Completed) ==> Succeeded(w, run)) && (RunIs(w, run, S.FailedAfterDispatch) ==> Failed(w, run))
            && (IsClosed(w, run) ==> Succeeded(w, run) || Failed(w, run))
            && (IsClosed(w, run) ==> IsTerminal(w, run) && A.HasRecord(w.ledger, run))
            && (HasRow(w, run) ==> run in w.events)
            && (RunIs(w, run, S.RefusedBeforeNetwork) ==> run !in w.events && !HasRow(w, run) && run !in w.vault)
  {
    hide Run, Inv, A.HasRecord, Owned, HasTurn, Answers, Msgs;
    var w := Run(Empty(profiles), events);
    EmptyInv(profiles);
    EmptyOwned(profiles);
    RunKeepsInv(Empty(profiles), events);
    RunOwned(Empty(profiles), events);
    KnownHasTurn(w, run);
    if HasTurn(w, run) {
      var id := TurnIsConsistent(w, run);
      TerminalHasRecord(w, run);
    }
  }

  lemma EmptyOwned(profiles: P.Profiles)
    ensures Owned(Empty(profiles))
  {
  }

  lemma KnownHasTurn(w: World, run: string)
    requires Owned(w)
    ensures run in w.db.runs || run in w.events || HasRow(w, run) ==> HasTurn(w, run)
  {
  }

  lemma TerminalHasRecord(w: World, run: string)
    requires Inv(w)
    ensures IsTerminal(w, run) ==> A.HasRecord(w.ledger, run)
  {
    hide S.Inv, TurnsInv, ShapesInv, A.RecordInv, A.RowInv;
  }

  /** The vault holds exactly the bytes of the assistant message of a completed run. */
  lemma CompletedIsCaptured(profiles: P.Profiles, events: seq<Event>, run: string)
    requires RunIs(Run(Empty(profiles), events), run, S.Completed)
    ensures var w := Run(Empty(profiles), events);
            && run in w.vault && Answers(Msgs(w, w.db.runs[run].conversation), run, w.vault[run].data)
            && forall c, i :: c in w.db.conversations && 0 <= i < |Msgs(w, c)| && Msgs(w, c)[i].role == S.Assistant && Msgs(w, c)[i].run == run
                 ==> Utf8.Encode(Msgs(w, c)[i].content) == w.vault[run].data
  {
    hide Run, Inv, Owned, HasTurn, Utf8.Encode;
    var w := Run(Empty(profiles), events);
    EmptyInv(profiles);
    EmptyOwned(profiles);
    RunKeepsInv(Empty(profiles), events);
    RunOwned(Empty(profiles), events);
    KnownHasTurn(w, run);
    var id := TurnIsConsistent(w, run);
    OneAnswer(w, w.turns[id].conversation, run, w.vault[run].data);
  }

  lemma OneAnswer(w: World, conversation: string, run: string, data: Bytes)
    requires Inv(w) && Answers(Msgs(w, conversation), run, data)
    ensures run in w.db.runs && w.db.runs[run].conversation == conversation
    ensures forall c, i :: c in w.db.conversations && 0 <= i < |Msgs(w, c)| && Msgs(w, c)[i].role == S.Assistant && Msgs(w, c)[i].run == run
              ==> Utf8.Encode(Msgs(w, c)[i].content) == data
  {
    hide Utf8.Encode, TurnsInv, A.Inv, ShapesInv, S.RunInv;
    var k :| 0 <= k < |Msgs(w, conversation)| && Msgs(w, conversation)[k].role == S.Assistant && Msgs(w, conversation)[k].run == run
             && Utf8.Encode(Msgs(w, conversation)[k].content) == data;
    assert S.ConversationInv(w.db, conversation, w.db.conversations[conversation]);
    forall c, i | c in w.db.conversations && 0 <= i < |Msgs(w, c)| && Msgs(w, c)[i].role == S.Assistant && Msgs(w, c)[i].run == run
      ensures Utf8.Encode(Msgs(w, c)[i].content) == data
    {
      assert S.ConversationInv(w.db, c, w.db.conversations[c]);
    }
  }

  // ----- the history of a conversation

  /** The run of a message is completed. */
  predicate Answered(w: World, m: S.Message) { RunIs(w, m.run, S.Completed) }

  /** A user message of a well-shaped history is answered exactly when the next message is an assistant message. */
  lemma AnsweredIffNext(w: World, c: string, k: nat)
    requires S.Inv(w.db) && Shaped(Msgs(w, c)) && k < |Msgs(w, c)| && Msgs(w, c)[k].role == S.User
    requires Answered(w, Msgs(w, c)[k]) ==> w.db.runs[Msgs(w, c)[k].run].conversation == c
    ensures Answered(w, Msgs(w, c)[k]) <==> k + 1 < |Msgs(w, c)| && Msgs(w, c)[k + 1].role == S.Assistant
  {
    var ms, run := Msgs(w, c), Msgs(w, c)[k].run;
    assert S.ConversationInv(w.db, c, w.db.conversations[c]);
    if Answered(w, ms[k]) {
      assert S.RunInv(w.db, run, w.db.runs[run]);
      var a :| 0 <= a < |ms| && ms[a].role == S.Assistant && ms[a].run == run;
      assert ms[a - 1].run == run && ms[a - 1].role == S.User;
    }
    if k + 1 < |ms| && ms[k + 1].role == S.Assistant {
      assert ms[k + 1].run == run;
      assert S.RunInv(w.db, run, w.db.runs[run]);
      assert S.HasAnswer(ms, run);
    }
  }

  /** Every message was sent by a turn of its conversation. */
  ghost predicate Homes(w: World) {
    forall c, i :: c in w.db.conversations && 0 <= i < |Msgs(w, c)| ==> HasHome(w, c, Msgs(w, c)[i].run)
  }

  ghost predicate HasHome(w: World, c: string, run: string) {
    exists id :: id in w.turns && w.turns[id].run == run && w.turns[id].conversation == c
  }

  lemma HomeKept(w: World, w': World, c: string, run: string)
    requires HasHome(w, c, run)
    requires forall id :: id in w.turns ==> id in w'.turns && w'.turns[id].run == w.turns[id].run
                                            && w'.turns[id].conversation == w.turns[id].conversation
    ensures HasHome(w', c, run)
  {
    var u :| u in w.turns && w.turns[u].run == run && w.turns[u].conversation == c;
    assert w'.turns[u].run == run && w'.turns[u].conversation == c;
  }

  lemma HomesAfterStep(w: World, w': World, id: nat)
    requires Homes(w) && Frame(w, w', id)
    ensures Homes(w')
  {
    hide SameRun, HasHome, Msgs;
    var t := w.turns[id];
    forall c, i | c in w'.db.conversations && 0 <= i < |Msgs(w', c)| ensures HasHome(w', c, Msgs(w', c)[i].run) {
      assert c in w.db.conversations;
      if i < |Msgs(w, c)| {
        assert Prefix(Msgs(w, c), Msgs(w', c)) && Msgs(w', c)[i] == Msgs(w, c)[i];
        HomeKept(w, w', c, Msgs(w, c)[i].run);
      } else {
        assert c == t.conversation;
        AtHome(w', id);
      }
    }
  }

  lemma AtHome(w: World, id: nat)
    requires id in w.turns
    ensures HasHome(w, w.turns[id].conversation, w.turns[id].run)
  {
  }

  lemma HomesGrow(w: World, w': World)
    requires Homes(w) && forall c :: Msgs(w', c) == Msgs(w, c)
    requires forall id :: id in w.turns ==> id in w'.turns && w'.turns[id].run == w.turns[id].run
                                            && w'.turns[id].conversation == w.turns[id].conversation
    ensures Homes(w')
  {
    hide HasHome;
    forall c, i | c in w'.db.conversations && 0 <= i < |Msgs(w', c)| ensures HasHome(w', c, Msgs(w', c)[i].run) {
      assert Msgs(w', c) == Msgs(w, c);
      HomeKept(w, w', c, Msgs(w, c)[i].run);
    }
  }

  lemma HomesAfterEvent(w: World, e: Event)
    requires Inv(w) && Homes(w)
    ensures Homes(Apply(w, e))
  {
    hide Inv, Homes, Safe, StepOf, Fresh, Frame, P.Apply;
    match e
    case Begin(id, conversation, run, content, origin) =>
      if id !in w.turns && conversation !in w.locks && Fresh(w, run) { HomesGrow(w, BeginAt(w, id, conversation, run, content, origin)); }
    case Step(id, env) =>
      if id in w.turns {
        if w.turns[id].phase.Ended? {
          EndedStays(w, id, env);
        } else {
          StepIsSafe(w, id, env);
          SafeIsFrame(w, StepOf(w, id, env), id);
          HomesAfterStep(w, StepOf(w, id, env), id);
        }
      }
    case Crash(id) => if id in w.turns && !w.turns[id].phase.Ended? { HomesGrow(w, Stop(w, id, Crashed)); }
    case NewConversation(conversation, spec) => SameMessages(w, e); HomesGrow(w, Apply(w, e));
    case Archive(conversation, archived) => SameMessages(w, e); HomesGrow(w, Apply(w, e));
    case Configure(call) => HomesGrow(w, Apply(w, e));
  }

  lemma SameMessages(w: World, e: Event)
    requires e.NewConversation? || e.Archive?
    ensures forall c :: Msgs(Apply(w, e), c) == Msgs(w, c)
    ensures Apply(w, e).turns == w.turns
  {
  }

  lemma {:induction false} RunHomes(w: World, events: seq<Event>)
    requires Inv(w) && Homes(w)
    ensures Homes(Run(w, events))
    decreases |events|
  {
    hide Inv, Homes, Apply, Growing;
    if events != [] {
      EventKeepsInv(w, events[0]);
      HomesAfterEvent(w, events[0]);
      RunHomes(Apply(w, events[0]), events[1..]);
    }
  }

  /** A run stays with the conversation of its user message. */
  lemma RunStaysHome(w: World, c: string, k: nat)
    requires Inv(w) && Homes(w) && k < |Msgs(w, c)| && Msgs(w, c)[k].run in w.db.runs
    ensures w.db.runs[Msgs(w, c)[k].run].conversation == c
  {
    hide ShapesInv, A.Inv, S.ConversationInv, TurnInv;
    var run := Msgs(w, c)[k].run;
    var row := w.db.runs[run];
    assert S.RunInv(w.db, run, row);
    assert Msgs(w, row.conversation)[row.userOrdinal - 1].run == run;
    assert HasHome(w, c, run) && HasHome(w, row.conversation, run);
  }

  ghost predicate Reachable(w: World) {
    Inv(w) && Homes(w)
  }

  lemma RunsReach(profiles: P.Profiles, events: seq<Event>)
    ensures Reachable(Run(Empty(profiles), events))
  {
    hide Run, Inv, Homes, Growing;
    EmptyInv(profiles);
    NoHomes(profiles);
    RunKeepsInv(Empty(profiles), events);
    RunHomes(Empty(profiles), events);
  }

  lemma NoHomes(profiles: P.Profiles)
    ensures Homes(Empty(profiles))
  {
  }

  /** The k-th message of a conversation, a user message, is answered exactly when the next one is an assistant message. */
  lemma AnsweredMeans(w: World, c: string, k: nat)
    requires Reachable(w) && k < |Msgs(w, c)| && Msgs(w, c)[k].role == S.User
    ensures Answered(w, Msgs(w, c)[k]) <==> k + 1 < |Msgs(w, c)| && Msgs(w, c)[k + 1].role == S.Assistant
  {
    hide S.Inv, TurnsInv, Shaped, A.Inv, Homes;
    if Answered(w, Msgs(w, c)[k]) { RunStaysHome(w, c, k); }
    AnsweredIffNext(w, c, k);
  }

  /** A turn completes only if every earlier user message of its conversation was answered, so the completed runs form a
      prefix of the conversation's runs; and ordinals are exactly 1..n. */
  lemma CompletedRunsAreAPrefix(profiles: P.Profiles, events: seq<Event>, c: string, i: nat, k: nat)
    requires c in Run(Empty(profiles), events).db.conversations
    requires var ms := Msgs(Run(Empty(profiles), events), c);
             i < k < |ms| && ms[i].role == S.User && ms[k].role == S.User && Answered(Run(Empty(profiles), events), ms[k])
    ensures Answered(Run(Empty(profiles), events), Msgs(Run(Empty(profiles), events), c)[i])
    ensures forall j :: 0 <= j < |Msgs(Run(Empty(profiles), events), c)| ==> Msgs(Run(Empty(profiles), events), c)[j].ordinal == j + 1
  {
    hide Run, Reachable, Answered;
    var w := Run(Empty(profiles), events);
    RunsReach(profiles, events);
    AnsweredMeans(w, c, i);
    AnsweredMeans(w, c, k);
    ShapeOf(w, c);
  }

  lemma ShapeOf(w: World, c: string)
    requires Reachable(w) && c in w.db.conversations
    ensures Shaped(Msgs(w, c)) && S.Numbered(Msgs(w, c))
  {
    hide TurnsInv, A.Inv, Homes, S.RunInv;
    assert S.ConversationInv(w.db, c, w.db.conversations[c]);
  }

  /** When a turn reaches its adapter, the role check accepts the history exactly while every earlier user message of the
      conversation has been answered. */
  lemma RoleCheckIffAllAnswered(profiles: P.Profiles, events: seq<Event>, id: nat)
    requires var w := Run(Empty(profiles), events); id in w.turns && w.turns[id].phase.Calling?
    ensures var w := Run(Empty(profiles), events);
            var ms := Msgs(w, w.turns[id].conversation);
            ValidMessages(w.turns[id].sent) <==> AllAnswered(w, ms)
  {
    hide Run, Reachable, Answered, ValidMessages, SentOf, AllAnswered, Followed;
    var w := Run(Empty(profiles), events);
    RunsReach(profiles, events);
    CallingFacts(w, id);
    var t := w.turns[id];
    var ms := Msgs(w, t.conversation);
    ShapeOf(w, t.conversation);
    BodyIsHistory(w, t);
    RolesAlternate(t.sent, ms);
    AllAnsweredMeans(w, t.conversation);
    AlternatesIffAnswered(ms);
  }

  lemma AllAnsweredMeans(w: World, c: string)
    requires Reachable(w)
    ensures AllAnswered(w, Msgs(w, c)) <==> Followed(Msgs(w, c))
  {
    hide Reachable, Answered, Msgs;
    var ms := Msgs(w, c);
    if AllAnswered(w, ms) {
      forall i | 0 <= i < |ms| - 1 && ms[i].role == S.User ensures ms[i + 1].role == S.Assistant {
        assert Answered(w, ms[i]);
        AnsweredMeans(w, c, i);
      }
    }
    if Followed(ms) {
      forall i | 0 <= i < |ms| - 1 && ms[i].role == S.User ensures Answered(w, ms[i]) { AnsweredMeans(w, c, i); }
    }
  }

  lemma CallingFacts(w: World, id: nat)
    requires Reachable(w) && id in w.turns && w.turns[id].phase.Calling?
    ensures var t := w.turns[id];
            AtEnd(w, t) && t.conversation in w.db.conversations && t.sent == SentOf(w, t.conversation, t.spec)
  {
    hide S.Inv, A.Inv, Homes, ShapesInv, SentOf, LimitsOf;
    assert Tracked(w, id);
  }

  ghost predicate AllAnswered(w: World, ms: seq<S.Message>) {
    forall i :: 0 <= i < |ms| - 1 && ms[i].role == S.User ==> Answered(w, ms[i])
  }

  predicate Followed(ms: seq<S.Message>) {
    forall i :: 0 <= i < |ms| - 1 && ms[i].role == S.User ==> ms[i + 1].role == S.Assistant
  }

  /** In a well-shaped history that ends with a user message, the roles alternate exactly when every other user message is
      followed by an assistant message. */
  lemma AlternatesIffAnswered(ms: seq<S.Message>)
    requires Shaped(ms) && ms != [] && ms[|ms| - 1].role == S.User
    ensures (|ms| % 2 == 1 && forall i :: 0 <= i < |ms| ==> ms[i].role == if i % 2 == 0 then S.User else S.Assistant)
       <==> Followed(ms)
  {
    if |ms| >= 2 && Followed(ms) { assert ms[|ms| - 2].role == S.Assistant; }
  }

  // ----- the context limit

  /** A turn that cannot have reached the lease table or either ledger. */
  ghost predicate KeptOut(w: World, id: nat) {
    id in w.turns && !w.turns[id].passed && BeforeCheck(w.turns[id].phase) && Untouched(w, w.turns[id].run)
  }

  /** The run's row says that it was refused for its context. */
  predicate RefusalRecorded(w: World, run: string) {
    RunIs(w, run, S.RefusedBeforeNetwork) && w.db.runs[run].failure == Some("ContextLimitExceeded")
  }

  /** Once a turn was refused for its context, every later turn of the conversation is kept from the lease table, the event
      ledger, the accounting ledger and the vault; and if its user message was accepted and it was not stopped by a crash, it
      ends with the same refusal, recorded with its run. */
  lemma ContextRefusalIsFinal(profiles: P.Profiles, events: seq<Event>, more: seq<Event>, first: nat, later: nat)
    requires var w := Run(Empty(profiles), events);
             && first in w.turns && w.turns[first].phase == Ended(Refused(ContextLimit)) && later !in w.turns
    requires var w := Run(Empty(profiles), events);
             && later in Run(w, more).turns && Run(w, more).turns[later].conversation == w.turns[first].conversation
    ensures var v := Run(Run(Empty(profiles), events), more);
            var t := v.turns[later];
            && KeptOut(v, later)
            && (t.phase.Ended? && t.phase.result != Crashed && !Unsent(v, t.run) ==>
                  t.phase == Ended(Refused(ContextLimit)) && RefusalRecorded(v, t.run))
  {
    hide Run, Inv, KeptOut, OverLimit, Growing, Unsent, RefusalRecorded;
    var w := Run(Empty(profiles), events);
    EmptyInv(profiles);
    RunKeepsInv(Empty(profiles), events);
    RefusedMeansOver(w, first);
    StaysKeptOut(w, more, w.turns[first].conversation, later);
    NotPassed(Run(w, more), later);
    KeptOutEnds(Run(w, more), later);
  }

  lemma KeptOutEnds(w: World, id: nat)
    requires KeptOut(w, id)
    ensures w.turns[id].phase.Ended? ==> w.turns[id].phase.result in {Raised, Crashed, Refused(ContextLimit)}
  {
  }

  lemma RefusedMeansOver(w: World, first: nat)
    requires Inv(w) && first in w.turns && w.turns[first].phase == Ended(Refused(ContextLimit))
    ensures OverLimit(w, w.turns[first].conversation)
  {
    hide S.Inv, A.Inv, ShapesInv, OverLimit, Consistent;
    assert Tracked(w, first);
  }

  /** A turn kept out, and how it may have ended: by an exception only if it left no message. */
  ghost predicate Barred(w: World, id: nat) {
    id in w.turns ==>
      && !w.turns[id].passed
      && (w.turns[id].phase == Ended(Raised) ==> Unsent(w, w.turns[id].run))
      && (w.turns[id].phase == Ended(Refused(ContextLimit)) ==> RefusalRecorded(w, w.turns[id].run))
  }

  lemma {:induction false} StaysKeptOut(w: World, events: seq<Event>, c: string, id: nat)
    requires Inv(w) && OverLimit(w, c) && Barred(w, id) && (id in w.turns ==> w.turns[id].conversation == c)
    requires id in Run(w, events).turns && Run(w, events).turns[id].conversation == c
    ensures Inv(Run(w, events)) && Barred(Run(w, events), id)
    decreases |events|
  {
    hide Inv, Apply, OverLimit, Barred;
    if events != [] {
      EventKeepsInv(w, events[0]);
      RunKeepsInv(Apply(w, events[0]), events[1..]);
      StepStaysOut(w, events[0], c, id);
      StaysKeptOut(Apply(w, events[0]), events[1..], c, id);
    }
  }

  lemma NotPassed(w: World, id: nat)
    requires Inv(w) && id in w.turns && Barred(w, id)
    ensures KeptOut(w, id)
  {
    hide S.Inv, A.Inv, ShapesInv, PhaseInv, Pinned;
    assert Tracked(w, id);
  }

  /** Whatever happens keeps a turn of a conversation over its limit barred. */
  lemma StepStaysOut(w: World, e: Event, c: string, id: nat)
    requires Inv(w) && OverLimit(w, c) && Barred(w, id) && (id in w.turns ==> w.turns[id].conversation == c)
    ensures Barred(Apply(w, e), id)
  {
    hide Inv, OverLimit, StepOf, Fresh, Growing, S.Apply, P.Apply, Barred;
    match e
    case Begin(u, conversation, run, content, origin) =>
      if u !in w.turns && conversation !in w.locks && Fresh(w, run) {
        var w' := BeginAt(w, u, conversation, run, content, origin);
        if u == id { JustBarred(w', id); } else { StillBarred(w, w', id); }
      }
    case Step(u, env) =>
      if u in w.turns && w.turns[u].phase.Ended? { EndedStays(w, u, env); }
      else if u in w.turns && u == id { OwnStepStaysOut(w, env, c, id); }
      else if u in w.turns { OtherStepStaysOut(w, u, env, id); }
    case Crash(u) =>
      if u in w.turns && !w.turns[u].phase.Ended? {
        if u == id { Crashes(w, id); } else { StillBarred(w, Stop(w, u, Crashed), id); }
      }
    case NewConversation(conversation, spec) => DbInv(w); CreatesElsewhere(w, conversation, spec); BarredElsewhere(w, Apply(w, e), id);
    case Archive(conversation, archived) => DbInv(w); ArchivesElsewhere(w, conversation, archived); BarredElsewhere(w, Apply(w, e), id);
    case Configure(call) => StillBarred(w, Apply(w, e), id);
  }

  lemma JustBarred(w: World, id: nat)
    requires id in w.turns && !w.turns[id].passed && !w.turns[id].phase.Ended?
    ensures Barred(w, id)
  {
  }

  lemma Crashes(w: World, id: nat)
    requires id in w.turns && Barred(w, id)
    ensures Barred(Stop(w, id, Crashed), id)
  {
  }

  lemma StillBarred(w: World, w': World, id: nat)
    requires Barred(w, id) && w'.db == w.db && (id in w'.turns ==> id in w.turns && w'.turns[id] == w.turns[id])
    ensures Barred(w', id)
  {
    hide Unsent;
    if id in w.turns && Unsent(w, w.turns[id].run) { UnsentSame(w, w', w.turns[id].run); }
  }

  lemma BarredElsewhere(w: World, w': World, id: nat)
    requires Barred(w, id) && Elsewhere(w, w')
    ensures Barred(w', id)
  {
    hide Unsent;
    if id in w.turns && Unsent(w, w.turns[id].run) { UnsentStays(w, w', w.turns[id].run); }
  }

  lemma OtherStepStaysOut(w: World, u: nat, env: Env, id: nat)
    requires Inv(w) && u in w.turns && !w.turns[u].phase.Ended? && u != id && Barred(w, id)
    ensures Barred(StepOf(w, u, env), id)
  {
    hide Inv, Safe, StepOf, Frame, Barred;
    StepIsSafe(w, u, env);
    SafeIsFrame(w, StepOf(w, u, env), u);
    if id in w.turns { RunsDiffer(w, id, u); }
    BarredFrame(w, StepOf(w, u, env), u, id);
  }

  lemma RunsDiffer(w: World, a: nat, b: nat)
    requires Inv(w) && a in w.turns && b in w.turns && a != b
    ensures w.turns[a].run != w.turns[b].run
  {
    hide TurnInv, ShapesInv, S.Inv, A.Inv;
  }

  lemma BarredFrame(w: World, w': World, u: nat, id: nat)
    requires Frame(w, w', u) && u != id && Barred(w, id) && (id in w.turns ==> w.turns[id].run != w.turns[u].run)
    ensures Barred(w', id)
  {
    hide Unsent, MessagesGrow;
    if id in w.turns {
      assert SameRun(w, w', w.turns[id].run);
      if Unsent(w, w.turns[id].run) { UnsentKept(w, w', w.turns[id].run, w.turns[u].run, w.turns[u].conversation); }
    }
  }

  /** The turn's own steps: an exception comes before its message, and the context check refuses it. */
  lemma OwnStepStaysOut(w: World, env: Env, c: string, id: nat)
    requires Inv(w) && OverLimit(w, c) && id in w.turns && w.turns[id].conversation == c && Barred(w, id)
    requires !w.turns[id].phase.Ended?
    ensures Barred(StepOf(w, id, env), id)
  {
    hide Inv, OverLimit, Load, Append, Start, Check, Refuse, Unsent, RefusalRecorded, S.Inv, A.Inv, ShapesInv, PhaseInv, Pinned;
    TurnFacts(w, id);
    match w.turns[id].phase
    case Loading => LoadStaysOut(w, id);
    case Appending => AppendStaysOut(w, id);
    case Starting(ordinal) => StartStaysOut(w, id, ordinal);
    case Checking => CheckStaysOut(w, id);
    case Refusing(why) => RefuseStaysOut(w, id);
    case _ =>
  }

  lemma LoadStaysOut(w: World, id: nat)
    requires Inv(w) && id in w.turns && w.turns[id].phase.Loading? && !w.turns[id].passed
    ensures Barred(Load(w, id), id)
  {
    hide S.Inv, A.Inv, ShapesInv, LimitsOf, Unsent, RefusalRecorded;
    TurnFacts(w, id);
    UnsentSame(w, Load(w, id), w.turns[id].run);
  }

  lemma AppendStaysOut(w: World, id: nat)
    requires Inv(w) && id in w.turns && w.turns[id].phase.Appending? && !w.turns[id].passed
    ensures Barred(Append(w, id), id)
  {
    hide Inv, S.Inv, A.Inv, ShapesInv, Unsent, RefusalRecorded, S.AppendUserAt;
    var t := w.turns[id];
    DbInv(w);
    UserWrites(w.db, t.conversation, t.content, t.run);
    NotSentYet(w, id);
    if !S.AppendUserAt(w.db, t.conversation, t.content, t.run).1.Appended? { UnsentSame(w, Append(w, id), t.run); }
  }

  lemma NotSentYet(w: World, id: nat)
    requires Inv(w) && id in w.turns && w.turns[id].phase.Appending?
    ensures Unsent(w, w.turns[id].run)
  {
    hide S.Inv, A.Inv, ShapesInv, Unsent, Pinned;
    TurnFacts(w, id);
  }

  lemma StartStaysOut(w: World, id: nat, ordinal: nat)
    requires Inv(w) && id in w.turns && w.turns[id].phase == Starting(ordinal) && !w.turns[id].passed
    ensures Barred(Start(w, id, ordinal), id)
  {
    hide Inv, Safe, S.StartRunAt, Unsent, RefusalRecorded;
    StartIsSafe(w, id, ordinal);
  }

  /** The context check refuses a turn of a conversation that is over its limit. */
  lemma CheckStaysOut(w: World, id: nat)
    requires Inv(w) && id in w.turns && w.turns[id].phase.Checking? && OverLimit(w, w.turns[id].conversation)
    ensures Barred(Check(w, id), id)
  {
    hide S.Inv, A.Inv, ShapesInv, LimitsOf, SentOf, TooLong, Unsent, RefusalRecorded;
    TurnFacts(w, id);
  }

  /** The refusal is never refused itself. */
  lemma RefuseStaysOut(w: World, id: nat)
    requires Inv(w) && id in w.turns && w.turns[id].phase == Refusing(ContextLimit) && !w.turns[id].passed
    ensures Barred(Refuse(w, id, ContextLimit), id)
  {
    hide S.Inv, A.Inv, ShapesInv, Unsent, Strip, OverLimit, Pinned, Msgs;
    TurnFacts(w, id);
    StripFixed("ContextLimitExceeded");
  }
}

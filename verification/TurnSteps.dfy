/** What each step of a Direct turn keeps: the view of every other turn, and the invariant of its own. */
module TurnSteps {
  import opened Text
  import opened RoleCheck
  import opened DirectTurns
  import A = Accounting
  import P = DirectSettings
  import S = DirectStore
  import Utf8

  // ----- what a step of one turn may change

  ghost predicate SameRun(w: World, w': World, run: string) {
    && (run in w.db.runs <==> run in w'.db.runs) && (run in w.db.runs ==> w'.db.runs[run] == w.db.runs[run])
    && (run in w.events <==> run in w'.events) && (run in w.events ==> w'.events[run] == w.events[run])
    && (HasRow(w, run) <==> HasRow(w', run))
    && (HasRow(w, run) ==> w'.ledger.invocations[run] == w.ledger.invocations[run])
    && (run in w.vault <==> run in w'.vault) && (run in w.vault ==> w'.vault[run] == w.vault[run])
    && (run in w.leases <==> run in w'.leases)
  }

  ghost predicate Prefix(a: seq<S.Message>, b: seq<S.Message>) { a <= b }

  /** The conversations and their specifications stay; messages are only added, by `run` and to `conversation`. */
  ghost predicate MessagesGrow(w: World, w': World, conversation: string, run: string) {
    && (forall c :: c in w.db.conversations <==> c in w'.db.conversations)
    && (forall c :: c in w.db.conversations ==> w'.db.conversations[c].spec == w.db.conversations[c].spec)
    && (forall c :: c != conversation ==> Msgs(w', c) == Msgs(w, c))
    && Prefix(Msgs(w, conversation), Msgs(w', conversation))
    && (forall i :: |Msgs(w, conversation)| <= i < |Msgs(w', conversation)| ==> Msgs(w', conversation)[i].run == run)
  }

  ghost predicate Frame(w: World, w': World, id: nat) {
    && id in w.turns && id in w'.turns && w'.turns == w.turns[id := w'.turns[id]]
    && w'.turns[id].conversation == w.turns[id].conversation && w'.turns[id].run == w.turns[id].run
    && w'.profiles == w.profiles
    && (forall r :: r != w.turns[id].run ==> SameRun(w, w', r))
    && MessagesGrow(w, w', w.turns[id].conversation, w.turns[id].run)
    && (forall c :: c != w.turns[id].conversation ==> (c in w.locks <==> c in w'.locks) && (c in w.locks ==> w'.locks[c] == w.locks[c]))
  }

  // ----- views that a step keeps

  lemma LimitsKept(w: World, w': World, c: string, run: string, conversation: string)
    requires MessagesGrow(w, w', conversation, run) && w'.profiles == w.profiles
    ensures LimitsOf(w', c) == LimitsOf(w, c)
  {
    hide P.Lookup;
  }

  lemma {:induction false} BytesGrow(a: seq<Sent>, b: seq<Sent>)
    requires a <= b
    ensures ByteCount(a) <= ByteCount(b)
    decreases |b|
  {
    if a != b {
      assert a <= b[..|b| - 1];
      BytesGrow(a, b[..|b| - 1]);
    }
  }

  /** A history that only grows stays over its limit. */
  lemma OverLimitKept(w: World, w': World, c: string, run: string, conversation: string)
    requires MessagesGrow(w, w', conversation, run) && w'.profiles == w.profiles && OverLimit(w, c)
    ensures OverLimit(w', c)
  {
    hide P.Lookup, LimitsOf, ByteCount;
    LimitsKept(w, w', c, run, conversation);
    assert Prefix(Msgs(w, c), Msgs(w', c));
    var a, b := SentOf(w, c, SpecOf(w, c)), SentOf(w', c, SpecOf(w', c));
    assert Copies(Msgs(w, c)) <= Copies(Msgs(w', c));
    assert a <= b;
    BytesGrow(a, b);
  }

  lemma AnswersKept(a: seq<S.Message>, b: seq<S.Message>, run: string, data: Bytes)
    requires Prefix(a, b) && Answers(a, run, data)
    ensures Answers(b, run, data)
  {
    hide Utf8.Encode;
    var i :| 0 <= i < |a| && a[i].role == S.Assistant && a[i].run == run && Utf8.Encode(a[i].content) == data;
    assert b[i] == a[i];
  }

  lemma ConsistentKept(w: World, w': World, conversation: string, run: string)
    requires Consistent(w, conversation, run) && SameRun(w, w', run) && Prefix(Msgs(w, conversation), Msgs(w', conversation))
    ensures Consistent(w', conversation, run)
  {
    hide Answers, Msgs, Prefix;
    if RunIs(w, run, S.Completed) { AnswersKept(Msgs(w, conversation), Msgs(w', conversation), run, w.vault[run].data); }
  }

  /** A turn that has ended is judged by its run and by messages that only grow. */
  lemma EndedKept(w: World, w': World, id: nat, t: Turn, run: string, conversation: string)
    requires t.phase.Ended? && TurnInv(w, id, t) && SameRun(w, w', t.run)
    requires MessagesGrow(w, w', conversation, run) && w'.profiles == w.profiles
    ensures TurnInv(w', id, t)
  {
    hide Consistent, OverLimit, Msgs, Pinned;
    assert Prefix(Msgs(w, t.conversation), Msgs(w', t.conversation));
    ConsistentKept(w, w', t.conversation, t.run);
    if t.phase.result.Refused? && t.phase.result.why.ContextLimit? { OverLimitKept(w, w', t.conversation, run, conversation); }
  }

  /** A turn under way is judged by its run and by its locked conversation. */
  lemma ActiveKept(w: World, w': World, id: nat, t: Turn, run: string, conversation: string)
    requires !t.phase.Ended? && TurnInv(w, id, t) && SameRun(w, w', t.run) && t.conversation != conversation && t.run != run
    requires MessagesGrow(w, w', conversation, run) && w'.profiles == w.profiles
    requires t.conversation in w'.locks && w'.locks[t.conversation] == id
    ensures TurnInv(w', id, t)
  {
    hide Consistent, OverLimit, LimitsOf, Unsent, SentOf, ReplyRight, Copies, MessagesGrow;
    hide RowOpen, RowObserved, Warned, Unwarned, TerminalAs, ClosedAs, VaultHas;
    ViewKept(w, w', t, run, conversation);
    RowKept(w, w', t);
  }

  /** What the ledgers and the vault say of a turn's run. */
  lemma RowKept(w: World, w': World, t: Turn)
    requires SameRun(w, w', t.run)
    ensures RowOpen(w', t) == RowOpen(w, t) && IsOpen(w', t.run) == IsOpen(w, t.run) && Unwarned(w', t) == Unwarned(w, t)
    ensures forall e :: RowObserved(w', t, e) == RowObserved(w, t, e) && Warned(w', t, e) == Warned(w, t, e)
    ensures forall reply :: TerminalAs(w', t, reply) == TerminalAs(w, t, reply) && ClosedAs(w', t.run, reply) == ClosedAs(w, t.run, reply)
    ensures forall answer :: VaultHas(w', t, answer) == VaultHas(w, t, answer)
  {
    hide A.Recorded, A.BillingOf, Strip;
  }

  lemma ViewKept(w: World, w': World, t: Turn, run: string, conversation: string)
    requires SameRun(w, w', t.run) && t.conversation != conversation && t.run != run
    requires MessagesGrow(w, w', conversation, run) && w'.profiles == w.profiles
    ensures Msgs(w', t.conversation) == Msgs(w, t.conversation) && LimitsOf(w', t.conversation) == LimitsOf(w, t.conversation)
    ensures t.conversation in w.db.conversations <==> t.conversation in w'.db.conversations
    ensures t.conversation in w.db.conversations ==> SpecOf(w', t.conversation) == SpecOf(w, t.conversation)
    ensures SentOf(w', t.conversation, t.spec) == SentOf(w, t.conversation, t.spec)
    ensures Consistent(w, t.conversation, t.run) ==> Consistent(w', t.conversation, t.run)
    ensures OverLimit(w, t.conversation) ==> OverLimit(w', t.conversation)
    ensures Unsent(w, t.run) ==> Unsent(w', t.run)
  {
    hide Consistent, OverLimit, LimitsOf, Unsent;
    LimitsKept(w, w', t.conversation, run, conversation);
    if Consistent(w, t.conversation, t.run) { ConsistentKept(w, w', t.conversation, t.run); }
    if OverLimit(w, t.conversation) { OverLimitKept(w, w', t.conversation, run, conversation); }
    if Unsent(w, t.run) { UnsentKept(w, w', t.run, run, conversation); }
  }

  lemma UnsentKept(w: World, w': World, mine: string, run: string, conversation: string)
    requires Unsent(w, mine) && mine != run && MessagesGrow(w, w', conversation, run)
    ensures Unsent(w', mine)
  {
    hide Msgs;
    forall c, i | c in w'.db.conversations && 0 <= i < |Msgs(w', c)| ensures Msgs(w', c)[i].run != mine {
      if c == conversation && i < |Msgs(w, c)| { assert Prefix(Msgs(w, c), Msgs(w', c)) && Msgs(w', c)[i] == Msgs(w, c)[i]; }
    }
  }

  /** The other turns after a step of turn `id`. */
  lemma OthersKept(w: World, w': World, id: nat)
    requires TurnsInv(w) && Frame(w, w', id) && !w.turns[id].phase.Ended? && TurnInv(w', id, w'.turns[id])
    ensures TurnsInv(w')
  {
    hide TurnInv, SameRun, MessagesGrow;
    var t := w.turns[id];
    Holds(w, id);
    forall u | u in w'.turns ensures TurnInv(w', u, w'.turns[u]) {
      if u != id {
        assert Tracked(w, u) && SameRun(w, w', w.turns[u].run);
        if w.turns[u].phase.Ended? {
          EndedKept(w, w', u, w.turns[u], t.run, t.conversation);
        } else {
          Holds(w, u);
          ActiveKept(w, w', u, w.turns[u], t.run, t.conversation);
        }
      }
    }
  }

  lemma Holds(w: World, id: nat)
    requires TurnsInv(w) && id in w.turns && !w.turns[id].phase.Ended?
    ensures w.turns[id].conversation in w.locks && w.locks[w.turns[id].conversation] == id
  {
    assert Tracked(w, id);
  }

  // ----- the turn's own invariant

  /** What is shown of each step: the others' view is framed and the turn stands where its new phase says. */
  ghost predicate Safe(w: World, w': World, id: nat) {
    Frame(w, w', id) && TurnInv(w', id, w'.turns[id]) && S.Inv(w'.db) && A.Inv(w'.ledger) && ShapesInv(w')
  }

  lemma TurnFacts(w: World, id: nat)
    requires Inv(w) && id in w.turns
    ensures TurnInv(w, id, w.turns[id]) && ShapesInv(w) && S.Inv(w.db) && A.Inv(w.ledger)
  {
    hide TurnInv, ShapesInv, S.Inv, A.Inv;
    assert Tracked(w, id);
  }

  /** The tables but the conversation store, for every run but one. */
  ghost predicate OtherRunsSame(w: World, w': World, run: string) {
    forall r :: r != run ==>
      (r in w.events <==> r in w'.events) && (r in w.events ==> w'.events[r] == w.events[r])
      && (HasRow(w, r) <==> HasRow(w', r)) && (HasRow(w, r) ==> w'.ledger.invocations[r] == w.ledger.invocations[r])
      && (r in w.vault <==> r in w'.vault) && (r in w.vault ==> w'.vault[r] == w.vault[r])
      && (r in w.leases <==> r in w'.leases)
  }

  /** A step that leaves the conversation store alone. */
  lemma QuietFrame(w: World, w': World, id: nat)
    requires id in w.turns && id in w'.turns && w'.turns == w.turns[id := w'.turns[id]]
    requires w'.turns[id].conversation == w.turns[id].conversation && w'.turns[id].run == w.turns[id].run
    requires w'.profiles == w.profiles && w'.db == w.db && OtherRunsSame(w, w', w.turns[id].run)
    requires w'.locks == w.locks || w'.locks == w.locks - {w.turns[id].conversation}
    ensures Frame(w, w', id)
  {
  }

  /** A step that writes no more than the turn's own event, capture and lease. */
  lemma RunOnly(w: World, w': World, id: nat)
    requires id in w.turns && id in w'.turns && w'.turns == w.turns[id := w'.turns[id]]
    requires w'.turns[id].conversation == w.turns[id].conversation && w'.turns[id].run == w.turns[id].run
    requires w'.profiles == w.profiles && w'.db == w.db && w'.ledger == w.ledger && w'.locks == w.locks && ShapesInv(w)
    requires var run := w.turns[id].run;
             && (w'.events == w.events || (run in w'.events && w'.events == w.events[run := w'.events[run]]))
             && (w'.vault == w.vault || (run in w'.vault && w'.vault == w.vault[run := w'.vault[run]]))
             && w'.leases in {w.leases, w.leases + {run}}
    ensures Frame(w, w', id) && ShapesInv(w')
  {
    hide Frame, Shaped, ShapesInv;
    QuietFrame(w, w', id);
    ShapesSame(w, w');
  }

  /** A turn that stops where it stands. */
  lemma StopIsSafe(w: World, id: nat, result: Result)
    requires Inv(w) && id in w.turns && !w.turns[id].phase.Ended? && ResultRight(w, w.turns[id], result)
    requires w.turns[id].passed || BeforeCheck(Ended(result))
    ensures Safe(w, Stop(w, id, result), id)
  {
    hide Inv, TurnsInv, S.Inv, A.Inv, Shaped, ShapesInv, Consistent, PhaseInv, OverLimit, Frame, Pinned;
    var w' := Stop(w, id, result);
    TurnFacts(w, id);
    PhaseIsConsistent(w, w.turns[id]);
    QuietFrame(w, w', id);
    ShapesSame(w, w');
    EndIsRight(w, w', w.turns[id], result);
  }

  lemma EndIsRight(w: World, w': World, t: Turn, result: Result)
    requires Consistent(w, t.conversation, t.run) && ResultRight(w, t, result)
    requires w'.db == w.db && w'.events == w.events && w'.ledger == w.ledger && w'.vault == w.vault && w'.profiles == w.profiles
    ensures PhaseInv(w', t.(phase := Ended(result))) && PhaseInv(w', t.(phase := Releasing(result)))
  {
    hide Answers;
  }

  lemma ShapesSame(w: World, w': World)
    requires ShapesInv(w) && w'.db == w.db
    ensures ShapesInv(w')
  {
    hide Shaped;
  }

  /** An exception while the lease is held. */
  lemma RaiseIsSafe(w: World, id: nat)
    requires Inv(w) && id in w.turns && !w.turns[id].phase.Ended? && w.turns[id].passed
    ensures Safe(w, To(w, id, Releasing(Raised)), id)
  {
    hide Inv, TurnsInv, S.Inv, A.Inv, Shaped, ShapesInv, Consistent, PhaseInv, OverLimit, Frame, Pinned;
    var w' := To(w, id, Releasing(Raised));
    TurnFacts(w, id);
    PhaseIsConsistent(w, w.turns[id]);
    QuietFrame(w, w', id);
    ShapesSame(w, w');
    EndIsRight(w, w', w.turns[id], Raised);
  }

  lemma LoadIsSafe(w: World, id: nat)
    requires Inv(w) && id in w.turns && w.turns[id].phase.Loading?
    ensures Safe(w, Load(w, id), id)
  {
    hide Inv, TurnsInv, S.Inv, A.Inv, Shaped, ShapesInv, Frame, LimitsOf, Unsent;
    var w' := Load(w, id);
    TurnFacts(w, id);
    if LimitsOf(w, w.turns[id].conversation).None? {
      StopIsSafe(w, id, Raised);
    } else {
      QuietFrame(w, w', id);
      ShapesSame(w, w');
      SameLimits(w, w', w.turns[id].conversation);
      UnsentSame(w, w', w.turns[id].run);
    }
  }

  /** A conversation is over its limit when its bytes, four to a token and rounded up, leave too little of the hard limit for the
      output: the limits are those of its own token policy or else of its profile version, and the budget warns only. */
  lemma OverLimitMeans(w: World, c: string)
    requires c in w.db.conversations && LimitsOf(w, c).Some?
    ensures var spec := SpecOf(w, c);
            var profile := P.Lookup(w.profiles, spec.profileName, spec.profileVersion);
            && profile.Some?
            && LimitsOf(w, c).value.softBudget == (if profile.value.hardCap then None else profile.value.softBudget)
            && (spec.policy.Some? ==>
                  (OverLimit(w, c) <==> ByteCount(SentOf(w, c, spec)) > 4 * (spec.policy.value.hard - spec.policy.value.output)))
            && (spec.policy.None? ==>
                  (OverLimit(w, c) <==> ByteCount(SentOf(w, c, spec)) > 4 * (profile.value.hard - profile.value.maxOutput)))
  {
    hide P.Lookup, SentOf, ByteCount;
  }

  lemma SameLimits(w: World, w': World, c: string)
    requires w'.db == w.db && w'.profiles == w.profiles
    ensures LimitsOf(w', c) == LimitsOf(w, c) && (LimitsOf(w, c).Some? ==> c in w.db.conversations)
  {
    hide P.Lookup;
  }

  lemma UnsentSame(w: World, w': World, run: string)
    requires w'.db == w.db && Unsent(w, run)
    ensures Unsent(w', run)
  {
    assert forall c :: Msgs(w', c) == Msgs(w, c);
  }

  lemma CheckIsSafe(w: World, id: nat)
    requires Inv(w) && id in w.turns && w.turns[id].phase.Checking?
    ensures Safe(w, Check(w, id), id)
    ensures Check(w, id).turns[id].phase == if OverLimit(w, w.turns[id].conversation) then Refusing(ContextLimit) else Admitting
  {
    hide Inv, TurnsInv, OtherRunsSame, S.Inv, A.Inv, Shaped, ShapesInv, Frame, LimitsOf, Unsent, ByteCount;
    hide SentOf, Msgs, MessagesGrow, AtEnd, DirectRun, Estimate;
    var w', t := Check(w, id), w.turns[id];
    TurnFacts(w, id);
    RunOnly(w, w', id);
    SameView(w, w', t, w'.turns[id]);
  }

  lemma SameView(w: World, w': World, t: Turn, t': Turn)
    requires w'.db == w.db && w'.profiles == w.profiles && t'.conversation == t.conversation && t'.run == t.run && t'.spec == t.spec
    ensures LimitsOf(w', t.conversation) == LimitsOf(w, t.conversation) && AtEnd(w', t') == AtEnd(w, t)
    ensures DirectRun(w', t') == DirectRun(w, t) && SentOf(w', t.conversation, t.spec) == SentOf(w, t.conversation, t.spec)
  {
    hide P.Lookup, Copies;
  }

  lemma AdmitIsSafe(w: World, id: nat, env: Env)
    requires Inv(w) && id in w.turns && w.turns[id].phase.Admitting?
    ensures Safe(w, Admit(w, id, env), id)
  {
    hide Inv, TurnsInv, OtherRunsSame, S.Inv, A.Inv, Shaped, ShapesInv, Frame, LimitsOf, Unsent, SentOf;
    hide OverLimit, Pinned, Msgs;
    var w', t := Admit(w, id, env), w.turns[id];
    TurnFacts(w, id);
    RunOnly(w, w', id);
    SameSending(w, w', t, w'.turns[id]);
  }

  /** Steps that leave the conversation store alone keep what the turn sends. */
  lemma SameSending(w: World, w': World, t: Turn, t': Turn)
    requires w'.db == w.db && w'.profiles == w.profiles && t' == t.(phase := t'.phase)
    ensures Sending(w', t') == Sending(w, t) && Pinned(w', t') == Pinned(w, t)
    ensures OverLimit(w', t.conversation) == OverLimit(w, t.conversation)
  {
    hide P.Lookup, Copies;
    assert forall spec :: SentOf(w', t.conversation, spec) == SentOf(w, t.conversation, spec);
    assert LimitsOf(w', t.conversation) == LimitsOf(w, t.conversation);
  }

  lemma OpenIsSafe(w: World, id: nat, eventId: string, acceptable: bool)
    requires Inv(w) && id in w.turns && w.turns[id].phase.Opening?
    ensures Safe(w, OpenEvent(w, id, eventId, acceptable), id)
  {
    hide Inv, Safe;
    OpeningPasses(w, id);
    if w.turns[id].run in w.events || eventId in w.eventIds || !acceptable { RaiseIsSafe(w, id); } else { OpenSucceeds(w, id, eventId); }
  }

  lemma OpeningPasses(w: World, id: nat)
    requires Inv(w) && id in w.turns && w.turns[id].phase.Opening?
    ensures w.turns[id].passed
  {
    hide Inv, TurnsInv, PhaseInv, Pinned, S.Inv, A.Inv, ShapesInv;
    TurnFacts(w, id);
  }

  lemma OpenSucceeds(w: World, id: nat, eventId: string)
    requires Inv(w) && id in w.turns && w.turns[id].phase.Opening? && w.turns[id].run !in w.events && eventId !in w.eventIds
    ensures Safe(w, OpenEvent(w, id, eventId, true), id)
  {
    hide Inv, TurnsInv, OtherRunsSame, S.Inv, A.Inv, Shaped, ShapesInv, Frame, LimitsOf, Unsent, SentOf;
    hide OverLimit, Sending, Pinned, Msgs, Prefix, MessagesGrow;
    var w', t := OpenEvent(w, id, eventId, true), w.turns[id];
    TurnFacts(w, id);
    RunOnly(w, w', id);
    SameSending(w, w', t, w'.turns[id]);
  }

  lemma CallIsSafe(w: World, id: nat, reply: Reply)
    requires Inv(w) && id in w.turns && w.turns[id].phase.Calling?
    ensures Safe(w, To(w, id, Capturing(Answered(w.turns[id], reply))), id)
  {
    hide Inv, TurnsInv, OtherRunsSame, S.Inv, A.Inv, Shaped, ShapesInv, Frame, LimitsOf, Unsent, SentOf;
    hide OverLimit, ValidMessages, Strip, Sending, Pinned, Msgs, Prefix, MessagesGrow;
    var w', t := To(w, id, Capturing(Answered(w.turns[id], reply))), w.turns[id];
    TurnFacts(w, id);
    RunOnly(w, w', id);
    SameSending(w, w', t, w'.turns[id]);
  }

  lemma CaptureIsSafe(w: World, id: nat, reply: Reply)
    requires Inv(w) && id in w.turns && w.turns[id].phase == Capturing(reply)
    ensures Safe(w, Capture(w, id, reply), id) && Capture(w, id, reply).turns[id].phase == Observing(reply)
  {
    hide Inv, Safe, PhaseInv;
    NotCaptured(w, id);
    if reply.answer.Some? {
      var t := w.turns[id];
      var kept := Kept(t.spec.provider, reply.answer.value, TurnDigest(t.conversation, t.run, t.spec.snapshot));
      CaptureStep(w, To(w.(vault := w.vault[t.run := kept]), id, Observing(reply)), id, reply);
    } else {
      CaptureStep(w, To(w, id, Observing(reply)), id, reply);
    }
  }

  lemma NotCaptured(w: World, id: nat)
    requires Inv(w) && id in w.turns && w.turns[id].phase.Capturing?
    ensures w.turns[id].run !in w.vault
  {
    hide Inv, TurnsInv, S.Inv, A.Inv, ShapesInv, Sending, Pinned;
    TurnFacts(w, id);
  }

  lemma CaptureStep(w: World, w': World, id: nat, reply: Reply)
    requires Inv(w) && id in w.turns && w.turns[id].phase == Capturing(reply)
    requires w' == To(w, id, Observing(reply)).(vault := w'.vault) && VaultHas(w', w'.turns[id], reply.answer)
    requires var run := w.turns[id].run; w'.vault == w.vault || (run in w'.vault && w'.vault == w.vault[run := w'.vault[run]])
    ensures Safe(w, w', id)
  {
    hide Inv, TurnsInv, OtherRunsSame, S.Inv, A.Inv, Shaped, ShapesInv, Frame, LimitsOf, Unsent, SentOf;
    hide OverLimit, ValidMessages, Strip, VaultHas;
    hide Sending, Pinned, Msgs, Prefix, MessagesGrow;
    var t := w.turns[id];
    TurnFacts(w, id);
    RunOnly(w, w', id);
    SameSending(w, w', t, w'.turns[id]);
  }

  lemma CloseIsSafe(w: World, id: nat, reply: Reply, eventId: string, acceptable: bool)
    requires Inv(w) && id in w.turns && w.turns[id].phase == Closing(reply)
    ensures Safe(w, CloseEvent(w, id, reply, eventId, acceptable), id)
    ensures eventId !in w.eventIds && acceptable ==> CloseEvent(w, id, reply, eventId, acceptable).turns[id].phase.Settling?
  {
    hide Inv, Safe, Strip;
    ClosingFacts(w, id, reply);
    StateIsPlain(reply);
    if eventId in w.eventIds || !acceptable { RaiseIsSafe(w, id); } else { CloseSucceeds(w, id, reply, eventId); }
  }

  lemma StateIsPlain(reply: Reply)
    ensures Strip(StateText(reply)) == StateText(reply) != ""
  {
    hide Strip;
    StripFixed(StateText(reply));
  }

  lemma ClosingFacts(w: World, id: nat, reply: Reply)
    requires Inv(w) && id in w.turns && w.turns[id].phase == Closing(reply)
    ensures w.turns[id].passed && IsOpen(w, w.turns[id].run)
  {
    hide Pinned, Sending, S.Inv, A.Inv, ShapesInv;
    assert Tracked(w, id);
  }

  lemma CloseSucceeds(w: World, id: nat, reply: Reply, eventId: string)
    requires Inv(w) && id in w.turns && w.turns[id].phase == Closing(reply) && eventId !in w.eventIds
    ensures Safe(w, CloseEvent(w, id, reply, eventId, true), id)
  {
    hide Inv, TurnsInv, OtherRunsSame, S.Inv, A.Inv, Shaped, ShapesInv, Frame, LimitsOf, Unsent, SentOf;
    hide OverLimit, ValidMessages, Strip;
    hide Sending, Pinned, Msgs, Prefix, MessagesGrow, A.Recorded, A.BillingOf, DispatchedBy, Warned, VaultHas;
    SameLedger(w, CloseEvent(w, id, reply, eventId, true), w.turns[id], CloseEvent(w, id, reply, eventId, true).turns[id]);
    var w', t := CloseEvent(w, id, reply, eventId, true), w.turns[id];
    TurnFacts(w, id);
    StateIsPlain(reply);
    RunOnly(w, w', id);
    SameSending(w, w', t, w'.turns[id]);
  }

  lemma SameLedger(w: World, w': World, t: Turn, t': Turn)
    requires w'.ledger == w.ledger && w'.vault == w.vault && t' == t.(phase := t'.phase)
    ensures DispatchedBy(w', t') == DispatchedBy(w, t)
    ensures forall e :: Warned(w', t', e) == Warned(w, t, e)
    ensures forall answer :: VaultHas(w', t', answer) == VaultHas(w, t, answer)
  {
    hide Strip;
  }

  lemma ReleaseIsSafe(w: World, id: nat, result: Result)
    requires Inv(w) && id in w.turns && w.turns[id].phase == Releasing(result)
    ensures Safe(w, Release(w, id, result), id)
  {
    hide Inv, TurnsInv, S.Inv, A.Inv, Shaped, ShapesInv, Frame, Consistent, OverLimit, PhaseInv, Pinned;
    hide MessagesGrow, ResultRight;
    var w', t := Release(w, id, result), w.turns[id];
    TurnFacts(w, id);
    ReleasingMeans(w, t, result);
    QuietFrame(w, w', id);
    ShapesSame(w, w');
    EndIsRight(w, w', t, result);
  }

  lemma ReleasingMeans(w: World, t: Turn, result: Result)
    requires PhaseInv(w, t) && t.phase == Releasing(result)
    ensures Consistent(w, t.conversation, t.run) && ResultRight(w, t, result)
  {
  }

  // ----- steps on the accounting ledger

  lemma LedgerFrame(w: World, w': World, id: nat, call: A.Call)
    requires Inv(w) && id in w.turns && id in w'.turns && call.run == w.turns[id].run
    requires w'.turns == w.turns[id := w'.turns[id]]
    requires w'.turns[id].conversation == w.turns[id].conversation && w'.turns[id].run == w.turns[id].run
    requires w' == w.(ledger := A.Apply(w.ledger, call).0, turns := w'.turns)
    ensures Frame(w, w', id) && A.Inv(w'.ledger) && ShapesInv(w')
  {
    hide S.Inv, A.Inv, Shaped, ShapesInv, TurnsInv, A.Apply, Frame;
    A.OnlyItsRun(w.ledger, call);
    A.CallKeepsInv(w.ledger, call);
    ShapesSame(w, w');
    QuietFrame(w, w', id);
  }

  lemma DispatchIsSafe(w: World, id: nat, now: int)
    requires Inv(w) && id in w.turns && w.turns[id].phase.Dispatching?
    ensures Safe(w, RecordDispatch(w, id, now), id)
  {
    hide Inv, TurnsInv, S.Inv, A.Inv, Shaped, ShapesInv, Frame, LimitsOf, Unsent, SentOf, OverLimit;
    hide ValidMessages, Strip, A.Apply, A.ValidDispatch, Sending, Pinned, Msgs, Prefix, MessagesGrow;
    var w', t := RecordDispatch(w, id, now), w.turns[id];
    TurnFacts(w, id);
    var d := DispatchOf(t.spec, t.origin);
    A.DispatchOpensRow(w.ledger, t.run, d, now);
    if A.ValidDispatch(d) {
      LedgerFrame(w, w', id, A.RecordDispatch(t.run, d, false, now));
      SameSending(w, w', t, w'.turns[id]);
    } else {
      RaiseIsSafe(w, id);
    }
  }

  lemma ObserveIsSafe(w: World, id: nat, reply: Reply)
    requires Inv(w) && id in w.turns && w.turns[id].phase == Observing(reply)
    ensures Safe(w, Observe(w, id, reply), id) && Observe(w, id, reply).turns[id].phase == Warning(reply)
  {
    hide Inv, TurnsInv, S.Inv, A.Inv, Shaped, ShapesInv, Frame, LimitsOf, Unsent, SentOf, OverLimit;
    hide ValidMessages, Strip, A.Apply, A.Recorded, A.BillingOf, Sending, Pinned, Msgs, Prefix, MessagesGrow;
    var w', t := Observe(w, id, reply), w.turns[id];
    TurnFacts(w, id);
    var o := A.Observation.Observation(Strip(t.spec.provider), reply.evidence);
    A.ObservationFillsRow(w.ledger, t.run, o);
    LedgerFrame(w, w', id, A.RecordObservation(t.run, o));
    SameSending(w, w', t, w'.turns[id]);
  }

  lemma WarnIsSafe(w: World, id: nat, reply: Reply)
    requires Inv(w) && id in w.turns && w.turns[id].phase == Warning(reply)
    ensures Safe(w, Warn(w, id, reply), id) && Warn(w, id, reply).turns[id].phase == Terminating(reply)
  {
    hide Inv, Safe, OverBudget, A.Apply;
    if OverBudget(w.turns[id].limits, reply.evidence) {
      MarkIsSafe(w, id, reply);
    } else {
      NoWarningIsSafe(w, id, reply);
    }
  }

  lemma NoWarningIsSafe(w: World, id: nat, reply: Reply)
    requires Inv(w) && id in w.turns && w.turns[id].phase == Warning(reply) && !OverBudget(w.turns[id].limits, reply.evidence)
    ensures Safe(w, To(w, id, Terminating(reply)), id)
  {
    hide Inv, TurnsInv, OtherRunsSame, S.Inv, A.Inv, Shaped, ShapesInv, Frame, LimitsOf, Unsent, SentOf;
    hide OverLimit, ValidMessages, Strip, A.Recorded, A.BillingOf;
    hide Sending, Pinned, Msgs, MessagesGrow;
    var w', t := To(w, id, Terminating(reply)), w.turns[id];
    TurnFacts(w, id);
    RunOnly(w, w', id);
    SameSending(w, w', t, w'.turns[id]);
  }

  lemma MarkIsSafe(w: World, id: nat, reply: Reply)
    requires Inv(w) && id in w.turns && w.turns[id].phase == Warning(reply) && OverBudget(w.turns[id].limits, reply.evidence)
    ensures A.Apply(w.ledger, A.MarkSoftWarning(w.turns[id].run)).1 == A.Done
    ensures Safe(w, To(w.(ledger := A.Apply(w.ledger, A.MarkSoftWarning(w.turns[id].run)).0), id, Terminating(reply)), id)
  {
    hide Inv, TurnsInv, S.Inv, A.Inv, Shaped, ShapesInv, Frame, LimitsOf, Unsent, SentOf, OverLimit;
    hide ValidMessages, Strip, A.Apply, A.Recorded, A.BillingOf;
    hide Sending, Pinned, Msgs, MessagesGrow;
    var t := w.turns[id];
    var w' := To(w.(ledger := A.Apply(w.ledger, A.MarkSoftWarning(t.run)).0), id, Terminating(reply));
    TurnFacts(w, id);
    A.WarningMarksRow(w.ledger, t.run);
    LedgerFrame(w, w', id, A.MarkSoftWarning(t.run));
    SameSending(w, w', t, w'.turns[id]);
  }

  lemma TerminateIsSafe(w: World, id: nat, reply: Reply, now: int, outboxId: string)
    requires Inv(w) && id in w.turns && w.turns[id].phase == Terminating(reply)
    ensures Safe(w, Terminate(w, id, reply, now, outboxId), id)
    ensures outboxId !in w.ledger.outbox ==> Terminate(w, id, reply, now, outboxId).turns[id].phase == Closing(reply)
  {
    hide Inv, TurnsInv, S.Inv, A.Inv, Shaped, ShapesInv, Frame, LimitsOf, Unsent, SentOf, OverLimit;
    hide ValidMessages, Strip, A.Apply, A.Recorded, A.BillingOf, Sending, Pinned, Msgs, Prefix, MessagesGrow;
    var w', t := Terminate(w, id, reply, now, outboxId), w.turns[id];
    TurnFacts(w, id);
    A.TerminalClosesRow(w.ledger, t.run, StatusOf(reply), reply.evidence, now, outboxId);
    if outboxId in w.ledger.outbox {
      RaiseIsSafe(w, id);
    } else {
      LedgerFrame(w, w', id, A.RecordTerminal(t.run, StatusOf(reply), A.BillingOf(reply.evidence), None, None, now, outboxId));
      SameSending(w, w', t, w'.turns[id]);
    }
  }

  // ----- steps on the conversation store

  /** A step that writes the turn's own run row, and no message. */
  lemma RowFrame(w: World, w': World, id: nat)
    requires id in w.turns && id in w'.turns && w'.turns == w.turns[id := w'.turns[id]]
    requires w'.turns[id].conversation == w.turns[id].conversation && w'.turns[id].run == w.turns[id].run
    requires w' == w.(db := w'.db, turns := w'.turns, locks := w'.locks) && ShapesInv(w)
    requires w'.locks == w.locks || w'.locks == w.locks - {w.turns[id].conversation}
    requires w'.db.conversations == w.db.conversations
    requires w.turns[id].run in w'.db.runs && w'.db.runs == w.db.runs[w.turns[id].run := w'.db.runs[w.turns[id].run]]
    ensures Frame(w, w', id) && ShapesInv(w') && (forall c :: Msgs(w', c) == Msgs(w, c))
  {
    hide Shaped;
    assert forall c :: Msgs(w', c) == Msgs(w, c);
  }

  lemma StartIsSafe(w: World, id: nat, ordinal: nat)
    requires Inv(w) && id in w.turns && w.turns[id].phase == Starting(ordinal)
    ensures Safe(w, Start(w, id, ordinal), id) && Start(w, id, ordinal).turns[id].phase.Checking?
  {
    hide Inv, TurnsInv, S.Inv, A.Inv, ShapesInv, Safe, SentOf, OverLimit, LimitsOf, S.StartRunAt, ReplyRight;
    hide BeforeCheck;
    var t := w.turns[id];
    TurnFacts(w, id);
    StartWorks(w, t, ordinal);
    S.StartRunKeepsInv(w.db, t.run, t.conversation, ordinal);
    var row := S.RunRow(t.conversation, ordinal, S.Created, None, None);
    RowLands(w, To(w.(db := w.db.(runs := w.db.runs[t.run := row])), id, Checking), id);
  }

  /** The turn's run row is there and it goes on to the context check. */
  lemma RowLands(w: World, w': World, id: nat)
    requires Inv(w) && id in w.turns && w.turns[id].phase.Starting? && w.turns[id].run in w'.db.runs && S.Inv(w'.db)
    requires w' == To(w.(db := w'.db), id, Checking)
    requires w'.db == w.db.(runs := w.db.runs[w.turns[id].run := w'.db.runs[w.turns[id].run]])
    requires var row := w'.db.runs[w.turns[id].run]; row.conversation == w.turns[id].conversation && row.state == S.Created
    ensures Safe(w, w', id)
  {
    hide Inv, TurnsInv, S.Inv, A.Inv, Shaped, ShapesInv, Frame, Unsent, SentOf, OverLimit, LimitsOf, AtEnd, Msgs;
    TurnFacts(w, id);
    RowFrame(w, w', id);
    LimitsAgain(w, w', w.turns[id].conversation);
    AtEndAgain(w, w', w.turns[id], w'.turns[id]);
  }

  lemma AtEndAgain(w: World, w': World, t: Turn, t': Turn)
    requires w'.db.conversations == w.db.conversations && t'.conversation == t.conversation && t'.run == t.run
    ensures AtEnd(w', t') == AtEnd(w, t)
  {
  }

  lemma StartWorks(w: World, t: Turn, ordinal: nat)
    requires S.Inv(w.db) && t.run !in w.db.runs && AtEnd(w, t) && ordinal == |Msgs(w, t.conversation)|
    requires t.conversation in w.db.conversations
    ensures S.StartRunAt(w.db, t.run, t.conversation, ordinal)
         == (w.db.(runs := w.db.runs[t.run := S.RunRow(t.conversation, ordinal, S.Created, None, None)]), S.Done)
  {
    hide S.MessageAt, S.RunInv;
    assert S.ConversationInv(w.db, t.conversation, w.db.conversations[t.conversation]);
    S.NumberedAt(Msgs(w, t.conversation), ordinal, 0);
  }

  lemma LimitsAgain(w: World, w': World, c: string)
    requires w'.profiles == w.profiles && w'.db.conversations == w.db.conversations
    ensures LimitsOf(w', c) == LimitsOf(w, c)
    ensures OverLimit(w', c) == OverLimit(w, c)
    ensures forall spec :: SentOf(w', c, spec) == SentOf(w, c, spec)
  {
    hide P.Lookup, Copies, ByteCount;
    assert forall spec :: SentOf(w', c, spec) == SentOf(w, c, spec);
  }

  lemma RefuseIsSafe(w: World, id: nat, why: Why)
    requires Inv(w) && id in w.turns && w.turns[id].phase == Refusing(why)
    ensures Safe(w, Refuse(w, id, why), id)
    ensures Refuse(w, id, why).turns[id].phase in {Ended(Refused(why)), Ended(Raised)}
  {
    hide Inv, Safe, S.Inv, S.FailRunAt, WhyText;
    var t := w.turns[id];
    var (db, reply) := S.FailRunAt(w.db, t.run, S.RefusedBeforeNetwork, WhyText(why));
    FailWrites(w.db, t.run, S.RefusedBeforeNetwork, WhyText(why));
    RefusingFacts(w, id, why);
    if reply.Done? {
      S.FailRunKeepsInv(w.db, t.run, S.RefusedBeforeNetwork, WhyText(why));
      RefusalLands(w, Stop(w.(db := db), id, Refused(why)), id, why);
    } else {
      StopIsSafe(w, id, Raised);
    }
  }

  lemma RefusingFacts(w: World, id: nat, why: Why)
    requires Inv(w) && id in w.turns && w.turns[id].phase == Refusing(why)
    ensures S.Inv(w.db) && (w.turns[id].passed || BeforeCheck(Ended(Raised)))
  {
    hide S.Inv;
  }

  lemma RefusalLands(w: World, w': World, id: nat, why: Why)
    requires Inv(w) && id in w.turns && w.turns[id].phase == Refusing(why) && w.turns[id].run in w'.db.runs && S.Inv(w'.db)
    requires w' == Stop(w.(db := w'.db), id, Refused(why))
    requires w'.db == w.db.(runs := w.db.runs[w.turns[id].run := w'.db.runs[w.turns[id].run]])
    requires w'.db.runs[w.turns[id].run].state == S.RefusedBeforeNetwork
    ensures Safe(w, w', id)
  {
    hide Inv, TurnsInv, S.Inv, A.Inv, Shaped, ShapesInv, Frame, Unsent, SentOf, OverLimit, LimitsOf, AtEnd;
    hide Msgs, Pinned;
    TurnFacts(w, id);
    RowFrame(w, w', id);
    LimitsAgain(w, w', w.turns[id].conversation);
  }

  /** A failed run keeps its conversation. */
  lemma FailWrites(db: S.Db, run: string, state: S.RunState, failure: string)
    ensures var (db', reply) := S.FailRunAt(db, run, state, failure);
            if reply.Done? then run in db.runs && run in db'.runs && db' == db.(runs := db.runs[run := db'.runs[run]])
                 && db'.runs[run].state == state && db'.runs[run].conversation == db.runs[run].conversation
            else db' == db
  {
    hide Strip;
  }

  lemma AppendIsSafe(w: World, id: nat)
    requires Inv(w) && id in w.turns && w.turns[id].phase.Appending?
    ensures Safe(w, Append(w, id), id)
  {
    hide Inv, TurnsInv, S.Inv, A.Inv, Shaped, ShapesInv, Frame, LimitsOf, SentOf, OverLimit, S.ValidContent;
    hide S.LastOrdinal, Unsent, S.AppendUserAt;
    var w', t := Append(w, id), w.turns[id];
    TurnFacts(w, id);
    var (db, reply) := S.AppendUserAt(w.db, t.conversation, t.content, t.run);
    UserWrites(w.db, t.conversation, t.content, t.run);
    if reply.Appended? {
      S.AppendUserKeepsInv(w.db, t.conversation, t.content, t.run);
      MessageFrame(w, w', id, reply.message);
      ShapedAt(w, t.conversation);
      UserShaped(Msgs(w, t.conversation), reply.message, w, t);
      ShapesGrow(w, w', t.conversation);
    } else {
      StopIsSafe(w, id, Raised);
    }
  }

  lemma UserWrites(db: S.Db, conversation: string, content: string, run: string)
    requires S.Inv(db)
    ensures var (db', reply) := S.AppendUserAt(db, conversation, content, run);
            if reply.Appended? then conversation in db.conversations && db' == S.With(db, conversation, reply.message)
                 && reply.message.role == S.User && reply.message.run == run
                 && reply.message.ordinal == |db.conversations[conversation].messages| + 1
            else db' == db
  {
    hide S.ValidContent, S.LastOrdinal, S.RunInv;
    if conversation in db.conversations {
      assert S.ConversationInv(db, conversation, db.conversations[conversation]);
      S.NumberedLast(db.conversations[conversation].messages);
    }
  }

  /** A step that appends one message of the turn to its conversation, and writes no other run's row. */
  lemma MessageFrame(w: World, w': World, id: nat, m: S.Message)
    requires id in w.turns && id in w'.turns && w'.turns == w.turns[id := w'.turns[id]]
    requires w'.turns[id].conversation == w.turns[id].conversation && w'.turns[id].run == w.turns[id].run
    requires w' == w.(db := w'.db, turns := w'.turns)
    requires w.turns[id].conversation in w.db.conversations && m.run == w.turns[id].run
    requires w'.db.conversations == S.With(w.db, w.turns[id].conversation, m).conversations
    requires forall r :: r != w.turns[id].run ==> (r in w.db.runs <==> r in w'.db.runs) && (r in w.db.runs ==> w'.db.runs[r] == w.db.runs[r])
    ensures Frame(w, w', id)
    ensures Msgs(w', w.turns[id].conversation) == Msgs(w, w.turns[id].conversation) + [m]
    ensures LimitsOf(w', w.turns[id].conversation) == LimitsOf(w, w.turns[id].conversation)
  {
    hide P.Lookup;
    assert forall c :: c != w.turns[id].conversation ==> Msgs(w', c) == Msgs(w, c);
  }

  lemma ShapesGrow(w: World, w': World, conversation: string)
    requires ShapesInv(w) && Shaped(Msgs(w', conversation))
    requires forall c :: c in w'.db.conversations ==> c in w.db.conversations
    requires forall c :: c != conversation ==> Msgs(w', c) == Msgs(w, c)
    ensures ShapesInv(w')
  {
    hide Shaped, Msgs;
  }

  lemma ShapedAt(w: World, c: string)
    requires ShapesInv(w) && c in w.db.conversations
    ensures Shaped(Msgs(w, c))
  {
    hide Shaped;
  }

  lemma UserShaped(ms: seq<S.Message>, m: S.Message, w: World, t: Turn)
    requires Shaped(ms) && ms == Msgs(w, t.conversation) && Unsent(w, t.run) && m.run == t.run && m.role == S.User
    requires t.conversation in w.db.conversations
    ensures Shaped(ms + [m])
  {
    assert forall i :: 0 <= i < |ms| ==> ms[i].run != m.run && (ms + [m])[i] == ms[i];
  }

  // ----- the last step

  /** What settles the run: the failure or the assistant message. */
  lemma SettleIsSafe(w: World, id: nat, reply: Reply)
    requires Inv(w) && id in w.turns && w.turns[id].phase == Settling(reply)
    ensures Safe(w, Settle(w, id, reply), id)
  {
    hide Inv, Safe, S.Inv, S.FailRunAt, S.AppendAssistantAt, Utf8.Decode, Utf8.Encode;
    var t := w.turns[id];
    SettlingFacts(w, id, reply);
    if reply.error.Some? {
      var (db, done) := S.FailRunAt(w.db, t.run, S.FailedAfterDispatch, reply.error.value);
      FailWrites(w.db, t.run, S.FailedAfterDispatch, reply.error.value);
      if done.Done? {
        S.FailRunKeepsInv(w.db, t.run, S.FailedAfterDispatch, reply.error.value);
        FailureLands(w, To(w.(db := db), id, Releasing(FailedAfter(reply.error.value))), id, reply);
      } else {
        RaiseIsSafe(w, id);
      }
    } else if reply.answer.None? || Utf8.Decode(reply.answer.value).None? {
      RaiseIsSafe(w, id);
    } else {
      var text := Utf8.Decode(reply.answer.value).value;
      var (db, done) := S.AppendAssistantAt(w.db, t.conversation, t.run, text, t.estimate);
      AssistantWrites(w.db, t.conversation, t.run, text, t.estimate);
      if done.Appended? {
        S.AppendAssistantKeepsInv(w.db, t.conversation, t.run, text, t.estimate);
        AnswerLands(w, To(w.(db := db), id, Releasing(Completed)), id, reply, done.message);
      } else {
        RaiseIsSafe(w, id);
      }
    }
  }

  lemma SettlingFacts(w: World, id: nat, reply: Reply)
    requires Inv(w) && id in w.turns && w.turns[id].phase == Settling(reply)
    ensures S.Inv(w.db) && w.turns[id].passed
  {
    hide PhaseInv, Pinned, S.Inv, A.Inv, ShapesInv;
    assert Tracked(w, id);
  }

  lemma FailureLands(w: World, w': World, id: nat, reply: Reply)
    requires Inv(w) && id in w.turns && w.turns[id].phase == Settling(reply) && w.turns[id].run in w'.db.runs && S.Inv(w'.db)
    requires reply.error.Some? && w' == To(w.(db := w'.db), id, Releasing(FailedAfter(reply.error.value)))
    requires w'.db == w.db.(runs := w.db.runs[w.turns[id].run := w'.db.runs[w.turns[id].run]])
    requires w'.db.runs[w.turns[id].run].state == S.FailedAfterDispatch
    ensures Safe(w, w', id)
  {
    hide Inv, TurnsInv, S.Inv, A.Inv, Shaped, ShapesInv, Frame, Unsent, SentOf, OverLimit, LimitsOf, AtEnd;
    hide Msgs, Pinned;
    TurnFacts(w, id);
    RowFrame(w, w', id);
  }

  lemma AssistantWrites(db: S.Db, conversation: string, run: string, content: string, estimate: nat)
    ensures var (db', reply) := S.AppendAssistantAt(db, conversation, run, content, estimate);
            if reply.Appended? then conversation in db.conversations && run in db.runs && run in db'.runs
                 && db'.conversations == S.With(db, conversation, reply.message).conversations
                 && db'.runs == db.runs[run := db'.runs[run]] && db'.runs[run].state == S.Completed
                 && reply.message.role == S.Assistant && reply.message.run == run && reply.message.content == content
            else db' == db
  {
    hide S.ValidContent, S.LastOrdinal;
  }

  lemma AnswerLands(w: World, w': World, id: nat, reply: Reply, m: S.Message)
    requires Inv(w) && id in w.turns && w.turns[id].phase == Settling(reply) && S.Inv(w'.db)
    requires reply.error.None? && reply.answer.Some? && Utf8.Encode(m.content) == reply.answer.value
    requires w' == To(w.(db := w'.db), id, Releasing(Completed))
    requires w.turns[id].conversation in w.db.conversations && w.turns[id].run in w'.db.runs
    requires w'.db.conversations == S.With(w.db, w.turns[id].conversation, m).conversations
    requires w'.db.runs == w.db.runs[w.turns[id].run := w'.db.runs[w.turns[id].run]]
    requires w'.db.runs[w.turns[id].run].state == S.Completed && m.role == S.Assistant && m.run == w.turns[id].run
    ensures Safe(w, w', id)
  {
    hide Inv, TurnsInv, S.Inv, A.Inv, Shaped, ShapesInv, Frame, Unsent, SentOf, OverLimit, LimitsOf;
    hide Utf8.Encode, Pinned, ValidMessages;
    var t := w.turns[id];
    TurnFacts(w, id);
    MessageFrame(w, w', id, m);
    AnswerShaped(w, t, m);
    ShapesGrow(w, w', t.conversation);
    NowAnswered(Msgs(w, t.conversation), m, reply.answer.value);
  }

  lemma NowAnswered(ms: seq<S.Message>, m: S.Message, data: Bytes)
    requires m.role == S.Assistant && Utf8.Encode(m.content) == data
    ensures Answers(ms + [m], m.run, data)
  {
    hide Utf8.Encode;
    assert (ms + [m])[|ms|] == m;
  }

  /** A history that passed the role check ends with an unanswered user message after a strict alternation. */
  lemma AnswerShaped(w: World, t: Turn, m: S.Message)
    requires ShapesInv(w) && t.conversation in w.db.conversations && Sending(w, t) && ValidMessages(t.sent)
    requires m.role == S.Assistant && m.run == t.run
    ensures Shaped(Msgs(w, t.conversation) + [m])
  {
    hide Shaped, ValidMessages, Body, SentOf, Msgs, DirectRun;
    var ms := Msgs(w, t.conversation);
    assert Shaped(ms);
    BodyIsHistory(w, t);
    RolesAlternate(t.sent, ms);
    AlternationExtends(ms, m);
  }

  lemma RolesAlternate(sent: seq<Sent>, ms: seq<S.Message>)
    requires Body(sent) == Copies(ms)
    ensures ValidMessages(sent) <==>
              |ms| % 2 == 1 && forall i :: 0 <= i < |ms| ==> ms[i].role == if i % 2 == 0 then S.User else S.Assistant
  {
    hide Body;
    assert forall i :: 0 <= i < |ms| ==> Copies(ms)[i].role == ms[i].role;
  }

  /** The role check looks at the stored history: the system prompt comes first and no stored message has that role. */
  lemma BodyIsHistory(w: World, t: Turn)
    requires Shaped(Msgs(w, t.conversation)) && t.sent == SentOf(w, t.conversation, t.spec)
    ensures Body(t.sent) == Copies(Msgs(w, t.conversation))
  {
    var c := Copies(Msgs(w, t.conversation));
    assert c != [] ==> c[0].role != S.System;
    if t.spec.system != "" {
      assert t.sent[1..] == c;
    } else {
      assert t.sent == c;
    }
  }

  lemma AlternationExtends(ms: seq<S.Message>, m: S.Message)
    requires Shaped(ms) && m.role == S.Assistant && |ms| % 2 == 1 && ms[|ms| - 1].run == m.run
    requires forall i :: 0 <= i < |ms| ==> ms[i].role == if i % 2 == 0 then S.User else S.Assistant
    ensures Shaped(ms + [m])
  {
    assert forall i :: 0 <= i < |ms| ==> (ms + [m])[i] == ms[i];
  }
}

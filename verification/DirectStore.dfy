/** The Direct conversation store (direct_store.py): conversations, their numbered messages and their runs, one transaction
    a call. */
module DirectStore {
  import opened Text

  datatype Role = System | User | Assistant

  datatype Message = Message(ordinal: nat, role: Role, content: string, run: string)

  /** The token limits a conversation may be pinned to. */
  datatype TokenPolicy = TokenPolicy(output: nat, warning: nat, hard: nat)

  /** What a conversation is created with and keeps. */
  datatype Spec = Spec(provider: string, model: string, system: string, profileName: string, profileVersion: nat,
                       policy: Option<TokenPolicy>, snapshot: string)

  datatype Conversation = Conversation(spec: Spec, archived: bool, messages: seq<Message>)

  datatype RunState = Created | Completed | RefusedBeforeNetwork | FailedAfterDispatch | Unsettled

  datatype RunRow = RunRow(conversation: string, userOrdinal: nat, state: RunState, failure: Option<string>, estimate: Option<nat>)

  /** `conversations` with their `messages`, and `direct_runs`. */
  datatype Db = Db(conversations: map<string, Conversation>, runs: map<string, RunRow>)

  datatype Reply = Done | Appended(message: Message) | Conflict | ValueError

  datatype Call =
    | Create(conversation: string, spec: Spec)
    | SetArchived(conversation: string, archived: bool)
    | AppendUser(conversation: string, content: string, run: string)
    | StartRun(run: string, conversation: string, userOrdinal: nat)
    | AppendAssistant(conversation: string, run: string, content: string, estimate: nat)
    | FailRun(run: string, state: RunState, failure: string)
    | DeletePermanently(conversation: string, confirmation: string)

  const MAX_CONTENT := 1_048_576

  predicate ValidContent(content: string) { |content| <= MAX_CONTENT && Strip(content) != "" }

  /** MAX(ordinal), 0 when there is no message. */
  function LastOrdinal(messages: seq<Message>): nat {
    if messages == [] then 0
    else
      var before := LastOrdinal(messages[..|messages| - 1]);
      if messages[|messages| - 1].ordinal > before then messages[|messages| - 1].ordinal else before
  }

  function With(db: Db, conversation: string, message: Message): Db
    requires conversation in db.conversations
  {
    var c := db.conversations[conversation];
    db.(conversations := db.conversations[conversation := c.(messages := c.messages + [message])])
  }

  function AppendUserAt(db: Db, conversation: string, content: string, run: string): (Db, Reply) {
    if !ValidContent(content) then (db, ValueError)
    else if conversation !in db.conversations || db.conversations[conversation].archived then (db, Conflict)
    else
      var m := Message(LastOrdinal(db.conversations[conversation].messages) + 1, User, content, run);
      (With(db, conversation, m), Appended(m))
  }

  /** The message with an ordinal, if there is one. */
  function MessageAt(messages: seq<Message>, ordinal: nat): Option<Message> {
    if messages == [] then None else if messages[0].ordinal == ordinal then Some(messages[0]) else MessageAt(messages[1..], ordinal)
  }

  function StartRunAt(db: Db, run: string, conversation: string, userOrdinal: nat): (Db, Reply) {
    if userOrdinal < 1 then (db, ValueError)
    else if conversation !in db.conversations then (db, Conflict)
    else
      var m := MessageAt(db.conversations[conversation].messages, userOrdinal);
      if m.None? || m.value.role != User || m.value.run != run || run in db.runs then (db, Conflict)
      else (db.(runs := db.runs[run := RunRow(conversation, userOrdinal, Created, None, None)]), Done)
  }

  function AppendAssistantAt(db: Db, conversation: string, run: string, content: string, estimate: nat): (Db, Reply) {
    if !ValidContent(content) then (db, ValueError)
    else if run !in db.runs || db.runs[run].conversation != conversation || db.runs[run].state != Created
            || conversation !in db.conversations then (db, Conflict)
    else
      var m := Message(LastOrdinal(db.conversations[conversation].messages) + 1, Assistant, content, run);
      (With(db, conversation, m).(runs := db.runs[run := db.runs[run].(state := Completed, estimate := Some(estimate))]), Appended(m))
  }

  function FailRunAt(db: Db, run: string, state: RunState, failure: string): (Db, Reply) {
    if state !in {RefusedBeforeNetwork, FailedAfterDispatch, Unsettled} || !(1 <= |Strip(failure)| && |failure| <= 128) then (db, ValueError)
    else if run !in db.runs || db.runs[run].state != Created then (db, Conflict)
    else (db.(runs := db.runs[run := db.runs[run].(state := state, failure := Some(Strip(failure)))]), Done)
  }

  function RunsOf(db: Db, conversation: string): set<string> {
    set run | run in db.runs && db.runs[run].conversation == conversation
  }

  function DeleteAt(db: Db, conversation: string, confirmation: string): (Db, Reply) {
    if confirmation != "DELETE" then (db, ValueError)
    else if conversation !in db.conversations then (db, Conflict)
    else if exists run :: run in RunsOf(db, conversation) && db.runs[run].state == Created then (db, Conflict)
    else (Db(db.conversations - {conversation}, db.runs - RunsOf(db, conversation)), Done)
  }

  /** One transaction. */
  function Apply(db: Db, call: Call): (Db, Reply) {
    match call
    case Create(conversation, spec) =>
      if conversation in db.conversations then (db, Conflict)
      else (db.(conversations := db.conversations[conversation := Conversation(spec, false, [])]), Done)
    case SetArchived(conversation, archived) =>
      if conversation !in db.conversations then (db, Conflict)
      else (db.(conversations := db.conversations[conversation := db.conversations[conversation].(archived := archived)]), Done)
    case AppendUser(conversation, content, run) => AppendUserAt(db, conversation, content, run)
    case StartRun(run, conversation, userOrdinal) => StartRunAt(db, run, conversation, userOrdinal)
    case AppendAssistant(conversation, run, content, estimate) => AppendAssistantAt(db, conversation, run, content, estimate)
    case FailRun(run, state, failure) => FailRunAt(db, run, state, failure)
    case DeletePermanently(conversation, confirmation) => DeleteAt(db, conversation, confirmation)
  }

  /** The store object; each method is one transaction. */
  class DirectConversationStore {
    var conversations: map<string, Conversation>
    var runs: map<string, RunRow>

    ghost function Model(): Db reads this { Db(conversations, runs) }

    constructor ()
      ensures Model() == Db(map[], map[])
    {
      conversations, runs := map[], map[];
    }

    method NextOrdinal(conversation: string) returns (ordinal: nat)
      requires conversation in conversations
      ensures ordinal == LastOrdinal(conversations[conversation].messages) + 1
    {
      var messages := conversations[conversation].messages;
      var last := 0;
      for n := 0 to |messages|
        invariant last == LastOrdinal(messages[..n])
      {
        assert messages[..n + 1][..n] == messages[..n];
        if messages[n].ordinal > last { last := messages[n].ordinal; }
      }
      assert messages[..|messages|] == messages;
      return last + 1;
    }

    method AppendUserMessage(conversation: string, content: string, run: string) returns (reply: Reply)
      modifies this
      ensures (Model(), reply) == Apply(old(Model()), AppendUser(conversation, content, run))
    {
      hide Strip, LastOrdinal;
      if !ValidContent(content) { return ValueError; }
      if conversation !in conversations || conversations[conversation].archived { return Conflict; }
      var ordinal := NextOrdinal(conversation);
      var message := Message(ordinal, User, content, run);
      var c := conversations[conversation];
      conversations := conversations[conversation := c.(messages := c.messages + [message])];
      return Appended(message);
    }

    method StartDirectRun(run: string, conversation: string, userOrdinal: nat) returns (reply: Reply)
      modifies this
      ensures (Model(), reply) == Apply(old(Model()), StartRun(run, conversation, userOrdinal))
    {
      hide MessageAt;
      if userOrdinal < 1 { return ValueError; }
      if conversation !in conversations { return Conflict; }
      var message := MessageAt(conversations[conversation].messages, userOrdinal);
      if message.None? { return Conflict; }
      if message.value.role != User || message.value.run != run { return Conflict; }
      if run in runs { return Conflict; }
      runs := runs[run := RunRow(conversation, userOrdinal, Created, None, None)];
      return Done;
    }

    method AppendAssistantAtomic(conversation: string, run: string, content: string, estimate: nat) returns (reply: Reply)
      modifies this
      ensures (Model(), reply) == Apply(old(Model()), AppendAssistant(conversation, run, content, estimate))
    {
      hide Strip, LastOrdinal;
      if !ValidContent(content) { return ValueError; }
      if run !in runs || runs[run].conversation != conversation { return Conflict; }
      if runs[run].state != Created || conversation !in conversations { return Conflict; }
      var ordinal := NextOrdinal(conversation);
      var message := Message(ordinal, Assistant, content, run);
      var c := conversations[conversation];
      conversations := conversations[conversation := c.(messages := c.messages + [message])];
      runs := runs[run := runs[run].(state := Completed, estimate := Some(estimate))];
      return Appended(message);
    }

    method Fail(run: string, state: RunState, failure: string) returns (reply: Reply)
      modifies this
      ensures (Model(), reply) == Apply(old(Model()), FailRun(run, state, failure))
    {
      hide Strip;
      var text := Strip(failure);
      if state == Created || state == Completed { return ValueError; }
      if |failure| > 128 || text == "" { return ValueError; }
      if run !in runs || runs[run].state != Created { return Conflict; }
      runs := runs[run := runs[run].(state := state, failure := Some(text))];
      return Done;
    }

    method Delete(conversation: string, confirmation: string) returns (reply: Reply)
      modifies this
      ensures (Model(), reply) == Apply(old(Model()), DeletePermanently(conversation, confirmation))
    {
      if confirmation != "DELETE" { return ValueError; }
      if conversation !in conversations { return Conflict; }
      var mine := set run | run in runs && runs[run].conversation == conversation;
      if exists run :: run in mine && runs[run].state == Created { return Conflict; }
      conversations := conversations - {conversation};
      runs := runs - mine;
      return Done;
    }
  }

  // ----- what every reachable store satisfies

  /** Ordinals are exactly 1..n in order. */
  predicate Numbered(messages: seq<Message>) { forall i :: 0 <= i < |messages| ==> messages[i].ordinal == i + 1 }

  /** A run belongs to a stored conversation and to the user message it was started for; a completed run is answered by an
      assistant message, and only a completed run is. */
  ghost predicate RunInv(db: Db, run: string, row: RunRow) {
    && row.conversation in db.conversations
    && var ms := db.conversations[row.conversation].messages;
       && 1 <= row.userOrdinal <= |ms| && ms[row.userOrdinal - 1].role == User && ms[row.userOrdinal - 1].run == run
       && (row.state == Completed <==> HasAnswer(ms, run))
  }

  predicate HasAnswer(messages: seq<Message>, run: string) {
    exists i :: 0 <= i < |messages| && messages[i].role == Assistant && messages[i].run == run
  }

  ghost predicate ConversationInv(db: Db, id: string, c: Conversation) {
    && Numbered(c.messages)
    && (forall i :: 0 <= i < |c.messages| ==> c.messages[i].role != System)
    && (forall i :: 0 <= i < |c.messages| && c.messages[i].role == Assistant ==>
          c.messages[i].run in db.runs && db.runs[c.messages[i].run].conversation == id)
    && (forall i, j :: 0 <= i < j < |c.messages| && c.messages[i].role == Assistant && c.messages[j].role == Assistant ==>
          c.messages[i].run != c.messages[j].run)
  }

  ghost predicate Inv(db: Db) {
    && (forall id :: id in db.conversations ==> ConversationInv(db, id, db.conversations[id]))
    && (forall run :: run in db.runs ==> RunInv(db, run, db.runs[run]))
  }

  lemma {:induction false} NumberedLast(messages: seq<Message>)
    requires Numbered(messages)
    ensures LastOrdinal(messages) == |messages|
  {
    if messages != [] { NumberedLast(messages[..|messages| - 1]); }
  }

  lemma {:induction false} NumberedAt(messages: seq<Message>, ordinal: nat, from: nat)
    requires forall i :: 0 <= i < |messages| ==> messages[i].ordinal == from + i + 1
    ensures MessageAt(messages, ordinal) == if from < ordinal <= from + |messages| then Some(messages[ordinal - from - 1]) else None
    decreases |messages|
  {
    if messages != [] { NumberedAt(messages[1..], ordinal, from + 1); }
  }

  lemma AppendUserKeepsInv(db: Db, conversation: string, content: string, run: string)
    requires Inv(db)
    ensures Inv(AppendUserAt(db, conversation, content, run).0)
  {
    hide ValidContent, LastOrdinal, ConversationInv, RunInv, With;
    var (db', reply) := AppendUserAt(db, conversation, content, run);
    if reply.Appended? {
      assert ConversationInv(db, conversation, db.conversations[conversation]);
      AppendedOrdinal(db, conversation);
      forall id | id in db'.conversations ensures ConversationInv(db', id, db'.conversations[id]) {
        UserKeepsConversation(db, db', conversation, reply.message, id);
      }
      forall r | r in db'.runs ensures RunInv(db', r, db'.runs[r]) { UserKeepsRun(db, db', conversation, reply.message, r); }
    }
  }

  lemma AppendedOrdinal(db: Db, conversation: string)
    requires conversation in db.conversations && ConversationInv(db, conversation, db.conversations[conversation])
    ensures LastOrdinal(db.conversations[conversation].messages) == |db.conversations[conversation].messages|
  {
    NumberedLast(db.conversations[conversation].messages);
  }

  lemma UserKeepsConversation(db: Db, db': Db, conversation: string, m: Message, id: string)
    requires Inv(db) && conversation in db.conversations && db' == With(db, conversation, m) && id in db'.conversations
    requires m.role == User && m.ordinal == |db.conversations[conversation].messages| + 1
    ensures ConversationInv(db', id, db'.conversations[id])
  {
    hide RunInv;
    assert ConversationInv(db, id, db.conversations[id]);
  }

  lemma UserKeepsRun(db: Db, db': Db, conversation: string, m: Message, r: string)
    requires Inv(db) && conversation in db.conversations && db' == With(db, conversation, m) && r in db'.runs && m.role == User
    ensures RunInv(db', r, db'.runs[r])
  {
    hide ConversationInv, HasAnswer;
    assert RunInv(db, r, db.runs[r]);
    AnswersKept(db.conversations[conversation].messages, m, r);
  }

  lemma AnswersKept(messages: seq<Message>, m: Message, run: string)
    ensures HasAnswer(messages + [m], run) <==> HasAnswer(messages, run) || (m.role == Assistant && m.run == run)
  {
    if HasAnswer(messages, run) {
      var i :| 0 <= i < |messages| && messages[i].role == Assistant && messages[i].run == run;
      assert (messages + [m])[i] == messages[i];
    }
    assert (messages + [m])[|messages|] == m;
  }

  /** Writing the row of a run that stays with its conversation. */
  lemma RowKeepsInv(db: Db, run: string, row: RunRow)
    requires Inv(db) && RunInv(db, run, row) && (run in db.runs ==> db.runs[run].conversation == row.conversation)
    ensures Inv(db.(runs := db.runs[run := row]))
  {
    hide HasAnswer, Numbered;
    var db' := db.(runs := db.runs[run := row]);
    forall id | id in db'.conversations ensures ConversationInv(db', id, db'.conversations[id]) {
      assert ConversationInv(db, id, db.conversations[id]);
    }
    forall r | r in db'.runs ensures RunInv(db', r, db'.runs[r]) {
      if r != run { assert RunInv(db, r, db.runs[r]); }
    }
  }

  lemma StartRunKeepsInv(db: Db, run: string, conversation: string, userOrdinal: nat)
    requires Inv(db)
    ensures Inv(StartRunAt(db, run, conversation, userOrdinal).0)
  {
    hide MessageAt, HasAnswer, Inv;
    var db' := StartRunAt(db, run, conversation, userOrdinal).0;
    if db' != db {
      ConversationOf(db, conversation);
      NumberedAt(db.conversations[conversation].messages, userOrdinal, 0);
      NotAnsweredYet(db, conversation, run);
      RowKeepsInv(db, run, db'.runs[run]);
    }
  }

  lemma ConversationOf(db: Db, conversation: string)
    requires Inv(db) && conversation in db.conversations
    ensures ConversationInv(db, conversation, db.conversations[conversation])
  {
  }

  lemma NotAnsweredYet(db: Db, conversation: string, run: string)
    requires Inv(db) && conversation in db.conversations && run !in db.runs
    ensures !HasAnswer(db.conversations[conversation].messages, run)
  {
    assert ConversationInv(db, conversation, db.conversations[conversation]);
  }

  lemma AppendAssistantKeepsInv(db: Db, conversation: string, run: string, content: string, estimate: nat)
    requires Inv(db)
    ensures Inv(AppendAssistantAt(db, conversation, run, content, estimate).0)
  {
    hide ValidContent, LastOrdinal, ConversationInv, RunInv;
    var db' := AppendAssistantAt(db, conversation, run, content, estimate).0;
    if db' != db {
      var m := Message(LastOrdinal(db.conversations[conversation].messages) + 1, Assistant, content, run);
      AnsweredConversation(db, conversation, m);
      forall id | id in db'.conversations ensures ConversationInv(db', id, db'.conversations[id]) {
        OtherConversation(db, db', id);
      }
      forall r | r in db'.runs ensures RunInv(db', r, db'.runs[r]) { AnsweredRun(db, db', r, conversation, m); }
    }
  }

  lemma AnsweredConversation(db: Db, conversation: string, m: Message)
    requires Inv(db) && conversation in db.conversations && m.run in db.runs && db.runs[m.run].conversation == conversation
    requires db.runs[m.run].state == Created && m.role == Assistant
    requires m.ordinal == LastOrdinal(db.conversations[conversation].messages) + 1
    ensures ConversationInv(db, conversation, With(db, conversation, m).conversations[conversation])
  {
    hide LastOrdinal;
    var ms := db.conversations[conversation].messages;
    assert ConversationInv(db, conversation, db.conversations[conversation]) && RunInv(db, m.run, db.runs[m.run]);
    NumberedLast(ms);
    assert !HasAnswer(ms, m.run);
  }

  /** A conversation is judged by its messages and the conversations of their runs. */
  lemma OtherConversation(db: Db, db': Db, id: string)
    requires id in db'.conversations && ConversationInv(db, id, db'.conversations[id])
    requires forall run :: run in db.runs ==> run in db'.runs && db'.runs[run].conversation == db.runs[run].conversation
    ensures ConversationInv(db', id, db'.conversations[id])
  {
  }

  lemma AnsweredRun(db: Db, db': Db, run: string, conversation: string, m: Message)
    requires Inv(db) && run in db.runs && conversation in db.conversations && m.role == Assistant
    requires m.run in db.runs && db.runs[m.run].state == Created && db.runs[m.run].conversation == conversation
    requires db'.conversations == With(db, conversation, m).conversations && run in db'.runs
    requires if run == m.run then db'.runs[run].(state := Created, estimate := None) == db.runs[run].(estimate := None)
                                  && db'.runs[run].state == Completed
             else db'.runs[run] == db.runs[run]
    ensures RunInv(db', run, db'.runs[run])
  {
    hide HasAnswer, ConversationInv;
    assert RunInv(db, run, db.runs[run]);
    if db.runs[run].conversation == conversation { AnswersKept(db.conversations[conversation].messages, m, run); }
  }

  lemma FailRunKeepsInv(db: Db, run: string, state: RunState, failure: string)
    requires Inv(db)
    ensures Inv(FailRunAt(db, run, state, failure).0)
  {
    hide Strip, HasAnswer, ConversationInv;
    var (db', reply) := FailRunAt(db, run, state, failure);
    if reply.Done? {
      assert RunInv(db, run, db.runs[run]);
      RowKeepsInv(db, run, db'.runs[run]);
    }
  }

  lemma DeleteKeepsInv(db: Db, conversation: string, confirmation: string)
    requires Inv(db)
    ensures Inv(DeleteAt(db, conversation, confirmation).0)
  {
    hide HasAnswer;
    var db' := DeleteAt(db, conversation, confirmation).0;
    forall id | id in db'.conversations ensures ConversationInv(db', id, db'.conversations[id]) {
      assert ConversationInv(db, id, db.conversations[id]);
    }
    forall r | r in db'.runs ensures RunInv(db', r, db'.runs[r]) { assert RunInv(db, r, db.runs[r]); }
  }

  lemma CreateKeepsInv(db: Db, conversation: string, spec: Spec)
    requires Inv(db)
    ensures Inv(Apply(db, Create(conversation, spec)).0)
  {
    hide HasAnswer, Numbered, ConversationInv;
    var db' := Apply(db, Create(conversation, spec)).0;
    NewConversation(db, conversation, spec);
    forall id | id in db'.conversations ensures ConversationInv(db', id, db'.conversations[id]) { OtherConversation(db, db', id); }
    forall r | r in db'.runs ensures RunInv(db', r, db'.runs[r]) { assert RunInv(db, r, db.runs[r]); }
  }

  lemma NewConversation(db: Db, conversation: string, spec: Spec)
    ensures ConversationInv(db, conversation, Conversation(spec, false, []))
  {
  }

  lemma SetArchivedKeepsInv(db: Db, conversation: string, archived: bool)
    requires Inv(db)
    ensures Inv(Apply(db, SetArchived(conversation, archived)).0)
  {
    hide HasAnswer, ConversationInv, Numbered;
    var db' := Apply(db, SetArchived(conversation, archived)).0;
    forall id | id in db'.conversations ensures ConversationInv(db', id, db'.conversations[id]) {
      ArchivingKeeps(db, id, db'.conversations[id].archived);
    }
    forall r | r in db'.runs ensures RunInv(db', r, db'.runs[r]) { assert RunInv(db, r, db.runs[r]); }
  }

  lemma ArchivingKeeps(db: Db, id: string, archived: bool)
    requires Inv(db) && id in db.conversations
    ensures forall db': Db :: db'.runs == db.runs ==> ConversationInv(db', id, db.conversations[id].(archived := archived))
  {
    assert ConversationInv(db, id, db.conversations[id]);
  }

  lemma CallKeepsInv(db: Db, call: Call)
    requires Inv(db)
    ensures Inv(Apply(db, call).0)
  {
    hide Inv, AppendUserAt, StartRunAt, AppendAssistantAt, FailRunAt, DeleteAt;
    match call
    case AppendUser(conversation, content, run) => AppendUserKeepsInv(db, conversation, content, run);
    case StartRun(run, conversation, userOrdinal) => StartRunKeepsInv(db, run, conversation, userOrdinal);
    case AppendAssistant(conversation, run, content, estimate) => AppendAssistantKeepsInv(db, conversation, run, content, estimate);
    case FailRun(run, state, failure) => FailRunKeepsInv(db, run, state, failure);
    case DeletePermanently(conversation, confirmation) => DeleteKeepsInv(db, conversation, confirmation);
    case Create(conversation, spec) => CreateKeepsInv(db, conversation, spec);
    case SetArchived(conversation, archived) => SetArchivedKeepsInv(db, conversation, archived);
  }

  /** A user message is taken by a conversation that is there and not archived, with its own text and run; archiving and taking
      back decide that and nothing else. */
  lemma ArchivedTakesNoMessage(db: Db, conversation: string, archived: bool, content: string, run: string)
    requires conversation in db.conversations && ValidContent(content)
    ensures var set_ := Apply(db, SetArchived(conversation, archived)).0;
            var (after, reply) := Apply(set_, AppendUser(conversation, content, run));
            && set_.runs == db.runs && set_.conversations.Keys == db.conversations.Keys
            && (forall c :: c in db.conversations && c != conversation ==> set_.conversations[c] == db.conversations[c])
            && set_.conversations[conversation].messages == db.conversations[conversation].messages
            && if archived then reply == Conflict && after == set_
               else reply.Appended? && reply.message.role == User && reply.message.content == content && reply.message.run == run
                    && conversation in after.conversations
                    && after.conversations[conversation].messages == db.conversations[conversation].messages + [reply.message]
  {
    hide ValidContent, LastOrdinal;
  }

  /** A text is stored exactly if it is not blank and has at most 2^20 characters. */
  lemma ContentBounds(content: string)
    ensures ValidContent(content) <==> Strip(content) != "" && |content| <= 1024 * 1024
  {
    hide Strip;
  }

  /** A completed run keeps its estimate, a failed one its failure, and a new conversation starts empty and open. */
  lemma RunWrites(db: Db, call: Call)
    ensures var (after, reply) := Apply(db, call);
            && (call.AppendAssistant? && reply.Appended? ==>
                  && call.run in db.runs && call.run in after.runs
                  && after.runs[call.run] == db.runs[call.run].(state := Completed, estimate := Some(call.estimate)))
            && (call.FailRun? && reply == Done ==>
                  && call.run in db.runs && db.runs[call.run].state == Created
                  && after == db.(runs := db.runs[call.run := db.runs[call.run].(state := call.state, failure := Some(Strip(call.failure)))]))
            && (call.Create? && reply == Done ==>
                  && call.conversation !in db.conversations
                  && after == db.(conversations := db.conversations[call.conversation := Conversation(call.spec, false, [])]))
  {
    hide Strip, ValidContent, LastOrdinal, MessageAt, RunsOf;
  }

  /** A deletion takes a conversation with its messages and its runs and nothing else; a run still under way prevents it. */
  lemma DeletionTakesOnlyIts(db: Db, conversation: string, confirmation: string)
    ensures var (after, reply) := Apply(db, DeletePermanently(conversation, confirmation));
            && (reply == Done <==> confirmation == "DELETE" && conversation in db.conversations
                                   && forall r :: r in db.runs && db.runs[r].conversation == conversation ==> db.runs[r].state != Created)
            && (reply != Done ==> after == db)
            && (reply == Done ==>
                  && after.conversations == (map c | c in db.conversations && c != conversation :: db.conversations[c])
                  && after.runs == (map r | r in db.runs && db.runs[r].conversation != conversation :: db.runs[r]))
  {
  }

  function AfterCalls(db: Db, calls: seq<Call>): Db
    decreases |calls|
  {
    if calls == [] then db else AfterCalls(Apply(db, calls[0]).0, calls[1..])
  }

  /** Whatever is called, ordinals stay 1..n and a run is completed exactly when it has its one assistant message. */
  lemma {:induction false} RunsKeepInv(db: Db, calls: seq<Call>)
    requires Inv(db)
    ensures Inv(AfterCalls(db, calls))
    decreases |calls|
  {
    hide Inv, Apply;
    if calls != [] {
      CallKeepsInv(db, calls[0]);
      RunsKeepInv(Apply(db, calls[0]).0, calls[1..]);
    }
  }

  /** In every reachable store a conversation's ordinals are 1..n, and a run of it is completed exactly when an assistant
      message carries it. */
  lemma OrdinalsAndAnswers(calls: seq<Call>, conversation: string)
    requires conversation in AfterCalls(Db(map[], map[]), calls).conversations
    ensures var db := AfterCalls(Db(map[], map[]), calls);
            var ms := db.conversations[conversation].messages;
            && (forall i :: 0 <= i < |ms| ==> ms[i].ordinal == i + 1)
            && (forall run :: run in RunsOf(db, conversation) ==> (db.runs[run].state == Completed <==> HasAnswer(ms, run)))
  {
    hide AfterCalls, HasAnswer;
    RunsKeepInv(Db(map[], map[]), calls);
    var db := AfterCalls(Db(map[], map[]), calls);
    assert ConversationInv(db, conversation, db.conversations[conversation]);
    forall run | run in RunsOf(db, conversation)
      ensures db.runs[run].state == Completed <==> HasAnswer(db.conversations[conversation].messages, run)
    {
      assert RunInv(db, run, db.runs[run]);
    }
  }

  /** A refused call leaves the store as it was. */
  lemma RefusalChangesNothing(db: Db, call: Call)
    ensures Apply(db, call).1 in {Conflict, ValueError} ==> Apply(db, call).0 == db
  {
    hide Strip, LastOrdinal, MessageAt, RunsOf;
  }
}

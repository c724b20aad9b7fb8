/** Runs in the event ledger (event_store.py): one dispatch event, then at most one terminal event. */
module EventLedger {
  import opened Text

  /** A `runs` row with its events. */
  datatype EventRun = Open(dispatch: string) | Closed(dispatch: string, terminal: string, state: string)

  /** The runs, and the ids in the `events` table. */
  datatype Ledger = Ledger(runs: map<string, EventRun>, ids: set<string>)

  /** `acceptable` tells whether the payload passes the ledger's checks. */
  datatype Call =
    | StartRun(run: string, eventId: string, acceptable: bool)
    | FinishRun(run: string, eventId: string, state: string, acceptable: bool)

  datatype Reply = Done | EventStoreConflict | ValueError

  function Apply(l: Ledger, call: Call): (Ledger, Reply) {
    match call
    case StartRun(run, eventId, acceptable) =>
      if !acceptable then (l, ValueError)
      else if run in l.runs || eventId in l.ids then (l, EventStoreConflict)
      else (Ledger(l.runs[run := Open(eventId)], l.ids + {eventId}), Done)
    case FinishRun(run, eventId, state, acceptable) =>
      if Strip(state) == "" || !acceptable then (l, ValueError)
      else if run !in l.runs || l.runs[run].Closed? || eventId in l.ids then (l, EventStoreConflict)
      else (Ledger(l.runs[run := Closed(l.runs[run].dispatch, eventId, Strip(state))], l.ids + {eventId}), Done)
  }

  /** Each method is one transaction. */
  class SqliteEventStore {
    var runs: map<string, EventRun>
    var ids: set<string>

    ghost function Model(): Ledger reads this { Ledger(runs, ids) }

    constructor ()
      ensures Model() == Ledger(map[], {})
    {
      runs, ids := map[], {};
    }

    method Start(run: string, eventId: string, acceptable: bool) returns (reply: Reply)
      modifies this
      ensures (Model(), reply) == Apply(old(Model()), StartRun(run, eventId, acceptable))
    {
      if !acceptable { return ValueError; }
      if run in runs { return EventStoreConflict; }
      if eventId in ids { return EventStoreConflict; }
      runs := runs[run := Open(eventId)];
      ids := ids + {eventId};
      return Done;
    }

    method Finish(run: string, eventId: string, state: string, acceptable: bool) returns (reply: Reply)
      modifies this
      ensures (Model(), reply) == Apply(old(Model()), FinishRun(run, eventId, state, acceptable))
    {
      hide Strip;
      var text := Strip(state);
      if text == "" { return ValueError; }
      if !acceptable { return ValueError; }
      if run !in runs { return EventStoreConflict; }
      if runs[run].Closed? { return EventStoreConflict; }
      if eventId in ids { return EventStoreConflict; }
      runs := runs[run := Closed(runs[run].dispatch, eventId, text)];
      ids := ids + {eventId};
      return Done;
    }
  }

  /** The events a run has. */
  function EventsOf(r: EventRun): set<string> { if r.Open? then {r.dispatch} else {r.dispatch, r.terminal} }

  /** Event ids are those of the runs; no two runs share one, and a terminal event is not its own dispatch. */
  ghost predicate Inv(l: Ledger) {
    && (forall run :: run in l.runs ==> EventsOf(l.runs[run]) <= l.ids)
    && (forall a, b :: a in l.runs && b in l.runs && a != b ==> EventsOf(l.runs[a]) !! EventsOf(l.runs[b]))
    && (forall run :: run in l.runs && l.runs[run].Closed? ==> l.runs[run].dispatch != l.runs[run].terminal)
  }

  /** A dispatch is never rewritten and a terminal run never changes. */
  ghost predicate Later(l: Ledger, l': Ledger) {
    forall run :: run in l.runs ==>
      run in l'.runs && l'.runs[run].dispatch == l.runs[run].dispatch && (l.runs[run].Closed? ==> l'.runs[run] == l.runs[run])
  }

  /** A run takes one unused event id. */
  lemma TakesEvent(l: Ledger, run: string, row: EventRun, eventId: string)
    requires Inv(l) && eventId !in l.ids && (row.Closed? ==> row.dispatch != row.terminal)
    requires EventsOf(row) <= (if run in l.runs then EventsOf(l.runs[run]) else {}) + {eventId}
    ensures Inv(Ledger(l.runs[run := row], l.ids + {eventId}))
  {
    hide EventsOf;
    var l' := Ledger(l.runs[run := row], l.ids + {eventId});
    assert EventsOf(row) <= l'.ids;
    forall other | other in l.runs && other != run ensures EventsOf(row) !! EventsOf(l.runs[other]) {
      assert eventId !in EventsOf(l.runs[other]);
    }
  }

  lemma CallKeepsInv(l: Ledger, call: Call)
    requires Inv(l)
    ensures Inv(Apply(l, call).0)
  {
    hide Strip, Inv;
    match call
    case StartRun(run, eventId, acceptable) =>
      if Apply(l, call).1 == Done { TakesEvent(l, run, Open(eventId), eventId); }
    case FinishRun(run, eventId, state, acceptable) =>
      if Apply(l, call).1 == Done {
        DispatchIsKnown(l, run);
        TakesEvent(l, run, Closed(l.runs[run].dispatch, eventId, Strip(state)), eventId);
      }
  }

  lemma DispatchIsKnown(l: Ledger, run: string)
    requires Inv(l) && run in l.runs
    ensures l.runs[run].dispatch in l.ids
  {
  }

  lemma CallIsLater(l: Ledger, call: Call)
    ensures Later(l, Apply(l, call).0)
  {
    hide Strip;
  }

  function AfterCalls(l: Ledger, calls: seq<Call>): Ledger
    decreases |calls|
  {
    if calls == [] then l else AfterCalls(Apply(l, calls[0]).0, calls[1..])
  }

  /** Over any calls each event belongs to one run, a run's dispatch stays, and it becomes terminal at most once. */
  lemma {:induction false} RunsEndOnce(l: Ledger, calls: seq<Call>)
    requires Inv(l)
    ensures Inv(AfterCalls(l, calls)) && Later(l, AfterCalls(l, calls))
    decreases |calls|
  {
    hide Apply, Inv;
    if calls != [] {
      CallKeepsInv(l, calls[0]);
      CallIsLater(l, calls[0]);
      RunsEndOnce(Apply(l, calls[0]).0, calls[1..]);
    }
  }

  /** A second terminal call is refused at any later time, whatever it says. */
  lemma SecondTerminalIsRefused(l: Ledger, calls: seq<Call>, first: Call, second: Call)
    requires Inv(l) && first.FinishRun? && Apply(l, first).1 == Done && second.FinishRun? && second.run == first.run
    ensures var later := AfterCalls(Apply(l, first).0, calls); Apply(later, second).0 == later && Apply(later, second).1 != Done
  {
    hide Strip, Inv;
    CallKeepsInv(l, first);
    RunsEndOnce(Apply(l, first).0, calls);
  }

  /** A refused call leaves the ledger as it was. */
  lemma RefusalChangesNothing(l: Ledger, call: Call)
    ensures Apply(l, call).1 != Done ==> Apply(l, call).0 == l
  {
    hide Strip;
  }
}

/** The admission gate (dispatch.py) as a concurrent protocol. A call verifies, acquires and verifies again; each
    verification reads the epoch and the authority row in two separate selects, and any other process may move between
    any two steps. */
module Admission {
  import opened Text
  import Scopes = AuthorityScopes
  import A = Authorities
  import L = Leases

  /** Where one `admit` call stands, with what it has read so far. */
  datatype Pc =
    | ReadEpoch1
    | ReadRow1(epoch: nat, state: A.State)
    | Check1(epoch: nat, state: A.State, found: Option<A.Row>)
    | ReadClock
    | Acquiring(now: int)
    | ReadEpoch2(permit: L.Permit)
    | ReadRow2(permit: L.Permit, epoch: nat, state: A.State)
    | Check2(permit: L.Permit, epoch: nat, state: A.State, found: Option<A.Row>)
    | Releasing(permit: L.Permit)
    | Admitted(permit: L.Permit)
    | Refused                        // an error before any lease was taken
    | Withdrawn(permit: L.Permit)    // the second verification failed and the release was tried
    | Escaped(permit: L.Permit)      // an error the gate does not catch, raised while it holds a lease

  datatype Admit = Admit(reference: A.Reference, request: Scopes.Request, run: string, resource: string, ttl: int, pc: Pc)

  datatype World = World(wall: int, auth: A.Store, leases: L.Table, calls: map<nat, Admit>)

  datatype Event =
    | Tick(to: int)
    | Authority(authCall: A.Call)
    | Lease(leaseCall: L.Call)
    | Start(id: nat, admit: Admit)
    | Advance(id: nat)

  predicate Finished(pc: Pc) { pc.Admitted? || pc.Refused? || pc.Withdrawn? || pc.Escaped? }

  ghost predicate Legal(w: World, e: Event) {
    match e
    case Tick(to) => w.wall <= to
    case Authority(call) =>
      match call {
        case Issue(_, _, scope, _, now, _) => now <= w.wall && A.Built(scope)
        case AdvanceEpoch(_, _) => true
        case Revoke(_, now) => now <= w.wall
      }
    case Lease(call) => call.Release? || call.now <= w.wall
    case Start(id, admit) => id !in w.calls && admit.pc == ReadEpoch1 && exists scope :: A.IssuedIn(w.auth, admit.reference, scope)
    case Advance(id) => id in w.calls && !Finished(w.calls[id].pc)
  }

  function AcquireCall(c: Admit, now: int): L.Call { L.Acquire(c.resource, c.run, c.ttl, now) }

  function ReleaseCall(p: L.Permit): L.Call { L.Release(p.resource, p.run, p.token) }

  /** The next program counter of a call, reading only what that step reads. */
  function Resume(w: World, c: Admit): Pc {
    match c.pc
    case ReadEpoch1 => ReadRow1(w.auth.epoch, w.auth.state)
    case ReadRow1(epoch, state) => Check1(epoch, state, A.Lookup(w.auth, c.reference.Key()))
    case Check1(epoch, state, found) =>
      if A.Decide(epoch, state, found, c.reference, c.request, w.wall) == A.Accepted then ReadClock else Refused
    case ReadClock => Acquiring(w.wall)
    case Acquiring(now) =>
      var reply := L.Apply(w.leases, AcquireCall(c, now)).1;
      if reply.Granted? then ReadEpoch2(reply.permit) else Refused
    case ReadEpoch2(permit) => ReadRow2(permit, w.auth.epoch, w.auth.state)
    case ReadRow2(permit, epoch, state) => Check2(permit, epoch, state, A.Lookup(w.auth, c.reference.Key()))
    case Check2(permit, epoch, state, found) =>
      var verdict := A.Decide(epoch, state, found, c.reference, c.request, w.wall);
      if verdict == A.Accepted then Admitted(permit)
      else if verdict == A.EmptyName then Escaped(permit)
      else Releasing(permit)
    case Releasing(permit) => Withdrawn(permit)
    case _ => c.pc
  }

  /** The lease transaction a step commits, if it commits one. */
  function Commits(c: Admit): Option<L.Call> {
    match c.pc
    case Acquiring(now) => Some(AcquireCall(c, now))
    case Releasing(permit) => Some(ReleaseCall(permit))
    case _ => None
  }

  function Next(w: World, e: Event): World {
    match e
    case Tick(to) => w.(wall := to)
    case Authority(call) => w.(auth := A.Apply(w.auth, call).0)
    case Lease(call) => w.(leases := L.Apply(w.leases, call).0)
    case Start(id, admit) => w.(calls := w.calls[id := admit])
    case Advance(id) =>
      if id !in w.calls then w
      else
        var c := w.calls[id];
        var leases := if Commits(c).Some? then L.Apply(w.leases, Commits(c).value).0 else w.leases;
        w.(leases := leases, calls := w.calls[id := c.(pc := Resume(w, c))])
  }

  ghost predicate Run(ws: seq<World>, es: seq<Event>) {
    && |ws| == |es| + 1
    && ws[0].auth == A.Store(0, A.Open, map[]) && ws[0].leases == L.Table(map[], 0) && ws[0].calls == map[]
    && forall i :: 0 <= i < |es| ==> Legal(ws[i], es[i]) && ws[i + 1] == Next(ws[i], es[i])
  }

  // ----- the stores along a run

  lemma {:induction false} AuthLater(ws: seq<World>, es: seq<Event>, i: nat, j: nat)
    requires Run(ws, es) && i <= j < |ws|
    ensures A.Later(ws[i].auth, ws[j].auth) && ws[i].wall <= ws[j].wall
    decreases j
  {
    hide A.Apply, L.Apply, Next, Legal, A.Later;
    if i < j {
      AuthLater(ws, es, i, j - 1);
      AuthStep(ws[j - 1], es[j - 1]);
      A.LaterTransitive(ws[i].auth, ws[j - 1].auth, ws[j].auth);
    } else {
      A.LaterReflexive(ws[i].auth);
    }
  }

  lemma AuthStep(w: World, e: Event)
    requires Legal(w, e)
    ensures A.Later(w.auth, Next(w, e).auth) && w.wall <= Next(w, e).wall
  {
    hide A.Apply, L.Apply, Resume, Commits, A.Built, A.IssuedIn;
    if e.Authority? { A.CallIsLater(w.auth, e.authCall); }
  }

  function Tables(ws: seq<World>): (ts: seq<L.Table>)
    ensures |ts| == |ws| && forall i :: 0 <= i < |ws| ==> ts[i] == ws[i].leases
  {
    seq(|ws|, i requires 0 <= i < |ws| => ws[i].leases)
  }

  lemma LeaseStep(w: World, e: Event)
    ensures L.Stepped(w.leases, Next(w, e).leases)
  {
    hide A.Apply, L.Apply, Resume, L.Step;
    L.StutterSteps(w.leases);
    if e.Lease? { L.CallSteps(w.leases, e.leaseCall); }
    if e.Advance? && e.id in w.calls && Commits(w.calls[e.id]).Some? {
      L.CallSteps(w.leases, Commits(w.calls[e.id]).value);
    }
  }

  lemma LeasesAreChain(ws: seq<World>, es: seq<Event>)
    requires Run(ws, es)
    ensures L.Chain(Tables(ws))
  {
    hide Next, L.Stepped;
    var ts := Tables(ws);
    forall i | 0 <= i < |ts| - 1 ensures L.Stepped(ts[i], ts[i + 1]) {
      LeaseStep(ws[i], es[i]);
    }
  }

  // ----- a call's past

  /** A call's arguments never change, and a program counter past the first was set by the call's own step. */
  lemma {:induction false} LastMove(ws: seq<World>, es: seq<Event>, j: nat, id: nat) returns (k: nat)
    requires Run(ws, es) && j < |ws| && id in ws[j].calls && ws[j].calls[id].pc != ReadEpoch1
    ensures k < j && es[k] == Advance(id) && id in ws[k].calls
    ensures ws[k + 1].calls[id] == ws[j].calls[id] == ws[k].calls[id].(pc := Resume(ws[k], ws[k].calls[id]))
    ensures !Finished(ws[k].calls[id].pc)
    decreases j
  {
    hide A.Apply, L.Apply, Resume, Commits, A.Built, A.IssuedIn;
    if es[j - 1] == Advance(id) {
      k := j - 1;
    } else {
      k := LastMove(ws, es, j - 1, id);
    }
  }

  /** Every call presents a reference that was issued. */
  lemma {:induction false} CallsPresentIssued(ws: seq<World>, es: seq<Event>, j: nat, id: nat) returns (scope: Scopes.Scope)
    requires Run(ws, es) && j < |ws| && id in ws[j].calls
    ensures A.IssuedIn(ws[j].auth, ws[j].calls[id].reference, scope)
    decreases j
  {
    hide A.Apply, L.Apply, Resume, Commits, A.Built, A.IssuedIn, A.Later;
    if es[j - 1].Start? && es[j - 1].id == id {
      scope :| A.IssuedIn(ws[j - 1].auth, es[j - 1].admit.reference, scope);
    } else {
      scope := CallsPresentIssued(ws, es, j - 1, id);
    }
    AuthStep(ws[j - 1], es[j - 1]);
    A.IssuedStays(ws[j - 1].auth, ws[j].auth, ws[j].calls[id].reference, scope);
  }

  /** A verification whose two selects were taken at different moments is accepted only if everything held together
      when the first of them ran. */
  lemma SplitReadsAgree(before: A.Store, after: A.Store, wall: int, now: int, r: A.Reference, scope: Scopes.Scope,
                        q: Scopes.Request)
    requires A.Later(before, after) && A.IssuedIn(before, r, scope) && wall <= now
    requires A.Decide(before.epoch, before.state, A.Lookup(after, r.Key()), r, q, now) == A.Accepted
    ensures A.Good(before, r, scope, q, wall)
  {
    hide Scopes.ToDict, Scopes.FromDict, Scopes.Permits, Scopes.CaseDistinct, Scopes.Construct, A.NamesGiven;
    hide A.StripRequest;
    A.BuiltReadsBack(scope);
  }

  // ----- theorems

  /** Every permit the gate returns had one single instant, after its lease was acquired, at which epoch, open state,
      non-revocation, non-expiry and scope all held together: the instant of the second epoch read. */
  lemma AdmittedWasGood(ws: seq<World>, es: seq<Event>, j: nat, id: nat)
    returns (acquired: nat, instant: nat, scope: Scopes.Scope)
    requires Run(ws, es) && j < |ws| && id in ws[j].calls && ws[j].calls[id].pc.Admitted?
    ensures var c := ws[j].calls[id];
            && acquired < instant < j
            && es[acquired] == Advance(id) && id in ws[acquired].calls && ws[acquired].calls[id].pc.Acquiring?
            && L.Apply(ws[acquired].leases, AcquireCall(c, ws[acquired].calls[id].pc.now)).1 == L.Granted(c.pc.permit)
            && es[instant] == Advance(id) && id in ws[instant].calls && ws[instant].calls[id].pc == ReadEpoch2(c.pc.permit)
            && A.Good(ws[instant].auth, c.reference, scope, c.request, ws[instant].wall)
  {
    hide A.Decide, A.Lookup, L.Apply, A.Apply, A.Good, A.Later, A.IssuedIn, Legal, Next;
    var check := LastMove(ws, es, j, id);
    var readRow := LastMove(ws, es, check, id);
    instant := LastMove(ws, es, readRow, id);
    acquired := LastMove(ws, es, instant, id);
    scope := CallsPresentIssued(ws, es, instant, id);
    AuthLater(ws, es, instant, readRow);
    AuthLater(ws, es, readRow, check);
    SplitReadsAgree(ws[instant].auth, ws[readRow].auth, ws[instant].wall, ws[check].wall,
                    ws[j].calls[id].reference, scope, ws[j].calls[id].request);
  }

  /** The permit a call holds names an acquisition that the lease table knows. */
  lemma HeldPermitIsBound(ws: seq<World>, es: seq<Event>, a: nat, j: nat, id: nat, p: L.Permit)
    requires Run(ws, es) && a < j < |ws| && id in ws[a].calls && es[a] == Advance(id)
    requires ws[a].calls[id].pc.Acquiring? && Resume(ws[a], ws[a].calls[id]) == ReadEpoch2(p)
    ensures L.BoundTo(ws[j].leases, p) && Strip(p.resource) == p.resource != ""
  {
    hide Run, Resume, Strip, L.Backs, L.BoundTo, L.Inv, L.Stepped;
    PermitIsGranted(ws, es, a, id, p);
    var ts := Tables(ws);
    LeasesAreChain(ws, es);
    L.ChainInv(ts, a + 1);
    L.BackedIsBound(ts[a + 1], p);
    L.ChainBound(ts, a + 1, j, p);
  }

  /** The acquisition leaves the row that the permit names. */
  lemma PermitIsGranted(ws: seq<World>, es: seq<Event>, a: nat, id: nat, p: L.Permit)
    requires Run(ws, es) && a + 1 < |ws| && id in ws[a].calls && es[a] == Advance(id)
    requires ws[a].calls[id].pc.Acquiring? && Resume(ws[a], ws[a].calls[id]) == ReadEpoch2(p)
    ensures L.Backs(ws[a + 1].leases, p) && Strip(p.resource) == p.resource != ""
  {
    hide L.Apply, Resume, Next, Legal, Strip, L.Backs;
    var c := ws[a].calls[id];
    var call := AcquireCall(c, c.pc.now);
    AcquireGrants(ws[a], c, p);
    AdvanceCommits(ws[a], id, call);
    L.GrantIsRow(ws[a].leases, call, p);
    AcquireResource(ws[a].leases, call, p);
    StripTwice(c.resource);
  }

  lemma AcquireGrants(w: World, c: Admit, p: L.Permit)
    requires c.pc.Acquiring? && Resume(w, c) == ReadEpoch2(p)
    ensures L.Apply(w.leases, AcquireCall(c, c.pc.now)).1 == L.Granted(p)
  {
    hide L.Apply;
  }

  lemma AdvanceCommits(w: World, id: nat, call: L.Call)
    requires id in w.calls && Commits(w.calls[id]) == Some(call)
    ensures Next(w, Advance(id)).leases == L.Apply(w.leases, call).0
  {
    hide L.Apply, Resume;
  }

  lemma AcquireResource(t: L.Table, call: L.Call, p: L.Permit)
    requires call.Acquire? && L.Apply(t, call).1 == L.Granted(p)
    ensures p.resource == Strip(call.resource) != ""
  {
    hide Strip;
  }

  /** If the second verification refuses, no lease of that call remains, then or ever after. */
  lemma RefusalLeavesNoLease(ws: seq<World>, es: seq<Event>, j: nat, k: nat, id: nat)
    requires Run(ws, es) && j <= k < |ws| && id in ws[j].calls && ws[j].calls[id].pc.Withdrawn?
    ensures L.Dead(ws[k].leases, ws[j].calls[id].pc.permit.token)
  {
    hide L.Apply, A.Apply, Resume, Next, Legal, Strip, L.BoundTo, L.Inv, L.Stepped, L.Dead;
    var p := ws[j].calls[id].pc.permit;
    var release, acquired := ReleaseStep(ws, es, j, id);
    HeldPermitIsBound(ws, es, acquired, release, id, p);
    AdvanceCommits(ws[release], id, ReleaseCall(p));
    var ts := Tables(ws);
    LeasesAreChain(ws, es);
    L.ChainInv(ts, release);
    ReleaseKills(ts[release], p);
    L.ChainDead(ts, release + 1, k, p.token);
  }

  lemma ReleaseStep(ws: seq<World>, es: seq<Event>, j: nat, id: nat) returns (release: nat, acquired: nat)
    requires Run(ws, es) && j < |ws| && id in ws[j].calls && ws[j].calls[id].pc.Withdrawn?
    ensures var p := ws[j].calls[id].pc.permit;
            && acquired < release < j
            && es[release] == Advance(id) && id in ws[release].calls && ws[release].calls[id].pc == Releasing(p)
            && es[acquired] == Advance(id) && id in ws[acquired].calls && ws[acquired].calls[id].pc.Acquiring?
            && Resume(ws[acquired], ws[acquired].calls[id]) == ReadEpoch2(p)
  {
    hide A.Decide, A.Lookup, L.Apply, A.Apply, Legal, Next;
    release := LastMove(ws, es, j, id);
    var check := LastMove(ws, es, release, id);
    var readRow := LastMove(ws, es, check, id);
    var readEpoch := LastMove(ws, es, readRow, id);
    acquired := LastMove(ws, es, readEpoch, id);
  }

  lemma ReleaseKills(t: L.Table, p: L.Permit)
    requires L.Inv(t) && L.BoundTo(t, p) && Strip(p.resource) == p.resource != ""
    ensures L.Dead(L.Apply(t, ReleaseCall(p)).0, p.token)
  {
    hide Strip;
  }

  /** What may end the lease that call `id` was admitted with: its holder's release, its expiry, or the refusal of another
      call of the same run, which shared the permit. */
  ghost predicate EndsLease(w: World, e: Event, id: nat, p: L.Permit) {
    && L.Live(w.leases, p.resource, p.token) && !L.Live(Next(w, e).leases, p.resource, p.token)
    && (|| (e.Lease? && e.leaseCall.Release? && Strip(e.leaseCall.resource) == p.resource && e.leaseCall.token == p.token)
        || w.leases.rows[p.resource].expiresAt <= w.wall
        || (e.Advance? && e.id != id && e.id in w.calls && w.calls[e.id].pc.Releasing? && w.calls[e.id].pc.permit.token == p.token))
  }

  /** The lease of an admitted call is there, under its run and token, until a step ends it rightly. */
  lemma AdmittedLeaseEndsRightly(ws: seq<World>, es: seq<Event>, j: nat, k: nat, id: nat) returns (at: nat)
    requires Run(ws, es) && j <= k < |ws| && id in ws[j].calls && ws[j].calls[id].pc.Admitted?
    ensures var p := ws[j].calls[id].pc.permit;
            L.Backs(ws[k].leases, p) || (at < k && EndsLease(ws[at], es[at], id, p))
  {
    hide L.Apply, A.Apply, Resume, Next, Legal, Strip, L.BoundTo, L.Inv, L.Stepped, EndsLease, Run;
    var p := ws[j].calls[id].pc.permit;
    var acquired := AcquisitionOf(ws, es, j, id);
    PermitIsGranted(ws, es, acquired, id, p);
    HeldPermitIsBound(ws, es, acquired, k, id, p);
    at := 0;
    if L.Live(ws[k].leases, p.resource, p.token) {
      BoundRowBacks(ws[k].leases, p);
    } else {
      at := EndingStep(ws, es, acquired + 1, j, k, id, p);
    }
  }

  lemma BoundRowBacks(t: L.Table, p: L.Permit)
    requires L.BoundTo(t, p) && L.Live(t, p.resource, p.token)
    ensures L.Backs(t, p)
  {
  }

  lemma AcquisitionOf(ws: seq<World>, es: seq<Event>, j: nat, id: nat) returns (acquired: nat)
    requires Run(ws, es) && j < |ws| && id in ws[j].calls && ws[j].calls[id].pc.Admitted?
    ensures acquired < j && es[acquired] == Advance(id) && id in ws[acquired].calls && ws[acquired].calls[id].pc.Acquiring?
    ensures Resume(ws[acquired], ws[acquired].calls[id]) == ReadEpoch2(ws[j].calls[id].pc.permit)
  {
    hide A.Decide, A.Lookup, L.Apply, A.Apply, Legal, Next;
    var check := LastMove(ws, es, j, id);
    var readRow := LastMove(ws, es, check, id);
    var readEpoch := LastMove(ws, es, readRow, id);
    acquired := LastMove(ws, es, readEpoch, id);
  }

  lemma {:induction false} EndingStep(ws: seq<World>, es: seq<Event>, i: nat, j: nat, k: nat, id: nat, p: L.Permit) returns (at: nat)
    requires Run(ws, es) && i <= k < |ws| && j < |ws| && id in ws[j].calls && ws[j].calls[id].pc.Admitted?
    requires L.Live(ws[i].leases, p.resource, p.token) && !L.Live(ws[k].leases, p.resource, p.token)
    ensures i <= at < k && EndsLease(ws[at], es[at], id, p)
    decreases k
  {
    hide L.Apply, A.Apply, Resume, Next, Legal, L.Live, EndsLease;
    if L.Live(ws[k - 1].leases, p.resource, p.token) {
      at := k - 1;
      OwnRelease(ws, es, at, j, id);
      ClocksAreOld(ws, es, at);
      LeaseStepEnds(ws[at], es[at], id, p);
    } else {
      at := EndingStep(ws, es, i, j, k - 1, id, p);
    }
  }

  /** A call that is admitted at some time never releases. */
  lemma OwnRelease(ws: seq<World>, es: seq<Event>, at: nat, j: nat, id: nat)
    requires Run(ws, es) && at < |es| && j < |ws| && id in ws[j].calls && ws[j].calls[id].pc.Admitted?
    ensures es[at] == Advance(id) && id in ws[at].calls ==> !ws[at].calls[id].pc.Releasing?
  {
    hide A.Apply, L.Apply, A.IssuedIn;
    if es[at] == Advance(id) && id in ws[at].calls && ws[at].calls[id].pc.Releasing? {
      if at < j { FinishedStays(ws, es, at + 1, j, id); } else { FinishedStays(ws, es, j, at, id); }
    }
  }

  lemma {:induction false} FinishedStays(ws: seq<World>, es: seq<Event>, i: nat, j: nat, id: nat)
    requires Run(ws, es) && i <= j < |ws| && id in ws[i].calls && Finished(ws[i].calls[id].pc)
    ensures id in ws[j].calls && ws[j].calls[id] == ws[i].calls[id]
    decreases j
  {
    hide A.Apply, L.Apply, Resume, Commits, A.IssuedIn;
    if i < j { FinishedStays(ws, es, i, j - 1, id); }
  }

  /** The clock reading an acquisition uses was taken before. */
  lemma ClocksAreOld(ws: seq<World>, es: seq<Event>, at: nat)
    requires Run(ws, es) && at < |es|
    ensures forall id :: id in ws[at].calls && ws[at].calls[id].pc.Acquiring? ==> ws[at].calls[id].pc.now <= ws[at].wall
  {
    hide A.Apply, L.Apply, Commits, A.IssuedIn, A.Later, Legal, Next;
    forall id | id in ws[at].calls && ws[at].calls[id].pc.Acquiring? ensures ws[at].calls[id].pc.now <= ws[at].wall {
      var clock := LastMove(ws, es, at, id);
      AuthLater(ws, es, clock, at);
    }
  }

  lemma LeaseStepEnds(w: World, e: Event, id: nat, p: L.Permit)
    requires Legal(w, e) && L.Live(w.leases, p.resource, p.token) && !L.Live(Next(w, e).leases, p.resource, p.token)
    requires forall u :: u in w.calls && w.calls[u].pc.Acquiring? ==> w.calls[u].pc.now <= w.wall
    requires e == Advance(id) && id in w.calls ==> !w.calls[id].pc.Releasing?
    ensures EndsLease(w, e, id, p)
  {
    hide L.Apply, A.Apply, Resume, Strip, A.Built, A.IssuedIn, L.Live;
    if e.Lease? {
      L.RowEndsRightly(L.World(w.wall, w.leases), L.Commit(e.leaseCall), p.resource, p.token);
    } else if e.Advance? && Commits(w.calls[e.id]).Some? {
      L.RowEndsRightly(L.World(w.wall, w.leases), L.Commit(Commits(w.calls[e.id]).value), p.resource, p.token);
    }
  }

  /** The error the gate does not catch cannot happen there: the names the first verification accepted are not empty
      at the second. */
  lemma NothingEscapes(ws: seq<World>, es: seq<Event>, j: nat, id: nat)
    requires Run(ws, es) && j < |ws| && id in ws[j].calls
    ensures !ws[j].calls[id].pc.Escaped?
  {
    hide A.Decide, A.Lookup, L.Apply, A.Apply, Legal, Next;
    if ws[j].calls[id].pc.Escaped? {
      var check := LastMove(ws, es, j, id);
      var readRow := LastMove(ws, es, check, id);
      var readEpoch := LastMove(ws, es, readRow, id);
      var acquired := LastMove(ws, es, readEpoch, id);
      var clock := LastMove(ws, es, acquired, id);
      var first := LastMove(ws, es, clock, id);
      var c1, c2 := ws[first].calls[id].pc, ws[check].calls[id].pc;
      var c := ws[j].calls[id];
      A.AcceptedNames(c1.epoch, c1.state, c1.found, c.reference, c.request, ws[first].wall);
      A.EmptyNames(c2.epoch, c2.state, c2.found, c.reference, c.request, ws[check].wall);
    }
  }

  // ----- one call left alone

  /** `n` steps of one call, nobody else moving. */
  function Advances(w: World, id: nat, n: nat): World { if n == 0 then w else Next(Advances(w, id, n - 1), Advance(id)) }

  function At(w: World, id: nat, c: Admit, pc: Pc): World { w.(calls := w.calls[id := c.(pc := pc)]) }

  lemma AtAgain(w: World, id: nat, c: Admit, p: Pc, q: Pc)
    ensures At(At(w, id, c, p), id, c.(pc := p), q) == At(w, id, c, q)
  {
    assert w.calls[id := c.(pc := p)][id := c.(pc := q)] == w.calls[id := c.(pc := q)];
  }

  /** A step that commits nothing only moves the call on. */
  lemma LocalStep(w: World, id: nat, n: nat, c: Admit, p: Pc)
    requires Advances(w, id, n) == At(w, id, c, p) && Commits(c.(pc := p)).None?
    ensures Advances(w, id, n + 1) == At(w, id, c, Resume(At(w, id, c, p), c.(pc := p)))
  {
    hide Resume, Advances, A.Decide;
    OneAdvance(w, id, n);
    AtAgain(w, id, c, p, Resume(At(w, id, c, p), c.(pc := p)));
  }

  /** The three local steps of the first verification. */
  lemma FirstVerification(w: World, id: nat)
    requires id in w.calls && w.calls[id].pc == ReadEpoch1
    ensures var c := w.calls[id];
            Advances(w, id, 3) == At(w, id, c, if A.Verify(w.auth, c.reference, c.request, w.wall) == A.Accepted then ReadClock else Refused)
  {
    hide A.Decide, Advances, Next;
    var c := w.calls[id];
    NoAdvance(w, id);
    AtStart(w, id);
    LocalStep(w, id, 0, c, c.pc);
    LocalStep(w, id, 1, c, ReadRow1(w.auth.epoch, w.auth.state));
    LocalStep(w, id, 2, c, Check1(w.auth.epoch, w.auth.state, A.Lookup(w.auth, c.reference.Key())));
  }

  /** The three local steps of the second. */
  lemma SecondVerification(w: World, id: nat)
    requires id in w.calls && w.calls[id].pc.ReadEpoch2?
    ensures var c := w.calls[id];
            var read := Check2(c.pc.permit, w.auth.epoch, w.auth.state, A.Lookup(w.auth, c.reference.Key()));
            Advances(w, id, 2) == At(w, id, c, read) && Advances(w, id, 3) == At(w, id, c, Resume(w, c.(pc := read)))
  {
    hide A.Decide, A.Lookup, Advances, Next;
    var c := w.calls[id];
    NoAdvance(w, id);
    AtStart(w, id);
    LocalStep(w, id, 0, c, c.pc);
    LocalStep(w, id, 1, c, ReadRow2(c.pc.permit, w.auth.epoch, w.auth.state));
    LocalStep(w, id, 2, c, Check2(c.pc.permit, w.auth.epoch, w.auth.state, A.Lookup(w.auth, c.reference.Key())));
  }

  lemma AtStart(w: World, id: nat)
    requires id in w.calls
    ensures At(w, id, w.calls[id], w.calls[id].pc) == w
  {
    assert w.calls[id := w.calls[id]] == w.calls;
  }

  // ----- two calls of one run

  /** A call that has just begun, with a reference that verifies now and a resource it may ask for. */
  predicate MayAcquire(w: World, id: nat) {
    && id in w.calls && w.calls[id].pc == ReadEpoch1
    && A.Verify(w.auth, w.calls[id].reference, w.calls[id].request, w.wall) == A.Accepted
    && Strip(w.calls[id].resource) != "" && L.ValidTtl(w.calls[id].ttl)
  }

  predicate Unfinished(w: World, id: nat) { id in w.calls && !Finished(w.calls[id].pc) }

  /** A step that commits a lease transaction. */
  lemma CommitStep(w: World, id: nat, c: Admit, p: Pc, call: L.Call)
    requires Commits(c.(pc := p)) == Some(call)
    ensures var next := Resume(At(w, id, c, p), c.(pc := p));
            Next(At(w, id, c, p), Advance(id)) == At(w.(leases := L.Apply(w.leases, call).0), id, c, next)
  {
    hide Resume, L.Apply;
    var next := Resume(At(w, id, c, p), c.(pc := p));
    assert w.calls[id := c.(pc := p)][id := c.(pc := next)] == w.calls[id := c.(pc := next)];
  }

  /** Five steps to the lease. */
  lemma AcquiresInFive(w: World, id: nat, p: L.Permit)
    requires MayAcquire(w, id) && L.Apply(w.leases, AcquireCall(w.calls[id], w.wall)).1 == L.Granted(p)
    ensures var taken := L.Apply(w.leases, AcquireCall(w.calls[id], w.wall)).0;
            Advances(w, id, 5) == At(w.(leases := taken), id, w.calls[id], ReadEpoch2(p)) && Unfinished(Advances(w, id, 4), id)
  {
    hide A.Verify, L.Apply, Advances, A.Decide, Next;
    var c := w.calls[id];
    FirstVerification(w, id);
    LocalStep(w, id, 3, c, ReadClock);
    OneAdvance(w, id, 4);
    CommitStep(w, id, c, Acquiring(w.wall), AcquireCall(c, w.wall));
  }

  /** From the epoch read on: admitted if the reference still verifies. */
  lemma AdmittedInThree(w: World, id: nat, c: Admit, p: L.Permit)
    requires id in w.calls && w.calls[id] == c.(pc := ReadEpoch2(p)) && A.Verify(w.auth, c.reference, c.request, w.wall) == A.Accepted
    ensures Advances(w, id, 3) == At(w, id, c, Admitted(p)) && Unfinished(Advances(w, id, 2), id)
  {
    hide A.Verify, Advances, A.Lookup, Resume, A.Decide, Next;
    SecondVerification(w, id);
    VerifiedIsAdmitted(w, c, p);
    AtAgain(w, id, c, ReadEpoch2(p), Admitted(p));
    var read := Check2(p, w.auth.epoch, w.auth.state, A.Lookup(w.auth, c.reference.Key()));
    assert w.calls[id].(pc := read) == c.(pc := read);
    AtAgain(w, id, c, ReadEpoch2(p), read);
  }

  lemma VerifiedIsAdmitted(w: World, c: Admit, p: L.Permit)
    requires A.Verify(w.auth, c.reference, c.request, w.wall) == A.Accepted
    ensures Resume(w, c.(pc := Check2(p, w.auth.epoch, w.auth.state, A.Lookup(w.auth, c.reference.Key())))) == Admitted(p)
  {
    hide A.Decide, A.Lookup, L.Apply;
  }

  /** With a stale epoch the call gives its lease back and is refused. */
  lemma WithdrawnInFour(w: World, id: nat, c: Admit, p: L.Permit)
    requires id in w.calls && w.calls[id] == c.(pc := ReadEpoch2(p)) && c.reference.epoch != w.auth.epoch
    ensures Advances(w, id, 4) == At(w.(leases := L.Apply(w.leases, ReleaseCall(p)).0), id, c, Withdrawn(p))
    ensures Unfinished(Advances(w, id, 3), id)
  {
    hide Advances, A.Lookup, L.Apply, Next, A.Decide;
    SecondVerification(w, id);
    StaleIsReleased(w, c, p);
    AtAgain(w, id, c, ReadEpoch2(p), Releasing(p));
    OneAdvance(w, id, 3);
    CommitStep(w, id, c, Releasing(p), ReleaseCall(p));
  }

  lemma StaleIsReleased(w: World, c: Admit, p: L.Permit)
    requires c.reference.epoch != w.auth.epoch
    ensures forall found :: Resume(w, c.(pc := Check2(p, w.auth.epoch, w.auth.state, found))) == Releasing(p)
  {
    hide L.Apply;
  }

  /** Calls `a` and `b` of one run ask for one free resource with references that verify. If `a` is admitted, `b` takes the
      same lease, and the epoch then moves, `b` is refused and takes the lease away, while `a` stays admitted. */
  lemma SiblingRefusalStrands(w: World, a: nat, b: nat, reason: string)
    requires a != b && MayAcquire(w, a) && MayAcquire(w, b) && w.calls[a].run == w.calls[b].run
    requires Strip(w.calls[a].resource) == Strip(w.calls[b].resource) && Strip(w.calls[a].resource) !in w.leases.rows
    requires IsSha256(Lower(reason))
    ensures var admitted := Advances(Advances(w, a, 5), a, 3);
            var moved := Next(Advances(admitted, b, 5), Authority(A.AdvanceEpoch(reason, "open")));
            var v := Advances(moved, b, 4);
            && a in admitted.calls && admitted.calls[a].pc.Admitted?
            && var p := admitted.calls[a].pc.permit;
               && L.Backs(admitted.leases, p) && !L.Live(v.leases, p.resource, p.token)
               && a in v.calls && v.calls[a].pc == Admitted(p) && b in v.calls && v.calls[b].pc == Withdrawn(p)
    ensures var admitted := Advances(Advances(w, a, 5), a, 3);
            var moved := Next(Advances(admitted, b, 5), Authority(A.AdvanceEpoch(reason, "open")));
            && Unfinished(Advances(w, a, 4), a) && Unfinished(Advances(Advances(w, a, 5), a, 2), a)
            && Unfinished(Advances(admitted, b, 4), b) && Unfinished(Advances(moved, b, 3), b)
  {
    hide A.Verify, L.Apply, Advances, Strip, Lower, IsSha256, A.Decide, A.Apply, A.Lookup;
    var ca, cb := w.calls[a], w.calls[b];
    var call := AcquireCall(ca, w.wall);
    FreeIsGranted(w.leases, call);
    var p, taken := L.Apply(w.leases, call).1.permit, L.Apply(w.leases, call).0;
    L.GrantIsRow(w.leases, call, p);
    AcquireResource(w.leases, call, p);
    StripTwice(ca.resource);
    AcquiresInFive(w, a, p);
    AdmittedInThree(Advances(w, a, 5), a, ca, p);
    var admitted := Advances(Advances(w, a, 5), a, 3);
    assert admitted == At(w.(leases := taken), a, ca, Admitted(p));
    L.RunSharesItsLease(w.leases, call, p, AcquireCall(cb, w.wall));
    AcquiresInFive(admitted, b, p);
    var held := Advances(admitted, b, 5);
    var moved := Next(held, Authority(A.AdvanceEpoch(reason, "open")));
    EpochMoves(w.auth, reason);
    AcceptedEpoch(w.auth, cb, w.wall);
    WithdrawnInFour(moved, b, cb, p);
    ReleaseEnds(taken, p);
  }

  // ----- and such a run exists

  lemma {:induction false} UnfinishedBefore(w: World, id: nat, n: nat, k: nat)
    requires k <= n && id in w.calls && Unfinished(Advances(w, id, n), id)
    ensures Unfinished(Advances(w, id, k), id)
    decreases n
  {
    hide Resume, Commits, L.Apply;
    if k < n {
      StaysThere(w, id, n - 1);
      if Finished(Advances(w, id, n - 1).calls[id].pc) { FinishedAdvances(Advances(w, id, n - 1), id); }
      UnfinishedBefore(w, id, n - 1, k);
    }
  }

  lemma {:induction false} StaysThere(w: World, id: nat, n: nat)
    requires id in w.calls
    ensures id in Advances(w, id, n).calls
  {
    hide Resume, Commits, L.Apply;
    if n > 0 { StaysThere(w, id, n - 1); }
  }

  lemma FinishedAdvances(w: World, id: nat)
    requires id in w.calls && Finished(w.calls[id].pc)
    ensures id in Next(w, Advance(id)).calls && Finished(Next(w, Advance(id)).calls[id].pc)
  {
    hide L.Apply, A.Decide;
  }

  /** A run goes on with steps of one unfinished call. */
  lemma {:induction false} Extend(ws: seq<World>, es: seq<Event>, id: nat, n: nat) returns (ws': seq<World>, es': seq<Event>)
    requires Run(ws, es) && id in ws[|es|].calls
    requires n > 0 ==> Unfinished(Advances(ws[|es|], id, n - 1), id)
    ensures Run(ws', es') && |es'| == |es| + n && ws'[|es'|] == Advances(ws[|es|], id, n)
    ensures ws'[..|ws|] == ws && es'[..|es|] == es
    ensures n > 0 ==> es'[|es'| - 1] == Advance(id) && ws'[|es'| - 1] == Advances(ws[|es|], id, n - 1)
  {
    hide Next, Finished, A.Built, A.IssuedIn;
    if n == 0 {
      ws', es' := ws, es;
      NoAdvance(ws[|es|], id);
    } else {
      if n > 1 { UnfinishedBefore(ws[|es|], id, n - 1, n - 2); }
      var u, f := Extend(ws, es, id, n - 1);
      OneAdvance(ws[|es|], id, n - 1);
      ws', es' := GoOn(u, f, Advance(id));
    }
  }

  lemma GoOn(ws: seq<World>, es: seq<Event>, e: Event) returns (ws': seq<World>, es': seq<Event>)
    requires Run(ws, es) && Legal(ws[|es|], e)
    ensures ws' == ws + [Next(ws[|es|], e)] && es' == es + [e] && Run(ws', es')
  {
    hide Next, Legal;
    ws', es' := ws + [Next(ws[|es|], e)], es + [e];
  }

  /** The start of a run: one reference is issued and two calls of one run present it. */
  function Presented(scope: Scopes.Scope, q: Scopes.Request): Admit {
    var row := A.NewRow(A.Store(0, A.Open, map[]), "kind", "id", scope, 1, 0, "authority");
    Admit(A.ReferenceTo(row), q, "run", "resource", 60, ReadEpoch1)
  }

  lemma TwoCallsStart(scope: Scopes.Scope, q: Scopes.Request) returns (ws: seq<World>, es: seq<Event>)
    requires A.Built(scope) && Scopes.CaseDistinct(scope) && A.NamesGiven(q) && Scopes.Permits(scope, A.StripRequest(q))
    ensures Run(ws, es) && |es| == 3
    ensures var w := ws[|es|];
            && MayAcquire(w, 0) && MayAcquire(w, 1) && w.leases == L.Table(map[], 0)
            && w.calls[0] == w.calls[1] == Presented(scope, q)
  {
    hide A.Built, Scopes.CaseDistinct, A.NamesGiven, Scopes.Permits, A.StripRequest, A.IssuedIn, A.Apply, A.Verify, Presented, Strip;
    var empty, call, c := A.Store(0, A.Open, map[]), FirstCall(scope), Presented(scope, q);
    var auth := A.Apply(empty, call).0;
    PresentedVerifies(scope, q);
    PresentedStands(scope, q);
    var none: map<nat, Admit> := map[];
    ws, es := [World(0, empty, L.Table(map[], 0), none)], [];
    ws, es := GoOn(ws, es, Authority(call));
    ws, es := GoOn(ws, es, Start(0, c));
    ws, es := GoOn(ws, es, Start(1, c));
  }

  function FirstCall(scope: Scopes.Scope): A.Call { A.Issue("kind", "id", scope, 1, 0, "authority") }

  lemma PresentedStands(scope: Scopes.Scope, q: Scopes.Request)
    ensures var c := Presented(scope, q);
            c.pc == ReadEpoch1 && c.request == q && Strip(c.resource) != "" && L.ValidTtl(c.ttl)
  {
    hide A.NewRow, A.ReferenceTo, Strip;
    ResourceIsNamed();
  }

  lemma ResourceIsNamed()
    ensures Strip("resource") != ""
  {
    hide Strip;
    StripFixed("resource");
  }

  lemma PresentedVerifies(scope: Scopes.Scope, q: Scopes.Request)
    requires A.Built(scope) && Scopes.CaseDistinct(scope) && A.NamesGiven(q) && Scopes.Permits(scope, A.StripRequest(q))
    ensures var auth, c := A.Apply(A.Store(0, A.Open, map[]), FirstCall(scope)).0, Presented(scope, q);
            A.IssuedIn(auth, c.reference, scope) && A.Verify(auth, c.reference, q, 0) == A.Accepted
  {
    hide A.Built, Scopes.CaseDistinct, A.NamesGiven, Scopes.Permits, A.StripRequest, A.IssuedIn, A.Apply, A.Verify, A.NewRow, A.ReferenceTo;
    var empty := A.Store(0, A.Open, map[]);
    FirstIssue(scope);
    A.IssueIsRecorded(empty, FirstCall(scope));
    var auth, r := A.Apply(empty, FirstCall(scope)).0, Presented(scope, q).reference;
    IssuedRow(auth, r, scope);
    A.IssuedVerifiesIff(auth, r, scope, q, 0);
  }

  lemma IssuedRow(s: A.Store, r: A.Reference, scope: Scopes.Scope)
    requires A.IssuedIn(s, r, scope)
    ensures r.Key() in s.rows
  {
    hide A.Built, Scopes.ToDict;
  }

  lemma FirstIssue(scope: Scopes.Scope)
    ensures var reply := A.Apply(A.Store(0, A.Open, map[]), A.Issue("kind", "id", scope, 1, 0, "authority")).1;
            reply == A.Issued(A.ReferenceTo(A.NewRow(A.Store(0, A.Open, map[]), "kind", "id", scope, 1, 0, "authority")))
  {
    hide A.NewRow, A.ReferenceTo, Strip;
    StripFixed("kind");
    StripFixed("id");
  }

  /** For every scope that permits some request there is a run in which the refusal of one call takes away the lease that
      another was admitted with. */
  lemma SharedLeaseIsReachable(scope: Scopes.Scope, q: Scopes.Request, reason: string) returns (ws: seq<World>, es: seq<Event>, j: nat)
    requires A.Built(scope) && Scopes.CaseDistinct(scope) && A.NamesGiven(q) && Scopes.Permits(scope, A.StripRequest(q))
    requires IsSha256(Lower(reason))
    ensures Run(ws, es) && j <= |es|
    ensures 0 in ws[j].calls && ws[j].calls[0].pc.Admitted?
    ensures var p := ws[j].calls[0].pc.permit;
            && L.Backs(ws[j].leases, p) && !L.Live(ws[|es|].leases, p.resource, p.token)
            && 0 in ws[|es|].calls && ws[|es|].calls[0].pc == Admitted(p)
            && 1 in ws[|es|].calls && ws[|es|].calls[1].pc == Withdrawn(p)
  {
    hide A.Built, Scopes.CaseDistinct, A.NamesGiven, Scopes.Permits, A.StripRequest, Advances, Next, Presented, Finished, A.Verify;
    hide Legal, L.Backs, L.Live, IsSha256, Lower, Strip, Unfinished;
    ws, es := TwoCallsStart(scope, q);
    var w := ws[|es|];
    SiblingRefusalStrands(w, 0, 1, reason);
    OthersStay(w, 0, 1, 5);
    OthersStay(Advances(w, 0, 5), 0, 1, 3);
    StaysThere(w, 0, 5);
    ws, es := ExtendBy(ws, es, 0, 5);
    ws, es := ExtendBy(ws, es, 0, 3);
    j := |es|;
    var early := ws;
    StaysThere(early[j], 1, 5);
    ws, es := ExtendBy(ws, es, 1, 5);
    AdvanceIsLegal(ws[|es|], 1, reason);
    ws, es := GoOn(ws, es, Authority(A.AdvanceEpoch(reason, "open")));
    ws, es := ExtendBy(ws, es, 1, 4);
    assert early == ws[..j + 1];
  }

  lemma ExtendBy(ws: seq<World>, es: seq<Event>, id: nat, n: nat) returns (ws': seq<World>, es': seq<Event>)
    requires Run(ws, es) && id in ws[|es|].calls && n > 0 && Unfinished(Advances(ws[|es|], id, n - 1), id)
    ensures Run(ws', es') && ws'[|es'|] == Advances(ws[|es|], id, n) && ws <= ws'
  {
    hide Unfinished, Advances, Next, Legal;
    ws', es' := Extend(ws, es, id, n);
  }

  lemma AdvanceIsLegal(w: World, id: nat, reason: string)
    ensures Legal(w, Authority(A.AdvanceEpoch(reason, "open")))
    ensures id in w.calls ==> id in Next(w, Authority(A.AdvanceEpoch(reason, "open"))).calls
  {
  }

  lemma {:induction false} OthersStay(w: World, id: nat, u: nat, n: nat)
    requires u in w.calls && u != id
    ensures u in Advances(w, id, n).calls
  {
    hide Resume, Commits, L.Apply;
    if n > 0 { OthersStay(w, id, u, n - 1); }
  }

  lemma FreeIsGranted(t: L.Table, call: L.Call)
    requires call.Acquire? && Strip(call.resource) != "" && L.ValidTtl(call.ttl) && Strip(call.resource) !in t.rows
    ensures L.Apply(t, call).1.Granted? && call.now < L.Apply(t, call).1.permit.expiresAt
  {
    hide Strip;
  }

  lemma EpochMoves(s: A.Store, reason: string)
    requires IsSha256(Lower(reason))
    ensures A.Apply(s, A.AdvanceEpoch(reason, "open")).0.epoch == s.epoch + 1
  {
    hide Lower, IsSha256, Strip;
    StripFixed("open");
  }

  lemma AcceptedEpoch(s: A.Store, c: Admit, now: int)
    requires A.Verify(s, c.reference, c.request, now) == A.Accepted
    ensures c.reference.epoch == s.epoch
  {
    hide Scopes.ToDict, Scopes.FromDict, Scopes.Permits, A.NamesGiven, A.StripRequest;
  }

  lemma ReleaseEnds(t: L.Table, p: L.Permit)
    requires L.Backs(t, p) && Strip(p.resource) == p.resource != ""
    ensures !L.Live(L.Apply(t, ReleaseCall(p)).0, p.resource, p.token)
  {
    hide Strip;
  }

  /** The gate object; its call, left alone, is a run of the protocol to a final state. */
  class AdmissionGate {
    const authorities: A.DispatchAuthorityStore
    const leases: L.DispatcherLeaseStore

    constructor (authorities: A.DispatchAuthorityStore, leases: L.DispatcherLeaseStore)
      ensures this.authorities == authorities && this.leases == leases
    {
      this.authorities, this.leases := authorities, leases;
    }

    /** The world has the contents of the stores, and call `id` stands at `c`. */
    ghost predicate Stands(w: World, id: nat, c: Admit)
      reads this, authorities, leases
    {
      w.auth == authorities.Model() && w.leases == leases.Model() && id in w.calls && w.calls[id] == c
    }

    /** The clock shows `now` until the lease is taken and `later` from then on. */
    method AdmitCall(ghost w: World, ghost id: nat, c: Admit, now: int, later: int) returns (pc: Pc, ghost before: nat, ghost after: nat)
      requires Stands(w, id, c) && c.pc == ReadEpoch1 && now == w.wall && now <= later
      modifies leases
      ensures Finished(pc) && Stands(Advances(Next(Advances(w, id, before), Tick(later)), id, after), id, c.(pc := pc))
    {
      hide A.Decide, A.Verify, L.Apply, Advances;
      FirstVerification(w, id);
      before, after := 3, 0;
      NoAdvance(Next(Advances(w, id, before), Tick(later)), id);
      var first := authorities.VerifyAuthority(c.reference, c.request, now);
      if first != A.Accepted { return Refused, before, after; }
      OneAdvance(w, id, 3);
      OneAdvance(w, id, 4);
      before := 5;
      ghost var held := Next(Advances(w, id, before), Tick(later));
      NoAdvance(held, id);
      var reply := leases.AcquireLease(c.resource, c.run, c.ttl, now);
      L.RefusalChangesNothing(w.leases, AcquireCall(c, now));
      if !reply.Granted? { return Refused, before, after; }
      SecondVerification(held, id);
      VerifyIsDecide(held, c, later);
      after := 3;
      var second := authorities.VerifyAuthority(c.reference, c.request, later);
      if second == A.Accepted { return Admitted(reply.permit), before, after; }
      if second == A.EmptyName { return Escaped(reply.permit), before, after; }
      OneAdvance(held, id, 3);
      after := 4;
      var released := leases.ReleaseLease(reply.permit.resource, reply.permit.run, reply.permit.token);
      return Withdrawn(reply.permit), before, after;
    }
  }

  lemma NoAdvance(w: World, id: nat)
    ensures Advances(w, id, 0) == w
  {
  }

  lemma OneAdvance(w: World, id: nat, n: nat)
    ensures Advances(w, id, n + 1) == Next(Advances(w, id, n), Advance(id))
  {
  }

  lemma VerifyIsDecide(w: World, c: Admit, now: int)
    ensures A.Verify(w.auth, c.reference, c.request, now)
         == A.Decide(w.auth.epoch, w.auth.state, A.Lookup(w.auth, c.reference.Key()), c.reference, c.request, now)
  {
  }
}

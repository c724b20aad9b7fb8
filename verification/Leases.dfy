/** Fenced dispatch leases (dispatch.py): the store, its atomic transactions, and what every interleaving of them
    keeps. Times are microseconds; each call carries the clock reading it took before asking for the write lock. */
module Leases {
  import opened Text

  datatype Lease = Lease(run: string, token: nat, acquiredAt: int, expiresAt: int)

  datatype Permit = Permit(resource: string, run: string, token: nat, acquiredAt: int, expiresAt: int)

  /** The `dispatch_leases` rows by resource key, and the `fencing_counter` singleton. */
  datatype Table = Table(rows: map<string, Lease>, counter: nat)

  datatype Call =
    | Acquire(resource: string, run: string, ttl: int, now: int)
    | Renew(resource: string, run: string, token: nat, ttl: int, now: int)
    | Release(resource: string, run: string, token: nat)
    | Reap(run: string, now: int)

  datatype Reply =
    | Granted(permit: Permit)
    | Released
    | Reaped(leases: map<string, Lease>)
    | LeaseError
    | ValueError

  const SECOND := 1_000_000

  predicate ValidTtl(ttl: int) { 1 <= ttl <= 86400 }

  function PermitOf(resource: string, lease: Lease): Permit {
    Permit(resource, lease.run, lease.token, lease.acquiredAt, lease.expiresAt)
  }

  /** The row of a resource, if one is stored. */
  function Row(t: Table, resource: string): Option<Lease> {
    if resource in t.rows then Some(t.rows[resource]) else None
  }

  predicate HolderIs(t: Table, resource: string, run: string, token: nat) {
    resource in t.rows && t.rows[resource].run == run && t.rows[resource].token == token
  }

  function RowsOfRun(t: Table, run: string): map<string, Lease> {
    map r | r in t.rows && t.rows[r].run == run :: t.rows[r]
  }

  function AcquireAt(t: Table, key: string, run: string, ttl: int, now: int): (Table, Reply) {
    if key in t.rows && now < t.rows[key].expiresAt then
      if t.rows[key].run == run then (t, Granted(PermitOf(key, t.rows[key]))) else (t, LeaseError)
    else
      var lease := Lease(run, t.counter + 1, now, now + ttl * SECOND);
      (Table(t.rows[key := lease], t.counter + 1), Granted(PermitOf(key, lease)))
  }

  function RenewAt(t: Table, key: string, run: string, token: nat, ttl: int, now: int): (Table, Reply) {
    if HolderIs(t, key, run, token) && now < t.rows[key].expiresAt then
      var lease := t.rows[key].(expiresAt := now + ttl * SECOND);
      (t.(rows := t.rows[key := lease]), Granted(PermitOf(key, lease)))
    else (t, LeaseError)
  }

  function ReleaseAt(t: Table, key: string, run: string, token: nat): (Table, Reply) {
    if HolderIs(t, key, run, token) then (t.(rows := t.rows - {key}), Released) else (t, LeaseError)
  }

  function ReapAt(t: Table, run: string, now: int): (Table, Reply) {
    if exists r :: r in t.rows && t.rows[r].run == run && now < t.rows[r].expiresAt then (t, LeaseError)
    else (t.(rows := t.rows - RowsOfRun(t, run).Keys), Reaped(RowsOfRun(t, run)))
  }

  /** One transaction: the committed table and the reply. An error reply leaves the table as it was. */
  function Apply(t: Table, call: Call): (Table, Reply) {
    match call
    case Acquire(resource, run, ttl, now) =>
      if Strip(resource) == "" || !ValidTtl(ttl) then (t, ValueError) else AcquireAt(t, Strip(resource), run, ttl, now)
    case Renew(resource, run, token, ttl, now) =>
      if Strip(resource) == "" || !ValidTtl(ttl) then (t, ValueError) else RenewAt(t, Strip(resource), run, token, ttl, now)
    case Release(resource, run, token) =>
      if Strip(resource) == "" then (t, ValueError) else ReleaseAt(t, Strip(resource), run, token)
    case Reap(run, now) => ReapAt(t, run, now)
  }

  /** The store object. Each method is one `BEGIN IMMEDIATE` transaction. */
  class DispatcherLeaseStore {
    var leases: map<string, Lease>
    var fencing: nat

    ghost function Model(): Table reads this { Table(leases, fencing) }

    constructor ()
      ensures Model() == Table(map[], 0)
    {
      leases, fencing := map[], 0;
    }

    method AcquireLease(resourceKey: string, run: string, ttl: int, now: int) returns (reply: Reply)
      modifies this
      ensures (Model(), reply) == Apply(old(Model()), Acquire(resourceKey, run, ttl, now))
    {
      hide Strip;
      var resource := Strip(resourceKey);
      if resource == "" || !ValidTtl(ttl) { return ValueError; }
      var live := resource in leases;
      if live && leases[resource].expiresAt <= now {
        leases := leases - {resource};
        live := false;
      }
      if live {
        if leases[resource].run == run { return Granted(PermitOf(resource, leases[resource])); }
        return LeaseError;
      }
      fencing := fencing + 1;
      leases := leases[resource := Lease(run, fencing, now, now + ttl * SECOND)];
      assert leases == old(leases)[resource := Lease(run, fencing, now, now + ttl * SECOND)];
      return Granted(Permit(resource, run, fencing, now, now + ttl * SECOND));
    }

    method RenewLease(resourceKey: string, run: string, token: nat, ttl: int, now: int) returns (reply: Reply)
      modifies this
      ensures (Model(), reply) == Apply(old(Model()), Renew(resourceKey, run, token, ttl, now))
    {
      hide Strip;
      var resource := Strip(resourceKey);
      if resource == "" || !ValidTtl(ttl) { return ValueError; }
      if resource !in leases { return LeaseError; }
      var row := leases[resource];
      if row.run != run || row.token != token || row.expiresAt <= now { return LeaseError; }
      var expiresAt := now + ttl * SECOND;
      leases := leases[resource := row.(expiresAt := expiresAt)];
      return Granted(Permit(resource, run, token, row.acquiredAt, expiresAt));
    }

    method ReleaseLease(resourceKey: string, run: string, token: nat) returns (reply: Reply)
      modifies this
      ensures (Model(), reply) == Apply(old(Model()), Release(resourceKey, run, token))
    {
      hide Strip;
      var resource := Strip(resourceKey);
      if resource == "" { return ValueError; }
      if resource !in leases || leases[resource].run != run || leases[resource].token != token { return LeaseError; }
      leases := leases - {resource};
      return Released;
    }

    method ReapExpiredForRun(run: string, now: int) returns (reply: Reply)
      modifies this
      ensures (Model(), reply) == Apply(old(Model()), Reap(run, now))
    {
      var rows := map r | r in leases && leases[r].run == run :: leases[r];
      if exists r :: r in rows && now < rows[r].expiresAt {
        var r :| r in rows && now < rows[r].expiresAt;
        assert r in leases && leases[r].run == run && now < leases[r].expiresAt;
        return LeaseError;
      }
      assert forall r :: r in leases && leases[r].run == run ==> r in rows;
      leases := leases - rows.Keys;
      return Reaped(rows);
    }
  }

  // ----- interleavings

  /** The shared table and the true time. */
  datatype World = World(wall: int, table: Table)

  datatype Event = Tick(to: int) | Commit(call: Call)

  /** Time does not run backwards, and a clock reading is never taken after the commit that uses it. */
  predicate Legal(w: World, e: Event) {
    match e
    case Tick(to) => w.wall <= to
    case Commit(Release(_, _, _)) => true
    case Commit(call) => call.now <= w.wall
  }

  function Next(w: World, e: Event): World {
    match e
    case Tick(to) => w.(wall := to)
    case Commit(call) => w.(table := Apply(w.table, call).0)
  }

  function ReplyTo(w: World, call: Call): Reply { Apply(w.table, call).1 }

  /** Any number of processes, in any order: the worlds `ws` joined by the events `es`. */
  ghost predicate Run(ws: seq<World>, es: seq<Event>) {
    && |ws| == |es| + 1
    && ws[0].table == Table(map[], 0)
    && forall i :: 0 <= i < |es| ==> Legal(ws[i], es[i]) && ws[i + 1] == Next(ws[i], es[i])
  }

  function Tables(ws: seq<World>): (ts: seq<Table>)
    ensures |ts| == |ws| && forall i :: 0 <= i < |ws| ==> ts[i] == ws[i].table
  {
    seq(|ws|, i requires 0 <= i < |ws| => ws[i].table)
  }

  // ----- what one transaction may do to the table

  /** Stored tokens were issued by the counter and no two rows share one. */
  ghost predicate Inv(t: Table) {
    && (forall r :: r in t.rows ==> 1 <= t.rows[r].token <= t.counter)
    && (forall r, q :: r in t.rows && q in t.rows && t.rows[r].token == t.rows[q].token ==> r == q)
  }

  predicate SameAcquisition(a: Lease, b: Lease) {
    a.run == b.run && a.token == b.token && a.acquiredAt == b.acquiredAt
  }

  /** Touch the row of one key, where a surviving row keeps its acquisition and a new one carries the counter's
      next value; other rows may only go. */
  ghost predicate Step(t: Table, t': Table, key: string) {
    && (t'.counter == t.counter || (t'.counter == t.counter + 1 && key in t'.rows && t'.rows[key].token == t'.counter))
    && (forall r :: r in t'.rows && r != key ==> r in t.rows && t'.rows[r] == t.rows[r])
    && (key in t'.rows && t'.counter == t.counter ==> key in t.rows && SameAcquisition(t.rows[key], t'.rows[key]))
  }

  ghost predicate Stepped(t: Table, t': Table) { exists key :: Step(t, t', key) }

  lemma AcquireSteps(t: Table, key: string, run: string, ttl: int, now: int)
    ensures Step(t, AcquireAt(t, key, run, ttl, now).0, key)
  {
  }

  lemma RenewSteps(t: Table, key: string, run: string, token: nat, ttl: int, now: int)
    ensures Step(t, RenewAt(t, key, run, token, ttl, now).0, key)
  {
  }

  lemma ReleaseSteps(t: Table, key: string, run: string, token: nat)
    ensures Step(t, ReleaseAt(t, key, run, token).0, key)
  {
  }

  lemma ReapSteps(t: Table, run: string, now: int)
    ensures Step(t, ReapAt(t, run, now).0, "")
  {
  }

  lemma StutterSteps(t: Table)
    ensures Step(t, t, "")
  {
  }

  lemma CallSteps(t: Table, call: Call)
    ensures Stepped(t, Apply(t, call).0)
  {
    StutterSteps(t);
    hide Step, AcquireAt, RenewAt, ReleaseAt, ReapAt, Strip;
    match call
    case Acquire(resource, run, ttl, now) => AcquireSteps(t, Strip(resource), run, ttl, now);
    case Renew(resource, run, token, ttl, now) => RenewSteps(t, Strip(resource), run, token, ttl, now);
    case Release(resource, run, token) => ReleaseSteps(t, Strip(resource), run, token);
    case Reap(run, now) => ReapSteps(t, run, now);
  }

  /** The tables of any run, whoever made the calls. */
  ghost predicate Chain(ts: seq<Table>) {
    |ts| > 0 && Inv(ts[0]) && forall i :: 0 <= i < |ts| - 1 ==> Stepped(ts[i], ts[i + 1])
  }

  lemma RunIsChain(ws: seq<World>, es: seq<Event>)
    requires Run(ws, es)
    ensures Chain(Tables(ws))
  {
    var ts := Tables(ws);
    forall i | 0 <= i < |ts| - 1 ensures Stepped(ts[i], ts[i + 1]) {
      if es[i].Commit? { CallSteps(ts[i], es[i].call); } else { StutterSteps(ts[i]); }
    }
  }

  lemma {:induction false} ChainInv(ts: seq<Table>, i: nat)
    requires Chain(ts) && i < |ts|
    ensures Inv(ts[i])
  {
    if i > 0 {
      ChainInv(ts, i - 1);
      var key :| Step(ts[i - 1], ts[i], key);
    }
  }

  lemma {:induction false} ChainCounter(ts: seq<Table>, i: nat, j: nat)
    requires Chain(ts) && i <= j < |ts|
    ensures ts[i].counter <= ts[j].counter
    decreases j
  {
    if i < j {
      ChainCounter(ts, i, j - 1);
      var key :| Step(ts[j - 1], ts[j], key);
    }
  }

  /** A token is bound to one resource, one run and one acquisition time. */
  ghost predicate BoundTo(t: Table, p: Permit) {
    && p.token <= t.counter
    && forall r :: r in t.rows && t.rows[r].token == p.token ==>
        r == p.resource && t.rows[r].run == p.run && t.rows[r].acquiredAt == p.acquiredAt
  }

  lemma {:induction false} ChainBound(ts: seq<Table>, i: nat, j: nat, p: Permit)
    requires Chain(ts) && i <= j < |ts| && BoundTo(ts[i], p)
    ensures BoundTo(ts[j], p)
    decreases j
  {
    if i < j {
      ChainBound(ts, i, j - 1, p);
      var key :| Step(ts[j - 1], ts[j], key);
    }
  }

  /** Rows at a resource after `i` are the row seen at `i` or carry a token issued since. */
  lemma {:induction false} ChainNewer(ts: seq<Table>, i: nat, j: nat, resource: string)
    requires Chain(ts) && i <= j < |ts| && resource in ts[j].rows
    ensures Live(ts[i], resource, ts[j].rows[resource].token) || ts[i].counter < ts[j].rows[resource].token
    decreases j
  {
    if i < j {
      ChainCounter(ts, i, j - 1);
      if resource in ts[j - 1].rows { ChainNewer(ts, i, j - 1, resource); }
      var key :| Step(ts[j - 1], ts[j], key);
    }
  }

  /** A row of `resource` with token `token` is stored. */
  ghost predicate Live(t: Table, resource: string, token: nat) {
    resource in t.rows && t.rows[resource].token == token
  }

  /** No row anywhere carries the token, and the counter is past it. */
  ghost predicate Dead(t: Table, token: nat) {
    token <= t.counter && forall r :: r in t.rows ==> t.rows[r].token != token
  }

  lemma {:induction false} ChainDead(ts: seq<Table>, i: nat, j: nat, token: nat)
    requires Chain(ts) && i <= j < |ts| && Dead(ts[i], token)
    ensures Dead(ts[j], token)
    decreases j
  {
    if i < j {
      ChainDead(ts, i, j - 1, token);
      var key :| Step(ts[j - 1], ts[j], key);
    }
  }

  // ----- theorems about whole runs

  /** Event `i` hands out a token that was not in the table. */
  ghost predicate Issues(ws: seq<World>, es: seq<Event>, i: nat, p: Permit)
    requires Run(ws, es) && i < |es|
  {
    && es[i].Commit? && es[i].call.Acquire?
    && ReplyTo(ws[i], es[i].call) == Granted(p)
    && !Live(ws[i].table, p.resource, p.token)
  }

  lemma FreshGrant(t: Table, call: Call, p: Permit)
    requires call.Acquire? && Apply(t, call).1 == Granted(p) && !Live(t, p.resource, p.token)
    ensures p.token == t.counter + 1 == Apply(t, call).0.counter
    ensures Apply(t, call).0.rows == t.rows[p.resource := Lease(p.run, p.token, p.acquiredAt, p.expiresAt)]
  {
    hide Strip;
  }

  /** The row stored at a permit's resource is the acquisition the permit names. */
  ghost predicate Backs(t: Table, p: Permit) {
    HolderIs(t, p.resource, p.run, p.token) && t.rows[p.resource].acquiredAt == p.acquiredAt
  }

  lemma BackedIsBound(t: Table, p: Permit)
    requires Inv(t) && Backs(t, p)
    ensures BoundTo(t, p)
  {
  }

  lemma AcquireBacks(t: Table, key: string, run: string, ttl: int, now: int)
    ensures var (t', reply) := AcquireAt(t, key, run, ttl, now);
            reply.Granted? ==> reply.permit.resource == key && reply.permit.run == run && Backs(t', reply.permit)
  {
  }

  lemma RenewBacks(t: Table, key: string, run: string, token: nat, ttl: int, now: int)
    ensures var (t', reply) := RenewAt(t, key, run, token, ttl, now);
            reply.Granted? ==> reply.permit.resource == key && Backs(t', reply.permit)
  {
  }

  lemma GrantIsRow(t: Table, call: Call, p: Permit)
    requires Apply(t, call).1 == Granted(p)
    ensures Backs(Apply(t, call).0, p)
  {
    hide AcquireAt, RenewAt, Backs, Strip;
    match call
    case Acquire(resource, run, ttl, now) => AcquireBacks(t, Strip(resource), run, ttl, now);
    case Renew(resource, run, token, ttl, now) => RenewBacks(t, Strip(resource), run, token, ttl, now);
    case Release(resource, run, token) =>
    case Reap(run, now) =>
  }

  /** Fencing tokens are issued strictly increasing, hence never twice. */
  lemma TokensStrictlyIncrease(ws: seq<World>, es: seq<Event>, i: nat, p: Permit, j: nat, q: Permit)
    requires Run(ws, es) && i < j < |es| && Issues(ws, es, i, p) && Issues(ws, es, j, q)
    ensures p.token < q.token
  {
    var ts := Tables(ws);
    RunIsChain(ws, es);
    FreshGrant(ts[i], es[i].call, p);
    FreshGrant(ts[j], es[j].call, q);
    ChainCounter(ts, i + 1, j);
  }

  /** Never reused: a later permit with an issued token, from any call, is the same acquisition. */
  lemma TokenNamesOneAcquisition(ws: seq<World>, es: seq<Event>, i: nat, p: Permit, j: nat, q: Permit)
    requires Run(ws, es) && i < j < |es| && Issues(ws, es, i, p)
    requires es[j].Commit? && ReplyTo(ws[j], es[j].call) == Granted(q) && q.token == p.token
    ensures q.resource == p.resource && q.run == p.run && q.acquiredAt == p.acquiredAt
  {
    var ts := Tables(ws);
    RunIsChain(ws, es);
    ChainInv(ts, i);
    FreshGrant(ts[i], es[i].call, p);
    ChainBound(ts, i + 1, j + 1, p);
    GrantIsRow(ts[j], es[j].call, q);
  }

  /** The one event that may end a live lease early. */
  ghost predicate HolderReleases(w: World, e: Event, resource: string, token: nat) {
    && e.Commit? && e.call.Release?
    && Strip(e.call.resource) == resource && e.call.token == token
    && HolderIs(w.table, resource, e.call.run, token)
  }

  lemma AcquireEndsExpired(t: Table, key: string, run: string, ttl: int, now: int, resource: string, token: nat)
    requires Live(t, resource, token)
    ensures Live(AcquireAt(t, key, run, ttl, now).0, resource, token) || t.rows[resource].expiresAt <= now
  {
  }

  lemma RenewEndsNothing(t: Table, key: string, run: string, token: nat, ttl: int, now: int, resource: string, other: nat)
    requires Live(t, resource, other)
    ensures Live(RenewAt(t, key, run, token, ttl, now).0, resource, other)
  {
  }

  lemma ReapEndsExpired(t: Table, run: string, now: int, resource: string, token: nat)
    requires Live(t, resource, token)
    ensures Live(ReapAt(t, run, now).0, resource, token) || t.rows[resource].expiresAt <= now
  {
  }

  /** One step: a row goes only by its holder's release or after its recorded expiry has really passed. */
  lemma RowEndsRightly(w: World, e: Event, resource: string, token: nat)
    requires Legal(w, e) && Live(w.table, resource, token) && !Live(Next(w, e).table, resource, token)
    ensures HolderReleases(w, e, resource, token) || w.table.rows[resource].expiresAt <= w.wall
  {
    hide AcquireAt, RenewAt, ReapAt, Strip;
    match e.call
    case Acquire(r, run, ttl, now) => AcquireEndsExpired(w.table, Strip(r), run, ttl, now, resource, token);
    case Renew(r, run, tok, ttl, now) => RenewEndsNothing(w.table, Strip(r), run, tok, ttl, now, resource, token);
    case Release(r, run, tok) =>
    case Reap(run, now) => ReapEndsExpired(w.table, run, now, resource, token);
  }

  /** Whole runs: between seeing a lease and seeing it gone lies the step that ended it, and that step was right. */
  lemma {:induction false} LeaseEndsRightly(ws: seq<World>, es: seq<Event>, i: nat, j: nat, resource: string, token: nat)
    returns (k: nat)
    requires Run(ws, es) && i <= j < |ws|
    requires Live(ws[i].table, resource, token) && !Live(ws[j].table, resource, token)
    ensures i <= k < j && Live(ws[k].table, resource, token) && !Live(ws[k + 1].table, resource, token)
    ensures || HolderReleases(ws[k], es[k], resource, token)
            || ws[k].table.rows[resource].expiresAt <= ws[k].wall
    decreases j
  {
    hide Legal, Next, HolderReleases, Apply;
    if Live(ws[j - 1].table, resource, token) {
      k := j - 1;
      RowEndsRightly(ws[k], es[k], resource, token);
    } else {
      k := LeaseEndsRightly(ws, es, i, j - 1, resource, token);
    }
  }

  /** A dead token moves nothing: renewing or releasing with it fails and leaves the table alone. */
  lemma DeadTokenIsPowerless(t: Table, token: nat, call: Call)
    requires Dead(t, token)
    requires (call.Renew? || call.Release?) && call.token == token
    ensures Apply(t, call).0 == t && Apply(t, call).1 in {LeaseError, ValueError}
  {
    hide Strip;
  }

  /** After a takeover the new token is larger, the old one is dead for ever, and no call that presents it
      is accepted or disturbs whoever holds the resource then. */
  lemma TakeoverFencesOldHolder(ws: seq<World>, es: seq<Event>, i: nat, j: nat, k: nat, resource: string, call: Call)
    requires Run(ws, es) && i <= j <= k < |ws|
    requires resource in ws[i].table.rows && resource in ws[j].table.rows
    requires ws[i].table.rows[resource].token != ws[j].table.rows[resource].token
    requires (call.Renew? || call.Release?) && call.token == ws[i].table.rows[resource].token
    ensures call.token < ws[j].table.rows[resource].token
    ensures Dead(ws[k].table, call.token)
    ensures Apply(ws[k].table, call).0 == ws[k].table && Apply(ws[k].table, call).1 in {LeaseError, ValueError}
  {
    var ts := Tables(ws);
    RunIsChain(ws, es);
    ChainInv(ts, i);
    ChainNewer(ts, i, j, resource);
    ChainBound(ts, i, j, PermitOf(resource, ts[i].rows[resource]));
    ChainDead(ts, j, k, call.token);
    DeadTokenIsPowerless(ts[k], call.token, call);
  }

  /** What a renewal or a new lease records: it runs for `ttl` seconds from the clock reading of the call. */
  lemma GrantRunsForTtl(t: Table, call: Call, p: Permit)
    requires Apply(t, call).1 == Granted(p) && (call.Renew? || (call.Acquire? && !Live(t, p.resource, p.token)))
    ensures p.resource == Strip(call.resource) && p.run == call.run && p.expiresAt == call.now + call.ttl * 1_000_000
    ensures Row(Apply(t, call).0, p.resource) == Some(Lease(p.run, p.token, p.acquiredAt, p.expiresAt))
    ensures if call.Acquire? then p.acquiredAt == call.now else Live(t, p.resource, p.token) && p.acquiredAt == t.rows[p.resource].acquiredAt
  {
    hide Strip;
  }

  /** Until then, and only until then, another run that asks for the resource is refused. */
  lemma GrantExcludesOthers(t: Table, call: Call, p: Permit, other: string, ttl: int, later: int)
    requires Apply(t, call).1 == Granted(p) && (call.Renew? || (call.Acquire? && !Live(t, p.resource, p.token)))
    requires other != call.run && ValidTtl(ttl)
    ensures var after := Apply(t, call).0;
            var (next, reply) := Apply(after, Acquire(call.resource, other, ttl, later));
            if later < call.now + call.ttl * 1_000_000 then next == after && reply == LeaseError
            else reply.Granted? && reply.permit.run == other
  {
    hide Strip;
  }

  /** A call is refused as invalid exactly for a blank key or a time to live outside one second to one day. */
  lemma InvalidArguments(t: Table, call: Call)
    ensures Apply(t, call).1.ValueError? <==>
              && !call.Reap? && (Strip(call.resource) == "" || (!call.Release? && !(1 <= call.ttl <= 24 * 60 * 60)))
  {
    hide Strip;
  }

  /** A reap takes all rows of its run or none, and no others; it is refused exactly while one of them is live. */
  lemma ReapTakesItsRun(t: Table, run: string, now: int)
    ensures var (after, reply) := Apply(t, Reap(run, now));
            && (reply.LeaseError? <==> exists r :: r in t.rows && t.rows[r].run == run && now < t.rows[r].expiresAt)
            && after.counter == t.counter
            && (forall r :: Row(after, r) == if reply.Reaped? && r in t.rows && t.rows[r].run == run then None else Row(t, r))
            && (reply.Reaped? ==> forall r :: r in reply.leases <==> r in t.rows && r !in after.rows)
            && (reply.Reaped? ==> forall r :: r in reply.leases ==> reply.leases[r] == t.rows[r])
  {
  }

  /** A run that acquires a resource it holds gets the same permit again, so two of its calls may share one lease. */
  lemma RunSharesItsLease(t: Table, call: Call, p: Permit, again: Call)
    requires call.Acquire? && again.Acquire? && Apply(t, call).1 == Granted(p)
    requires Strip(again.resource) == Strip(call.resource) && again.run == call.run && ValidTtl(again.ttl) && again.now < p.expiresAt
    ensures Apply(Apply(t, call).0, again) == (Apply(t, call).0, Granted(p))
  {
    hide Strip;
  }

  /** A refused call leaves the table as it was. */
  lemma RefusalChangesNothing(t: Table, call: Call)
    ensures Apply(t, call).1 in {LeaseError, ValueError} ==> Apply(t, call).0 == t
    ensures call.Acquire? ==> Apply(t, call).1.Granted? || Apply(t, call).1 in {LeaseError, ValueError}
  {
    hide Strip;
  }
}

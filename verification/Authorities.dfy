/** The dispatch authority store (authority.py): issue, revoke, advance the epoch, verify. A body and its printed JSON are
    one value here, and SHA-256 is injective, so a digest is represented by the body it was taken of. */
module Authorities {
  import opened Text
  import opened AuthorityScopes

  datatype State = Open | Hold | Suspended | Revoked

  datatype Body = Body(authorityId: string, kind: string, id: string, revision: nat, epoch: nat, scope: Document,
                       issuedAt: int, expiresAt: int)

  datatype BodyDigest = Sha256(body: Body)

  datatype RowKey = RowKey(kind: string, id: string, revision: nat)

  datatype Row = Row(authorityId: string, body: Body, digest: BodyDigest, epoch: nat, scope: Document,
                     expiresAt: int, revokedAt: Option<int>)

  /** The `authority_epoch` singleton and `dispatch_authorities`, keyed by its unique index. */
  datatype Store = Store(epoch: nat, state: State, rows: map<RowKey, Row>)

  datatype Reference = Reference(kind: string, id: string, digest: BodyDigest, revision: nat, epoch: nat, scope: Document) {
    function Key(): RowKey { RowKey(kind, id, revision) }
  }

  datatype Call =
    | Issue(kind: string, id: string, scope: Scope, expiresAt: int, now: int, authorityId: string)
    | AdvanceEpoch(reasonDigest: string, state: string)
    | Revoke(reference: Reference, now: int)

  datatype Reply =
    | Issued(reference: Reference)
    | Advanced(epoch: nat)
    | RevokeDone(changed: bool)
    | AuthorizationError
    | IntegrityError
    | ValueError

  datatype Verdict =
    | Accepted | StaleEpoch | NotOpen | Missing | DigestInvalid | IsRevoked | Expired | EmptyName | ScopeDenied

  // ----- issue

  lemma {:induction false} MaxExists(s: set<nat>)
    requires s != {}
    ensures exists x :: x in s && forall y :: y in s ==> y <= x
  {
    var x :| x in s;
    var rest := s - {x};
    if rest == {} {
      assert s == {x};
    } else {
      MaxExists(rest);
      var m :| m in rest && forall y :: y in rest ==> y <= m;
      var best := if x <= m then m else x;
      forall y | y in s ensures y <= best {
        if y != x { assert y in rest; }
      }
      assert best in s;
    }
  }

  /** `COALESCE(MAX(revision), 0)` over the revisions stored for one source. */
  function MaxOf(s: set<nat>): (m: nat)
    ensures s == {} ==> m == 0
    ensures s != {} ==> m in s && forall y :: y in s ==> y <= m
  {
    if s == {} then 0
    else
      MaxExists(s);
      var x :| x in s && forall y :: y in s ==> y <= x;
      x
  }

  function NextRevision(rows: map<RowKey, Row>, kind: string, id: string): (r: nat)
    ensures r >= 1 && RowKey(kind, id, r) !in rows
    ensures forall k :: k in rows && k.kind == kind && k.id == id ==> k.revision < r
  {
    var revisions := set k | k in rows && k.kind == kind && k.id == id :: k.revision;
    assert forall k :: k in rows && k.kind == kind && k.id == id ==> k.revision in revisions;
    assert RowKey(kind, id, MaxOf(revisions) + 1) in rows ==> MaxOf(revisions) + 1 in revisions;
    MaxOf(revisions) + 1
  }

  function NewRow(s: Store, kind: string, id: string, scope: Scope, expiresAt: int, now: int, authorityId: string): Row {
    var body := Body(authorityId, kind, id, NextRevision(s.rows, kind, id), s.epoch, ToDict(scope), now, expiresAt);
    Row(authorityId, body, Sha256(body), s.epoch, ToDict(scope), expiresAt, None)
  }

  function ReferenceTo(row: Row): Reference {
    Reference(row.body.kind, row.body.id, row.digest, row.body.revision, row.epoch, row.scope)
  }

  function ApplyIssue(s: Store, kind: string, id: string, scope: Scope, expiresAt: int, now: int, authorityId: string)
    : (Store, Reply)
  {
    if kind == "" || id == "" || expiresAt <= now then (s, ValueError)
    else if s.state != Open then (s, AuthorizationError)
    else if exists k :: k in s.rows && s.rows[k].authorityId == authorityId then (s, IntegrityError)
    else
      var row := NewRow(s, kind, id, scope, expiresAt, now, authorityId);
      (s.(rows := s.rows[RowKey(kind, id, row.body.revision) := row]), Issued(ReferenceTo(row)))
  }

  // ----- epoch and revocation

  function ParseState(text: string): Option<State> {
    var name := Strip(text);
    if name == "open" then Some(Open) else if name == "hold" then Some(Hold)
    else if name == "suspended" then Some(Suspended) else if name == "revoked" then Some(Revoked) else None
  }

  function ApplyAdvance(s: Store, reasonDigest: string, state: string): (Store, Reply) {
    if !IsSha256(Lower(reasonDigest)) || ParseState(state).None? then (s, ValueError)
    else (s.(epoch := s.epoch + 1, state := ParseState(state).value), Advanced(s.epoch + 1))
  }

  predicate Revocable(s: Store, r: Reference) {
    r.Key() in s.rows && s.rows[r.Key()].epoch == r.epoch && s.rows[r.Key()].digest == r.digest
  }

  function ApplyRevoke(s: Store, r: Reference, now: int): (Store, Reply) {
    if !Revocable(s, r) then (s, AuthorizationError)
    else if s.rows[r.Key()].revokedAt.Some? then (s, RevokeDone(false))
    else (s.(rows := s.rows[r.Key() := s.rows[r.Key()].(revokedAt := Some(now))]), RevokeDone(true))
  }

  /** One write transaction. */
  function Apply(s: Store, call: Call): (Store, Reply) {
    match call
    case Issue(kind, id, scope, expiresAt, now, authorityId) =>
      ApplyIssue(s, Strip(kind), Strip(id), scope, expiresAt, now, authorityId)
    case AdvanceEpoch(reasonDigest, state) => ApplyAdvance(s, reasonDigest, state)
    case Revoke(reference, now) => ApplyRevoke(s, reference, now)
  }

  // ----- verify

  function StripRequest(q: Request): Request {
    q.(provider := Strip(q.provider), plane := Strip(q.plane), taskType := Strip(q.taskType))
  }

  predicate NamesGiven(q: Request) { Strip(q.provider) != "" && Strip(q.plane) != "" && Strip(q.taskType) != "" }

  function Lookup(s: Store, key: RowKey): Option<Row> { if key in s.rows then Some(s.rows[key]) else None }

  /** The checks `verify` makes on what its two selects returned, in their order. */
  function Decide(epoch: nat, state: State, found: Option<Row>, r: Reference, q: Request, now: int): Verdict {
    if r.epoch != epoch then StaleEpoch
    else if state != Open then NotOpen
    else if found.None? then Missing
    else
      var row := found.value;
      var scope := FromDict(row.scope);
      if scope.None? then DigestInvalid
      else if || Sha256(row.body) != row.digest || Sha256(row.body) != r.digest || row.epoch != r.epoch
              || row.scope != r.scope || row.body.scope != ToDict(scope.value) then DigestInvalid
      else if row.revokedAt.Some? then IsRevoked
      else if row.expiresAt <= now then Expired
      else if !NamesGiven(q) then EmptyName
      else if !Permits(scope.value, StripRequest(q)) then ScopeDenied
      else Accepted
  }

  lemma AcceptedNames(epoch: nat, state: State, found: Option<Row>, r: Reference, q: Request, now: int)
    requires Decide(epoch, state, found, r, q, now) == Accepted
    ensures NamesGiven(q)
  {
    hide ToDict, FromDict, Permits, NamesGiven, StripRequest;
  }

  lemma EmptyNames(epoch: nat, state: State, found: Option<Row>, r: Reference, q: Request, now: int)
    requires Decide(epoch, state, found, r, q, now) == EmptyName
    ensures !NamesGiven(q)
  {
    hide ToDict, FromDict, Permits, NamesGiven, StripRequest;
  }

  /** `verify` when nothing else runs between its two selects. */
  function Verify(s: Store, r: Reference, q: Request, now: int): Verdict {
    Decide(s.epoch, s.state, Lookup(s, r.Key()), r, q, now)
  }

  /** The store object. Each writing method is one transaction. */
  class DispatchAuthorityStore {
    var epoch: nat
    var state: State
    var authorities: map<RowKey, Row>

    ghost function Model(): Store reads this { Store(epoch, state, authorities) }

    constructor ()
      ensures Model() == Store(0, Open, map[])
    {
      epoch, state, authorities := 0, Open, map[];
    }

    method IssueAuthority(sourceKind: string, sourceId: string, scope: Scope, expiresAt: int, now: int, authorityId: string)
      returns (reply: Reply)
      modifies this
      ensures (Model(), reply) == Apply(old(Model()), Issue(sourceKind, sourceId, scope, expiresAt, now, authorityId))
    {
      var kind, id := Strip(sourceKind), Strip(sourceId);
      if kind == "" || id == "" || expiresAt <= now { return ValueError; }
      if state != Open { return AuthorizationError; }
      if exists k :: k in authorities && authorities[k].authorityId == authorityId { return IntegrityError; }
      var revision := NextRevision(authorities, kind, id);
      var body := Body(authorityId, kind, id, revision, epoch, ToDict(scope), now, expiresAt);
      var row := Row(authorityId, body, Sha256(body), epoch, ToDict(scope), expiresAt, None);
      authorities := authorities[RowKey(kind, id, revision) := row];
      return Issued(Reference(kind, id, Sha256(body), revision, epoch, ToDict(scope)));
    }

    method AdvanceTheEpoch(reasonDigest: string, newState: string) returns (reply: Reply)
      modifies this
      ensures (Model(), reply) == Apply(old(Model()), AdvanceEpoch(reasonDigest, newState))
    {
      hide ParseState, IsSha256;
      var parsed := ParseState(newState);
      if !IsSha256(Lower(reasonDigest)) || parsed.None? { return ValueError; }
      epoch := epoch + 1;
      state := parsed.value;
      return Advanced(epoch);
    }

    method RevokeAuthority(reference: Reference, now: int) returns (reply: Reply)
      modifies this
      ensures (Model(), reply) == Apply(old(Model()), Revoke(reference, now))
    {
      var key := reference.Key();
      if key !in authorities { return AuthorizationError; }
      var row := authorities[key];
      if row.epoch != reference.epoch || row.digest != reference.digest { return AuthorizationError; }
      if row.revokedAt.Some? { return RevokeDone(false); }
      authorities := authorities[key := row.(revokedAt := Some(now))];
      return RevokeDone(true);
    }

    /** The checks in their order. For a reference that `issue` returned, they accept exactly while it is good for the request,
        provided its scope's digests stayed distinct after lower-casing. */
    method VerifyAuthority(reference: Reference, request: Request, now: int) returns (verdict: Verdict)
      ensures verdict == Verify(Model(), reference, request, now)
      ensures forall scope :: IssuedIn(Model(), reference, scope) ==>
                (verdict == Accepted <==> CaseDistinct(scope) && Good(Model(), reference, scope, request, now))
    {
      hide ToDict, FromDict, Permits, NamesGiven, StripRequest, IssuedIn, Good, CaseDistinct;
      forall scope | IssuedIn(Model(), reference, scope)
        ensures Verify(Model(), reference, request, now) == Accepted
           <==> CaseDistinct(scope) && Good(Model(), reference, scope, request, now)
      {
        IssuedVerifiesIff(Model(), reference, scope, request, now);
      }
      var epochSeen, stateSeen := epoch, state;
      var rowSeen := if reference.Key() in authorities then Some(authorities[reference.Key()]) else None;
      if reference.epoch != epochSeen { return StaleEpoch; }
      if stateSeen != Open { return NotOpen; }
      if rowSeen.None? { return Missing; }
      var row := rowSeen.value;
      var scope := FromDict(row.scope);
      if scope.None? { return DigestInvalid; }
      var expected := Sha256(row.body);
      if expected != row.digest || expected != reference.digest { return DigestInvalid; }
      if row.epoch != reference.epoch || row.scope != reference.scope || row.body.scope != ToDict(scope.value) { return DigestInvalid; }
      if row.revokedAt.Some? { return IsRevoked; }
      if now >= row.expiresAt { return Expired; }
      if !NamesGiven(request) { return EmptyName; }
      if !Permits(scope.value, StripRequest(request)) { return ScopeDenied; }
      return Accepted;
    }
  }

  // ----- what later stores keep

  /** A row as issued: everything but the revocation mark. */
  predicate SameIssue(a: Row, b: Row) { a.(revokedAt := None) == b.(revokedAt := None) }

  /** Rows are never removed or rewritten, revocation is never undone, epochs only grow,
      and one epoch has one state. */
  ghost predicate Later(s: Store, s': Store) {
    && s.epoch <= s'.epoch
    && (s.epoch == s'.epoch ==> s.state == s'.state)
    && forall k :: k in s.rows ==>
        k in s'.rows && SameIssue(s.rows[k], s'.rows[k]) && (s.rows[k].revokedAt.Some? ==> s'.rows[k].revokedAt.Some?)
  }

  lemma IssueIsLater(s: Store, kind: string, id: string, scope: Scope, expiresAt: int, now: int, authorityId: string)
    ensures Later(s, ApplyIssue(s, kind, id, scope, expiresAt, now, authorityId).0)
  {
    hide ToDict;
  }

  lemma RevokeIsLater(s: Store, r: Reference, now: int)
    ensures Later(s, ApplyRevoke(s, r, now).0)
  {
  }

  lemma CallIsLater(s: Store, call: Call)
    ensures Later(s, Apply(s, call).0)
  {
    hide ApplyIssue, ApplyRevoke, ParseState, IsSha256;
    match call
    case Issue(kind, id, scope, expiresAt, now, authorityId) =>
      IssueIsLater(s, Strip(kind), Strip(id), scope, expiresAt, now, authorityId);
    case AdvanceEpoch(reasonDigest, state) =>
    case Revoke(reference, now) => RevokeIsLater(s, reference, now);
  }

  lemma LaterReflexive(s: Store)
    ensures Later(s, s)
  {
  }

  lemma LaterTransitive(a: Store, b: Store, c: Store)
    requires Later(a, b) && Later(b, c)
    ensures Later(a, c)
  {
  }

  /** Any sequence of transactions, whoever makes them. */
  function AfterCalls(s: Store, calls: seq<Call>): Store
    decreases |calls|
  {
    if calls == [] then s else AfterCalls(Apply(s, calls[0]).0, calls[1..])
  }

  lemma {:induction false} RunsAreLater(s: Store, calls: seq<Call>)
    ensures Later(s, AfterCalls(s, calls))
    decreases |calls|
  {
    if calls != [] {
      CallIsLater(s, calls[0]);
      RunsAreLater(Apply(s, calls[0]).0, calls[1..]);
      LaterTransitive(s, Apply(s, calls[0]).0, AfterCalls(s, calls));
    }
  }

  /** `scope` came out of the scope constructor. */
  ghost predicate Built(scope: Scope) { exists raw :: Construct(raw) == Some(scope) }

  /** The reference is one that `issue` returned for `scope`, here or in an earlier store. */
  ghost predicate IssuedIn(s: Store, r: Reference, scope: Scope) {
    && r.Key() in s.rows
    && (var row := s.rows[r.Key()];
        && ReferenceTo(row) == r && row.digest == Sha256(row.body) && row.body.expiresAt == row.expiresAt
        && row.scope == row.body.scope == ToDict(scope) && row.epoch <= s.epoch)
    && Built(scope)
  }

  lemma IssueIsRecorded(s: Store, call: Call)
    requires call.Issue? && Apply(s, call).1.Issued? && Built(call.scope)
    ensures var (s', reply) := Apply(s, call);
            && IssuedIn(s', reply.reference, call.scope)
            && reply.reference.Key() !in s.rows
            && s'.rows[reply.reference.Key()].expiresAt == call.expiresAt && s'.rows[reply.reference.Key()].revokedAt.None?
            && reply.reference.epoch == s.epoch == s'.epoch && s'.state == Open
            && reply.reference.kind == Strip(call.kind) && reply.reference.id == Strip(call.id)
            && forall k :: k in s.rows && k.kind == reply.reference.kind && k.id == reply.reference.id ==> k.revision < reply.reference.revision
  {
    hide ToDict, Strip, Built, ApplyIssue;
    IssueWrites(s, Strip(call.kind), Strip(call.id), call.scope, call.expiresAt, call.now, call.authorityId);
  }

  lemma IssueWrites(s: Store, kind: string, id: string, scope: Scope, expiresAt: int, now: int, authorityId: string)
    requires ApplyIssue(s, kind, id, scope, expiresAt, now, authorityId).1.Issued? && Built(scope)
    ensures var (s', reply) := ApplyIssue(s, kind, id, scope, expiresAt, now, authorityId);
            && IssuedIn(s', reply.reference, scope)
            && reply.reference.Key() !in s.rows
            && s'.rows[reply.reference.Key()].expiresAt == expiresAt && s'.rows[reply.reference.Key()].revokedAt.None?
            && reply.reference.epoch == s.epoch == s'.epoch && s'.state == Open
            && reply.reference.kind == kind && reply.reference.id == id
            && forall k :: k in s.rows && k.kind == kind && k.id == id ==> k.revision < reply.reference.revision
  {
    hide ToDict, Built;
    var row := NewRow(s, kind, id, scope, expiresAt, now, authorityId);
    var s' := s.(rows := s.rows[RowKey(kind, id, row.body.revision) := row]);
    assert ApplyIssue(s, kind, id, scope, expiresAt, now, authorityId) == (s', Issued(ReferenceTo(row)));
    assert ReferenceTo(row).Key() == RowKey(kind, id, row.body.revision) && s'.rows[ReferenceTo(row).Key()] == row;
  }

  lemma IssuedStays(s: Store, s': Store, r: Reference, scope: Scope)
    requires Later(s, s') && IssuedIn(s, r, scope)
    ensures IssuedIn(s', r, scope)
  {
  }

  lemma BuiltReadsBack(scope: Scope)
    requires Built(scope)
    ensures FromDict(ToDict(scope)) == if CaseDistinct(scope) then Some(scope) else None
  {
    var raw :| Construct(raw) == Some(scope);
    DocumentRoundTrip(raw);
  }

  /** The reference is good for the request at this instant. */
  ghost predicate Good(s: Store, r: Reference, scope: Scope, q: Request, now: int) {
    && s.epoch == r.epoch && s.state == Open
    && r.Key() in s.rows && s.rows[r.Key()].revokedAt.None? && now < s.rows[r.Key()].expiresAt
    && NamesGiven(q)
    && Permits(scope, StripRequest(q))
  }

  /** With nothing running in between, an issued reference verifies exactly while it is good,
      provided its scope's digests stayed distinct after lower-casing; otherwise it never verifies. */
  lemma IssuedVerifiesIff(s: Store, r: Reference, scope: Scope, q: Request, now: int)
    requires IssuedIn(s, r, scope)
    ensures Verify(s, r, q, now) == Accepted <==> CaseDistinct(scope) && Good(s, r, scope, q, now)
  {
    hide ToDict, FromDict, Permits, CaseDistinct, Construct, NamesGiven, StripRequest;
    BuiltReadsBack(scope);
  }

  /** An advance opens the new epoch only by the word for it; every other known word closes it, and an unknown one is refused. */
  lemma AdvanceTakesState(s: Store, reasonDigest: string, state: string)
    ensures var (s', reply) := Apply(s, AdvanceEpoch(reasonDigest, state));
            if IsSha256(Lower(reasonDigest)) && Strip(state) in {"open", "hold", "suspended", "revoked"}
            then reply == Advanced(s.epoch + 1) && s'.epoch == s.epoch + 1 && s'.rows == s.rows
                 && (s'.state == Open <==> Strip(state) == "open") && (s'.state == Hold <==> Strip(state) == "hold")
                 && (s'.state == Suspended <==> Strip(state) == "suspended") && (s'.state == Revoked <==> Strip(state) == "revoked")
            else reply == ValueError && s' == s
  {
    hide Strip, Lower, IsSha256;
  }

  /** Once the epoch moves past a reference, no later store ever verifies it again. */
  lemma AdvanceIsFinal(s: Store, reasonDigest: string, state: string, calls: seq<Call>, r: Reference, q: Request, now: int)
    requires Apply(s, AdvanceEpoch(reasonDigest, state)).1.Advanced? && r.epoch <= s.epoch
    ensures var advanced := Apply(s, AdvanceEpoch(reasonDigest, state)).0;
            Verify(AfterCalls(advanced, calls), r, q, now) == StaleEpoch
  {
    RunsAreLater(Apply(s, AdvanceEpoch(reasonDigest, state)).0, calls);
  }

  /** A revoked reference never verifies again either. */
  lemma RevokeIsFinal(s: Store, r: Reference, at: int, calls: seq<Call>, q: Request, now: int)
    requires Apply(s, Revoke(r, at)).1.RevokeDone?
    ensures Verify(AfterCalls(Apply(s, Revoke(r, at)).0, calls), r, q, now) != Accepted
  {
    RunsAreLater(Apply(s, Revoke(r, at)).0, calls);
  }
}

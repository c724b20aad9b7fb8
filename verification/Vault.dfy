/** The create-once candidate vault (candidate_vault.py): captures that race, crash and are retried, as steps over a
    directory of hard-linked files and one database table. Nothing is purged. */
module Vault {
  import opened Text

  /** `<provider>/<run>/answer.bin`, or the temporary file beside it. */
  datatype Name = Target(provider: string, run: string) | Temp(uuid: string)

  /** A digest that determines its bytes. */
  datatype Digest = Sha256(of: Bytes)

  datatype Job = Job(provider: string, run: string, data: Bytes, task: string, approval: Option<string>)

  datatype CaptureRecord = CaptureRecord(id: string, run: string, provider: string, sha256: Digest, count: nat, path: Name,
                             task: string, approval: Option<string>, capturedAt: int)

  /** Where a call of `capture` stands. */
  datatype Phase =
    | Looking                                              // before the existence check
    | Comparing                                            // the target existed
    | Creating                                             // it did not
    | Writing(temp: Name, inode: nat, written: nat)
    | Linking(temp: Name, inode: nat)
    | ComparingWinner(temp: Name)                          // the link found the target taken
    | ReadingBack(temp: Name)
    | Unlinking(temp: Name, good: bool)                    // the `finally` clause
    | Recording                                            // before the database transaction
    | Captured(record: CaptureRecord)
    | Failed
    | Crashed

  datatype Racer = Racer(job: Job, phase: Phase)

  /** Directory entries, file contents by inode, identifiers handed out, `candidate_captures` by run, and the calls. */
  datatype World = World(names: map<Name, nat>, inodes: seq<Bytes>, used: set<string>, captures: map<string, CaptureRecord>,
                         racers: map<nat, Racer>)

  datatype Event =
    | Begin(id: nat, job: Job)
    | Look(id: nat)
    | Compare(id: nat)
    | Create(id: nat, uuid: string)
    | Write(id: nat, count: nat)
    | Sync(id: nat)
    | IoFails(id: nat)
    | Link(id: nat)
    | CompareWinner(id: nat)
    | ReadBack(id: nat)
    | Unlink(id: nat)
    | Record(id: nat, captureId: string, at: int)
    | Crash(id: nat)

  predicate SafeComponent(s: string) { SafeId(s, 128) && ':' !in s }

  predicate ValidJob(j: Job) {
    && SafeComponent(j.provider) && IsUuid4(j.run) && IsSha256(j.task) && (j.approval.Some? ==> IsSha256(j.approval.value))
  }

  function Normalised(j: Job): Job {
    j.(run := Lower(j.run), task := Lower(j.task), approval := if j.approval.Some? then Some(Lower(j.approval.value)) else None)
  }

  function TargetOf(j: Job): Name { Target(j.provider, j.run) }

  predicate Reads(w: World, n: Name, data: Bytes) {
    n in w.names && w.names[n] < |w.inodes| && w.inodes[w.names[n]] == data
  }

  function Move(w: World, id: nat, phase: Phase): World
    requires id in w.racers
  {
    w.(racers := w.racers[id := w.racers[id].(phase := phase)])
  }

  function BeginAt(w: World, id: nat, job: Job): World {
    var j := Normalised(job);
    w.(racers := w.racers[id := Racer(j, if ValidJob(j) then Looking else Failed)])
  }

  function CreateAt(w: World, id: nat, uuid: string): World
    requires id in w.racers
  {
    var temp := Temp(uuid);
    Move(w.(names := w.names[temp := |w.inodes|], inodes := w.inodes + [[]], used := w.used + {uuid}), id,
         Writing(temp, |w.inodes|, 0))
  }

  function WriteAt(w: World, id: nat, count: nat): World
    requires id in w.racers && w.racers[id].phase.Writing?
  {
    var r := w.racers[id];
    var i, n := r.phase.inode, r.phase.written + count;
    if i < |w.inodes| && n <= |r.job.data| then
      Move(w.(inodes := w.inodes[i := w.inodes[i] + r.job.data[n - count..n]]), id, Writing(r.phase.temp, i, n))
    else w
  }

  function LinkAt(w: World, id: nat): World
    requires id in w.racers && w.racers[id].phase.Linking?
  {
    var r := w.racers[id];
    var target := TargetOf(r.job);
    if target in w.names then Move(w, id, ComparingWinner(r.phase.temp))
    else if r.phase.temp !in w.names then Move(w, id, Unlinking(r.phase.temp, false))
    else Move(w.(names := w.names[target := w.names[r.phase.temp]]), id, ReadingBack(r.phase.temp))
  }

  function UnlinkAt(w: World, id: nat): World
    requires id in w.racers && w.racers[id].phase.Unlinking?
  {
    var p := w.racers[id].phase;
    Move(w.(names := w.names - {p.temp}), id, if p.good then Recording else Failed)
  }

  predicate Matches(c: CaptureRecord, j: Job) {
    && c.run == j.run && c.provider == j.provider && c.sha256 == Sha256(j.data) && c.count == |j.data| && c.path == TargetOf(j)
    && c.task == j.task && c.approval == j.approval
  }

  function RecordOf(j: Job, captureId: string, at: int): CaptureRecord {
    CaptureRecord(captureId, j.run, j.provider, Sha256(j.data), |j.data|, TargetOf(j), j.task, j.approval, at)
  }

  function RecordAt(w: World, id: nat, captureId: string, at: int): World
    requires id in w.racers
  {
    var j := w.racers[id].job;
    if j.run in w.captures then
      Move(w, id, if Matches(w.captures[j.run], j) then Captured(w.captures[j.run]) else Failed)
    else
      var c := RecordOf(j, captureId, at);
      Move(w.(captures := w.captures[j.run := c], used := w.used + {captureId}), id, Captured(c))
  }

  /** A step that only looks at the disk. */
  function Looked(w: World, r: Racer, e: Event): Phase {
    var target := TargetOf(r.job);
    match (e, r.phase)
    case (Look(_), Looking) => if target in w.names then Comparing else Creating
    case (Compare(_), Comparing) => if Reads(w, target, r.job.data) then Recording else Failed
    case (Sync(_), Writing(temp, i, n)) => if n == |r.job.data| then Linking(temp, i) else r.phase
    case (IoFails(_), Writing(temp, _, _)) => Unlinking(temp, false)
    case (IoFails(_), Linking(temp, _)) => Unlinking(temp, false)
    case (CompareWinner(_), ComparingWinner(temp)) =>
      if Reads(w, target, r.job.data) then ReadingBack(temp) else Unlinking(temp, false)
    case (ReadBack(_), ReadingBack(temp)) => Unlinking(temp, Reads(w, target, r.job.data))
    case (Crash(_), p) => if p.Captured? || p.Failed? then p else Crashed
    case (_, p) => p
  }

  /** One step. An event that its call is not ready for, or an identifier handed out before, changes nothing. */
  function Apply(w: World, e: Event): World {
    if e.Begin? then (if e.id in w.racers then w else BeginAt(w, e.id, e.job))
    else if e.id !in w.racers then w
    else
      var p := w.racers[e.id].phase;
      match e
      case Create(id, uuid) => if p.Creating? && uuid !in w.used then CreateAt(w, id, uuid) else w
      case Write(id, count) => if p.Writing? then WriteAt(w, id, count) else w
      case Link(id) => if p.Linking? then LinkAt(w, id) else w
      case Unlink(id) => if p.Unlinking? then UnlinkAt(w, id) else w
      case Record(id, captureId, at) => if p.Recording? && captureId !in w.used then RecordAt(w, id, captureId, at) else w
      case _ => Move(w, e.id, Looked(w, w.racers[e.id], e))
  }

  function Run(w: World, events: seq<Event>): World
    decreases |events|
  {
    if events == [] then w else Run(Apply(w, events[0]), events[1..])
  }

  const EMPTY := World(map[], [], {}, map[], map[])

  // ----- the invariant

  function TempOf(r: Racer): Option<Name> {
    match r.phase
    case Writing(temp, _, _) => Some(temp)
    case Linking(temp, _) => Some(temp)
    case ComparingWinner(temp) => Some(temp)
    case ReadingBack(temp) => Some(temp)
    case Unlinking(temp, _) => Some(temp)
    case _ => None
  }

  /** The only directory entry of an inode. */
  ghost predicate OnlyName(w: World, inode: nat, n: Name) { forall m :: m in w.names && w.names[m] == inode ==> m == n }

  ghost predicate PhaseInv(w: World, r: Racer) {
    var j := r.job;
    match r.phase
    case Comparing => TargetOf(j) in w.names
    case Writing(temp, i, n) => n <= |j.data| && Reads(w, temp, j.data[..n]) && w.names[temp] == i && OnlyName(w, i, temp)
    case Linking(temp, i) => Reads(w, temp, j.data)
    case ComparingWinner(temp) => TargetOf(j) in w.names
    case ReadingBack(temp) => Reads(w, TargetOf(j), j.data)
    case Unlinking(temp, good) => good ==> Reads(w, TargetOf(j), j.data)
    case Recording => Reads(w, TargetOf(j), j.data)
    case Captured(c) => Reads(w, TargetOf(j), j.data) && j.run in w.captures && w.captures[j.run] == c && Matches(c, j)
    case _ => true
  }

  predicate TempUsed(w: World, r: Racer) { TempOf(r).Some? ==> TempOf(r).value.Temp? && TempOf(r).value.uuid in w.used }

  ghost predicate NamesInv(w: World) {
    forall n :: n in w.names ==> w.names[n] < |w.inodes| && (n.Temp? ==> n.uuid in w.used)
  }

  ghost predicate RacersInv(w: World) {
    forall id :: id in w.racers ==> PhaseInv(w, w.racers[id]) && TempUsed(w, w.racers[id])
  }

  ghost predicate TempsDiffer(w: World) {
    forall a, b :: a in w.racers && b in w.racers && a != b && TempOf(w.racers[a]).Some? ==>
      TempOf(w.racers[a]) != TempOf(w.racers[b])
  }

  /** Some call for this provider and run was given exactly the bytes of the target. */
  ghost predicate Sourced(w: World, target: Name) {
    exists id :: id in w.racers && TargetOf(w.racers[id].job) == target && Reads(w, target, w.racers[id].job.data)
  }

  ghost predicate TargetsInv(w: World) { forall n :: n in w.names && n.Target? ==> Sourced(w, n) }

  /** A stored capture describes the file of some call. */
  ghost predicate CaptureInv(w: World, run: string, c: CaptureRecord) {
    c.run == run && c.id in w.used
    && exists id :: id in w.racers && Matches(c, w.racers[id].job) && Reads(w, c.path, w.racers[id].job.data)
  }

  ghost predicate CapturesInv(w: World) {
    && (forall run :: run in w.captures ==> CaptureInv(w, run, w.captures[run]))
    && (forall a, b :: a in w.captures && b in w.captures && w.captures[a].id == w.captures[b].id ==> a == b)
  }

  ghost predicate Inv(w: World) {
    NamesInv(w) && RacersInv(w) && TempsDiffer(w) && TargetsInv(w) && CapturesInv(w)
  }

  // ----- what one step may do to the others

  /** Only the step's own temporary file may go, only an inode that it alone names may change, and a new name has a new
      inode or that of the step's temporary file. */
  ghost predicate Gentle(w: World, w': World, own: Option<Name>) {
    && (own.Some? ==> own.value.Temp?)
    && (forall n :: n in w.names ==> if n in w'.names then w'.names[n] == w.names[n] else Some(n) == own)
    && |w.inodes| <= |w'.inodes|
    && (forall i :: 0 <= i < |w.inodes| ==> w'.inodes[i] == w.inodes[i] || OwnInode(w, i, own))
    && (forall n :: n in w'.names && n !in w.names ==>
          w'.names[n] >= |w.inodes| || (own.Some? && own.value in w.names && w'.names[n] == w.names[own.value]))
    && (forall run :: run in w.captures ==> run in w'.captures && w'.captures[run] == w.captures[run])
    && w.used <= w'.used
  }

  ghost predicate OwnInode(w: World, i: nat, own: Option<Name>) {
    own.Some? && own.value in w.names && w.names[own.value] == i && OnlyName(w, i, own.value)
  }

  lemma ReadsKept(w: World, w': World, own: Option<Name>, n: Name, data: Bytes)
    requires Gentle(w, w', own) && Reads(w, n, data) && Some(n) != own
    ensures Reads(w', n, data) && w'.names[n] == w.names[n]
  {
    assert !OwnInode(w, w.names[n], own);
  }

  lemma OnlyNameKept(w: World, w': World, own: Option<Name>, i: nat, n: Name)
    requires Gentle(w, w', own) && NamesInv(w) && i < |w.inodes| && OnlyName(w, i, n) && Some(n) != own
    ensures OnlyName(w', i, n)
  {
    assert !OwnInode(w, i, own) || own == Some(n);
  }

  lemma PhaseKept(w: World, w': World, own: Option<Name>, r: Racer)
    requires Gentle(w, w', own) && NamesInv(w) && PhaseInv(w, r)
    requires own.Some? ==> TempOf(r) != own
    ensures PhaseInv(w', r)
  {
    hide Gentle, NamesInv, OnlyName, Reads;
    var target := TargetOf(r.job);
    OwnIsTemp(w, w', own);
    match r.phase
    case Writing(temp, i, n) =>
      ReadsKept(w, w', own, temp, r.job.data[..n]);
      InRange(w, temp, r.job.data[..n]);
      OnlyNameKept(w, w', own, i, temp);
    case Linking(temp, i) => ReadsKept(w, w', own, temp, r.job.data);
    case Comparing => NameKept(w, w', own, target);
    case ComparingWinner(temp) => NameKept(w, w', own, target);
    case ReadingBack(temp) => ReadsKept(w, w', own, target, r.job.data);
    case Unlinking(temp, good) => if good { ReadsKept(w, w', own, target, r.job.data); }
    case Recording => ReadsKept(w, w', own, target, r.job.data);
    case Captured(c) =>
      ReadsKept(w, w', own, target, r.job.data);
      CaptureKept(w, w', own, r.job.run);
    case _ =>
  }

  lemma OwnIsTemp(w: World, w': World, own: Option<Name>)
    requires Gentle(w, w', own)
    ensures own.Some? ==> own.value.Temp?
  {
  }

  lemma InRange(w: World, n: Name, data: Bytes)
    requires Reads(w, n, data)
    ensures n in w.names && w.names[n] < |w.inodes|
  {
  }

  lemma NameKept(w: World, w': World, own: Option<Name>, n: Name)
    requires Gentle(w, w', own) && n in w.names && Some(n) != own
    ensures n in w'.names
  {
  }

  lemma CaptureKept(w: World, w': World, own: Option<Name>, run: string)
    requires Gentle(w, w', own) && run in w.captures
    ensures run in w'.captures && w'.captures[run] == w.captures[run]
  {
  }

  /** The jobs of the calls do not change. */
  ghost predicate SameJobs(w: World, w': World) {
    forall id :: id in w.racers ==> id in w'.racers && w'.racers[id].job == w.racers[id].job
  }

  lemma SourcedKept(w: World, w': World, own: Option<Name>, n: Name)
    requires Gentle(w, w', own) && SameJobs(w, w') && n.Target? && Sourced(w, n)
    ensures Sourced(w', n)
  {
    hide Gentle, Reads;
    OwnIsTemp(w, w', own);
    var id :| id in w.racers && TargetOf(w.racers[id].job) == n && Reads(w, n, w.racers[id].job.data);
    ReadsKept(w, w', own, n, w.racers[id].job.data);
  }

  lemma CaptureInvKept(w: World, w': World, own: Option<Name>, run: string, c: CaptureRecord)
    requires Gentle(w, w', own) && SameJobs(w, w') && CaptureInv(w, run, c) && w.used <= w'.used
    ensures CaptureInv(w', run, c)
  {
    hide Gentle, Reads;
    OwnIsTemp(w, w', own);
    var id :| id in w.racers && Matches(c, w.racers[id].job) && Reads(w, c.path, w.racers[id].job.data);
    ReadsKept(w, w', own, c.path, w.racers[id].job.data);
  }

  /** A step of call `id` keeps the invariant when it is gentle to the others, its own new phase is right, and what it
      adds to the directory and the table is. */
  lemma StepKeepsInv(w: World, w': World, id: nat, own: Option<Name>)
    requires Inv(w) && Gentle(w, w', own) && id in w.racers && id in w'.racers
    requires w'.racers == w.racers[id := w'.racers[id]] && w'.racers[id].job == w.racers[id].job
    requires own.Some? ==> own == TempOf(w.racers[id])
    requires PhaseInv(w', w'.racers[id]) && TempUsed(w', w'.racers[id])
    requires var t := TempOf(w'.racers[id]);
             t.None? || t == TempOf(w.racers[id]) || (t.value.Temp? && t.value.uuid !in w.used)
    requires NamesInv(w') && w.used <= w'.used
    requires forall n :: n in w'.names && n !in w.names && n.Target? ==> Sourced(w', n)
    requires w'.captures == w.captures || CapturesInv(w')
    ensures Inv(w')
  {
    hide Gentle, PhaseInv, CaptureInv, Sourced, NamesInv, Matches;
    forall other | other in w'.racers ensures PhaseInv(w', w'.racers[other]) && TempUsed(w', w'.racers[other]) {
      if other != id { PhaseKept(w, w', own, w.racers[other]); }
    }
    forall n | n in w'.names && n.Target? ensures Sourced(w', n) {
      if n in w.names { SourcedKept(w, w', own, n); }
    }
    if w'.captures == w.captures {
      forall run | run in w'.captures ensures CaptureInv(w', run, w'.captures[run]) {
        CaptureInvKept(w, w', own, run, w.captures[run]);
      }
    }
  }

  // ----- each step

  lemma InvFacts(w: World, id: nat)
    requires Inv(w) && id in w.racers
    ensures NamesInv(w) && PhaseInv(w, w.racers[id]) && TempUsed(w, w.racers[id])
  {
  }

  lemma MoveIsGentle(w: World, id: nat, phase: Phase)
    requires id in w.racers
    ensures Gentle(w, Move(w, id, phase), None)
  {
  }

  /** A step that changes only the phase. */
  lemma MoveKeepsInv(w: World, id: nat, phase: Phase)
    requires Inv(w) && id in w.racers
    requires PhaseInv(w, w.racers[id].(phase := phase))
    requires var t := TempOf(w.racers[id].(phase := phase)); t.None? || t == TempOf(w.racers[id])
    ensures Inv(Move(w, id, phase))
  {
    hide Inv, RacersInv, TempsDiffer, TargetsInv, CapturesInv, CaptureInv, Sourced, Gentle, PhaseInv;
    InvFacts(w, id);
    var w' := Move(w, id, phase);
    MoveIsGentle(w, id, phase);
    PhaseKept(w, w', None, w.racers[id].(phase := phase));
    StepKeepsInv(w, w', id, None);
  }

  lemma LookedIsRight(w: World, id: nat, e: Event)
    requires Inv(w) && id in w.racers
    ensures var r := w.racers[id].(phase := Looked(w, w.racers[id], e));
            PhaseInv(w, r) && (TempOf(r).None? || TempOf(r) == TempOf(w.racers[id]))
  {
    hide Inv, Reads, OnlyName, NamesInv, RacersInv, TempsDiffer, TargetsInv, CapturesInv;
    InvFacts(w, id);
    var data := w.racers[id].job.data;
    assert data[..|data|] == data;
  }

  lemma BeginKeepsInv(w: World, id: nat, job: Job)
    requires Inv(w) && id !in w.racers
    ensures Inv(BeginAt(w, id, job))
  {
    hide Inv, RacersInv, TempsDiffer, TargetsInv, CapturesInv, CaptureInv, Sourced, Gentle, PhaseInv, NamesInv;
    hide Normalised, ValidJob;
    var w' := BeginAt(w, id, job);
    BeginIsGentle(w, id, job);
    AddRacer(w, w', id);
  }

  lemma BeginIsGentle(w: World, id: nat, job: Job)
    requires id !in w.racers
    ensures Gentle(w, BeginAt(w, id, job), None)
  {
    hide Normalised, ValidJob;
  }

  lemma EasyPhase(w: World, r: Racer)
    requires r.phase in {Looking, Failed}
    ensures PhaseInv(w, r) && TempUsed(w, r)
  {
  }

  lemma AddRacer(w: World, w': World, id: nat)
    requires Inv(w) && Gentle(w, w', None) && id !in w.racers && id in w'.racers
    requires w' == w.(racers := w.racers[id := w'.racers[id]]) && w'.racers[id].phase in {Looking, Failed}
    ensures Inv(w')
  {
    hide Gentle, PhaseInv, CaptureInv, Sourced, Matches;
    forall other | other in w'.racers ensures PhaseInv(w', w'.racers[other]) && TempUsed(w', w'.racers[other]) {
      if other != id { PhaseKept(w, w', None, w.racers[other]); } else { EasyPhase(w', w'.racers[other]); }
    }
    forall n | n in w'.names && n.Target? ensures Sourced(w', n) { SourcedKept(w, w', None, n); }
    forall run | run in w'.captures ensures CaptureInv(w', run, w'.captures[run]) {
      CaptureInvKept(w, w', None, run, w.captures[run]);
    }
  }

  lemma CreateKeepsInv(w: World, id: nat, uuid: string)
    requires Inv(w) && id in w.racers && uuid !in w.used
    ensures Inv(CreateAt(w, id, uuid)) && Gentle(w, CreateAt(w, id, uuid), None)
  {
    hide Inv, RacersInv, TempsDiffer, TargetsInv, CapturesInv, CaptureInv, Sourced;
    InvFacts(w, id);
    var w' := CreateAt(w, id, uuid);
    assert Temp(uuid) !in w.names;
    assert Gentle(w, w', None);
    assert w'.racers[id].job.data[..0] == [];
    StepKeepsInv(w, w', id, None);
  }

  lemma WriteKeepsInv(w: World, id: nat, count: nat)
    requires Inv(w) && id in w.racers && w.racers[id].phase.Writing?
    ensures Inv(WriteAt(w, id, count)) && Gentle(w, WriteAt(w, id, count), TempOf(w.racers[id]))
  {
    hide Inv, RacersInv, TempsDiffer, TargetsInv, CapturesInv, CaptureInv, Sourced;
    InvFacts(w, id);
    var r := w.racers[id];
    var w' := WriteAt(w, id, count);
    if w' != w {
      var n := r.phase.written;
      assert r.job.data[..n] + r.job.data[n..n + count] == r.job.data[..n + count];
      assert OwnInode(w, r.phase.inode, TempOf(r));
      StepKeepsInv(w, w', id, TempOf(r));
    }
  }

  lemma SourcedBy(w: World, id: nat)
    requires id in w.racers && Reads(w, TargetOf(w.racers[id].job), w.racers[id].job.data)
    ensures Sourced(w, TargetOf(w.racers[id].job))
  {
  }

  lemma LinkKeepsInv(w: World, id: nat)
    requires Inv(w) && id in w.racers && w.racers[id].phase.Linking?
    ensures Inv(LinkAt(w, id)) && Gentle(w, LinkAt(w, id), TempOf(w.racers[id]))
  {
    hide Inv, RacersInv, TempsDiffer, TargetsInv, CapturesInv, CaptureInv, Sourced;
    InvFacts(w, id);
    var r := w.racers[id];
    var w' := LinkAt(w, id);
    if TargetOf(r.job) !in w.names { SourcedBy(w', id); }
    StepKeepsInv(w, w', id, TempOf(r));
  }

  lemma UnlinkKeepsInv(w: World, id: nat)
    requires Inv(w) && id in w.racers && w.racers[id].phase.Unlinking?
    ensures Inv(UnlinkAt(w, id)) && Gentle(w, UnlinkAt(w, id), TempOf(w.racers[id]))
  {
    hide Inv, RacersInv, TempsDiffer, TargetsInv, CapturesInv, CaptureInv, Sourced;
    InvFacts(w, id);
    var r := w.racers[id];
    var w' := UnlinkAt(w, id);
    StepKeepsInv(w, w', id, TempOf(r));
  }

  lemma RecordIsGentle(w: World, id: nat, captureId: string, at: int)
    requires id in w.racers
    ensures Gentle(w, RecordAt(w, id, captureId, at), None)
  {
    hide Matches;
  }

  lemma RecordKeepsInv(w: World, id: nat, captureId: string, at: int)
    requires Inv(w) && id in w.racers && w.racers[id].phase.Recording? && captureId !in w.used
    ensures Inv(RecordAt(w, id, captureId, at)) && Gentle(w, RecordAt(w, id, captureId, at), None)
  {
    hide Inv, RacersInv, TempsDiffer, TargetsInv, CapturesInv, CaptureInv, Sourced;
    InvFacts(w, id);
    var r := w.racers[id];
    var w' := RecordAt(w, id, captureId, at);
    RecordIsGentle(w, id, captureId, at);
    hide Gentle, OnlyName;
    if r.job.run !in w.captures { NewCapture(w, w', id, RecordOf(r.job, captureId, at)); }
    StepKeepsInv(w, w', id, None);
  }

  lemma NewCapture(w: World, w': World, id: nat, c: CaptureRecord)
    requires Inv(w) && Gentle(w, w', None) && SameJobs(w, w') && id in w.racers
    requires Matches(c, w.racers[id].job) && Reads(w', c.path, w.racers[id].job.data)
    requires c.run !in w.captures && c.id !in w.used && w'.captures == w.captures[c.run := c] && w'.used == w.used + {c.id}
    ensures CapturesInv(w')
  {
    hide Gentle, RacersInv, NamesInv, TempsDiffer, TargetsInv;
    forall run | run in w'.captures ensures CaptureInv(w', run, w'.captures[run]) {
      if run != c.run { CaptureInvKept(w, w', None, run, w.captures[run]); }
    }
    assert forall run :: run in w.captures ==> CaptureInv(w, run, w.captures[run]);
  }

  lemma MoveIsSafe(w: World, e: Event)
    requires Inv(w) && e.id in w.racers
    ensures var w' := Move(w, e.id, Looked(w, w.racers[e.id], e)); Inv(w') && Gentle(w, w', None)
  {
    hide Inv, PhaseInv, Gentle, Looked;
    LookedIsRight(w, e.id, e);
    MoveKeepsInv(w, e.id, Looked(w, w.racers[e.id], e));
    MoveIsGentle(w, e.id, Looked(w, w.racers[e.id], e));
  }

  /** The step's own temporary file, if it is one that touches it. */
  function OwnOf(w: World, e: Event): Option<Name> {
    if e.id in w.racers && (e.Write? || e.Link? || e.Unlink?) then TempOf(w.racers[e.id]) else None
  }

  /** Every step keeps the invariant and is gentle to the other calls. */
  lemma StepIsSafe(w: World, e: Event)
    requires Inv(w)
    ensures Inv(Apply(w, e)) && (Gentle(w, Apply(w, e), OwnOf(w, e)) || Gentle(w, Apply(w, e), None))
  {
    hide Inv, Gentle, BeginAt, CreateAt, WriteAt, LinkAt, UnlinkAt, RecordAt, Looked, TempOf;
    NothingIsGentle(w);
    if e.Begin? {
      if e.id !in w.racers {
        BeginKeepsInv(w, e.id, e.job);
        BeginIsGentle(w, e.id, e.job);
      }
    } else if e.id in w.racers {
      var p := w.racers[e.id].phase;
      match e
      case Create(id, uuid) => if p.Creating? && uuid !in w.used { CreateKeepsInv(w, id, uuid); }
      case Write(id, count) => if p.Writing? { WriteKeepsInv(w, id, count); }
      case Link(id) => if p.Linking? { LinkKeepsInv(w, id); }
      case Unlink(id) => if p.Unlinking? { UnlinkKeepsInv(w, id); }
      case Record(id, captureId, at) => if p.Recording? && captureId !in w.used { RecordKeepsInv(w, id, captureId, at); }
      case _ => MoveIsSafe(w, e);
    }
  }

  lemma NothingIsGentle(w: World)
    ensures Gentle(w, w, None)
  {
  }

  // ----- runs

  predicate Ended(p: Phase) { p.Captured? || p.Failed? || p.Crashed? }

  /** What no later step undoes: linked bytes, stored captures, and the outcome of every call. */
  ghost predicate Later(w: World, w': World) {
    && (forall n: Name, data: Bytes :: n.Target? && Reads(w, n, data) ==> Reads(w', n, data))
    && (forall run :: run in w.captures ==> run in w'.captures && w'.captures[run] == w.captures[run])
    && SameJobs(w, w')
    && (forall id :: id in w.racers && Ended(w.racers[id].phase) ==> w'.racers[id] == w.racers[id])
  }

  lemma GentleIsLater(w: World, w': World, own: Option<Name>)
    requires Gentle(w, w', own) && RacersLater(w, w')
    ensures Later(w, w')
  {
    hide Reads;
    forall n: Name, data: Bytes | n.Target? && Reads(w, n, data) ensures Reads(w', n, data) { ReadsKept(w, w', own, n, data); }
  }

  ghost predicate RacersLater(w: World, w': World) {
    && SameJobs(w, w')
    && forall id :: id in w.racers && Ended(w.racers[id].phase) ==> w'.racers[id] == w.racers[id]
  }

  /** Changing the phase of one call that has not ended. */
  lemma ChangedOne(w: World, w': World, id: nat)
    requires id in w.racers && id in w'.racers && w'.racers == w.racers[id := w'.racers[id]]
    requires w'.racers[id].job == w.racers[id].job
    requires Ended(w.racers[id].phase) ==> w'.racers[id].phase == w.racers[id].phase
    ensures RacersLater(w, w')
  {
  }

  lemma Unchanged(w: World)
    ensures RacersLater(w, w)
  {
  }

  lemma BegunOne(w: World, id: nat, job: Job)
    requires id !in w.racers
    ensures RacersLater(w, BeginAt(w, id, job))
  {
    hide Normalised, ValidJob;
  }

  lemma StepRacers(w: World, e: Event)
    ensures RacersLater(w, Apply(w, e))
  {
    hide RacersLater;
    Unchanged(w);
    if e.Begin? {
      if e.id !in w.racers { BegunOne(w, e.id, e.job); }
    } else if e.id in w.racers {
      OnlyItsRacer(w, e);
      hide Apply;
      ChangedOne(w, Apply(w, e), e.id);
    }
  }

  /** A step moves one call, unless it has ended. */
  lemma OnlyItsRacer(w: World, e: Event)
    requires !e.Begin? && e.id in w.racers
    ensures var w' := Apply(w, e);
            && e.id in w'.racers && w'.racers == w.racers[e.id := w'.racers[e.id]] && w'.racers[e.id].job == w.racers[e.id].job
            && (Ended(w.racers[e.id].phase) ==> w'.racers[e.id].phase == w.racers[e.id].phase)
  {
    hide Reads, Matches, Looked, RecordOf;
    LookedEnded(w, e);
    assert w.racers[e.id := w.racers[e.id]] == w.racers;
  }

  lemma LookedEnded(w: World, e: Event)
    ensures forall r: Racer :: Ended(r.phase) ==> Looked(w, r, e) == r.phase
  {
    hide Reads;
  }

  lemma StepIsLater(w: World, e: Event)
    requires Inv(w)
    ensures Inv(Apply(w, e)) && Later(w, Apply(w, e))
  {
    hide Inv, Gentle, Apply, Later, RacersLater;
    StepIsSafe(w, e);
    StepRacers(w, e);
    if Gentle(w, Apply(w, e), None) { GentleIsLater(w, Apply(w, e), None); }
    else { GentleIsLater(w, Apply(w, e), OwnOf(w, e)); }
  }

  lemma LaterReflexive(w: World)
    ensures Later(w, w)
  {
  }

  lemma LaterTransitive(a: World, b: World, c: World)
    requires Later(a, b) && Later(b, c)
    ensures Later(a, c)
  {
    hide Reads;
  }

  lemma {:induction false} RunIsLater(w: World, events: seq<Event>)
    requires Inv(w)
    ensures Inv(Run(w, events)) && Later(w, Run(w, events))
    decreases |events|
  {
    hide Inv, Apply, Later;
    if events == [] {
      LaterReflexive(w);
    } else {
      StepIsLater(w, events[0]);
      RunIsLater(Apply(w, events[0]), events[1..]);
      LaterTransitive(w, Apply(w, events[0]), Run(w, events));
    }
  }

  lemma EmptyInv()
    ensures Inv(EMPTY)
  {
  }

  /** Whatever the interleaving and the crashes, a target file is absent or holds exactly the bytes one of the calls for
      it was given, and its bytes never change afterwards. */
  lemma TargetAbsentOrComplete(events: seq<Event>, more: seq<Event>, provider: string, run: string)
    requires Target(provider, run) in Run(EMPTY, events).names
    ensures var w := Run(EMPTY, events);
            exists id :: id in w.racers && TargetOf(w.racers[id].job) == Target(provider, run)
                         && Reads(w, Target(provider, run), w.racers[id].job.data)
                         && Reads(Run(w, more), Target(provider, run), w.racers[id].job.data)
  {
    hide Run, Reads, RacersInv, NamesInv, TempsDiffer, CapturesInv;
    var w := Run(EMPTY, events);
    EmptyInv();
    RunIsLater(EMPTY, events);
    RunIsLater(w, more);
    assert Sourced(w, Target(provider, run));
    var id :| id in w.racers && TargetOf(w.racers[id].job) == Target(provider, run)
              && Reads(w, Target(provider, run), w.racers[id].job.data);
    assert Reads(Run(w, more), Target(provider, run), w.racers[id].job.data);
  }

  /** All successful captures of one run were given the same bytes and provenance and return the same record. */
  lemma SuccessesAgree(events: seq<Event>, a: nat, b: nat)
    requires var w := Run(EMPTY, events);
             && a in w.racers && b in w.racers && w.racers[a].phase.Captured? && w.racers[b].phase.Captured?
             && w.racers[a].job.run == w.racers[b].job.run
    ensures var w := Run(EMPTY, events); w.racers[a] == w.racers[b]
  {
    hide Run, Reads, NamesInv, TempsDiffer, CapturesInv, TargetsInv;
    EmptyInv();
    RunIsLater(EMPTY, events);
    var w := Run(EMPTY, events);
    assert PhaseInv(w, w.racers[a]) && PhaseInv(w, w.racers[b]);
  }

  /** Once a capture of a run has succeeded, a call for the run with other bytes or other provenance never succeeds. */
  lemma OthersNeverSucceed(events: seq<Event>, more: seq<Event>, winner: nat, loser: nat)
    requires var w, w' := Run(EMPTY, events), Run(Run(EMPTY, events), more);
             && winner in w.racers && w.racers[winner].phase.Captured? && loser in w'.racers
             && w'.racers[loser].job.run == w.racers[winner].job.run && w'.racers[loser].job != w.racers[winner].job
    ensures !Run(Run(EMPTY, events), more).racers[loser].phase.Captured?
  {
    hide Run, Inv;
    EmptyInv();
    RunIsLater(EMPTY, events);
    RunIsLater(Run(EMPTY, events), more);
    RunConcat(EMPTY, events, more);
    if Run(Run(EMPTY, events), more).racers[loser].phase.Captured? { SuccessesAgree(events + more, winner, loser); }
  }

  lemma {:induction false} RunConcat(w: World, events: seq<Event>, more: seq<Event>)
    ensures Run(w, events + more) == Run(Run(w, events), more)
    decreases |events|
  {
    hide Apply;
    if events == [] {
      assert events + more == more;
    } else {
      assert (events + more)[1..] == events[1..] + more;
      RunConcat(Apply(w, events[0]), events[1..], more);
    }
  }

  // ----- reading a capture back

  datatype ReadResult = Answer(data: Bytes) | CandidateConflict

  /** The capture row of an id; ids are a primary key. */
  ghost predicate HasId(w: World, run: string, captureId: string) { run in w.captures && w.captures[run].id == captureId }

  function ReadFile(w: World, c: CaptureRecord): ReadResult {
    if c.path in w.names && w.names[c.path] < |w.inodes| then
      var data := w.inodes[w.names[c.path]];
      if |data| != c.count || Sha256(data) != c.sha256 then CandidateConflict else Answer(data)
    else CandidateConflict
  }

  ghost function Read(w: World, captureId: string): ReadResult {
    if run: string :| HasId(w, run, captureId) then ReadFile(w, w.captures[run]) else CandidateConflict
  }

  /** After a successful capture, `read` of its id returns exactly the captured bytes for ever. */
  lemma ReadReturnsCaptured(events: seq<Event>, more: seq<Event>, id: nat)
    requires var w := Run(EMPTY, events); id in w.racers && w.racers[id].phase.Captured?
    ensures var w := Run(EMPTY, events);
            Read(Run(w, more), w.racers[id].phase.record.id) == Answer(w.racers[id].job.data)
  {
    hide Run, NamesInv, TempsDiffer, TargetsInv, OnlyName;
    EmptyInv();
    var w := Run(EMPTY, events);
    RunIsLater(EMPTY, events);
    RunIsLater(w, more);
    var w', r := Run(w, more), w.racers[id];
    CapturedFacts(w, id);
    assert HasId(w', r.job.run, r.phase.record.id);
    assert Reads(w', TargetOf(r.job), r.job.data);
  }

  lemma CapturedFacts(w: World, id: nat)
    requires Inv(w) && id in w.racers && w.racers[id].phase.Captured?
    ensures var r := w.racers[id];
            && Reads(w, TargetOf(r.job), r.job.data) && r.job.run in w.captures
            && w.captures[r.job.run] == r.phase.record && Matches(r.phase.record, r.job)
  {
    InvFacts(w, id);
  }

  /** Every stored capture can be read, and gives the bytes some call was given. */
  lemma StoredCapturesRead(events: seq<Event>, run: string)
    requires run in Run(EMPTY, events).captures
    ensures var w := Run(EMPTY, events);
            exists id :: id in w.racers && w.racers[id].job.run == run && Read(w, w.captures[run].id) == Answer(w.racers[id].job.data)
  {
    hide Run, NamesInv, TempsDiffer, TargetsInv, RacersInv;
    EmptyInv();
    RunIsLater(EMPTY, events);
    var w := Run(EMPTY, events);
    assert CaptureInv(w, run, w.captures[run]);
    var id :| id in w.racers && Matches(w.captures[run], w.racers[id].job) && Reads(w, w.captures[run].path, w.racers[id].job.data);
    assert HasId(w, run, w.captures[run].id);
    assert forall other :: HasId(w, other, w.captures[run].id) ==> other == run;
    assert Read(w, w.captures[run].id) == Answer(w.racers[id].job.data);
  }

  // ----- a call left alone

  /** `_write_once` from the existence check to the end of its `finally` clause, nobody else moving. */
  function WriteOnceAlone(w: World, id: nat, uuid: string, count: nat): World {
    var looked := Apply(Apply(w, Look(id)), Compare(id));
    var written := Apply(Apply(Apply(looked, Create(id, uuid)), Write(id, count)), Sync(id));
    var linked := Apply(Apply(written, Link(id)), CompareWinner(id));
    Apply(Apply(linked, ReadBack(id)), Unlink(id))
  }

  function CaptureAlone(w: World, id: nat, job: Job, uuid: string, captureId: string, at: int): World {
    Apply(WriteOnceAlone(Apply(w, Begin(id, job)), id, uuid, |job.data|), Record(id, captureId, at))
  }

  lemma SamePhase(w: World, id: nat)
    requires id in w.racers
    ensures Move(w, id, w.racers[id].phase) == w
  {
    assert w.racers[id := w.racers[id]] == w.racers;
  }

  /** A call past the write, or refused before it, ignores the rest of the sequence. */
  lemma PastWriting(w: World, id: nat, uuid: string, count: nat)
    requires id in w.racers && w.racers[id].phase in {Recording, Failed}
    ensures Apply(w, Look(id)) == w && Apply(w, Compare(id)) == w && Apply(w, Create(id, uuid)) == w
    ensures Apply(w, Write(id, count)) == w && Apply(w, Sync(id)) == w && Apply(w, Link(id)) == w
    ensures Apply(w, CompareWinner(id)) == w && Apply(w, ReadBack(id)) == w && Apply(w, Unlink(id)) == w
  {
    hide Reads, CreateAt, WriteAt, LinkAt, UnlinkAt, RecordAt, TargetOf;
    SamePhase(w, id);
  }

  lemma MoveTwice(w: World, id: nat, p: Phase, q: Phase)
    requires id in w.racers
    ensures Move(Move(w, id, p), id, q) == Move(w, id, q)
  {
    assert w.racers[id := w.racers[id].(phase := p)][id := w.racers[id].(phase := q)] == w.racers[id := w.racers[id].(phase := q)];
  }

  function AfterLook(w: World, r: Racer): Phase {
    if TargetOf(r.job) !in w.names then Creating else if Reads(w, TargetOf(r.job), r.job.data) then Recording else Failed
  }

  lemma LookAndCompare(w: World, id: nat)
    requires id in w.racers && w.racers[id].phase.Looking?
    ensures Apply(Apply(w, Look(id)), Compare(id)) == Move(w, id, AfterLook(w, w.racers[id]))
  {
    hide Reads;
    var a := Move(w, id, if TargetOf(w.racers[id].job) in w.names then Comparing else Creating);
    assert Apply(w, Look(id)) == a;
    assert Reads(a, TargetOf(w.racers[id].job), w.racers[id].job.data) == Reads(w, TargetOf(w.racers[id].job), w.racers[id].job.data)
      by { ReadsMoved(w, id, a.racers[id].phase); }
    MoveTwice(w, id, a.racers[id].phase, AfterLook(w, w.racers[id]));
  }

  lemma ReadsMoved(w: World, id: nat, p: Phase)
    requires id in w.racers
    ensures forall n: Name, data: Bytes :: Reads(Move(w, id, p), n, data) == Reads(w, n, data)
  {
  }

  lemma WriteWhenPresent(w: World, id: nat, uuid: string, count: nat)
    requires id in w.racers && w.racers[id].phase.Looking? && TargetOf(w.racers[id].job) in w.names
    ensures WriteOnceAlone(w, id, uuid, count) == Move(w, id, AfterLook(w, w.racers[id]))
  {
    hide Reads, Apply;
    LookAndCompare(w, id);
    PastWriting(Move(w, id, AfterLook(w, w.racers[id])), id, uuid, count);
  }

  /** The world once the temporary file of call `id` holds its bytes. */
  function Filled(w: World, id: nat, uuid: string): World
    requires id in w.racers
  {
    Move(w.(names := w.names[Temp(uuid) := |w.inodes|], inodes := w.inodes + [w.racers[id].job.data], used := w.used + {uuid}),
         id, Linking(Temp(uuid), |w.inodes|))
  }

  lemma CreateAndFill(w: World, id: nat, uuid: string)
    requires id in w.racers && w.racers[id].phase.Creating? && uuid !in w.used
    ensures Apply(Apply(Apply(w, Create(id, uuid)), Write(id, |w.racers[id].job.data|)), Sync(id)) == Filled(w, id, uuid)
  {
    hide Reads;
    var data := w.racers[id].job.data;
    var a := Apply(w, Create(id, uuid));
    assert a.inodes[|w.inodes|] + data[0..|data|] == data;
    assert a.inodes[|w.inodes| := data] == w.inodes + [data];
    assert WriteAt(a, id, |data|).inodes == w.inodes + [data];
  }

  lemma WriteWhenAbsent(w: World, id: nat, uuid: string)
    requires NamesInv(w) && uuid !in w.used
    requires id in w.racers && w.racers[id].phase.Looking? && TargetOf(w.racers[id].job) !in w.names
    ensures var j := w.racers[id].job;
            WriteOnceAlone(w, id, uuid, |j.data|)
            == Move(w.(names := w.names[TargetOf(j) := |w.inodes|], inodes := w.inodes + [j.data], used := w.used + {uuid}), id, Recording)
  {
    hide Apply, Reads;
    LookAndCompare(w, id);
    var looked := Move(w, id, Creating);
    CreateAndFill(looked, id, uuid);
    assert Temp(uuid) !in w.names;
    var filled := Filled(looked, id, uuid);
    LinkFilled(filled, id, uuid);
    var linked := Move(filled.(names := filled.names[TargetOf(w.racers[id].job) := |w.inodes|]), id, ReadingBack(Temp(uuid)));
    HoldsData(linked, TargetOf(w.racers[id].job));
    FinishLinked(linked, id, uuid);
    assert linked.names - {Temp(uuid)} == w.names[TargetOf(w.racers[id].job) := |w.inodes|];
    assert Move(linked.(names := linked.names - {Temp(uuid)}), id, Recording).racers
        == w.racers[id := w.racers[id].(phase := Recording)];
  }

  lemma LinkFilled(w: World, id: nat, uuid: string)
    requires id in w.racers && w.racers[id].phase.Linking? && w.racers[id].phase.temp == Temp(uuid) && Temp(uuid) in w.names
    requires TargetOf(w.racers[id].job) !in w.names
    ensures Apply(Apply(w, Link(id)), CompareWinner(id))
         == Move(w.(names := w.names[TargetOf(w.racers[id].job) := w.names[Temp(uuid)]]), id, ReadingBack(Temp(uuid)))
  {
    hide Reads;
    SamePhase(Apply(w, Link(id)), id);
  }

  lemma HoldsData(w: World, n: Name)
    requires n in w.names && w.names[n] < |w.inodes|
    ensures Reads(w, n, w.inodes[w.names[n]])
  {
  }

  lemma FinishLinked(w: World, id: nat, uuid: string)
    requires id in w.racers && w.racers[id].phase == ReadingBack(Temp(uuid))
    requires Reads(w, TargetOf(w.racers[id].job), w.racers[id].job.data)
    ensures Apply(Apply(w, ReadBack(id)), Unlink(id)) == Move(w.(names := w.names - {Temp(uuid)}), id, Recording)
  {
    hide Reads;
    var a := Move(w, id, Unlinking(Temp(uuid), true));
    assert Apply(w, ReadBack(id)) == a;
    MoveTwice(w, id, Unlinking(Temp(uuid), true), Recording);
  }

  /** What a call left alone leaves behind: the file if it was absent, the row if there was none, and its result. */
  lemma AloneOutcome(w: World, id: nat, job: Job, uuid: string, captureId: string, at: int)
    requires NamesInv(w) && id !in w.racers && uuid !in w.used && captureId !in w.used && captureId != uuid
    ensures var w', j := CaptureAlone(w, id, job, uuid, captureId, at), Normalised(job);
            var absent, written := ValidJob(j) && TargetOf(j) !in w.names, Written(w, j);
            && w'.names == (if absent then w.names[TargetOf(j) := |w.inodes|] else w.names)
            && w'.inodes == (if absent then w.inodes + [j.data] else w.inodes)
            && w'.captures == (if written && j.run !in w.captures then w.captures[j.run := RecordOf(j, captureId, at)] else w.captures)
            && id in w'.racers && w'.racers[id].phase == Recorded(w, j, written, captureId, at)
  {
    hide Normalised, ValidJob, Reads, Matches, WriteOnceAlone, NamesInv;
    var begun := BeginAt(w, id, job);
    var j := Normalised(job);
    BegunSame(w, id, job);
    if !ValidJob(j) {
      RefusedAtOnce(begun, id, uuid, |job.data|);
    } else if TargetOf(j) in w.names {
      WriteWhenPresent(begun, id, uuid, |job.data|);
    } else {
      WriteWhenAbsent(begun, id, uuid);
    }
  }

  /** The target is written, or was there with the same bytes. */
  predicate Written(w: World, j: Job) { ValidJob(j) && (TargetOf(j) in w.names ==> Reads(w, TargetOf(j), j.data)) }

  function Recorded(w: World, j: Job, written: bool, captureId: string, at: int): Phase {
    if !written then Failed
    else if j.run !in w.captures then Captured(RecordOf(j, captureId, at))
    else if Matches(w.captures[j.run], j) then Captured(w.captures[j.run]) else Failed
  }

  /** A call that is neither disturbed nor crashed succeeds exactly when its arguments are valid, the target is absent or
      already holds its bytes, and the run has no capture or an identical one; otherwise it is refused. */
  lemma AloneSucceedsIff(w: World, id: nat, job: Job, uuid: string, captureId: string, at: int)
    requires Inv(w) && id !in w.racers && uuid !in w.used && captureId !in w.used && captureId != uuid
    ensures var w' := CaptureAlone(w, id, job, uuid, captureId, at);
            var j := Normalised(job);
            && id in w'.racers && (w'.racers[id].phase.Captured? || w'.racers[id].phase.Failed?)
            && (w'.racers[id].phase.Captured? <==>
                  && ValidJob(j) && (TargetOf(j) in w.names ==> Reads(w, TargetOf(j), j.data))
                  && (j.run in w.captures ==> Matches(w.captures[j.run], j)))
  {
    hide Normalised, ValidJob, Reads, Matches, CaptureAlone, Inv, NamesInv;
    NamesOf(w);
    AloneOutcome(w, id, job, uuid, captureId, at);
  }

  lemma RecordMatches(j: Job, captureId: string, at: int)
    ensures Matches(RecordOf(j, captureId, at), j)
  {
  }

  lemma RefusedAtOnce(w: World, id: nat, uuid: string, count: nat)
    requires id in w.racers && w.racers[id].phase.Failed?
    ensures WriteOnceAlone(w, id, uuid, count) == w
  {
    hide Apply;
    PastWriting(w, id, uuid, count);
  }

  lemma NamesOf(w: World)
    requires Inv(w)
    ensures NamesInv(w)
  {
  }

  lemma BegunSame(w: World, id: nat, job: Job)
    ensures var b := BeginAt(w, id, job);
            && (NamesInv(w) ==> NamesInv(b)) && |Normalised(job).data| == |job.data|
            && forall n: Name, data: Bytes :: Reads(b, n, data) == Reads(w, n, data)
  {
  }

  // ----- the store object, one call at a time

  /** The directory and the table as a process that is alone with them updates them. */
  class CandidateVault {
    var names: map<Name, nat>
    var inodes: seq<Bytes>
    var captures: map<string, CaptureRecord>

    ghost predicate Valid() reads this { forall n :: n in names ==> names[n] < |inodes| }

    function Holds(n: Name): (data: Option<Bytes>)
      requires Valid()
      reads this
    {
      if n in names then Some(inodes[names[n]]) else None
    }

    constructor ()
      ensures Valid() && names == map[] && captures == map[]
    {
      names, inodes, captures := map[], [], map[];
    }

    /** Creates the target or finds it holding the same bytes; leaves no temporary file and touches no other entry. */
    method WriteOnce(target: Name, data: Bytes, uuid: string) returns (ok: bool)
      requires Valid() && target.Target? && Temp(uuid) !in names
      modifies `names, `inodes
      ensures Valid()
      ensures ok <==> old(Holds(target)) in {None, Some(data)}
      ensures ok ==> Holds(target) == Some(data)
      ensures forall n :: (n != target || !ok) ==> Holds(n) == old(Holds(n))
      ensures names == if target in old(names) then old(names) else old(names)[target := |old(inodes)|]
      ensures inodes == if target in old(names) then old(inodes) else old(inodes) + [data]
    {
      if target in names {
        return inodes[names[target]] == data;
      }
      var temporary := Temp(uuid);
      names := names[temporary := |inodes|];
      inodes := inodes + [data];
      names := names[target := names[temporary]];
      ok := inodes[names[target]] == data;
      names := names - {temporary};
    }

    /** The directory and the table are those of the world. */
    ghost predicate Stands(w: World)
      reads this
    {
      w.names == names && w.inodes == inodes && w.captures == captures
    }

    /** `capture`. It is the undisturbed run of the step machine: the same files, the same rows, the same result. */
    method Capture(ghost w: World, ghost id: nat, job: Job, uuid: string, captureId: string, at: int)
      returns (record: Option<CaptureRecord>)
      requires Stands(w) && NamesInv(w) && id !in w.racers && uuid !in w.used && captureId !in w.used && captureId != uuid
      modifies this
      ensures Valid()
      ensures var w' := CaptureAlone(w, id, job, uuid, captureId, at);
              Stands(w') && id in w'.racers
              && w'.racers[id].phase == if record.Some? then Captured(record.value) else Failed
      ensures var j := Normalised(job);
              && (record.Some? <==> ValidJob(j) && old(Holds(TargetOf(j))) in {None, Some(j.data)}
                                    && (j.run in old(captures) ==> Matches(old(captures[j.run]), j)))
              && (record.Some? ==> Matches(record.value, j) && Holds(TargetOf(j)) == Some(j.data)
                                   && captures == old(captures)[j.run := record.value])
              && (record.None? ==> captures == old(captures))
              && (forall n :: n != TargetOf(j) ==> Holds(n) == old(Holds(n)))
              && (old(Holds(TargetOf(j))).Some? ==> Holds(TargetOf(j)) == old(Holds(TargetOf(j))))
    {
      hide ValidJob, Normalised, CaptureAlone, Matches;
      AloneOutcome(w, id, job, uuid, captureId, at);
      var j := Normalised(job);
      if !ValidJob(j) { return None; }
      var ok := WriteOnce(TargetOf(j), j.data, uuid);
      if !ok { return None; }
      if j.run in captures {
        if !Matches(captures[j.run], j) { return None; }
        assert captures[j.run := captures[j.run]] == captures;
        return Some(captures[j.run]);
      }
      var row := RecordOf(j, captureId, at);
      RecordMatches(j, captureId, at);
      captures := captures[j.run := row];
      return Some(row);
    }

    /** Serves the bytes exactly when the file is there with the recorded length and digest. */
    method ReadBytes(record: CaptureRecord) returns (data: Option<Bytes>)
      requires Valid()
      ensures data == if Holds(record.path).Some? && Sha256(Holds(record.path).value) == record.sha256
                         && |Holds(record.path).value| == record.count
                      then Holds(record.path) else None
    {
      if record.path !in names || |inodes[names[record.path]]| != record.count { return None; }
      var bytes := inodes[names[record.path]];
      if Sha256(bytes) != record.sha256 { return None; }
      return Some(bytes);
    }
  }
}

/** Whole histories of a profile: ledgers that open, close, fail and crash, owners that outlive
    their ledger, and the process groups they leave behind. */
module JobHistory {
  import opened Prelude
  import opened Invocation
  import opened JobLedger
  import opened JobOwner

  /** A process group launched for `job`. It counts as live until its cleanup is confirmed. */
  datatype Group = Group(job: JobId, status: ChildStatus)

  /** `launching` holds between the durable launch record and the publication of the child: the
      interval in which the ledger's launch lock is held for reading. */
  datatype Capability = Capability(ledger: LedgerId, owner: Owner, launching: bool)

  datatype World = World(
    disk: Disk,
    ledgers: map<LedgerId, View>,
    owners: map<JobId, Capability>,
    groups: map<GroupId, Group>,
    nextLedger: LedgerId,
    nextJob: JobId,
    nextGroup: GroupId)

  const Fresh := World(Disk(map[], None), map[], map[], map[], 0, 0, 0)

  datatype Event =
    | NewLedgerObject
    | OpenLedger(ledger: LedgerId, env: Opening)
    | ReserveJob(ledger: LedgerId, scope: Scope, kind: Kind, key: string, env: Opening, w: WriteOutcome)
    | BeginStart(job: JobId, w: WriteOutcome)
    | SpawnChild(job: JobId, answer: Answer)
    | GroupEnds(group: GroupId, confirmed: bool)
    | FinishJob(job: JobId, env: Opening, w: WriteOutcome)
    | CloseLedger(ledger: LedgerId)
    | Crash(ledger: LedgerId)

  datatype Answer = Yes | No | Maybe

  function StatusOf(w: World, o: Owner): ChildStatus {
    if o.child.Some? && o.child.value in w.groups then w.groups[o.child.value].status else Settled
  }

  predicate Launching(w: World, l: LedgerId) {
    exists j <- w.owners :: w.owners[j].ledger == l && w.owners[j].launching
  }

  function SpawnOf(answer: Answer, g: GroupId): Spawn {
    match answer
    case Yes => Started(g)
    case No => NotStarted
    case Maybe => StartUncertain(g)
  }

  // Events that cannot happen now leave the world unchanged: `Finish` waits for a running child and
  // for a launch of the same owner, `Close` waits for every launch of the ledger, and no one can
  // report the end of a group whose supervisor is gone.

  function Hold(w: World, l: LedgerId, v: View, d: Disk): World {
    w.(ledgers := w.ledgers[l := v], disk := d)
  }

  function SetOwner(w: World, j: JobId, c: Capability): World {
    w.(owners := w.owners[j := c])
  }

  function OpenStep(w: World, l: LedgerId, env: Opening): World {
    if l !in w.ledgers then w else
    var (v, d, _) := Initialize(w.ledgers[l], w.disk, l, env);
    Hold(w, l, v, d)
  }

  function ReserveStep(w: World, l: LedgerId, scope: Scope, kind: Kind, key: string, env: Opening, o: WriteOutcome): World {
    if l !in w.ledgers then w else
    var id := w.nextJob;
    var (v, d, fault) := Reserve(w.ledgers[l], w.disk, l, id, scope, kind, key, env, o);
    var w' := Hold(w, l, v, d).(nextJob := id + 1);
    if fault.Some? then w' else SetOwner(w', id, Capability(l, NewOwner(id), false))
  }

  function BeginStep(w: World, j: JobId, o: WriteOutcome): World {
    if j !in w.owners || w.owners[j].launching || w.owners[j].ledger !in w.ledgers then w else
    var c := w.owners[j];
    var (owner, allowed) := SettleChild(c.owner, StatusOf(w, c.owner));
    if allowed != Launched then SetOwner(w, j, c.(owner := owner)) else
    var (v, d, ready) := PrepareStart(w.ledgers[c.ledger], w.disk, j, o);
    SetOwner(Hold(w, c.ledger, v, d), j, Capability(c.ledger, owner, ready))
  }

  function SpawnStep(w: World, j: JobId, answer: Answer): World {
    if j !in w.owners || !w.owners[j].launching then w else
    var c := w.owners[j];
    var g := w.nextGroup;
    var w' := SetOwner(w, j, Capability(c.ledger, Publish(c.owner, SpawnOf(answer, g)).0, false)).(nextGroup := g + 1);
    if answer == No then w' else
    w'.(groups := w.groups[g := Group(j, if answer == Yes then Running else CleanupFailed)])
  }

  function EndStep(w: World, g: GroupId, confirmed: bool): World {
    if g !in w.groups || w.groups[g].status != Running || w.groups[g].job !in w.owners then w else
    w.(groups := w.groups[g := w.groups[g].(status := if confirmed then Settled else CleanupFailed)])
  }

  function FinishStep(w: World, j: JobId, env: Opening, o: WriteOutcome): World {
    if j !in w.owners || w.owners[j].launching || w.owners[j].ledger !in w.ledgers
       || w.owners[j].owner.closed || StatusOf(w, w.owners[j].owner) == Running then w else
    var c := w.owners[j];
    var owner := Closing(c.owner, StatusOf(w, c.owner));
    var (v, d, fault) := Finish(w.ledgers[c.ledger], w.disk, c.ledger, j, owner.uncertain, env, o);
    SetOwner(Hold(w, c.ledger, v, d), j, c.(owner := owner.(outcome := fault)))
  }

  function CloseStep(w: World, l: LedgerId): World {
    if l !in w.ledgers || Launching(w, l) then w else
    var (v, d) := Close(w.ledgers[l], w.disk);
    Hold(w, l, v, d)
  }

  function CrashStep(w: World, l: LedgerId): World {
    w.(ledgers := w.ledgers - {l},
       owners := map j | j in w.owners && w.owners[j].ledger != l :: w.owners[j],
       disk := if w.disk.holder == Some(l) then w.disk.(holder := None) else w.disk)
  }

  function Step(w: World, e: Event): World {
    match e
    case NewLedgerObject => w.(ledgers := w.ledgers[w.nextLedger := NewLedger], nextLedger := w.nextLedger + 1)
    case OpenLedger(l, env) => OpenStep(w, l, env)
    case ReserveJob(l, scope, kind, key, env, o) => ReserveStep(w, l, scope, kind, key, env, o)
    case BeginStart(j, o) => BeginStep(w, j, o)
    case SpawnChild(j, answer) => SpawnStep(w, j, answer)
    case GroupEnds(g, confirmed) => EndStep(w, g, confirmed)
    case FinishJob(j, env, o) => FinishStep(w, j, env, o)
    case CloseLedger(l) => CloseStep(w, l)
    case Crash(l) => CrashStep(w, l)
  }

  function Run(w: World, events: seq<Event>): World
    decreases |events|
  {
    if events == [] then w else Run(Step(w, events[0]), events[1..])
  }

  // ----- The invariant -----------------------------------------------------------------------

  predicate Live(g: Group) {
    g.status != Settled
  }

  predicate LockAgrees(w: World) {
    && (w.disk.holder.Some? ==> w.disk.holder.value in w.ledgers && w.ledgers[w.disk.holder.value].locked)
    && forall l <- w.ledgers ::
      && l < w.nextLedger
      && (w.ledgers[l].locked ==> w.disk.holder == Some(l) && !w.ledgers[l].closed && w.ledgers[l].jobs.Some?)
      && (Usable(w.ledgers[l]) ==> w.ledgers[l].locked && w.ledgers[l].jobs == Some(w.disk.file))
  }

  predicate OwnersAgree(w: World) {
    forall j <- w.owners ::
      var c := w.owners[j];
      && c.owner.id == j < w.nextJob && c.ledger in w.ledgers && w.ledgers[c.ledger].jobs.Some?
      && (c.owner.child.Some? ==> c.owner.child.value in w.groups && w.groups[c.owner.child.value].job == j)
      && (c.launching ==>
        && w.ledgers[c.ledger].locked && !c.owner.closed && !c.owner.uncertain && c.owner.child.None?
        && j in w.disk.file && w.disk.file[j].state == Occupied)
  }

  /** A live group is on record, and the owner that may still act knows about it. */
  predicate GroupsAgree(w: World) {
    forall g <- w.groups ::
      && g < w.nextGroup && w.groups[g].job < w.nextJob
      && (w.groups[g].job in w.disk.file ==> w.disk.file[w.groups[g].job].state != Reserved)
      && (Live(w.groups[g]) ==>
        var j := w.groups[g].job;
        && j in w.disk.file && w.disk.file[j].state != Reserved
        && (j in w.owners && !w.owners[j].owner.uncertain ==> w.owners[j].owner.child == Some(g)))
  }

  predicate OneGroupPerRecord(w: World) {
    forall g <- w.groups, h <- w.groups ::
      Live(w.groups[g]) && Live(w.groups[h]) && w.groups[g].job == w.groups[h].job ==> g == h
  }

  /** What every content of the file satisfies: the ceilings, and no work recorded twice. */
  predicate Bounded(file: Jobs) {
    && |file| <= CAPACITY && |Handoffs(file)| <= HANDOFF_CAPACITY
    && forall i <- file, j <- file ::
      SameWork(file[i], file[j].scope, file[j].kind, file[j].key) ==> i == j
  }

  predicate Inv(w: World) {
    && Bounded(w.disk.file)
    && (forall j <- w.disk.file :: j < w.nextJob)
    && LockAgrees(w) && OwnersAgree(w) && GroupsAgree(w) && OneGroupPerRecord(w)
  }

  // ----- Every step keeps it -------------------------------------------------------------------

  /** Jobs whose record must survive any write: a group of theirs may be alive or about to start. */
  predicate Committed(w: World, j: JobId) {
    || (exists g <- w.groups :: Live(w.groups[g]) && w.groups[g].job == j)
    || (j in w.owners && w.owners[j].launching)
  }

  /** The general write step: the one usable ledger replaces the file, or fails trying. */
  lemma WriteKeepsInv(w: World, l: LedgerId, v: View, file: Jobs)
    requires Inv(w) && l in w.ledgers && w.ledgers[l].locked && w.ledgers[l].jobs.Some?
    requires v.locked && !v.closed && v.jobs.Some? && (v.failed || v.jobs.value == file)
    requires Bounded(file) && forall j <- file :: j < w.nextJob
    requires forall j <- file :: file[j].state == Reserved ==>
      if j in w.disk.file then w.disk.file[j].state == Reserved else forall g <- w.groups :: w.groups[g].job != j
    requires forall j <- w.disk.file :: 
      Committed(w, j) ==>
        && j in file && file[j].state != Reserved
        && (j in w.owners && w.owners[j].launching ==> file[j].state == Occupied)
    ensures Inv(w.(ledgers := w.ledgers[l := v], disk := w.disk.(file := file)))
  {
    forall g <- w.groups | Live(w.groups[g]) ensures Committed(w, w.groups[g].job) {}
  }

  /** Dropping records and changing their states keeps a file within its bounds. */
  lemma ShrinkBounded(file: Jobs, less: Jobs)
    requires Bounded(file)
    requires forall j <- less :: j in file && file[j].(state := less[j].state) == less[j]
    ensures Bounded(less)
  {
    SubsetSize(less.Keys, file.Keys);
    SubsetSize(Handoffs(less), Handoffs(file));
  }

  lemma GrowBounded(file: Jobs, id: JobId, r: Record)
    requires Bounded(file) && id !in file && !Taken(file, r.scope, r.kind, r.key)
    requires |file| < CAPACITY && (r.kind == Handoff ==> |Handoffs(file)| < HANDOFF_CAPACITY)
    ensures Bounded(file[id := r])
  {
    var more := file[id := r];
    assert Handoffs(more) == if r.kind == Handoff then Handoffs(file) + {id} else Handoffs(file);
  }

  lemma SubsetSize<T>(a: set<T>, b: set<T>)
    requires a <= b
    ensures |a| <= |b|
  {
    if a != {} {
      var x :| x in a;
      SubsetSize(a - {x}, b - {x});
    }
  }

  /** Taking the free lock. Nobody can be launching: a launch keeps its own ledger's lock. */
  lemma AcquireKeepsInv(w: World, l: LedgerId, v: View)
    requires Inv(w) && l in w.ledgers && w.disk.holder.None?
    requires v.locked && !v.closed && v.jobs.Some? && (v.failed || v.jobs.value == w.disk.file)
    ensures Inv(Hold(w, l, v, w.disk.(holder := Some(l))))
    ensures forall j <- w.owners :: !w.owners[j].launching
  {
  }

  /** A refused opening only marks the ledger. */
  lemma FailKeepsInv(w: World, l: LedgerId)
    requires Inv(w) && l in w.ledgers
    ensures Inv(Hold(w, l, w.ledgers[l].(failed := true), w.disk))
  {
  }

  lemma UnopenedHoldsNoLock(w: World, l: LedgerId)
    requires Inv(w) && l in w.ledgers && w.ledgers[l].jobs.None?
    ensures !w.ledgers[l].locked
  {
  }

  lemma OpenKeepsInv(w: World, l: LedgerId, env: Opening)
    requires Inv(w)
    ensures Inv(OpenStep(w, l, env))
  {
    hide Inv;
    if l in w.ledgers {
      var before := w.ledgers[l];
      var (v, d, _) := Initialize(before, w.disk, l, env);
      if before.closed || before.failed || before.jobs.Some? {
        assert w.ledgers[l := v] == w.ledgers;
      } else {
        UnopenedHoldsNoLock(w, l);
        if !v.locked {
          FailKeepsInv(w, l);
        } else if d.file == w.disk.file {
          AcquireKeepsInv(w, l, v);
        } else {
          RecoveryKeepsInv(w, l, v, d);
        }
      }
    }
  }

  lemma RecoveryKeepsInv(w: World, l: LedgerId, v: View, d: Disk)
    requires Inv(w) && l in w.ledgers && w.disk.holder.None?
    requires v.locked && !v.closed && v.jobs == Some(Recovered(w.disk.file))
    requires d == Disk(Recovered(w.disk.file), Some(l))
    ensures Inv(Hold(w, l, v, d))
  {
    var acquired := Hold(w, l, View(Some(w.disk.file), false, false, true), w.disk.(holder := Some(l)));
    AcquireKeepsInv(w, l, acquired.ledgers[l]);
    ShrinkBounded(w.disk.file, d.file);
    WriteKeepsInv(acquired, l, v, d.file);
    assert acquired.ledgers[l := v] == w.ledgers[l := v];
  }

  lemma CountKeepsInv(w: World)
    requires Inv(w)
    ensures Inv(w.(nextJob := w.nextJob + 1))
    ensures !Committed(w, w.nextJob) && w.nextJob !in w.disk.file && w.nextJob !in w.owners
  {
  }

  lemma NewOwnerKeepsInv(w: World, j: JobId, l: LedgerId)
    requires Inv(w) && l in w.ledgers && w.ledgers[l].jobs.Some?
    requires j < w.nextJob && j !in w.owners && !Committed(w, j)
    ensures Inv(SetOwner(w, j, Capability(l, NewOwner(j), false)))
  {
  }

  lemma OpenedHasJobs(l: View, d: Disk, me: LedgerId, env: Opening)
    ensures var (l', _, ok) := Initialize(l, d, me, env); ok ==> l'.jobs.Some?
  {
  }

  /** Reserving is opening the ledger and then admitting the job. */
  lemma ReserveIsOpenThenAdmit(w: World, l: LedgerId, scope: Scope, kind: Kind, key: string, env: Opening, o: WriteOutcome)
    requires l in w.ledgers && ValidIdentity(scope, key)
    ensures ReserveStep(w, l, scope, kind, key, env, o) ==
      if Initialize(w.ledgers[l], w.disk, l, env).2 then AdmitStep(OpenStep(w, l, env), l, scope, kind, key, o)
      else OpenStep(w, l, env).(nextJob := w.nextJob + 1)
  {
    hide Admit, Initialize;
    OpenedHasJobs(w.ledgers[l], w.disk, l, env);
    var (v, d, ok) := Initialize(w.ledgers[l], w.disk, l, env);
    if ok {
      var (v', d', _) := Admit(v, d, v.jobs.value, w.nextJob, scope, kind, key, o);
      assert w.ledgers[l := v][l := v'] == w.ledgers[l := v'];
    }
  }

  lemma ReserveKeepsInv(w: World, l: LedgerId, scope: Scope, kind: Kind, key: string, env: Opening, o: WriteOutcome)
    requires Inv(w)
    ensures Inv(ReserveStep(w, l, scope, kind, key, env, o))
  {
    hide Inv;
    CountKeepsInv(w);
    if l in w.ledgers && !ValidIdentity(scope, key) {
      HoldSame(w, l);
    } else if l in w.ledgers {
      ReserveIsOpenThenAdmit(w, l, scope, kind, key, env, o);
      OpenKeepsInv(w, l, env);
      CountKeepsInv(OpenStep(w, l, env));
      if Initialize(w.ledgers[l], w.disk, l, env).2 {
        AdmitKeepsInv(OpenStep(w, l, env), l, scope, kind, key, o);
      }
    }
  }

  function AdmitStep(w: World, l: LedgerId, scope: Scope, kind: Kind, key: string, o: WriteOutcome): World
    requires l in w.ledgers && w.ledgers[l].jobs.Some?
  {
    var (v, d, fault) := Admit(w.ledgers[l], w.disk, w.ledgers[l].jobs.value, w.nextJob, scope, kind, key, o);
    var w' := Hold(w, l, v, d).(nextJob := w.nextJob + 1);
    if fault.Some? then w' else SetOwner(w', w.nextJob, Capability(l, NewOwner(w.nextJob), false))
  }

  lemma AdmitKeepsInv(w: World, l: LedgerId, scope: Scope, kind: Kind, key: string, o: WriteOutcome)
    requires Inv(w) && l in w.ledgers && Usable(w.ledgers[l])
    ensures Inv(AdmitStep(w, l, scope, kind, key, o))
  {
    hide Inv;
    var id := w.nextJob;
    var (v, d, fault) := Admit(w.ledgers[l], w.disk, w.ledgers[l].jobs.value, id, scope, kind, key, o);
    AdmitWriteKeepsInv(w, l, scope, kind, key, o);
    if fault.None? {
      NewOwnerKeepsInv(Hold(w, l, v, d).(nextJob := id + 1), id, l);
    }
  }

  lemma AdmitWriteKeepsInv(w: World, l: LedgerId, scope: Scope, kind: Kind, key: string, o: WriteOutcome)
    requires Inv(w) && l in w.ledgers && Usable(w.ledgers[l])
    ensures var (v, d, fault) := Admit(w.ledgers[l], w.disk, w.ledgers[l].jobs.value, w.nextJob, scope, kind, key, o);
      var written := Hold(w, l, v, d).(nextJob := w.nextJob + 1);
      && Inv(written) && v.jobs.Some? && w.nextJob !in w.owners && !Committed(written, w.nextJob)
  {
    hide Inv, Admit, Bounded;
    CountKeepsInv(w);
    UsableFacts(w, l);
    var id := w.nextJob;
    var counted := w.(nextJob := id + 1);
    AdmitWrites(w.ledgers[l], w.disk, id, scope, kind, key, o);
    var (v, d, fault) := Admit(w.ledgers[l], w.disk, w.disk.file, id, scope, kind, key, o);
    if v == w.ledgers[l] && d == w.disk {
      HoldSame(counted, l);
    } else {
      WriteKeepsInv(counted, l, v, d.file);
      assert Hold(w, l, v, d).(nextJob := w.nextJob + 1) == counted.(ledgers := counted.ledgers[l := v], disk := counted.disk.(file := d.file));
    }
  }

  lemma UsableFacts(w: World, l: LedgerId)
    requires Inv(w) && l in w.ledgers && Usable(w.ledgers[l])
    ensures w.ledgers[l].locked && w.ledgers[l].jobs == Some(w.disk.file) && Bounded(w.disk.file)
    ensures forall j <- w.disk.file :: j < w.nextJob
    ensures forall g <- w.groups :: w.groups[g].job < w.nextJob
    ensures forall j <- w.disk.file :: Committed(w, j) ==>
      && w.disk.file[j].state != Reserved
      && (j in w.owners && w.owners[j].launching ==> w.disk.file[j].state == Occupied)
  {
  }

  lemma AdmitWrites(l: View, d: Disk, id: JobId, scope: Scope, kind: Kind, key: string, o: WriteOutcome)
    requires Usable(l) && l.locked && l.jobs.value == d.file && Bounded(d.file)
    ensures var (v, d', fault) := Admit(l, d, d.file, id, scope, kind, key, o);
      && (fault.None? ==> v.jobs.Some?)
      && ((v, d') != (l, d) ==>
        && Bounded(d'.file) && Wrote(d, v, d', d.file[id := Record(scope, kind, key, Reserved)]))
      && ((v, d') == (l, d) || id !in d.file)
  {
    if !Taken(d.file, scope, kind, key) && |d.file| < CAPACITY
       && (kind == Handoff ==> |Handoffs(d.file)| < HANDOFF_CAPACITY) && id !in d.file {
      hide Save, Bounded;
      SaveWrites(l, d, d.file[id := Record(scope, kind, key, Reserved)], o);
      GrowBounded(d.file, id, Record(scope, kind, key, Reserved));
    }
  }

  lemma SetSettledOwner(w: World, j: JobId, owner: Owner)
    requires Inv(w) && j in w.owners && !w.owners[j].launching
    requires owner == SettleChild(w.owners[j].owner, StatusOf(w, w.owners[j].owner)).0
    ensures Inv(SetOwner(w, j, w.owners[j].(owner := owner)))
  {
    hide SettleChild;
    SettledFacts(w.owners[j].owner, StatusOf(w, w.owners[j].owner));
  }

  lemma SettledFacts(o: Owner, status: ChildStatus)
    ensures var o' := SettleChild(o, status).0;
      && o'.id == o.id && (o'.uncertain || !o.uncertain) && (o'.child == o.child || (o'.child.None? && status == Settled))
  {
  }

  /** Once the launch is on disk, marking the owner as launching is sound. */
  lemma MarkLaunching(w: World, j: JobId)
    requires Inv(w) && j in w.owners && j in w.disk.file && w.disk.file[j].state == Occupied
    requires var c := w.owners[j]; !c.owner.closed && !c.owner.uncertain && c.owner.child.None? && w.ledgers[c.ledger].locked
    ensures Inv(SetOwner(w, j, w.owners[j].(launching := true)))
  {
  }

  lemma BeginKeepsInv(w: World, j: JobId, o: WriteOutcome)
    requires Inv(w)
    ensures Inv(BeginStep(w, j, o))
  {
    hide Inv;
    if j in w.owners && !w.owners[j].launching && w.owners[j].ledger in w.ledgers {
      var c := w.owners[j];
      var (owner, allowed) := SettleChild(c.owner, StatusOf(w, c.owner));
      SetSettledOwner(w, j, owner);
      if allowed == Launched {
        var settled := SetOwner(w, j, c.(owner := owner));
        LaunchKeepsInv(settled, j, o);
        var (v, d, ready) := PrepareStart(w.ledgers[c.ledger], w.disk, j, o);
        var last := Capability(c.ledger, owner, ready);
        assert settled.owners[j := last] == w.owners[j := last];
      }
    }
  }

  /** The part of `BeginStep` after the previous child has been settled. */
  lemma LaunchKeepsInv(w: World, j: JobId, o: WriteOutcome)
    requires Inv(w) && j in w.owners && !w.owners[j].launching
    requires var owner := w.owners[j].owner; !owner.closed && !owner.uncertain && owner.child.None?
    ensures var c := w.owners[j];
      var (v, d, ready) := PrepareStart(w.ledgers[c.ledger], w.disk, j, o);
      Inv(SetOwner(Hold(w, c.ledger, v, d), j, c.(launching := ready)))
  {
    var c := w.owners[j];
    PrepareKeepsInv(w, j, o);
    var (v, d, ready) := PrepareStart(w.ledgers[c.ledger], w.disk, j, o);
    var written := Hold(w, c.ledger, v, d);
    if ready {
      MarkLaunching(written, j);
    } else {
      assert written.owners[j := c.(launching := ready)] == written.owners;
    }
  }

  lemma HoldSame(w: World, l: LedgerId)
    requires l in w.ledgers
    ensures Hold(w, l, w.ledgers[l], w.disk) == w
  {
    assert w.ledgers[l := w.ledgers[l]] == w.ledgers;
  }

  /** A ledger and its disk after a write that `file` stands for, whatever became of it. */
  predicate Wrote(d: Disk, v: View, d': Disk, file: Jobs) {
    && v.locked && !v.closed && v.jobs.Some? && (v.failed || v.jobs.value == d'.file)
    && d'.holder == d.holder && (d'.file == d.file || d'.file == file)
  }

  lemma SaveWrites(l: View, d: Disk, jobs: Jobs, o: WriteOutcome)
    requires Usable(l) && l.locked
    ensures var (v, d', ok) := Save(l, d, jobs, o); Wrote(d, v, d', jobs) && (ok ==> d'.file == jobs)
  {
  }

  lemma PrepareWrites(l: View, d: Disk, j: JobId, o: WriteOutcome)
    requires Usable(l) ==> l.jobs.value == d.file && l.locked && Bounded(d.file)
    ensures var (v, d', ready) := PrepareStart(l, d, j, o);
      && (ready ==> v.locked && j in d'.file && d'.file[j].state == Occupied)
      && ((v, d') != (l, d) ==>
        && j in d.file && d.file[j].state == Reserved && Bounded(d'.file)
        && Wrote(d, v, d', d.file[j := d.file[j].(state := Occupied)]))
  {
    if Usable(l) && j in d.file && d.file[j].state == Reserved {
      var next := d.file[j := d.file[j].(state := Occupied)];
      hide Save, Bounded;
      SaveWrites(l, d, next, o);
      ShrinkBounded(d.file, next);
    }
  }

  lemma PrepareKeepsInv(w: World, j: JobId, o: WriteOutcome)
    requires Inv(w) && j in w.owners && !w.owners[j].launching && w.owners[j].ledger in w.ledgers
    ensures var l := w.owners[j].ledger;
      var (v, d, ready) := PrepareStart(w.ledgers[l], w.disk, j, o);
      && Inv(Hold(w, l, v, d))
      && (ready ==> v.locked && j in d.file && d.file[j].state == Occupied)
  {
    hide Inv;
    var l := w.owners[j].ledger;
    var (v, d, ready) := PrepareStart(w.ledgers[l], w.disk, j, o);
    HoldSame(w, l);
    if Usable(w.ledgers[l]) {
      UsableFacts(w, l);
    }
    PrepareWrites(w.ledgers[l], w.disk, j, o);
    if (v, d) != (w.ledgers[l], w.disk) {
      WriteKeepsInv(w, l, v, d.file);
    }
  }

  lemma SpawnKeepsInv(w: World, j: JobId, answer: Answer)
    requires Inv(w)
    ensures Inv(SpawnStep(w, j, answer))
  {
    hide Inv;
    if j in w.owners && w.owners[j].launching {
      LaunchingFacts(w, j);
      NotLaunchingKeepsInv(w, j);
      var settled := SetOwner(w, j, w.owners[j].(launching := false)).(nextGroup := w.nextGroup + 1);
      if answer != No {
        NewGroupKeepsInv(settled, w.nextGroup, j, answer);
      }
      var c := Capability(w.owners[j].ledger, Publish(w.owners[j].owner, SpawnOf(answer, w.nextGroup)).0, false);
      assert settled.owners[j := c] == w.owners[j := c];
    }
  }

  lemma LaunchingFacts(w: World, j: JobId)
    requires Inv(w) && j in w.owners && w.owners[j].launching
    ensures var o := w.owners[j].owner; o.id == j && !o.closed && !o.uncertain && o.child.None?
    ensures j in w.disk.file && w.disk.file[j].state == Occupied
    ensures forall g <- w.groups :: w.groups[g].job == j ==> !Live(w.groups[g])
    ensures forall g <- w.groups :: g < w.nextGroup
  {
  }

  lemma NotLaunchingKeepsInv(w: World, j: JobId)
    requires Inv(w) && j in w.owners
    ensures Inv(SetOwner(w, j, w.owners[j].(launching := false)).(nextGroup := w.nextGroup + 1))
  {
  }

  lemma NewGroupKeepsInv(w: World, g: GroupId, j: JobId, answer: Answer)
    requires Inv(w) && j in w.owners && !w.owners[j].launching && answer != No
    requires g !in w.groups && g < w.nextGroup
    requires var o := w.owners[j].owner; !o.closed && !o.uncertain && o.child.None?
    requires j in w.disk.file && w.disk.file[j].state != Reserved
    requires forall h <- w.groups :: w.groups[h].job == j ==> !Live(w.groups[h])
    ensures Inv(SetOwner(w, j, w.owners[j].(owner := Publish(w.owners[j].owner, SpawnOf(answer, g)).0))
                .(groups := w.groups[g := Group(j, if answer == Yes then Running else CleanupFailed)]))
  {
  }

  lemma EndKeepsInv(w: World, g: GroupId, confirmed: bool)
    requires Inv(w)
    ensures Inv(EndStep(w, g, confirmed))
  {
  }

  lemma FinishKeepsInv(w: World, j: JobId, env: Opening, o: WriteOutcome)
    requires Inv(w)
    ensures Inv(FinishStep(w, j, env, o))
  {
    if FinishStep(w, j, env, o) != w {
      var c := w.owners[j];
      var owner := Closing(c.owner, StatusOf(w, c.owner));
      var (v, d, fault) := Finish(w.ledgers[c.ledger], w.disk, c.ledger, j, owner.uncertain, env, o);
      var closed := SetOwner(w, j, c.(owner := owner.(outcome := fault)));
      SetClosedOwner(w, j, owner.(outcome := fault));
      ReleaseKeepsInv(closed, j, owner.uncertain, env, o);
      assert Hold(closed, c.ledger, v, d) == FinishStep(w, j, env, o);
    }
  }

  lemma SetClosedOwner(w: World, j: JobId, owner: Owner)
    requires Inv(w) && j in w.owners && !w.owners[j].launching
    requires owner.(outcome := w.owners[j].owner.outcome) == Closing(w.owners[j].owner, StatusOf(w, w.owners[j].owner))
    requires StatusOf(w, w.owners[j].owner) != Running
    ensures Inv(SetOwner(w, j, w.owners[j].(owner := owner)))
    ensures !owner.uncertain ==> !Committed(w, j)
  {
  }

  lemma FinishWrites(l: View, d: Disk, me: LedgerId, j: JobId, uncertain: bool, env: Opening, o: WriteOutcome)
    requires l.jobs.Some? && (Usable(l) ==> l.jobs.value == d.file && l.locked && Bounded(d.file))
    ensures var (v, d', _) := Finish(l, d, me, j, uncertain, env, o);
      && ((v, d') != (l, d) ==>
        && Usable(l) && j in d.file && Bounded(d'.file)
        && Wrote(d, v, d', if uncertain then d.file[j := d.file[j].(state := Uncertain)] else d.file - {j}))
  {
    if Usable(l) && j in d.file {
      var next := if uncertain then d.file[j := d.file[j].(state := Uncertain)] else d.file - {j};
      hide Save, Bounded;
      SaveWrites(l, d, next, o);
      ShrinkBounded(d.file, next);
    }
  }

  lemma ReleaseKeepsInv(w: World, j: JobId, uncertain: bool, env: Opening, o: WriteOutcome)
    requires Inv(w) && j in w.owners && !w.owners[j].launching && (!uncertain ==> !Committed(w, j))
    requires w.owners[j].ledger in w.ledgers && w.ledgers[w.owners[j].ledger].jobs.Some?
    ensures var l := w.owners[j].ledger;
      var (v, d, _) := Finish(w.ledgers[l], w.disk, l, j, uncertain, env, o);
      Inv(Hold(w, l, v, d))
  {
    hide Inv;
    var l := w.owners[j].ledger;
    var (v, d, _) := Finish(w.ledgers[l], w.disk, l, j, uncertain, env, o);
    HoldSame(w, l);
    if Usable(w.ledgers[l]) {
      UsableFacts(w, l);
    }
    FinishWrites(w.ledgers[l], w.disk, l, j, uncertain, env, o);
    if (v, d) != (w.ledgers[l], w.disk) {
      WriteKeepsInv(w, l, v, d.file);
    }
  }

  lemma CloseKeepsInv(w: World, l: LedgerId)
    requires Inv(w)
    ensures Inv(CloseStep(w, l))
  {
  }

  lemma CrashKeepsInv(w: World, l: LedgerId)
    requires Inv(w)
    ensures Inv(CrashStep(w, l))
  {
  }

  lemma StepKeepsInv(w: World, e: Event)
    requires Inv(w)
    ensures Inv(Step(w, e))
  {
    hide Inv, OpenStep, ReserveStep, BeginStep, SpawnStep, EndStep, FinishStep, CloseStep, CrashStep;
    match e
    case NewLedgerObject => NewLedgerKeepsInv(w);
    case OpenLedger(l, env) => OpenKeepsInv(w, l, env);
    case ReserveJob(l, scope, kind, key, env, o) => ReserveKeepsInv(w, l, scope, kind, key, env, o);
    case BeginStart(j, o) => BeginKeepsInv(w, j, o);
    case SpawnChild(j, answer) => SpawnKeepsInv(w, j, answer);
    case GroupEnds(g, confirmed) => EndKeepsInv(w, g, confirmed);
    case FinishJob(j, env, o) => FinishKeepsInv(w, j, env, o);
    case CloseLedger(l) => CloseKeepsInv(w, l);
    case Crash(l) => CrashKeepsInv(w, l);
  }

  lemma NewLedgerKeepsInv(w: World)
    requires Inv(w)
    ensures Inv(Step(w, NewLedgerObject))
  {
  }

  lemma {:induction false} RunKeepsInv(w: World, events: seq<Event>)
    requires Inv(w)
    ensures Inv(Run(w, events))
    decreases |events|
  {
    if events != [] {
      StepKeepsInv(w, events[0]);
      RunKeepsInv(Step(w, events[0]), events[1..]);
    }
  }

  // ----- What the ledger promises ----------------------------------------------------------------

  function LiveGroups(w: World): set<GroupId> {
    set g <- w.groups | Live(w.groups[g])
  }

  /** Over every history of opening, reserving, launching, finishing, closing and crashing, with
      every write free to fail before or after it commits: a group whose cleanup is unconfirmed
      has an occupied or uncertain record on disk, no record has two, and so there are never more
      than `CAPACITY` of them, whatever the number of restarts. */
  lemma UnconfirmedGroupsAreOnRecord(events: seq<Event>)
    ensures var w := Run(Fresh, events);
      && (forall g <- LiveGroups(w) ::
        w.groups[g].job in w.disk.file && w.disk.file[w.groups[g].job].state != Reserved)
      && (forall g <- LiveGroups(w), h <- LiveGroups(w) :: w.groups[g].job == w.groups[h].job ==> g == h)
      && |LiveGroups(w)| <= |w.disk.file| <= CAPACITY
      && |Handoffs(w.disk.file)| <= HANDOFF_CAPACITY
  {
    RunKeepsInv(Fresh, events);
    var w := Run(Fresh, events);
    LiveGroupsFit(w, LiveGroups(w), w.disk.file.Keys);
  }

  lemma LiveGroupsFit(w: World, live: set<GroupId>, records: set<JobId>)
    requires OneGroupPerRecord(w) && live <= LiveGroups(w)
    requires forall g <- live :: w.groups[g].job in records
    ensures |live| <= |records|
  {
    if live != {} {
      var g :| g in live;
      LiveGroupsFit(w, live - {g}, records - {w.groups[g].job});
    }
  }

  function GroupsOf(w: World, j: JobId): set<GroupId> {
    set g <- w.groups | w.groups[g].job == j
  }

  /** Reopening drops exactly the records that never reached a durable launch and keeps every
      other one as uncertain; nothing was ever launched for a dropped record. A reopening that
      fails leaves the file as it was, or already recovered. */
  lemma RecoveryIsExact(events: seq<Event>, l: LedgerId, env: Opening)
    requires var w := Run(Fresh, events); l in w.ledgers && w.ledgers[l].jobs.None?
    ensures var w := Run(Fresh, events);
      var w' := OpenStep(w, l, env);
      && (Usable(w'.ledgers[l]) ==>
        && w'.ledgers[l].jobs == Some(w'.disk.file)
        && (forall j :: j in w'.disk.file <==> j in w.disk.file && w.disk.file[j].state != Reserved)
        && (forall j <- w'.disk.file :: w'.disk.file[j] == w.disk.file[j].(state := Uncertain)))
      && (w'.disk.file == w.disk.file || w'.disk.file == Recovered(w.disk.file))
      && (forall j <- w.disk.file :: j !in Recovered(w.disk.file) ==> GroupsOf(w, j) == {})
  {
    RunKeepsInv(Fresh, events);
    hide Run;
    ReopeningIsExact(Run(Fresh, events), l, env);
  }

  lemma ReopeningIsExact(w: World, l: LedgerId, env: Opening)
    requires Inv(w) && l in w.ledgers && w.ledgers[l].jobs.None?
    ensures var w' := OpenStep(w, l, env);
      && (Usable(w'.ledgers[l]) ==>
        && w'.ledgers[l].jobs == Some(w'.disk.file)
        && (forall j :: j in w'.disk.file <==> j in w.disk.file && w.disk.file[j].state != Reserved)
        && (forall j <- w'.disk.file :: w'.disk.file[j] == w.disk.file[j].(state := Uncertain)))
      && (w'.disk.file == w.disk.file || w'.disk.file == Recovered(w.disk.file))
      && (forall j <- w.disk.file :: j !in Recovered(w.disk.file) ==> GroupsOf(w, j) == {})
  {
  }

  /** A job that is off the disk (dropped by a recovery, released, or never written) launches
      nothing ever again, whatever ledger object or owner of it is still around. */
  lemma {:induction false} OffDiskNeverLaunches(w: World, j: JobId, events: seq<Event>)
    requires Inv(w) && j < w.nextJob && j !in w.disk.file
    ensures GroupsOf(Run(w, events), j) == GroupsOf(w, j)
    ensures j !in Run(w, events).disk.file
    decreases |events|
  {
    if events != [] {
      StepKeepsInv(w, events[0]);
      OffDiskStep(w, j, events[0]);
      OffDiskNeverLaunches(Step(w, events[0]), j, events[1..]);
    }
  }

  lemma OffDiskStep(w: World, j: JobId, e: Event)
    requires Inv(w) && j < w.nextJob && j !in w.disk.file
    ensures var w' := Step(w, e); j !in w'.disk.file && j < w'.nextJob && GroupsOf(w', j) == GroupsOf(w, j)
  {
    KeysOnlyGrowByNew(w, e);
    GroupsOnlyForCommitted(w, e, j);
  }

  /** Only admission adds a record, and it adds the identifier drawn for it. */
  lemma KeysOnlyGrowByNew(w: World, e: Event)
    requires LockAgrees(w)
    ensures Step(w, e).disk.file.Keys <= w.disk.file.Keys + {w.nextJob}
    ensures Step(w, e).nextJob >= w.nextJob
  {
    hide OpenStep, ReserveStep, BeginStep, FinishStep;
    match e
    case OpenLedger(l, env) => OpenAddsNothing(w, l, env);
    case ReserveJob(l, scope, kind, key, env, o) => ReserveAddsOne(w, l, scope, kind, key, env, o);
    case BeginStart(j, o) => BeginAddsNothing(w, j, o);
    case FinishJob(j, env, o) => FinishAddsNothing(w, j, env, o);
    case _ =>
  }

  lemma OpenAddsNothing(w: World, l: LedgerId, env: Opening)
    requires LockAgrees(w)
    ensures OpenStep(w, l, env).disk.file.Keys <= w.disk.file.Keys && OpenStep(w, l, env).nextJob == w.nextJob
  {
    if l in w.ledgers {
      hide Initialize;
      OpenNeverAdds(w.ledgers[l], w.disk, l, env);
    }
  }

  lemma ReserveAddsOne(w: World, l: LedgerId, scope: Scope, kind: Kind, key: string, env: Opening, o: WriteOutcome)
    requires LockAgrees(w)
    ensures var w' := ReserveStep(w, l, scope, kind, key, env, o);
      w'.disk.file.Keys <= w.disk.file.Keys + {w.nextJob} && w'.nextJob >= w.nextJob
  {
    if l in w.ledgers {
      hide Reserve;
      ReserveNeverAddsMore(w.ledgers[l], w.disk, l, w.nextJob, scope, kind, key, env, o);
    }
  }

  lemma ReserveNeverAddsMore(l: View, d: Disk, me: LedgerId, id: JobId, scope: Scope, kind: Kind, key: string,
                             env: Opening, o: WriteOutcome)
    requires Usable(l) ==> l.jobs.value == d.file
    ensures Reserve(l, d, me, id, scope, kind, key, env, o).1.file.Keys <= d.file.Keys + {id}
  {
    hide Initialize, Admit;
    OpenNeverAdds(l, d, me, env);
    var (v, d', ok) := Initialize(l, d, me, env);
    if ok {
      AdmitAddsOne(v, d', v.jobs.value, id, scope, kind, key, o);
    }
  }

  lemma AdmitAddsOne(l: View, d: Disk, jobs: Jobs, id: JobId, scope: Scope, kind: Kind, key: string, o: WriteOutcome)
    ensures Admit(l, d, jobs, id, scope, kind, key, o).1.file.Keys <= d.file.Keys + jobs.Keys + {id}
  {
    hide Taken, Handoffs;
  }

  lemma BeginAddsNothing(w: World, j: JobId, o: WriteOutcome)
    requires LockAgrees(w)
    ensures BeginStep(w, j, o).disk.file.Keys <= w.disk.file.Keys && BeginStep(w, j, o).nextJob == w.nextJob
  {
  }

  lemma FinishAddsNothing(w: World, j: JobId, env: Opening, o: WriteOutcome)
    requires LockAgrees(w)
    ensures FinishStep(w, j, env, o).disk.file.Keys <= w.disk.file.Keys && FinishStep(w, j, env, o).nextJob == w.nextJob
  {
    if j in w.owners && w.owners[j].ledger in w.ledgers {
      hide Initialize;
      OpenNeverAdds(w.ledgers[w.owners[j].ledger], w.disk, w.owners[j].ledger, env);
    }
  }

  lemma OpenNeverAdds(l: View, d: Disk, me: LedgerId, env: Opening)
    requires Usable(l) ==> l.jobs.value == d.file
    ensures var (l', d', ok) := Initialize(l, d, me, env);
      && d'.file.Keys <= d.file.Keys
      && (ok ==> Usable(l') && l'.jobs.value == d'.file)
  {
  }

  lemma GroupsOnlyForCommitted(w: World, e: Event, j: JobId)
    requires j in w.owners && w.owners[j].launching ==> j in w.disk.file
    requires j !in w.disk.file && forall g <- w.groups :: g < w.nextGroup
    ensures GroupsOf(Step(w, e), j) == GroupsOf(w, j)
  {
  }
}

/** What a caller of the ledger is answered, and when its work goes ahead. */
module JobAnswers {
  import opened Prelude
  import opened Invocation
  import opened JobLedger
  import opened JobOwner
  import H = JobHistory

  /** Ledger and disk as every history leaves them while the ledger works. */
  predicate Working(l: View, d: Disk) {
    !l.closed && !l.failed && l.jobs == Some(d.file)
  }

  /** The same work is on record already, whatever became of it. */
  predicate Known(file: Jobs, scope: Scope, kind: Kind, key: string) {
    exists id <- file :: file[id].scope == scope && file[id].kind == kind && file[id].key == key
  }

  function Sessions(file: Jobs): set<JobId> {
    set id <- file | file[id].kind == Handoff
  }

  predicate Room(file: Jobs, kind: Kind) {
    |file| < 4 && (kind == Handoff ==> |Sessions(file)| < 2)
  }

  /** A reservation on a working ledger: why it is refused, first things first, and the record it leaves otherwise. */
  lemma ReserveAnswers(l: View, d: Disk, me: LedgerId, id: JobId, scope: Scope, kind: Kind, key: string, env: Opening, w: WriteOutcome)
    requires Working(l, d) && id !in d.file
    ensures var (l', d', fault) := Reserve(l, d, me, id, scope, kind, key, env, w);
      var next := d.file[id := Record(scope, kind, key, Reserved)];
      if !scope.Valid() || key == "" || |key| > 128 then (l', d', fault) == (l, d, Some(InvalidIdentity))
      else if Known(d.file, scope, kind, key) then (l', d', fault) == (l, d, Some(ReleaseUnconfirmed))
      else if !Room(d.file, kind) then (l', d', fault) == (l, d, Some(CapacityExhausted))
      else if w != Written then
        && fault == Some(Unavailable) && l' == l.(failed := true)
        && d' == d.(file := if w == FailedAfter then next else d.file)
      else fault == None && d' == d.(file := next) && Working(l', d')
  {
    assert Known(d.file, scope, kind, key) <==> Taken(d.file, scope, kind, key);
    assert Handoffs(d.file) == Sessions(d.file);
  }

  /** In every reachable state: a reservation makes an owner exactly when the identity is valid, the work is not on
      record, there is room, and the record is written; the file then gains that record alone. */
  lemma ReservesExactly(events: seq<H.Event>, l: LedgerId, scope: Scope, kind: Kind, key: string, env: Opening, w: WriteOutcome)
    requires var world := H.Run(H.Fresh, events); l in world.ledgers && Usable(world.ledgers[l])
    ensures var world := H.Run(H.Fresh, events);
      var later, file := H.Step(world, H.ReserveJob(l, scope, kind, key, env, w)), world.disk.file;
      && (world.nextJob in later.owners <==>
            scope.Valid() && 0 < |key| <= 128 && !Known(file, scope, kind, key) && Room(file, kind) && w == Written)
      && (world.nextJob in later.owners ==>
            later.disk.file == file[world.nextJob := Record(scope, kind, key, Reserved)]
            && later.owners[world.nextJob].ledger == l)
  {
    var world := H.Run(H.Fresh, events);
    H.RunKeepsInv(H.Fresh, events);
    Facts(world, l);
    ReserveAnswers(world.ledgers[l], world.disk, l, world.nextJob, scope, kind, key, env, w);
    hide H.Run, H.Inv, Reserve, Known, Room;
  }

  lemma Facts(world: H.World, l: LedgerId)
    requires H.Inv(world)
    ensures world.nextJob !in world.disk.file && world.nextJob !in world.owners
    ensures l in world.ledgers && Usable(world.ledgers[l]) ==> Working(world.ledgers[l], world.disk)
  {
  }

  /** A start launches exactly when the owner may act, its earlier child, if any, is confirmed gone, the ledger works,
      the job's launch is on record or is put there now, and the operating system starts the process. So a second
      start on an occupied record needs no write. Nothing but the record and the child changes. */
  lemma StartsExactly(o: Owner, l: View, d: Disk, status: ChildStatus, w: WriteOutcome, spawn: Spawn)
    requires Working(l, d)
    ensures var (o', l', d', result) := StartJob(o, l, d, status, w, spawn);
      && (result == Launched <==>
            && !o.closed && !o.uncertain && (o.child.Some? ==> status == Settled)
            && o.id in d.file && (d.file[o.id].state == Occupied || (d.file[o.id].state == Reserved && w == Written))
            && spawn.Started?)
      && (result == Launched ==>
            && o' == o.(child := Some(spawn.group)) && Working(l', d')
            && d' == d.(file := d.file[o.id := d.file[o.id].(state := Occupied)]))
  {
    if o.id in d.file && d.file[o.id].state == Occupied {
      assert d.file[o.id := d.file[o.id].(state := Occupied)] == d.file;
    }
  }

  /** Why a start does not launch; an unconfirmed child or launch makes the owner uncertain for good. */
  lemma StartAnswers(o: Owner, l: View, d: Disk, status: ChildStatus, w: WriteOutcome, spawn: Spawn)
    requires Working(l, d)
    ensures var (o', l', d', result) := StartJob(o, l, d, status, w, spawn);
      && (result == StillActive <==> !o.closed && !o.uncertain && o.child.Some? && status == Running)
      && (result == Unconfirmed <==> !o.closed && !o.uncertain && o.child.Some? && status == CleanupFailed)
      && (o'.uncertain <==> o.uncertain || result == Unconfirmed || (result == StartFailed && spawn.StartUncertain?))
      && (result == StartFailed ==> !spawn.Started? && o.id in d'.file && d'.file[o.id].state == Occupied)
      && (result == Refused || result == StillActive || result == Unconfirmed ==> o'.child == None || o'.child == o.child)
      && o'.closed == o.closed && o'.id == o.id
  {
  }

  /** The end of a job on a working ledger: its record goes, or stays as uncertain, and the caller is told which. */
  lemma FinishAnswers(l: View, d: Disk, me: LedgerId, id: JobId, uncertain: bool, env: Opening, w: WriteOutcome)
    requires Working(l, d)
    ensures var (l', d', fault) := Finish(l, d, me, id, uncertain, env, w);
      if id !in d.file then (l', d', fault) == (l, d, Some(Unavailable))
      else if w != Written then fault == Some(Unavailable) && l'.failed
      else
        && Working(l', d') && d'.holder == d.holder
        && fault == (if uncertain then Some(ReleaseUnconfirmed) else None)
        && (forall j :: j != id ==> (j in d'.file <==> j in d.file) && (j in d.file ==> d'.file[j] == d.file[j]))
        && (id in d'.file <==> uncertain) && (uncertain ==> d'.file[id] == d.file[id].(state := Uncertain))
  {
  }

  /** A new ledger opens the profile exactly when the directory, the lock, the file and, if there are records, the
      rewrite are to be had; it then works on what the disk says. */
  lemma OpensExactly(d: Disk, me: LedgerId, env: Opening)
    ensures var (l', d', ok) := Initialize(NewLedger, d, me, env);
      && (ok <==> env.directory && env.lockable && d.holder.None? && env.readable && |d.file| <= 4
                  && (d.file == map[] || env.write == Written))
      && (ok ==> Working(l', d') && d'.holder == Some(me))
      && (d'.holder == d.holder || (d.holder.None? && d'.holder == Some(me) && l'.locked))
  {
    assert |d.file| == 0 <==> d.file == map[];
  }

  /** After a confirmed end the same work can be reserved again, with the room it had. */
  lemma FinishedWorkReturns(l: View, d: Disk, me: LedgerId, id: JobId, again: JobId, env: Opening, late: Opening)
    requires Working(l, d) && H.Bounded(d.file) && id in d.file && again !in d.file
    requires d.file[id].scope.Valid() && 0 < |d.file[id].key| <= 128
    ensures var (l', d', fault) := Finish(l, d, me, id, false, env, Written);
      var r := d.file[id];
      fault.None? && Reserve(l', d', me, again, r.scope, r.kind, r.key, late, Written).2.None?
  {
    FinishAnswers(l, d, me, id, false, env, Written);
    var r := d.file[id];
    var (l', d', _) := Finish(l, d, me, id, false, env, Written);
    ReserveAnswers(l', d', me, again, r.scope, r.kind, r.key, late, Written);
    assert d'.file == d.file - {id};
    Dropped(d.file, id);
    hide Finish, Reserve, H.Bounded, Known, Room;
  }

  lemma Dropped(file: Jobs, id: JobId)
    requires H.Bounded(file) && id in file
    ensures var r := file[id]; !Known(file - {id}, r.scope, r.kind, r.key) && Room(file - {id}, r.kind)
  {
    var r := file[id];
    var rest := file - {id};
    assert rest.Keys == file.Keys - {id} && Sessions(rest) == Handoffs(file) - {id};
    assert r.kind == Handoff ==> id in Handoffs(file);
    assert forall i <- rest :: SameWork(file[i], r.scope, r.kind, r.key) ==> i == id;
    hide Handoffs, Sessions;
  }

  /** In every reachable state, between the record and the process: a job is about to launch exactly when its owner may
      act, its earlier child is confirmed gone and its launch is on record. */
  lemma BeginsExactly(events: seq<H.Event>, j: JobId, w: WriteOutcome)
    requires var world := H.Run(H.Fresh, events);
      j in world.owners && !world.owners[j].launching && world.owners[j].ledger in world.ledgers
      && Usable(world.ledgers[world.owners[j].ledger])
    ensures var world := H.Run(H.Fresh, events);
      var o, file, later := world.owners[j].owner, world.disk.file, H.Step(world, H.BeginStart(j, w));
      && j in later.owners
      && (later.owners[j].launching <==>
            && !o.closed && !o.uncertain && (o.child.Some? ==> o.child.value in world.groups && world.groups[o.child.value].status == Settled)
            && j in file && (file[j].state == Occupied || (file[j].state == Reserved && w == Written)))
      && (later.owners[j].launching ==> later.disk.file == file[j := file[j].(state := Occupied)])
  {
    var world := H.Run(H.Fresh, events);
    H.RunKeepsInv(H.Fresh, events);
    Facts(world, world.owners[j].ledger);
    OwnerFacts(world, j);
    hide H.Inv, H.Run;
    BeginFacts(world, j, w);
  }

  lemma BeginFacts(world: H.World, j: JobId, w: WriteOutcome)
    requires j in world.owners && !world.owners[j].launching && world.owners[j].ledger in world.ledgers
    requires Working(world.ledgers[world.owners[j].ledger], world.disk) && world.owners[j].owner.id == j
    requires world.owners[j].owner.child.Some? ==> world.owners[j].owner.child.value in world.groups
    ensures var o, file, later := world.owners[j].owner, world.disk.file, H.Step(world, H.BeginStart(j, w));
      && j in later.owners
      && (later.owners[j].launching <==>
            && !o.closed && !o.uncertain && (o.child.Some? ==> o.child.value in world.groups && world.groups[o.child.value].status == Settled)
            && j in file && (file[j].state == Occupied || (file[j].state == Reserved && w == Written)))
      && (later.owners[j].launching ==> later.disk.file == file[j := file[j].(state := Occupied)])
  {
    var o := world.owners[j].owner;
    StartsExactly(o, world.ledgers[world.owners[j].ledger], world.disk, H.StatusOf(world, o), w, Started(0));
    if j in world.disk.file && world.disk.file[j].state == Occupied {
      assert world.disk.file[j := world.disk.file[j].(state := Occupied)] == world.disk.file;
    }
  }

  lemma OwnerFacts(world: H.World, j: JobId)
    requires H.Inv(world) && j in world.owners
    ensures var o := world.owners[j].owner; o.id == j && (o.child.Some? ==> o.child.value in world.groups)
  {
  }

  /** The launch itself: a started process is a group its owner waits for, one that may have started makes the owner
      uncertain, and one that did not leaves it as it was. */
  lemma SpawnsExactly(world: H.World, j: JobId, answer: H.Answer)
    requires j in world.owners && world.owners[j].launching && world.nextGroup !in world.groups
    ensures var o, g, later := world.owners[j].owner, world.nextGroup, H.Step(world, H.SpawnChild(j, answer));
      && later.disk == world.disk && j in later.owners && !later.owners[j].launching
      && (g in later.groups <==> answer != H.No) && (g in later.groups ==> later.groups[g].job == j)
      && (answer == H.Yes ==> later.groups[g].status == Running && later.owners[j].owner == o.(child := Some(g)))
      && (answer == H.Maybe ==> later.owners[j].owner == o.(uncertain := true) && H.Live(later.groups[g]))
      && (answer == H.No ==> later.owners[j].owner == o)
      && (forall i <- world.groups :: i != g ==> i in later.groups && later.groups[i] == world.groups[i])
  {
  }

  /** A closed ledger is of no more use, and the profile is free for the next one. */
  lemma CloseFrees(l: View, d: Disk, me: LedgerId, next: LedgerId, env: Opening)
    requires Working(l, d) && l.locked && |d.file| <= 4
    requires env == Opening(true, true, true, Written)
    ensures var (l', d') := Close(l, d);
      && d' == d.(holder := None) && !Usable(l') && Close(l', d') == (l', d')
      && Initialize(l', d', me, env).2 == false && Initialize(NewLedger, d', next, env).2
  {
    OpensExactly(Close(l, d).1, next, env);
  }

  /** In every reachable state: a job whose child is confirmed gone leaves the record with a confirmed write, one whose
      child is not stays as uncertain; its owner is closed with the answer. */
  lemma FinishesExactly(events: seq<H.Event>, j: JobId, env: Opening)
    requires var world := H.Run(H.Fresh, events);
      && j in world.owners && !world.owners[j].launching && !world.owners[j].owner.closed && j in world.disk.file
      && world.owners[j].ledger in world.ledgers && Usable(world.ledgers[world.owners[j].ledger])
      && H.StatusOf(world, world.owners[j].owner) != Running
    ensures var world := H.Run(H.Fresh, events);
      var o, file, later := world.owners[j].owner, world.disk.file, H.Step(world, H.FinishJob(j, env, Written));
      var uncertain := o.uncertain || (o.child.Some? && H.StatusOf(world, o) == CleanupFailed);
      && later.disk.file == (if uncertain then file[j := file[j].(state := Uncertain)] else file - {j})
      && j in later.owners && later.owners[j].owner.closed
      && later.owners[j].owner.outcome == if uncertain then Some(ReleaseUnconfirmed) else None
  {
    var world := H.Run(H.Fresh, events);
    H.RunKeepsInv(H.Fresh, events);
    Facts(world, world.owners[j].ledger);
    OwnerFacts(world, j);
    hide H.Inv, H.Run;
    FinishFacts(world, j, env);
  }

  lemma FinishFacts(world: H.World, j: JobId, env: Opening)
    requires j in world.owners && !world.owners[j].launching && !world.owners[j].owner.closed && j in world.disk.file
    requires world.owners[j].ledger in world.ledgers && Working(world.ledgers[world.owners[j].ledger], world.disk)
    requires H.StatusOf(world, world.owners[j].owner) != Running
    ensures var o, file, later := world.owners[j].owner, world.disk.file, H.Step(world, H.FinishJob(j, env, Written));
      var uncertain := o.uncertain || (o.child.Some? && H.StatusOf(world, o) == CleanupFailed);
      && later.disk.file == (if uncertain then file[j := file[j].(state := Uncertain)] else file - {j})
      && j in later.owners && later.owners[j].owner.closed
      && later.owners[j].owner.outcome == if uncertain then Some(ReleaseUnconfirmed) else None
  {
  }

  /** The end of a group is known as it was confirmed, and a crash takes the ledger's owners and its lock along. */
  lemma EndsAndCrashes(world: H.World, g: GroupId, confirmed: bool, l: LedgerId)
    requires g in world.groups && world.groups[g].status == Running && world.groups[g].job in world.owners
    ensures var later := H.Step(world, H.GroupEnds(g, confirmed));
      later == world.(groups := world.groups[g := H.Group(world.groups[g].job, if confirmed then Settled else CleanupFailed)])
    ensures var later := H.Step(world, H.Crash(l));
      && l !in later.ledgers && later.disk.file == world.disk.file && later.groups == world.groups
      && (forall j :: j in later.owners <==> j in world.owners && world.owners[j].ledger != l)
      && (forall j <- later.owners :: later.owners[j] == world.owners[j])
      && later.disk.holder == if world.disk.holder == Some(l) then None else world.disk.holder
  {
  }
}

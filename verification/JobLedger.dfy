/** The write-ahead occupancy ledger (internal/job/ledger.go, internal/job/start.go).

    Every operation is given twice: as a function on the values of a ledger and its disk, and as a
    method of class `Ledger` that updates its fields in place and is proved to do exactly that.
    What the ledger promises over whole histories is proved about the functions in `JobHistory`. */
module JobLedger {
  import opened Prelude
  import opened Invocation

  const CAPACITY := 4
  const HANDOFF_CAPACITY := 2

  type JobId = nat
  type LedgerId = nat

  datatype Kind = Exec | Handoff
  datatype JobState = Reserved | Occupied | Uncertain
  datatype Record = Record(scope: Scope, kind: Kind, key: string, state: JobState)
  type Jobs = map<JobId, Record>

  datatype Fault = Unavailable | ReleaseUnconfirmed | CapacityExhausted | InvalidIdentity

  /** The profile directory: the content of jobs.json (an absent file counts as no jobs) and the
      ledger that holds the operating-system lock. */
  datatype Disk = Disk(file: Jobs, holder: Option<LedgerId>)

  /** The fields of a ledger. `jobs` is None until the ledger first acquires the profile. */
  datatype View = View(jobs: Option<Jobs>, closed: bool, failed: bool, locked: bool)

  const NewLedger := View(None, false, false, false)

  /** What the environment decides while a ledger opens the profile. `readable` is false when the
      file cannot be read or decoded, or holds an invalid record. */
  datatype Opening = Opening(directory: bool, lockable: bool, readable: bool, write: WriteOutcome)

  predicate Usable(l: View) {
    l.jobs.Some? && !l.closed && !l.failed
  }

  function Recovered(file: Jobs): Jobs {
    map id | id in file && file[id].state != Reserved :: file[id].(state := Uncertain)
  }

  function Save(l: View, d: Disk, jobs: Jobs, w: WriteOutcome): (View, Disk, bool) {
    var d' := d.(file := AfterWrite(d.file, jobs, w));
    if w == Written then (l.(jobs := Some(jobs)), d', true) else (l.(failed := true), d', false)
  }

  function Initialize(l: View, d: Disk, me: LedgerId, env: Opening): (View, Disk, bool) {
    if l.closed || l.failed then (l, d, false)
    else if l.jobs.Some? then (l, d, true)
    else if !env.directory || !env.lockable || d.holder.Some? then (l.(failed := true), d, false)
    else
      var d' := d.(holder := Some(me));
      var l' := l.(locked := true, jobs := Some(map[]));
      if !env.readable || |d.file| > CAPACITY then (l'.(failed := true), d', false)
      else if |d.file| == 0 then (l', d', true)
      else Save(l'.(jobs := Some(Recovered(d.file))), d', Recovered(d.file), env.write)
  }

  predicate SameWork(r: Record, scope: Scope, kind: Kind, key: string) {
    r.scope == scope && r.kind == kind && r.key == key
  }

  predicate Taken(jobs: Jobs, scope: Scope, kind: Kind, key: string) {
    exists id <- jobs :: SameWork(jobs[id], scope, kind, key)
  }

  function Handoffs(jobs: Jobs): set<JobId> {
    set id <- jobs | jobs[id].kind == Handoff
  }

  predicate ValidIdentity(scope: Scope, key: string) {
    scope.Valid() && 0 < |key| <= 128
  }

  /** Admission on an opened ledger; `id` is the random identifier drawn for the new record. */
  function Admit(l: View, d: Disk, jobs: Jobs, id: JobId, scope: Scope, kind: Kind, key: string, w: WriteOutcome)
    : (View, Disk, Option<Fault>)
  {
    if Taken(jobs, scope, kind, key) then (l, d, Some(ReleaseUnconfirmed))
    else if |jobs| >= CAPACITY || (kind == Handoff && |Handoffs(jobs)| >= HANDOFF_CAPACITY) then
      (l, d, Some(CapacityExhausted))
    else if id in jobs then (l, d, Some(Unavailable))
    else
      var (l', d', saved) := Save(l, d, jobs[id := Record(scope, kind, key, Reserved)], w);
      (l', d', if saved then None else Some(Unavailable))
  }

  function Reserve(l: View, d: Disk, me: LedgerId, id: JobId, scope: Scope, kind: Kind, key: string,
                   env: Opening, w: WriteOutcome): (View, Disk, Option<Fault>)
  {
    if !ValidIdentity(scope, key) then (l, d, Some(InvalidIdentity)) else
    var (l', d', ok) := Initialize(l, d, me, env);
    if !ok || l'.jobs.None? then (l', d', Some(Unavailable))
    else Admit(l', d', l'.jobs.value, id, scope, kind, key, w)
  }

  /** Crosses the durable launch boundary: success means the disk says `Occupied`. */
  function PrepareStart(l: View, d: Disk, id: JobId, w: WriteOutcome): (View, Disk, bool) {
    if l.closed || l.failed || l.jobs.None? || id !in l.jobs.value then (l, d, false)
    else
      var r := l.jobs.value[id];
      match r.state
      case Occupied => (l, d, true)
      case Reserved => Save(l, d, l.jobs.value[id := r.(state := Occupied)], w)
      case Uncertain => (l, d, false)
  }

  function Finish(l: View, d: Disk, me: LedgerId, id: JobId, uncertain: bool, env: Opening, w: WriteOutcome)
    : (View, Disk, Option<Fault>)
  {
    var (l', d', ok) := Initialize(l, d, me, env);
    if !ok || l'.jobs.None? || id !in l'.jobs.value then (l', d', Some(Unavailable))
    else
      var jobs := l'.jobs.value;
      var next := if uncertain then jobs[id := jobs[id].(state := Uncertain)] else jobs - {id};
      var (l'', d'', saved) := Save(l', d', next, w);
      (l'', d'', if !saved then Some(Unavailable) else if uncertain then Some(ReleaseUnconfirmed) else None)
  }

  function Close(l: View, d: Disk): (View, Disk) {
    if l.closed then (l, d)
    else (l.(closed := true, locked := false), if l.locked then d.(holder := None) else d)
  }

  lemma IsHandoff(jobs: Jobs, id: JobId)
    requires id in jobs
    ensures id in Handoffs(jobs) <==> jobs[id].kind == Handoff
  {
  }

  lemma AllHandoffs(jobs: Jobs)
    ensures Handoffs(jobs) * jobs.Keys == Handoffs(jobs)
  {
  }

  /** Counting one set through another, one element at a time. */
  lemma OneMore<T>(a: set<T>, seen: set<T>, x: T)
    requires x !in seen
    ensures |a * (seen + {x})| == |a * seen| + if x in a then 1 else 0
  {
    assert a * (seen + {x}) == if x in a then a * seen + {x} else a * seen;
  }

  // ----- The same operations on objects ------------------------------------------------------

  /** The directory two ledgers may compete for. */
  class Profile {
    var file: Jobs
    var holder: Option<LedgerId>

    function Contents(): Disk
      reads this
    {
      Disk(file, holder)
    }

    constructor ()
      ensures Contents() == Disk(map[], None)
    {
      file, holder := map[], None;
    }
  }

  class Ledger {
    const me: LedgerId
    const profile: Profile
    var jobs: Option<Jobs>
    var closed: bool
    var failed: bool
    var locked: bool

    function Fields(): View
      reads this
    {
      View(jobs, closed, failed, locked)
    }

    constructor (me: LedgerId, profile: Profile)
      ensures Fields() == NewLedger && this.me == me && this.profile == profile
    {
      this.me, this.profile := me, profile;
      jobs, closed, failed, locked := None, false, false, false;
    }

    method SaveLocked(next: Jobs, w: WriteOutcome) returns (ok: bool)
      modifies this, profile
      ensures (Fields(), profile.Contents(), ok) == Save(old(Fields()), old(profile.Contents()), next, w)
    {
      if w != FailedBefore {
        profile.file := next;
      }
      if w != Written {
        failed := true;
        return false;
      }
      jobs := Some(next);
      return true;
    }

    method InitializeLocked(env: Opening) returns (ok: bool)
      modifies this, profile
      ensures (Fields(), profile.Contents(), ok) == Initialize(old(Fields()), old(profile.Contents()), me, env)
    {
      if closed || failed {
        return false;
      }
      if jobs.Some? {
        return true;
      }
      if !env.directory || !env.lockable || profile.holder.Some? {
        failed := true;
        return false;
      }
      profile.holder, locked, jobs := Some(me), true, Some(map[]);
      var file := profile.file;
      if !env.readable || |file| > CAPACITY {
        failed := true;
        return false;
      }
      var kept: Jobs := map[];
      var todo := file.Keys;
      while todo != {}
        invariant todo <= file.Keys
        invariant kept == map id | id in Recovered(file) && id !in todo :: Recovered(file)[id]
        decreases |todo|
      {
        var id :| id in todo;
        todo := todo - {id};
        if file[id].state != Reserved {
          kept := kept[id := file[id].(state := Uncertain)];
        }
      }
      assert kept == Recovered(file);
      jobs := Some(kept);
      if |file| > 0 {
        ok := SaveLocked(kept, env.write);
        return ok;
      }
      assert file == map[];
      assert kept == map[];
      return true;
    }

    /** The one pass over the records that `ReserveJob` makes. */
    static method ScanJobs(known: Jobs, scope: Scope, kind: Kind, key: string) returns (taken: bool, handoffs: nat)
      ensures taken == Taken(known, scope, kind, key)
      ensures !taken ==> handoffs == |Handoffs(known)|
    {
      hide SameWork, Handoffs;
      taken, handoffs := false, 0;
      var todo := known.Keys;
      ghost var seen: set<JobId> := {};
      while todo != {}
        invariant seen !! todo && seen + todo == known.Keys
        invariant forall id <- seen :: !SameWork(known[id], scope, kind, key)
        invariant handoffs == |Handoffs(known) * seen|
        decreases |todo|
      {
        var i :| i in todo;
        if SameWork(known[i], scope, kind, key) {
          return true, handoffs;
        }
        OneMore(Handoffs(known), seen, i);
        IsHandoff(known, i);
        if known[i].kind == Handoff {
          handoffs := handoffs + 1;
        }
        todo, seen := todo - {i}, seen + {i};
      }
      AllHandoffs(known);
    }

    method ReserveJob(id: JobId, scope: Scope, kind: Kind, key: string, env: Opening, w: WriteOutcome)
      returns (fault: Option<Fault>)
      modifies this, profile
      ensures (Fields(), profile.Contents(), fault)
           == Reserve(old(Fields()), old(profile.Contents()), me, id, scope, kind, key, env, w)
    {
      if !ValidIdentity(scope, key) {
        return Some(InvalidIdentity);
      }
      var ok := InitializeLocked(env);
      if !ok || jobs.None? {
        return Some(Unavailable);
      }
      var known := jobs.value;
      var taken, count := ScanJobs(known, scope, kind, key);
      if taken {
        return Some(ReleaseUnconfirmed);
      }
      if |known| >= CAPACITY || (kind == Handoff && count >= HANDOFF_CAPACITY) {
        return Some(CapacityExhausted);
      }
      if id in known {
        return Some(Unavailable);
      }
      ok := SaveLocked(known[id := Record(scope, kind, key, Reserved)], w);
      return if ok then None else Some(Unavailable);
    }

    method PrepareLaunch(id: JobId, w: WriteOutcome) returns (ok: bool)
      modifies this, profile
      ensures (Fields(), profile.Contents(), ok) == PrepareStart(old(Fields()), old(profile.Contents()), id, w)
    {
      if closed || failed || jobs.None? || id !in jobs.value {
        return false;
      }
      var r := jobs.value[id];
      match r.state {
        case Occupied =>
          return true;
        case Reserved =>
          ok := SaveLocked(jobs.value[id := r.(state := Occupied)], w);
        case Uncertain =>
          return false;
      }
    }

    method FinishJob(id: JobId, uncertain: bool, env: Opening, w: WriteOutcome) returns (fault: Option<Fault>)
      modifies this, profile
      ensures (Fields(), profile.Contents(), fault)
           == Finish(old(Fields()), old(profile.Contents()), me, id, uncertain, env, w)
    {
      var ok := InitializeLocked(env);
      if !ok || jobs.None? || id !in jobs.value {
        return Some(Unavailable);
      }
      var next := jobs.value;
      if uncertain {
        next := next[id := next[id].(state := Uncertain)];
      } else {
        next := next - {id};
      }
      ok := SaveLocked(next, w);
      if !ok {
        return Some(Unavailable);
      }
      return if uncertain then Some(ReleaseUnconfirmed) else None;
    }

    method CloseLedger()
      modifies this, profile
      ensures (Fields(), profile.Contents()) == Close(old(Fields()), old(profile.Contents()))
    {
      if closed {
        return;
      }
      closed := true;
      if locked {
        profile.holder := None;
        locked := false;
      }
    }
  }
}

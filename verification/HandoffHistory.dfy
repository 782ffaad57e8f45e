/** Handoff receipts over whole histories: requests, worker reports, device changes, closing,
    crashes and restarts, with any receipt write allowed to fail before or after it took effect. */
module HandoffHistory {
  import opened Prelude
  import opened Invocation
  import opened Handoff

  /** A worker launched for a request. */
  datatype Launch = Launch(key: Key, session: string)

  datatype World = World(files: Files, manager: Option<View>, serial: nat, launches: seq<Launch>)

  const Fresh := World(map[], None, 0, [])

  datatype Event =
    | Open(entries: seq<Entry>, listable: bool)
    | Request(ticket: Ticket, request: Handoff.Request, admitted: bool, w: WriteOutcome)
    | WorkerReports(session: string, report: Report, w: WriteOutcome)
    | WorkerLeaves(session: string)
    | DeviceChanges(device: DeviceContext)
    | CloseManager
    | ProcessEnds

  predicate Distinct(entries: seq<Entry>) {
    forall i, j | 0 <= i < j < |entries| :: entries[i].key != entries[j].key
  }

  /** The listing names every file of the directory once. */
  predicate Lists(entries: seq<Entry>, files: Files) {
    && (forall e <- entries :: e.key in files)
    && Distinct(entries)
    && (forall k <- files :: exists e <- entries :: e.key == k)
  }

  function OpenStep(w: World, entries: seq<Entry>, listable: bool): World {
    if w.manager.Some? || !Lists(entries, w.files) then w else
    var (v, files) := Load(w.files, entries, listable);
    World(files, Some(v), w.serial + 1, w.launches)
  }

  function RequestStep(w: World, t: Ticket, r: Handoff.Request, admitted: bool, o: WriteOutcome): World {
    if w.manager.None? then w else
    var (v, files, _, launched) := Submit(w.serial, w.manager.value, w.files, t, r, admitted, o);
    World(files, Some(v), w.serial,
      if launched then w.launches + [Launch(Key(t.scope, r.id), Lower(r.session))] else w.launches)
  }

  function ReportStep(w: World, session: string, report: Report, o: WriteOutcome): World {
    if w.manager.None? || session !in w.manager.value.active then w else
    var (v, files, _) := Update(w.manager.value, w.files, w.manager.value.active[session].key, report, o);
    w.(files := files, manager := Some(v))
  }

  function LeaveStep(w: World, session: string): World {
    if w.manager.None? then w else
    w.(manager := Some(w.manager.value.(active := w.manager.value.active - {session})))
  }

  function Step(w: World, e: Event): World {
    match e
    case Open(entries, listable) => OpenStep(w, entries, listable)
    case Request(t, r, admitted, o) => RequestStep(w, t, r, admitted, o)
    case WorkerReports(session, report, o) => ReportStep(w, session, report, o)
    case WorkerLeaves(session) => LeaveStep(w, session)
    case DeviceChanges(device) =>
      if w.manager.None? then w else w.(manager := Some(SyncDevice(w.manager.value, device)))
    case CloseManager =>
      if w.manager.None? then w else w.(manager := Some(w.manager.value.(closed := true)))
    case ProcessEnds => w.(manager := None)
  }

  function Run(w: World, events: seq<Event>): World
    decreases |events|
  {
    if events == [] then w else Run(Step(w, events[0]), events[1..])
  }

  // ----- The invariant -----------------------------------------------------------------------------

  predicate AllSound(files: Files) {
    forall k <- files :: Sound(files[k], k)
  }

  /** A session belongs to one scope. */
  predicate SessionsBound(files: Files) {
    forall k <- files, l <- files ::
      files[k].receipt.session == files[l].receipt.session ==> files[k].scope == files[l].scope
  }

  predicate FilesOk(files: Files) {
    |files| <= MAX_RECEIPTS && AllSound(files) && SessionsBound(files)
  }

  /** Every live worker has a receipt, and has been told to stop unless the device allows it. */
  predicate WorkersOk(v: View, files: Files) {
    forall s <- v.active ::
      && v.active[s].key in files && files[v.active[s].key].receipt.session == s
      && (v.active[s].cancelled || v.device.Allows(v.active[s].key.scope))
  }

  /** Memory agrees with the disk as long as no write has failed. */
  predicate ManagerOk(v: View, files: Files) {
    (v.failed || v.items == files) && WorkersOk(v, files)
  }

  /** One launch per request, each with its receipt on disk. */
  predicate LaunchesOk(launches: seq<Launch>, files: Files) {
    && (forall i | 0 <= i < |launches| ::
          launches[i].key in files && files[launches[i].key].receipt.session == launches[i].session)
    && (forall i, j | 0 <= i < j < |launches| :: launches[i].key != launches[j].key)
  }

  predicate Inv(w: World) {
    && FilesOk(w.files)
    && LaunchesOk(w.launches, w.files)
    && (w.manager.Some? ==> ManagerOk(w.manager.value, w.files))
  }

  predicate SameRequest(r: Record, r': Record) {
    && r'.scope == r.scope && r'.receipt.id == r.receipt.id
    && r'.receipt.fingerprint == r.receipt.fingerprint && r'.receipt.session == r.receipt.session
  }

  /** What no step undoes: a file stays the file of its request, and a terminal receipt keeps
      everything. */
  predicate Continues(files: Files, later: Files) {
    forall k <- files ::
      && k in later && SameRequest(files[k], later[k])
      && (Terminal(files[k].receipt.state) ==> later[k] == files[k])
  }

  // ----- Rewriting and adding one file ---------------------------------------------------------------

  lemma ContinuesKeepsOwners(files: Files, later: Files, launches: seq<Launch>, v: View)
    requires Continues(files, later)
    ensures LaunchesOk(launches, files) ==> LaunchesOk(launches, later)
    ensures WorkersOk(v, files) ==> WorkersOk(v, later)
  {
    hide Terminal, DeviceContext.Allows;
  }

  lemma ContinuesOn(a: Files, b: Files, c: Files)
    requires Continues(a, b) && Continues(b, c)
    ensures Continues(a, c)
  {
    hide Terminal;
  }

  lemma SameSize(files: Files, k: Key, r: Record)
    ensures |files[k := r]| == if k in files then |files| else |files| + 1
  {
    var with := files[k := r];
    assert with.Keys == files.Keys + {k};
    assert |with.Keys| == |with| && |files.Keys| == |files|;
  }

  lemma RewriteKeepsFiles(files: Files, k: Key, r: Record)
    requires FilesOk(files) && k in files && SameRequest(files[k], r) && !Terminal(files[k].receipt.state)
    ensures FilesOk(files[k := r]) && Continues(files, files[k := r])
  {
    RewriteKeepsSound(files, k, r);
    hide Sound, Terminal;
    SameSize(files, k, r);
  }

  lemma RewriteKeepsSound(files: Files, k: Key, r: Record)
    requires AllSound(files) && k in files && SameRequest(files[k], r)
    ensures AllSound(files[k := r])
  {
    SameSound(files[k], r, k);
    hide Sound;
  }

  lemma SameSound(r: Record, r': Record, k: Key)
    requires Sound(r, k) && SameRequest(r, r')
    ensures Sound(r', k)
  {
  }

  lemma AddKeepsFiles(files: Files, k: Key, r: Record)
    requires FilesOk(files) && k !in files && Sound(r, k) && |files| < MAX_RECEIPTS
    requires OwnsSession(files, r.scope, r.receipt.session)
    ensures FilesOk(files[k := r]) && Continues(files, files[k := r])
  {
    hide Sound, Terminal;
    SameSize(files, k, r);
  }

  // ----- Loading -------------------------------------------------------------------------------------

  /** `entries` are the files still to be read into `v`. */
  predicate Loading(v: View, files: Files, entries: seq<Entry>) {
    && Distinct(entries)
    && (forall e <- entries :: e.key in files && e.key !in v.items)
    && (forall k <- v.items :: k in files && v.items[k] == files[k])
    && (forall k <- files :: k in v.items || exists e <- entries :: e.key == k)
    && !v.failed
  }

  /** Reading one entry; `r` is what its file says afterwards. */
  lemma LoadOne(v: View, files: Files, entries: seq<Entry>, r: Record)
    requires entries != [] && Loading(v, files, entries)
    ensures var k := entries[0].key;
      Loading(v.(items := v.items[k := r]), files[k := r], entries[1..])
  {
    var k := entries[0].key;
    var files', items, rest := files[k := r], v.items[k := r], entries[1..];
    forall e <- rest ensures e.key in files' && e.key !in items {
      var i :| 0 <= i < |rest| && rest[i] == e;
      assert e == entries[i + 1] && e in entries;
    }
    forall l <- files' ensures l in items || exists e <- rest :: e.key == l {
      if l !in items {
        var e :| e in entries && e.key == l;
        assert e != entries[0];
        assert e in rest;
      }
    }
  }

  lemma RestartKeepsRequest(r: Record)
    ensures SameRequest(r, Restarted(r)) && Terminal(Restarted(r).receipt.state)
  {
  }

  /** Whatever goes wrong while loading, the directory stays sound and nothing terminal changes. */
  lemma {:induction false} LoadKeeps(v: View, files: Files, entries: seq<Entry>)
    requires Loading(v, files, entries) && FilesOk(files)
    ensures var (v', files') := LoadEntries(v, files, entries);
      && FilesOk(files') && Continues(files, files')
      && (v'.failed || v'.items == files') && v'.active == v.active
    decreases |entries|
  {
    hide FilesOk, Continues, Loading, Restarted, Sound, OwnsSession;
    if entries == [] {
      LoadedAll(v, files);
      ContinuesSelf(files);
    } else {
      var k := entries[0].key;
      FirstEntry(v, files, entries);
      ContinuesSelf(files);
      var r := files[k];
      RestartKeepsRequest(r);
      if !Terminal(r.receipt.state) {
        RewriteKeepsFiles(files, k, Restarted(r));
      }
      if Terminal(r.receipt.state) {
        LoadOne(v, files, entries, r);
        assert files[k := r] == files;
        LoadKeeps(v.(items := v.items[k := r]), files, entries[1..]);
      } else {
        var files' := files[k := Restarted(r)];
        LoadOne(v, files, entries, Restarted(r));
        var v' := v.(items := v.items[k := Restarted(r)]);
        LoadKeeps(v', files', entries[1..]);
        ContinuesOn(files, files', LoadEntries(v', files', entries[1..]).1);
      }
    }
  }

  lemma LoadedAll(v: View, files: Files)
    requires Loading(v, files, [])
    ensures v.items == files && !v.failed
  {
    assert forall k <- files :: k in v.items;
  }

  lemma FirstEntry(v: View, files: Files, entries: seq<Entry>)
    requires entries != [] && Loading(v, files, entries)
    ensures entries[0].key in files && forall e <- entries :: e.key in files
  {
    assert entries[0] in entries;
  }

  lemma ContinuesSelf(files: Files)
    ensures Continues(files, files)
  {
  }

  // ----- A restart with working storage --------------------------------------------------------------

  predicate Working(entries: seq<Entry>) {
    forall e <- entries :: e.readable && e.write == Written
  }

  /** The files after every receipt among `keys` has been settled. */
  function Settled(files: Files, keys: set<Key>): Files {
    map k | k in files :: if k in keys then Restarted(files[k]) else files[k]
  }

  function KeysOf(entries: seq<Entry>): set<Key> {
    set e <- entries :: e.key
  }

  /** A file read from a sound directory always passes the checks. */
  lemma EntryIsAccepted(v: View, files: Files, entries: seq<Entry>)
    requires entries != [] && Loading(v, files, entries) && FilesOk(files)
    ensures var r := files[entries[0].key];
      Sound(r, entries[0].key) && OwnsSession(v.items, r.scope, r.receipt.session)
  {
    hide Sound;
    assert entries[0] in entries;
  }

  lemma SettleOne(files: Files, entries: seq<Entry>)
    requires entries != [] && entries[0].key in files && Distinct(entries)
    ensures var k := entries[0].key;
      Settled(files[k := Restarted(files[k])], KeysOf(entries[1..])) == Settled(files, KeysOf(entries))
  {
    var k := entries[0].key;
    assert entries == [entries[0]] + entries[1..];
    assert KeysOf(entries) == {k} + KeysOf(entries[1..]);
    assert k !in KeysOf(entries[1..]);
  }

  lemma {:induction false} LoadWorks(v: View, files: Files, entries: seq<Entry>)
    requires Loading(v, files, entries) && FilesOk(files) && Working(entries)
    ensures forall e <- entries :: e.key in files
    ensures var (v', files') := LoadEntries(v, files, entries);
      !v'.failed && files' == Settled(files, KeysOf(entries))
    decreases |entries|
  {
    hide FilesOk, Loading, Restarted, Sound, OwnsSession, Settled, KeysOf, Distinct, Terminal;
    if entries == [] {
      LoadedAll(v, files);
      assert Settled(files, KeysOf([])) == files by { SettleNone(files); }
    } else {
      var k := entries[0].key;
      FirstEntry(v, files, entries);
      EntryIsAccepted(v, files, entries);
      assert entries[0] in entries;
      var r := Restarted(files[k]);
      var files' := files[k := r];
      LoadingIsDistinct(v, files, entries);
      SettleOne(files, entries);
      LoadOne(v, files, entries, r);
      if Terminal(files[k].receipt.state) {
        RestartedTerminal(files[k]);
        assert files' == files;
      } else {
        RestartKeepsRequest(files[k]);
        RewriteKeepsFiles(files, k, r);
      }
      LoadWorks(v.(items := v.items[k := r]), files', entries[1..]);
    }
  }

  lemma SettleNone(files: Files)
    ensures Settled(files, KeysOf([])) == files
  {
  }

  lemma LoadingIsDistinct(v: View, files: Files, entries: seq<Entry>)
    requires Loading(v, files, entries)
    ensures Distinct(entries)
  {
  }

  lemma RestartedTerminal(r: Record)
    requires Terminal(r.receipt.state)
    ensures Restarted(r) == r
  {
  }

  // ----- Every step keeps the invariant --------------------------------------------------------------

  lemma OpenKeeps(w: World, entries: seq<Entry>, listable: bool)
    requires Inv(w)
    ensures Inv(OpenStep(w, entries, listable)) && Continues(w.files, OpenStep(w, entries, listable).files)
  {
    hide FilesOk, Continues, LaunchesOk, Distinct, LoadEntries;
    ContinuesSelf(w.files);
    if w.manager.None? && Lists(entries, w.files) && listable && |entries| <= MAX_RECEIPTS {
      ListsIsLoading(w.files, entries);
      LoadKeeps(NewView, w.files, entries);
      var files' := LoadEntries(NewView, w.files, entries).1;
      ContinuesKeepsOwners(w.files, files', w.launches, NewView);
    }
  }

  lemma ListsIsLoading(files: Files, entries: seq<Entry>)
    requires Lists(entries, files)
    ensures Loading(NewView, files, entries)
  {
  }

  lemma UpdateKeeps(v: View, files: Files, key: Key, report: Report, o: WriteOutcome)
    requires FilesOk(files) && ManagerOk(v, files)
    ensures var (v', files', _) := Update(v, files, key, report, o);
      FilesOk(files') && Continues(files, files') && ManagerOk(v', files')
  {
    hide FilesOk, Continues, WorkersOk, Terminal;
    ContinuesSelf(files);
    if !v.failed && key in v.items && !Terminal(v.items[key].receipt.state) {
      var r := Reported(v.items[key], report);
      RewriteKeepsFiles(files, key, r);
      WorkersFrame(v, v.(failed := true), files);
      WorkersFrame(v, v.(items := v.items[key := r]), files);
      ContinuesKeepsOwners(files, files[key := r], [], v.(items := v.items[key := r]));
      ContinuesKeepsOwners(files, files[key := r], [], v.(failed := true));
    }
  }

  lemma WorkersFrame(v: View, v': View, files: Files)
    requires WorkersOk(v, files) && v'.active == v.active && v'.device == v.device
    ensures WorkersOk(v', files)
  {
    hide DeviceContext.Allows;
  }

  lemma ReportKeeps(w: World, session: string, report: Report, o: WriteOutcome)
    requires Inv(w)
    ensures var w' := ReportStep(w, session, report, o); Inv(w') && Continues(w.files, w'.files)
  {
    hide FilesOk, Continues, ManagerOk, LaunchesOk, Update;
    ContinuesSelf(w.files);
    if w.manager.Some? && session in w.manager.value.active {
      var v := w.manager.value;
      UpdateKeeps(v, w.files, v.active[session].key, report, o);
      ContinuesKeepsOwners(w.files, Update(v, w.files, v.active[session].key, report, o).1, w.launches, v);
    }
  }

  /** The branches of `Submit` that get as far as writing a receipt. */
  predicate Writes(me: nat, v: View, t: Ticket, r: Handoff.Request, admitted: bool) {
    && t.scope.Valid() && t.proof != "" && |t.proof| <= MAX_PROOF
    && IsRequestId(r.id) && IsSession(r.session) && r.valid
    && !v.failed && !v.closed
    && t.manager == me && t.generation == v.generation && v.device.Allows(t.scope)
    && Key(t.scope, r.id) !in v.items
    && OwnsSession(v.items, t.scope, Lower(r.session))
    && |v.items| < MAX_RECEIPTS && Lower(r.session) !in v.active
    && admitted
  }

  /** A request either changes nothing, or writes the first record of a new request; it launches a
      worker exactly when that write is confirmed. */
  lemma SubmitOutcome(me: nat, v: View, files: Files, t: Ticket, r: Handoff.Request, admitted: bool, o: WriteOutcome)
    ensures var (v', files', reply, launched) := Submit(me, v, files, t, r, admitted, o);
      var key, record := Key(t.scope, r.id), FirstRecord(t.scope, r);
      && (!Writes(me, v, t, r, admitted) ==> v' == v && files' == files && !launched)
      && (Writes(me, v, t, r, admitted) ==>
            && files' == AfterWrite(files, files[key := record], o) && launched == (o == Written)
            && v' == if launched
                     then v.(items := v.items[key := record], active := v.active[Lower(r.session) := Worker(key, false)])
                     else v.(failed := true))
  {
    hide Scope.Valid, DeviceContext.Allows, IsRequestId, IsSession, OwnsSession, Lower;
  }

  lemma LowerSession(s: string)
    requires IsSession(s)
    ensures IsSession(Lower(s))
  {
  }

  lemma FirstIsSound(t: Ticket, r: Handoff.Request)
    requires t.scope.Valid() && IsRequestId(r.id) && IsSession(r.session)
    ensures Sound(FirstRecord(t.scope, r), Key(t.scope, r.id))
  {
    LowerSession(r.session);
    hide Scope.Valid, IsRequestId, IsSession;
  }

  lemma WritingKeepsFiles(me: nat, v: View, files: Files, t: Ticket, r: Handoff.Request)
    requires FilesOk(files) && ManagerOk(v, files) && Writes(me, v, t, r, true)
    ensures var files' := files[Key(t.scope, r.id) := FirstRecord(t.scope, r)];
      FilesOk(files') && Continues(files, files')
  {
    FirstIsSound(t, r);
    hide FilesOk, WorkersOk, Continues, Sound, Scope.Valid, DeviceContext.Allows, IsRequestId, IsSession, OwnsSession;
    AddKeepsFiles(files, Key(t.scope, r.id), FirstRecord(t.scope, r));
  }

  lemma LaunchKeepsWorkers(v: View, files: Files, session: string, key: Key)
    requires WorkersOk(v, files) && key in files && files[key].receipt.session == session && v.device.Allows(key.scope)
    ensures WorkersOk(v.(active := v.active[session := Worker(key, false)]), files)
  {
    hide DeviceContext.Allows;
  }

  lemma LaunchKeepsLog(launches: seq<Launch>, files: Files, key: Key, record: Record)
    requires LaunchesOk(launches, files) && key !in files
    ensures LaunchesOk(launches + [Launch(key, record.receipt.session)], files[key := record])
  {
  }

  lemma SubmitKeepsManager(me: nat, v: View, files: Files, t: Ticket, r: Handoff.Request, o: WriteOutcome)
    requires FilesOk(files) && ManagerOk(v, files) && Writes(me, v, t, r, true)
    ensures var (v', files', _, _) := Submit(me, v, files, t, r, true, o); ManagerOk(v', files')
  {
    var key, record := Key(t.scope, r.id), FirstRecord(t.scope, r);
    SubmitOutcome(me, v, files, t, r, true, o);
    WritingKeepsFiles(me, v, files, t, r);
    var full := files[key := record];
    hide Submit, FilesOk, Continues, WorkersOk, Scope.Valid, DeviceContext.Allows, IsRequestId, IsSession, OwnsSession, Lower;
    ContinuesKeepsOwners(files, full, [], v);
    WorkersFrame(v, v.(failed := true), files);
    WorkersFrame(v, v.(failed := true), full);
    LaunchKeepsWorkers(v, full, Lower(r.session), key);
    var v1 := v.(active := v.active[Lower(r.session) := Worker(key, false)]);
    WorkersFrame(v1, v1.(items := v.items[key := record]), full);
  }

  lemma RequestKeeps(w: World, t: Ticket, r: Handoff.Request, admitted: bool, o: WriteOutcome)
    requires Inv(w)
    ensures var w' := RequestStep(w, t, r, admitted, o); Inv(w') && Continues(w.files, w'.files)
  {
    hide Submit, Continues, FilesOk, ManagerOk, LaunchesOk, Writes, OwnsSession, Lower;
    ContinuesSelf(w.files);
    if w.manager.Some? {
      var v := w.manager.value;
      SubmitOutcome(w.serial, v, w.files, t, r, admitted, o);
      if Writes(w.serial, v, t, r, admitted) {
        var key, record := Key(t.scope, r.id), FirstRecord(t.scope, r);
        WritesMeans(w.serial, v, w.files, t, r, admitted);
        WritingKeepsFiles(w.serial, v, w.files, t, r);
        SubmitKeepsManager(w.serial, v, w.files, t, r, o);
        ContinuesKeepsOwners(w.files, w.files[key := record], w.launches, v);
        LaunchKeepsLog(w.launches, w.files, key, record);
      }
    }
  }

  lemma WritesMeans(me: nat, v: View, files: Files, t: Ticket, r: Handoff.Request, admitted: bool)
    requires Writes(me, v, t, r, admitted) && ManagerOk(v, files)
    ensures admitted && Key(t.scope, r.id) !in files
  {
    hide Scope.Valid, DeviceContext.Allows, IsRequestId, IsSession, OwnsSession, Lower, WorkersOk;
  }

  lemma SyncKeepsWorkers(v: View, files: Files, device: DeviceContext)
    requires WorkersOk(v, files)
    ensures WorkersOk(SyncDevice(v, device), files)
  {
    hide DeviceContext.Allows;
  }

  lemma StepKeeps(w: World, e: Event)
    requires Inv(w)
    ensures Inv(Step(w, e)) && Continues(w.files, Step(w, e).files)
  {
    hide FilesOk, Continues, LaunchesOk, WorkersOk, OpenStep, RequestStep, ReportStep;
    ContinuesSelf(w.files);
    match e
    case Open(entries, listable) => OpenKeeps(w, entries, listable);
    case Request(t, r, admitted, o) => RequestKeeps(w, t, r, admitted, o);
    case WorkerReports(session, report, o) => ReportKeeps(w, session, report, o);
    case WorkerLeaves(session) =>
      if w.manager.Some? { LeaveKeepsWorkers(w.manager.value, w.files, session); }
    case DeviceChanges(device) =>
      if w.manager.Some? { SyncKeepsWorkers(w.manager.value, w.files, device); }
    case CloseManager =>
      if w.manager.Some? { WorkersFrame(w.manager.value, w.manager.value.(closed := true), w.files); }
    case ProcessEnds =>
  }

  lemma LeaveKeepsWorkers(v: View, files: Files, session: string)
    requires WorkersOk(v, files)
    ensures WorkersOk(v.(active := v.active - {session}), files)
  {
    hide DeviceContext.Allows;
  }

  lemma {:induction false} RunKeeps(w: World, events: seq<Event>)
    requires Inv(w)
    ensures Inv(Run(w, events)) && Continues(w.files, Run(w, events).files)
    decreases |events|
  {
    hide Inv, Step, Continues;
    ContinuesSelf(w.files);
    if events != [] {
      var w' := Step(w, events[0]);
      StepKeeps(w, events[0]);
      RunKeeps(w', events[1..]);
      ContinuesOn(w.files, w'.files, Run(w', events[1..]).files);
    }
  }

  lemma FreshIsGood()
    ensures Inv(Fresh)
  {
  }

  // ----- What the receipts promise -------------------------------------------------------------------

  /** Over all restarts and ambiguous writes a request ID of a scope launches at most one worker. */
  lemma AtMostOneLaunch(events: seq<Event>, i: nat, j: nat)
    requires i < j < |Run(Fresh, events).launches|
    ensures Run(Fresh, events).launches[i].key != Run(Fresh, events).launches[j].key
  {
    FreshIsGood();
    RunKeeps(Fresh, events);
    hide Run, FilesOk, ManagerOk;
  }

  /** A session that ever carried a worker of one scope never carries one of another. */
  lemma SessionsStayInOneScope(events: seq<Event>, i: nat, j: nat)
    requires i < |Run(Fresh, events).launches| && j < |Run(Fresh, events).launches|
    requires Run(Fresh, events).launches[i].session == Run(Fresh, events).launches[j].session
    ensures Run(Fresh, events).launches[i].key.scope == Run(Fresh, events).launches[j].key.scope
  {
    FreshIsGood();
    RunKeeps(Fresh, events);
    var w := Run(Fresh, events);
    var k, l := w.launches[i].key, w.launches[j].key;
    assert k in w.files && l in w.files;
    SoundScope(w.files, k);
    SoundScope(w.files, l);
    hide Run, Sound, ManagerOk;
  }

  lemma SoundScope(files: Files, k: Key)
    requires AllSound(files) && k in files
    ensures files[k].scope == k.scope
  {
    hide Scope.Valid, IsRequestId, IsSession;
  }

  /** A terminal receipt, once on disk, is on disk unchanged after any further events. */
  lemma TerminalReceiptsStay(before: seq<Event>, after: seq<Event>, k: Key)
    requires var w := Run(Fresh, before); k in w.files && Terminal(w.files[k].receipt.state)
    ensures var w, w' := Run(Fresh, before), Run(Run(Fresh, before), after);
      k in w'.files && w'.files[k] == w.files[k]
  {
    FreshIsGood();
    RunKeeps(Fresh, before);
    RunKeeps(Run(Fresh, before), after);
  }

  function Answer(w: World, scope: Scope, id: string): Reply {
    if w.manager.None? then Refused(Unavailable) else Get(w.manager.value, scope, id)
  }

  lemma AnswerIsOnDisk(w: World, scope: Scope, id: string)
    requires Inv(w) && Answer(w, scope, id).Replied?
    ensures Key(scope, id) in w.files && w.files[Key(scope, id)].receipt == Answer(w, scope, id).receipt
    ensures w.manager.value.device.Allows(scope)
  {
    hide FilesOk, WorkersOk, LaunchesOk;
  }

  /** What a caller is told: answers about one request never change their fingerprint or session, and
      a terminal answer never changes at all. Only callers the device allows are answered. */
  lemma AnswersAreStable(before: seq<Event>, after: seq<Event>, scope: Scope, id: string)
    requires Answer(Run(Fresh, before), scope, id).Replied?
    requires Answer(Run(Run(Fresh, before), after), scope, id).Replied?
    ensures var w' := Run(Run(Fresh, before), after);
      var a, b := Answer(Run(Fresh, before), scope, id).receipt, Answer(w', scope, id).receipt;
      && a.fingerprint == b.fingerprint && a.session == b.session
      && (Terminal(a.state) ==> a == b)
      && w'.manager.value.device.Allows(scope)
  {
    var w := Run(Fresh, before);
    var w' := Run(w, after);
    FreshIsGood();
    RunKeeps(Fresh, before);
    RunKeeps(w, after);
    AnswerIsOnDisk(w, scope, id);
    AnswerIsOnDisk(w', scope, id);
    hide Run, Inv, Answer, Terminal;
  }

  /** A request ID that was ever launched is never launched again, and is answered with the receipt
      of its own content or refused. */
  lemma ResubmissionLaunchesNothing(events: seq<Event>, i: nat, t: Ticket, r: Handoff.Request, admitted: bool, o: WriteOutcome)
    requires var w := Run(Fresh, events);
      w.manager.Some? && i < |w.launches| && w.launches[i].key == Key(t.scope, r.id)
    ensures var w := Run(Fresh, events);
      var (v', files', reply, launched) := Submit(w.serial, w.manager.value, w.files, t, r, admitted, o);
      && !launched && v' == w.manager.value && files' == w.files
      && (reply.Replied? ==> reply.receipt.fingerprint == FingerprintOf(r))
  {
    FreshIsGood();
    RunKeeps(Fresh, events);
    var w := Run(Fresh, events);
    assert w.launches[i].key in w.files;
    hide Run, FilesOk, WorkersOk, LaunchesOk, Submit;
    KnownKeyLaunchesNothing(w.serial, w.manager.value, w.files, t, r, admitted, o);
  }

  lemma KnownKeyLaunchesNothing(me: nat, v: View, files: Files, t: Ticket, r: Handoff.Request, admitted: bool, o: WriteOutcome)
    requires v.failed || Key(t.scope, r.id) in v.items
    ensures var (v', files', reply, launched) := Submit(me, v, files, t, r, admitted, o);
      && !launched && v' == v && files' == files
      && (reply.Replied? ==> reply.receipt.fingerprint == FingerprintOf(r))
  {
    hide Scope.Valid, DeviceContext.Allows, IsRequestId, IsSession, OwnsSession, Lower;
  }

  /** With readable files and working writes a restart always succeeds: the directory a history leaves
      behind is accepted whole, and every unfinished receipt becomes unknown. */
  lemma RestartRestores(events: seq<Event>, entries: seq<Entry>)
    requires var w := Run(Fresh, events); w.manager.None? && Lists(entries, w.files) && Working(entries)
    ensures var w := Run(Fresh, events);
      var w' := OpenStep(w, entries, true);
      && w'.manager.Some? && !w'.manager.value.failed
      && w'.manager.value.items == w'.files
      && w'.files == map k | k in w.files :: Restarted(w.files[k])
  {
    FreshIsGood();
    RunKeeps(Fresh, events);
    var w := Run(Fresh, events);
    hide Run, LoadEntries, ManagerOk, LaunchesOk, FilesOk;
    LoadRestores(w.files, entries);
  }

  lemma LoadRestores(files: Files, entries: seq<Entry>)
    requires FilesOk(files) && Lists(entries, files) && Working(entries)
    ensures var (v', files') := Load(files, entries, true);
      !v'.failed && v'.items == files' && files' == map k | k in files :: Restarted(files[k])
  {
    hide FilesOk, LoadEntries, Lists, Loading, Working, Restarted, Settled;
    ListsIsLoading(files, entries);
    ListedSize(files, entries);
    LoadWorks(NewView, files, entries);
    LoadKeeps(NewView, files, entries);
    SettledAll(files, entries);
    FilesBounded(files);
  }

  lemma FilesBounded(files: Files)
    requires FilesOk(files)
    ensures |files| <= MAX_RECEIPTS
  {
    hide AllSound, SessionsBound;
  }

  lemma SettledAll(files: Files, entries: seq<Entry>)
    requires Lists(entries, files)
    ensures Settled(files, KeysOf(entries)) == map k | k in files :: Restarted(files[k])
  {
    hide Restarted, Distinct;
    assert KeysOf(entries) == files.Keys;
  }

  lemma {:induction false} ListedSize(files: Files, entries: seq<Entry>)
    requires Lists(entries, files)
    ensures |entries| == |files|
    decreases |entries|
  {
    hide Sound;
    if entries == [] {
      assert files == map[];
    } else {
      var k := entries[0].key;
      var rest := entries[1..];
      assert entries[0] in entries;
      assert (files - {k}).Keys == files.Keys - {k};
      assert |(files - {k}).Keys| == |files| - 1;
      forall l <- files - {k} ensures exists e <- rest :: e.key == l {
        var e :| e in entries && e.key == l;
        assert e in rest;
      }
      ListedSize(files - {k}, rest);
    }
  }

  /** A ticket captured before a device change is worth nothing after it, even if the device
      returns to what it was. */
  lemma OldTicketsAreRefused(me: nat, v: View, files: Files, device: DeviceContext, t: Ticket, r: Handoff.Request,
                             admitted: bool, o: WriteOutcome)
    requires v.device != device && t.generation == v.generation
    ensures var back := SyncDevice(SyncDevice(v, device), v.device);
      var (v', files', reply, launched) := Submit(me, back, files, t, r, admitted, o);
      reply.Refused? && !launched && files' == files && v' == back
  {
    hide Scope.Valid, DeviceContext.Allows, IsRequestId, IsSession, OwnsSession, Lower;
  }

  /** A worker that nobody has told to stop belongs to a scope the device allows right now. */
  lemma RunningWorkersAreAllowed(events: seq<Event>, session: string)
    requires var w := Run(Fresh, events);
      w.manager.Some? && session in w.manager.value.active && !w.manager.value.active[session].cancelled
    ensures var v := Run(Fresh, events).manager.value; v.device.Allows(v.active[session].key.scope)
  {
    FreshIsGood();
    RunKeeps(Fresh, events);
    hide Run, FilesOk, LaunchesOk, DeviceContext.Allows;
  }
}

/** What a caller is answered: the receipt of its own submission, and in it what the worker reported. */
module HandoffAnswers {
  import opened Prelude
  import opened Invocation
  import opened Handoff
  import H = HandoffHistory

  /** Memory and disk of a manager whose storage has not failed. */
  predicate Working(v: View, files: Files) {
    !v.failed && v.items == files
  }

  predicate Unfinished(r: Receipt) {
    r.state == State.Received || r.state == State.Accepted || r.state == State.Running
  }

  /** The receipt after the report: what was reported, over what identifies the request. */
  predicate Carries(now: Receipt, before: Receipt, report: Report) {
    && now.state == report.state && now.code == report.code && now.text == report.text && now.truncated == report.truncated
    && now.version == (if report.version == "" then before.version else report.version)
    && now.id == before.id && now.fingerprint == before.fingerprint && now.session == before.session
  }

  /** A report on an unfinished receipt, once written, is what the file holds and what the caller is answered; a failed
      write ends the manager's service, and a finished or unknown receipt takes no report. */
  lemma ReportAnswers(v: View, files: Files, key: Key, report: Report, w: WriteOutcome)
    requires Working(v, files)
    ensures var (v', files', ok) := Update(v, files, key, report, w);
      if key !in files || !Unfinished(files[key].receipt) then (v', files', ok) == (v, files, false)
      else
        && (ok <==> w == Written)
        && (forall k :: k != key ==> (k in files' <==> k in files) && (k in files ==> files'[k] == files[k]))
        && key in files' && files'[key].scope == files[key].scope
        && (if w == FailedBefore then files'[key] == files[key] else Carries(files'[key].receipt, files[key].receipt, report))
        && v' == v.(items := v'.items, failed := v'.failed)
        && (if ok then Working(v', files') else v'.failed && v'.items == v.items)
        && (ok && v.device.Allows(key.scope) && IsRequestId(key.id) ==>
              Get(v', key.scope, key.id) == Replied(files'[key].receipt))
  {
  }

  /** In every reachable state: the report of a worker whose receipt is unfinished is what its caller is answered from
      then on, while the device allows it. */
  lemma WorkersAreHeard(events: seq<H.Event>, session: string, report: Report)
    requires var w := H.Run(H.Fresh, events);
      && w.manager.Some? && !w.manager.value.failed && session in w.manager.value.active
      && var key := w.manager.value.active[session].key;
         key in w.files && Unfinished(w.files[key].receipt) && w.manager.value.device.Allows(key.scope)
    ensures var w := H.Run(H.Fresh, events);
      var key := w.manager.value.active[session].key;
      var answer := H.Answer(H.Step(w, H.WorkerReports(session, report, Written)), key.scope, key.id);
      answer.Replied? && Carries(answer.receipt, w.files[key].receipt, report) && answer.receipt.session == session
  {
    var w := H.Run(H.Fresh, events);
    H.FreshIsGood();
    H.RunKeeps(H.Fresh, events);
    hide H.Run;
    WorkerFacts(w, session);
    hide H.Inv;
    var key := w.manager.value.active[session].key;
    ReportAnswers(w.manager.value, w.files, key, report, Written);
    hide Update, Get, Carries;
  }

  lemma WorkerFacts(w: H.World, session: string)
    requires H.Inv(w) && w.manager.Some? && !w.manager.value.failed && session in w.manager.value.active
    ensures Working(w.manager.value, w.files)
    ensures var key := w.manager.value.active[session].key;
      key in w.files && IsRequestId(key.id) && w.files[key].receipt.session == session
  {
    var key := w.manager.value.active[session].key;
    assert key in w.files;
    assert Sound(w.files[key], key);
    hide Scope.Valid, IsRequestId, IsSession, DeviceContext.Allows;
  }

  // ----- Submitting ------------------------------------------------------------------------------------

  /** The same session in lower case. */
  predicate LowerOf(session: string, given: string) {
    |session| == |given| && forall i | 0 <= i < |given| ::
      session[i] == if 'A' <= given[i] <= 'Z' then (given[i] as int + 32) as char else given[i]
  }

  lemma LoweredExactly(session: string, given: string)
    ensures session == Lower(given) <==> LowerOf(session, given)
  {
  }

  /** A ticket for the device as it is now. */
  predicate FreshTicket(t: Ticket, me: nat, v: View) {
    t.manager == me && t.generation == v.generation && v.device.Allows(t.scope) && 0 < |t.proof| <= 4096
  }

  /** No receipt ties the session to another scope, and no worker has it. */
  predicate FreeSession(v: View, scope: Scope, session: string) {
    session !in v.active && forall k <- v.items :: v.items[k].receipt.session == session ==> v.items[k].scope == scope
  }

  /** A worker is launched exactly for a well-formed request under a fresh ticket whose ID is new to its scope, whose
      session is free, while there are fewer than 128 receipts, the job ledger admits it and the receipt is written;
      and what it leaves is that receipt, on disk, in memory and in the answer, and the worker. */
  lemma SubmitsExactly(me: nat, v: View, files: Files, t: Ticket, r: Request, admitted: bool, w: WriteOutcome)
    requires Working(v, files)
    ensures var (v', files', reply, launched) := Submit(me, v, files, t, r, admitted, w);
      var key, session := Key(t.scope, r.id), Lower(r.session);
      && (launched <==>
            && IsRequestId(r.id) && IsSession(r.session) && r.valid && !v.closed && FreshTicket(t, me, v)
            && key !in files && FreeSession(v, t.scope, session) && |files| < 128 && admitted && w == Written)
      && (launched ==>
            var receipt := Receipt(r.id, Fingerprint(r.id, session, r.content), session, State.Received, "", "", "", false);
            && reply == Replied(receipt) && files' == files[key := Record(t.scope, receipt)] && Working(v', files')
            && v' == v.(items := files', active := v.active[session := Worker(key, false)])
            && Get(v', t.scope, r.id) == reply)
  {
    hide IsRequestId, IsSession, Lower;
    AllowedIsValid(v.device, t.scope);
    hide Scope.Valid, DeviceContext.Allows;
  }

  lemma AllowedIsValid(device: DeviceContext, scope: Scope)
    ensures device.Allows(scope) ==> scope.Valid()
  {
  }

  /** And why it is not, first things first; only a failed write changes anything. */
  lemma SubmitAnswers(me: nat, v: View, files: Files, t: Ticket, r: Request, admitted: bool, w: WriteOutcome)
    requires Working(v, files)
    ensures var (v', files', reply, launched) := Submit(me, v, files, t, r, admitted, w);
      var key, session := Key(t.scope, r.id), Lower(r.session);
      !launched ==>
        && reply ==
          (if !t.scope.Valid() || t.proof == "" || |t.proof| > 4096 then Refused(BadIdentity)
           else if !IsRequestId(r.id) || !IsSession(r.session) || !r.valid then Refused(BadRequest)
           else if v.closed then Refused(Unavailable)
           else if !FreshTicket(t, me, v) then Refused(ContextChanged)
           else if key in files then
             if files[key].receipt.fingerprint == Fingerprint(r.id, session, r.content) then Replied(files[key].receipt)
             else Refused(IdReused)
           else if exists k <- files :: files[k].receipt.session == session && files[k].scope != t.scope then
             Refused(ForeignSession)
           else if |files| >= 128 || session in v.active then Refused(TooMany)
           else if !admitted then Refused(NoCapacity) else Refused(NotSaved))
        && (reply != Refused(NotSaved) ==> v' == v && files' == files)
        && (reply == Refused(NotSaved) ==> v' == v.(failed := true) && forall k <- files :: k in files' && files'[k] == files[k])
  {
    hide IsRequestId, IsSession, Lower, Scope.Valid, DeviceContext.Allows;
  }

  // ----- Device changes and restarts -------------------------------------------------------------------

  /** Told the same again, the manager changes nothing; told something new, it refuses earlier tickets, and stops
      exactly the workers the device no longer allows. */
  lemma SyncAnswers(v: View, device: DeviceContext)
    ensures var v' := SyncDevice(v, device);
      && v'.device == device && (v'.generation == v.generation <==> device == v.device) && v'.generation >= v.generation
      && v'.items == v.items && v'.failed == v.failed && v'.closed == v.closed
      && v'.active.Keys == v.active.Keys
      && forall s <- v.active ::
        && v'.active[s].key == v.active[s].key
        && (v'.active[s].cancelled <==> v.active[s].cancelled || !device.Allows(v.active[s].key.scope))
  {
    hide DeviceContext.Allows;
  }

  /** A restart leaves finished receipts alone and gives every other one an unknown result, with nothing else of it
      changed. */
  lemma RestartAnswers(events: seq<H.Event>, entries: seq<Entry>, k: Key)
    requires var w := H.Run(H.Fresh, events);
      w.manager.None? && H.Lists(entries, w.files) && H.Working(entries) && k in w.files
    ensures var w := H.Run(H.Fresh, events);
      var w' := H.OpenStep(w, entries, true);
      && w'.manager.Some? && Working(w'.manager.value, w'.files) && k in w'.files
      && w'.files[k] ==
        if Unfinished(w.files[k].receipt)
        then w.files[k].(receipt := w.files[k].receipt.(state := State.Unknown, code := "runtime_restarted")) else w.files[k]
  {
    H.RestartRestores(events, entries);
    hide H.Run, H.OpenStep, H.Lists, H.Working;
  }

  /** In every reachable state with working storage: an admitted request under a fresh ticket launches one worker for
      its key and session, and the log of launches grows by exactly that. */
  lemma LaunchesAreLogged(events: seq<H.Event>, t: Ticket, r: Request, admitted: bool, w: WriteOutcome)
    requires var world := H.Run(H.Fresh, events); world.manager.Some? && !world.manager.value.failed
    ensures var world := H.Run(H.Fresh, events);
      var v, later := world.manager.value, H.Step(world, H.Request(t, r, admitted, w));
      var key, session := Key(t.scope, r.id), Lower(r.session);
      var launches := IsRequestId(r.id) && IsSession(r.session) && r.valid && !v.closed && FreshTicket(t, world.serial, v)
        && key !in world.files && FreeSession(v, t.scope, session) && |world.files| < 128 && admitted && w == Written;
      && later.launches == (if launches then world.launches + [H.Launch(key, session)] else world.launches)
      && (launches ==> later.manager.Some? && session in later.manager.value.active
                       && later.manager.value.active[session] == Worker(key, false) && key in later.files)
  {
    var world := H.Run(H.Fresh, events);
    H.FreshIsGood();
    H.RunKeeps(H.Fresh, events);
    hide H.Run;
    ManagerWorks(world);
    SubmitsExactly(world.serial, world.manager.value, world.files, t, r, admitted, w);
    hide H.Inv, Submit, IsRequestId, IsSession, Lower, FreshTicket, FreeSession, Get;
  }

  lemma ManagerWorks(world: H.World)
    requires H.Inv(world) && world.manager.Some? && !world.manager.value.failed
    ensures Working(world.manager.value, world.files)
  {
  }
}

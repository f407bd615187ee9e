/** What every interleaving of the server's steps keeps. */
module ServerSafety {
  import opened Wrappers
  import opened Recovery
  import opened Operations
  import opened OperationFiles
  import opened Server

  predicate Started(state: State) {
    state == Running || state == Succeeded || state == Failed
  }

  /** What no step changes in a request: a selection sets the recovery point and the headless mark of a
      bootstrap restore, a repeated create the deadline. */
  function Fixed(r: Request): Request {
    var lasting := r.(deadline := None, configuration := []);
    if IsBootstrapRestore(r) then lasting.(recoveryPointID := "", headless := true) else lasting
  }

  predicate WellFormed(c: Setup, id: string, record: Record) {
    && record.request.operationID == id && record.status.operationID == id
    && ValidRequest(record.request, c.isObject) && record.request.configuration == []
    && Fixed(record.form.request) == Fixed(record.request)
    && (record.configurationPath != "" ==>
          IsBootstrapRestore(record.request) && record.configurationPath == ConfigurationFile(c.root, id))
    && (record.statePath != "" ==> record.request.operation == Backup && record.statePath == StateFile(c.root, id))
    && (Started(record.status.state) ==>
          !Incomplete(record) && (record.request.operation == Backup ==> record.statePath != ""))
    && (record.status.state == Failed ==> record.status.error.Some?)
    && (record.status.error.Some? ==> record.status.state == Failed || record.status.state == Canceled)
    && (record.status.result.Some? ==> record.status.state == Succeeded || record.status.state == Canceled)
    && (record.status.state == Succeeded ==> record.status.result.Some?)
    && (record.downloadPath != "" ==> record.status.result.Some?)
  }

  ghost predicate Records(c: Setup, s: Srv) {
    forall id :: id in s.ops ==> WellFormed(c, id, s.ops[id])
  }

  /** What was started is what the record asks for, apart from the deadline and the staged configuration. */
  predicate FlightSound(c: Setup, s: Srv, flight: Flight) {
    var id := flight.operation.operationID;
    && id in s.ops
    && (s.ops[id].status.state == Running || s.ops[id].status.state == Canceled)
    && flight.operation.(deadline := None, configuration := []) == s.ops[id].request.(deadline := None)
    && (flight.operation.operation == Backup ==>
          s.ops[id].statePath != "" && flight.statePath == s.ops[id].statePath == StateFile(c.root, id))
    && (!IsBootstrapRestore(flight.operation) ==> flight.operation.configuration == [])
    && (IsBootstrapRestore(flight.operation) ==>
          flight.operation.recoveryPointID != "" && s.ops[id].configurationPath != "")
  }

  predicate Flies(s: Srv, id: string) {
    exists t :: t in s.flights && s.flights[t].operation.operationID == id
  }

  ghost predicate Flights(c: Setup, s: Srv) {
    && (forall t :: t in s.flights ==> t < s.next && FlightSound(c, s, s.flights[t]))
    && (forall t, u ::
          t in s.flights && u in s.flights
          && s.flights[t].operation.operationID == s.flights[u].operation.operationID ==>
            t == u)
    && (forall id :: id in s.ops && s.ops[id].status.state == Running ==> Flies(s, id))
  }

  predicate UploadSound(s: Srv, upload: Upload) {
    && upload.id in s.ops
    && s.ops[upload.id].request.operation == Backup
    && s.ops[upload.id].request.stateArchive == Some(upload.descriptor)
    && (upload.stage.Checked? ==> Matches(upload.stage.content, upload.descriptor))
  }

  ghost predicate Uploads(s: Srv) {
    forall u :: u in s.uploads ==> u < s.next && UploadSound(s, s.uploads[u])
  }

  predicate Creates(c: Setup, s: Srv) {
    s.creating.Some? ==>
      && s.creating.value.request.operationID !in s.ops
      && ValidRequest(s.creating.value.request, c.isObject)
      && Fixed(s.creating.value.form.request) == Fixed(s.creating.value.request)
  }

  ghost predicate Consistent(c: Setup, s: Srv) {
    c.root != "" && Records(c, s) && Flights(c, s) && Uploads(s) && Creates(c, s)
  }

  // ----- one record at a time -----

  /** The moves of an operation's state. */
  predicate Moves(a: State, b: State) {
    match a
    case Pending => b != Succeeded
    case Running => b != Pending
    case Succeeded => b == Succeeded || b == Canceled
    case Failed => b == Running || b == Failed || b == Canceled
    case Canceled => b == Canceled
  }

  predicate NotEarlier(a: Option<int>, b: Option<int>) {
    a.Some? ==> b.Some? && a.value <= b.value
  }

  /** How a status may change: a cancellation changes the state only, and while the state stays only a running
      operation's progress changes, or the error of a failed one that could not be started. */
  predicate StatusEvolves(a: OperationStatus, b: OperationStatus) {
    && b.ui == a.ui && b.operationID == a.operationID
    && (b.state == Canceled ==> b == a.(state := Canceled))
    && (b.state == a.state ==> b == a || (a.state == Running && b == a.(progress := b.progress)) || a.state == Failed)
  }

  /** How a record may change in one step. */
  predicate Evolves(a: Record, b: Record) {
    && StatusEvolves(a.status, b.status)
    && (b.downloadPath == a.downloadPath || (a.status.state == Running && b.status.state == Succeeded))
    && (b.request.deadline == a.request.deadline ==> b.attemptTimeout == a.attemptTimeout)
    && Fixed(a.request) == Fixed(b.request)
    && a.form == b.form
    && (a.statePath != "" ==> b.statePath == a.statePath)
    && Moves(a.status.state, b.status.state)
    && NotEarlier(a.request.deadline, b.request.deadline)
    && (a.status.state != Pending ==>
          a.request.(deadline := None) == b.request.(deadline := None) && a.configurationPath == b.configurationPath)
  }

  /** Only the record of `id` changes. */
  predicate Shape(c: Setup, s: Srv, t: Srv, id: string) {
    && (t.ops == s.ops || (id in t.ops && t.ops == s.ops[id := t.ops[id]]))
    && (id in t.ops ==> WellFormed(c, id, t.ops[id]))
    && (id in s.ops ==> id in t.ops && Evolves(s.ops[id], t.ops[id]))
    && (id !in s.ops && id in t.ops ==> t.ops[id].status.state == Pending)
  }

  predicate IsRunning(s: Srv, id: string) {
    id in s.ops && s.ops[id].status.state == Running
  }

  predicate SameFlights(s: Srv, t: Srv, id: string) {
    && t.flights == s.flights && t.next >= s.next
    && (IsRunning(t, id) ==> IsRunning(s, id))
    && (IsRunning(s, id) && id in t.ops ==> t.ops[id].status.state == Running || t.ops[id].status.state == Canceled)
  }

  lemma ValidStays(r: Request, isObject: Bytes -> bool)
    requires ValidRequest(r, isObject)
    ensures forall d :: ValidRequest(r.(deadline := d), isObject)
    ensures ValidRequest(r.(configuration := []), isObject)
    ensures r.operation == Backup || r.operation == Restore
    ensures r.phase == Bootstrap ==> r.operation == Restore
    ensures r.operation == Backup ==> r.configuration == [] && r.stateArchive.Some?
    ensures Accepted(r.operationID)
    ensures r.operation == Restore && r.configuration != [] ==> NeedsSettings(r) || Stages(r)
    ensures |r.configuration| <= MAX_CONFIGURATION_SIZE && (r.configuration != [] ==> isObject(r.configuration))
  {
  }

  // ----- each change of a record -----

  lemma ExtendedSound(c: Setup, id: string, record: Record, deadline: Option<int>, attemptTimeout: int)
    requires WellFormed(c, id, record)
    ensures var b := Extended(record, deadline, attemptTimeout);
            WellFormed(c, id, b) && Evolves(record, b) && b.status == record.status
  {
    hide ValidRequest, ConfigurationFile, StateFile;
    ValidStays(record.request, c.isObject);
  }

  lemma InsertedSound(c: Setup, pending: Creating)
    requires ValidRequest(pending.request, c.isObject) && Fixed(pending.form.request) == Fixed(pending.request)
    requires !NeedsSettings(pending.request)
    ensures var b := Inserted(c, pending); WellFormed(c, pending.request.operationID, b) && b.status.state == Pending
  {
    hide ValidRequest, ConfigurationFile, StateFile;
    ValidStays(pending.request, c.isObject);
  }

  lemma CommittedSound(c: Setup, id: string, record: Record)
    requires WellFormed(c, id, record) && record.request.operation == Backup
    ensures var b := Committed(c, record, id); WellFormed(c, id, b) && Evolves(record, b) && b.status == record.status
  {
    hide ValidRequest, ConfigurationFile, StateFile;
  }

  predicate Launchable(record: Record) {
    && (record.status.state == Pending || record.status.state == Failed)
    && !Incomplete(record) && (record.request.operation == Backup ==> record.statePath != "")
  }

  lemma LaunchedSound(c: Setup, id: string, record: Record)
    requires WellFormed(c, id, record) && Launchable(record)
    ensures WellFormed(c, id, Launched(record)) && Evolves(record, Launched(record))
    ensures WellFormed(c, id, Grounded(record)) && Evolves(record, Grounded(record))
  {
    hide ValidRequest, ConfigurationFile, StateFile;
  }

  lemma ReportedSound(c: Setup, id: string, record: Record, progress: Progress)
    requires WellFormed(c, id, record) && record.status.state == Running
    ensures var b := Reported(record, progress);
            WellFormed(c, id, b) && Evolves(record, b) && b.status.state == record.status.state
  {
    hide ValidRequest, ConfigurationFile, StateFile;
  }

  lemma EndedSound(c: Setup, id: string, record: Record, outcome: Outcome)
    requires WellFormed(c, id, record) && record.status.state == Running
    ensures var b := Ended(record, outcome);
            WellFormed(c, id, b) && Evolves(record, b)
              && b.status.state == if outcome.Success? then Succeeded else Failed
  {
    hide ValidRequest, ConfigurationFile, StateFile;
  }

  lemma StoppedSound(c: Setup, id: string, record: Record)
    requires WellFormed(c, id, record)
    ensures WellFormed(c, id, Stopped(record)) && Evolves(record, Stopped(record))
        && Stopped(record).status.state == Canceled
  {
    hide ValidRequest, ConfigurationFile, StateFile;
  }

  lemma ChosenSound(c: Setup, id: string, record: Record, point: string, configuration: Bytes)
    requires WellFormed(c, id, record) && record.status.state == Pending && IsBootstrapRestore(record.request)
    requires ValidRequest(Selected(record.request, point, configuration), c.isObject)
    ensures var b := Chosen(c, record, id, point);
            WellFormed(c, id, b) && Evolves(record, b) && b.status == record.status
  {
    hide ValidRequest, ConfigurationFile, StateFile;
    ValidStays(Selected(record.request, point, configuration), c.isObject);
    assert Selected(record.request, point, []) == Selected(record.request, point, configuration).(configuration := []);
  }

  // ----- each step -----

  /** The operation whose record a step may change. */
  function Touched(s: Srv, e: Event): string
    requires Enabled(s, e)
  {
    match e
    case CreateBegin(r, _) => r.operationID
    case CreateInsert(_) => s.creating.value.request.operationID
    case UploadCommit(u) => s.uploads[u].id
    case Run(id, _) => id
    case Update(t, _) => s.flights[t].operation.operationID
    case Finish(t, _) => s.flights[t].operation.operationID
    case Cancel(id) => id
    case Select(id, _, _, _) => id
    case _ => ""
  }

  lemma RepeatSound(c: Setup, s: Srv, r: Request, form: Form, attemptTimeout: int)
    requires Records(c, s) && r.operationID in s.ops
    ensures var t := Repeat(s, r, form, attemptTimeout).0;
            Shape(c, s, t, r.operationID) && t == s.(ops := t.ops) && SameFlights(s, t, r.operationID)
              && t.ops.Keys == s.ops.Keys
  {
    hide WellFormed, Evolves, Extended;
    ExtendedSound(c, r.operationID, s.ops[r.operationID], r.deadline, attemptTimeout);
    Reflexive(s.ops[r.operationID]);
  }

  lemma Reflexive(a: Record)
    ensures Evolves(a, a)
  {
  }

  lemma BeginSound(c: Setup, s: Srv, r: Request, now: int)
    requires Records(c, s) && s.creating == None
    ensures var t := Begin(c, s, r, now).0;
            && Shape(c, s, t, r.operationID) && SameFlights(s, t, r.operationID) && Creates(c, t)
            && t == s.(ops := t.ops, creating := t.creating) && t.ops.Keys == s.ops.Keys
  {
    hide ValidRequest, WellFormed, Evolves, Repeat;
    var timeout := if r.deadline.Some? then r.deadline.value - now else 0;
    if r.operationID in s.ops {
      RepeatSound(c, s, r, CanonicalRequest(r), timeout);
      Reflexive(s.ops[r.operationID]);
    }
    assert Fixed(CanonicalRequest(r).request) == Fixed(r);
  }

  lemma InsertSound(c: Setup, s: Srv, staged: bool)
    requires Records(c, s) && Creates(c, s) && s.creating.Some? && !NeedsSettings(s.creating.value.request)
    ensures var t, id := Insert(c, s, staged).0, s.creating.value.request.operationID;
            && Shape(c, s, t, id) && SameFlights(s, t, id)
            && t == s.(ops := t.ops, creating := None, files := t.files)
  {
    hide ValidRequest, WellFormed, Evolves, Repeat, Inserted, Stages;
    InsertedSound(c, s.creating.value);
  }

  lemma CommitSound(c: Setup, s: Srv, u: nat)
    requires Records(c, s) && Uploads(s) && u in s.uploads
    ensures var t, id := Commit(c, s, u).0, s.uploads[u].id;
            && Shape(c, s, t, id) && SameFlights(s, t, id)
            && t == s.(ops := t.ops, uploads := s.uploads - {u}) && t.ops.Keys == s.ops.Keys
  {
    hide WellFormed, Evolves, Committed;
    assert UploadSound(s, s.uploads[u]);
    CommittedSound(c, s.uploads[u].id, s.ops[s.uploads[u].id]);
  }

  /** A flight starts exactly when the operation goes from pending or failed to running. */
  predicate Takeoff(s: Srv, t: Srv, id: string) {
    && id in s.ops && Launchable(s.ops[id])
    && IsRunning(t, id)
    && t.next == s.next + 1 && s.next in t.flights && t.flights == s.flights[s.next := t.flights[s.next]]
    && t.flights[s.next].operation.(configuration := []) == s.ops[id].request.(configuration := [])
    && (s.ops[id].request.phase != Bootstrap ==> t.flights[s.next].operation == s.ops[id].request)
    && t.flights[s.next].statePath == s.ops[id].statePath
    && t.ops[id].request == s.ops[id].request && t.ops[id].configurationPath == s.ops[id].configurationPath
    && t.ops[id].statePath == s.ops[id].statePath
  }

  lemma StartSound(c: Setup, s: Srv, id: string, readable: bool)
    requires Records(c, s) && id in s.ops && Launchable(s.ops[id])
    ensures var t := Start(s, id, readable).0;
            && Shape(c, s, t, id)
            && (SameFlights(s, t, id) || Takeoff(s, t, id))
            && t == s.(ops := t.ops, flights := t.flights, next := t.next) && t.ops.Keys == s.ops.Keys
              && t.next >= s.next
  {
    hide WellFormed, Evolves, Incomplete, ReadConfiguration;
    LaunchedSound(c, id, s.ops[id]);
  }

  lemma LaunchSound(c: Setup, s: Srv, id: string, readable: bool)
    requires Records(c, s)
    ensures var t := Launch(s, id, readable).0;
            && Shape(c, s, t, id)
            && (SameFlights(s, t, id) || Takeoff(s, t, id))
            && t == s.(ops := t.ops, flights := t.flights, next := t.next) && t.ops.Keys == s.ops.Keys
              && t.next >= s.next
  {
    hide WellFormed, Evolves, Incomplete, Start, Takeoff;
    if id in s.ops {
      if Launchable(s.ops[id]) {
        StartSound(c, s, id, readable);
      }
      Reflexive(s.ops[id]);
    }
  }

  lemma ReportSound(c: Setup, s: Srv, f: nat, progress: Progress)
    requires Records(c, s) && f in s.flights
    ensures var t, id := Report(s, f, progress), s.flights[f].operation.operationID;
            Shape(c, s, t, id) && SameFlights(s, t, id) && t == s.(ops := t.ops) && t.ops.Keys == s.ops.Keys
  {
    hide WellFormed, Evolves, Reported;
    var id := s.flights[f].operation.operationID;
    if id in s.ops {
      Reflexive(s.ops[id]);
      if s.ops[id].status.state == Running {
        ReportedSound(c, id, s.ops[id], progress);
      }
    }
  }

  lemma LandSound(c: Setup, s: Srv, f: nat, outcome: Outcome)
    requires Records(c, s) && Flights(c, s) && f in s.flights
    ensures var t, id := Land(s, f, outcome), s.flights[f].operation.operationID;
            && Shape(c, s, t, id) && !IsRunning(t, id)
            && t == s.(ops := t.ops, flights := s.flights - {f}) && t.ops.Keys == s.ops.Keys
  {
    hide WellFormed, Evolves, Ended;
    var id := s.flights[f].operation.operationID;
    assert FlightSound(c, s, s.flights[f]);
    Reflexive(s.ops[id]);
    if s.ops[id].status.state == Running {
      EndedSound(c, id, s.ops[id], outcome);
    }
  }

  lemma StopSound(c: Setup, s: Srv, id: string)
    requires Records(c, s)
    ensures var t := Stop(s, id).0;
            Shape(c, s, t, id) && SameFlights(s, t, id) && t == s.(ops := t.ops) && t.ops.Keys == s.ops.Keys
  {
    hide WellFormed, Evolves, Stopped;
    if id in s.ops {
      StoppedSound(c, id, s.ops[id]);
    }
  }

  lemma ChooseSound(c: Setup, s: Srv, id: string, point: string, configuration: Bytes, staged: bool)
    requires Records(c, s)
    ensures var t := Choose(c, s, id, point, configuration, staged).0;
            Shape(c, s, t, id) && SameFlights(s, t, id) && t == s.(ops := t.ops, files := t.files)
              && t.ops.Keys == s.ops.Keys
  {
    hide WellFormed, Evolves, Chosen, ValidRequest, Selected;
    if id in s.ops {
      Reflexive(s.ops[id]);
      if s.ops[id].status.state == Pending && IsBootstrapRestore(s.ops[id].request)
         && ValidRequest(Selected(s.ops[id].request, point, configuration), c.isObject) {
        ChosenSound(c, id, s.ops[id], point, configuration);
      }
    }
  }

  /** The flight that ends, if one does, was the one of the record that changes. */
  predicate Landing(s: Srv, t: Srv, e: Event, id: string) {
    && e.Finish? && e.flight in s.flights && s.flights[e.flight].operation.operationID == id
    && !IsRunning(t, id) && t.flights == s.flights - {e.flight} && t.next == s.next
  }

  lemma StepSound(c: Setup, s: Srv, e: Event)
    requires Consistent(c, s) && Enabled(s, e)
    ensures var t, id := Next(c, s, e), Touched(s, e);
            && Shape(c, s, t, id) && (SameFlights(s, t, id) || Takeoff(s, t, id) || Landing(s, t, e, id))
            && (!IsUpload(e) ==> t.uploads == s.uploads && t.next >= s.next)
            && (!e.CreateInsert? ==> t.ops.Keys == s.ops.Keys)
            && (!IsCreate(e) ==> t.creating == s.creating)
  {
    hide Records, Flights, Uploads, Creates, Begin, Insert, Commit, Launch, Report, Land, Stop, Choose, WellFormed,
      Evolves, Takeoff;
    var id := Touched(s, e);
    if id in s.ops {
      RecordSound(c, s, id);
      Reflexive(s.ops[id]);
    }
    match e
    case CreateBegin(r, now) => BeginSound(c, s, r, now);
    case CreateInsert(staged) => InsertSound(c, s, staged);
    case UploadCommit(u) => CommitSound(c, s, u);
    case Run(_, readable) => LaunchSound(c, s, id, readable);
    case Update(f, progress) => ReportSound(c, s, f, progress);
    case Finish(f, outcome) => LandSound(c, s, f, outcome);
    case Cancel(_) => StopSound(c, s, id);
    case Select(_, point, configuration, staged) => ChooseSound(c, s, id, point, configuration, staged);
    case _ => UploadFrame(c, s, e);
  }

  predicate IsUpload(e: Event) {
    e.UploadBegin? || e.UploadBody? || e.UploadRename? || e.UploadCommit?
  }

  predicate IsCreate(e: Event) {
    e.CreateBegin? || e.AcceptSettings? || e.CreateInsert?
  }

  lemma UploadFrame(c: Setup, s: Srv, e: Event)
    requires Enabled(s, e) && (e.AcceptSettings? || e.UploadBegin? || e.UploadBody? || e.UploadRename?)
    ensures var t := Next(c, s, e);
            && t.ops == s.ops && t.flights == s.flights && t.next >= s.next
            && (e.AcceptSettings? ==> t.uploads == s.uploads)
            && (IsUpload(e) ==> t.creating == s.creating)
  {
    hide Begin, Insert, Commit, Launch, Report, Land, Stop, Choose, EqualFold, Matches, Limited, StateFile;
  }

  lemma RecordSound(c: Setup, s: Srv, id: string)
    requires Records(c, s) && id in s.ops
    ensures WellFormed(c, id, s.ops[id])
  {
  }

  lemma RecordsStep(c: Setup, s: Srv, t: Srv, id: string)
    requires Records(c, s) && Shape(c, s, t, id)
    ensures Records(c, t)
  {
    hide WellFormed, Evolves;
  }

  lemma EvolvesKeeps(a: Record, b: Record)
    requires Evolves(a, b)
    ensures a.request.operation == b.request.operation && a.request.stateArchive == b.request.stateArchive
    ensures a.request.phase == b.request.phase && a.request.operationID == b.request.operationID
    ensures IsBootstrapRestore(a.request) == IsBootstrapRestore(b.request)
  {
    assert Fixed(a.request).operation == a.request.operation && Fixed(b.request).operation == b.request.operation;
    assert Fixed(a.request).stateArchive == a.request.stateArchive
      && Fixed(b.request).stateArchive == b.request.stateArchive;
    assert Fixed(a.request).phase == a.request.phase && Fixed(b.request).phase == b.request.phase;
    assert Fixed(a.request).operationID == a.request.operationID
      && Fixed(b.request).operationID == b.request.operationID;
  }

  lemma FlightKept(c: Setup, s: Srv, t: Srv, id: string, flight: Flight)
    requires Shape(c, s, t, id) && FlightSound(c, s, flight)
    requires flight.operation.operationID == id ==>
      id in t.ops && (t.ops[id].status.state == Running || t.ops[id].status.state == Canceled)
    ensures FlightSound(c, t, flight)
  {
    hide WellFormed, Fixed, StateFile;
  }

  lemma FlightsKept(c: Setup, s: Srv, t: Srv, id: string)
    requires Flights(c, s) && Shape(c, s, t, id) && SameFlights(s, t, id)
    ensures Flights(c, t)
  {
    hide WellFormed, Evolves, FlightSound;
    forall f | f in t.flights ensures FlightSound(c, t, t.flights[f]) {
      FlightFacts(c, s, f);
      if s.flights[f].operation.operationID == id {
        if s.ops[id].status.state == Canceled {
          CanceledStays(s.ops[id], t.ops[id]);
        }
      }
      FlightKept(c, s, t, id, s.flights[f]);
    }
    forall x | x in t.ops && t.ops[x].status.state == Running ensures Flies(t, x) {
      assert Flies(s, x);
    }
  }

  lemma CanceledStays(a: Record, b: Record)
    requires Evolves(a, b) && a.status.state == Canceled
    ensures b.status.state == Canceled
  {
  }

  lemma FlightFacts(c: Setup, s: Srv, f: nat)
    requires Flights(c, s) && f in s.flights
    ensures FlightSound(c, s, s.flights[f])
    ensures var id := s.flights[f].operation.operationID;
            id in s.ops && (s.ops[id].status.state == Running || s.ops[id].status.state == Canceled)
  {
  }

  lemma FlightsAfterTakeoff(c: Setup, s: Srv, t: Srv, id: string)
    requires Flights(c, s) && Records(c, s) && Shape(c, s, t, id) && Takeoff(s, t, id)
    ensures Flights(c, t)
  {
    hide WellFormed, Evolves, FlightSound, Incomplete;
    forall f | f in t.flights
      ensures f < t.next && FlightSound(c, t, t.flights[f])
      ensures f != s.next ==> t.flights[f].operation.operationID != id
    {
      if f == s.next {
        NewFlightSound(c, s, t, id);
      } else {
        FlightFacts(c, s, f);
        FlightKept(c, s, t, id, s.flights[f]);
      }
    }
    forall x | x in t.ops && t.ops[x].status.state == Running ensures Flies(t, x) {
      if x == id {
        assert t.flights[s.next].operation.operationID == id by { RecordSound(c, s, id); NewFlightSound(c, s, t, id); }
      } else {
        assert Flies(s, x);
        var f :| f in s.flights && s.flights[f].operation.operationID == x;
        assert t.flights[f] == s.flights[f] by { assert f < s.next; }
      }
    }
  }

  lemma NewFlightSound(c: Setup, s: Srv, t: Srv, id: string)
    requires Records(c, s) && Takeoff(s, t, id)
    ensures FlightSound(c, t, t.flights[s.next]) && t.flights[s.next].operation.operationID == id
  {
    hide ValidRequest, StateFile, Fixed;
    var operation, r := t.flights[s.next].operation, s.ops[id].request;
    assert WellFormed(c, id, s.ops[id]);
    assert operation.operationID == operation.(configuration := []).operationID == r.operationID;
    assert operation.operation == operation.(configuration := []).operation == r.operation;
    assert operation.(deadline := None, configuration := []) == operation.(configuration := []).(deadline := None);
    assert r == r.(configuration := []);
    assert operation.phase == operation.(configuration := []).phase == r.phase;
    assert operation.recoveryPointID == operation.(configuration := []).recoveryPointID == r.recoveryPointID;
    ValidStays(r, c.isObject);
  }

  lemma FlightsAfterLanding(c: Setup, s: Srv, t: Srv, e: Event, id: string)
    requires Flights(c, s) && Shape(c, s, t, id) && Landing(s, t, e, id)
    ensures Flights(c, t)
  {
    hide WellFormed, Evolves, FlightSound;
    forall f | f in t.flights
      ensures f < t.next && FlightSound(c, t, t.flights[f]) && t.flights[f].operation.operationID != id
    {
      FlightFacts(c, s, f);
      FlightKept(c, s, t, id, s.flights[f]);
    }
    forall x | x in t.ops && t.ops[x].status.state == Running ensures Flies(t, x) {
      assert Flies(s, x);
      var f :| f in s.flights && s.flights[f].operation.operationID == x;
      assert f in t.flights;
    }
  }

  lemma UploadKept(c: Setup, s: Srv, t: Srv, id: string, upload: Upload)
    requires UploadSound(s, upload) && Shape(c, s, t, id)
    ensures UploadSound(t, upload)
  {
    hide WellFormed, Evolves, Matches;
    if upload.id == id {
      EvolvesKeeps(s.ops[id], t.ops[id]);
    }
  }

  /** Every upload after a step is sound for the records before it. */
  lemma UploadAfter(c: Setup, s: Srv, e: Event, u: nat)
    requires Uploads(s) && Records(c, s) && Enabled(s, e) && IsUpload(e) && u in Next(c, s, e).uploads
    ensures UploadSound(s, Next(c, s, e).uploads[u]) && u < Next(c, s, e).next
  {
    hide WellFormed, EqualFold, Limited, Matches, StateFile, Begin, Insert, Launch, Report, Land, Stop, Choose;
    assert u in s.uploads ==> UploadSound(s, s.uploads[u]);
    if e.UploadBegin? {
      assert e.id in s.ops ==> s.ops[e.id].request.operationID == e.id by {
        if e.id in s.ops { RecordID(c, s, e.id); }
      }
    }
  }

  lemma RecordID(c: Setup, s: Srv, id: string)
    requires Records(c, s) && id in s.ops
    ensures s.ops[id].request.operationID == id
  {
    assert WellFormed(c, id, s.ops[id]);
  }

  lemma UploadsStep(c: Setup, s: Srv, e: Event)
    requires Consistent(c, s) && Enabled(s, e)
    ensures Uploads(Next(c, s, e))
  {
    hide Next, Shape, UploadSound;
    var t := Next(c, s, e);
    StepSound(c, s, e);
    forall u | u in t.uploads ensures u < t.next && UploadSound(t, t.uploads[u]) {
      if IsUpload(e) {
        UploadAfter(c, s, e, u);
      }
      UploadKept(c, s, t, Touched(s, e), t.uploads[u]);
    }
  }

  lemma CreatesStep(c: Setup, s: Srv, e: Event)
    requires Consistent(c, s) && Enabled(s, e)
    ensures Creates(c, Next(c, s, e))
  {
    hide Records, Flights, Uploads, Begin, Insert, Commit, Launch, Report, Land, Stop, Choose, Creates;
    match e
    case CreateBegin(r, now) => BeginSound(c, s, r, now);
    case AcceptSettings(settings) => AcceptSound(c, s, settings);
    case CreateInsert(staged) =>
      InsertSound(c, s, staged);
      NotCreating(c, Next(c, s, e));
    case _ =>
      StepSound(c, s, e);
      CreatesKept(c, s, Next(c, s, e));
  }

  lemma NotCreating(c: Setup, s: Srv)
    requires s.creating == None
    ensures Creates(c, s)
  {
  }

  lemma AcceptSound(c: Setup, s: Srv, settings: Settings)
    requires Creates(c, s) && s.creating.Some?
    ensures Creates(c, Accept(s, settings).0)
  {
    hide ValidRequest;
    var r := s.creating.value.request;
    ValidStays(r, c.isObject);
    assert Fixed(r.(configuration := [])) == Fixed(r);
  }

  lemma CreatesKept(c: Setup, s: Srv, t: Srv)
    requires Creates(c, s) && t.creating == s.creating && t.ops.Keys == s.ops.Keys
    ensures Creates(c, t)
  {
    hide ValidRequest, Fixed;
  }

  lemma ConsistentStep(c: Setup, s: Srv, e: Event)
    requires Consistent(c, s) && Enabled(s, e)
    ensures Consistent(c, Next(c, s, e))
  {
    hide Records, Flights, Uploads, Creates, Next, Shape, SameFlights, Takeoff, Landing;
    var t, id := Next(c, s, e), Touched(s, e);
    StepSound(c, s, e);
    RecordsStep(c, s, t, id);
    UploadsStep(c, s, e);
    CreatesStep(c, s, e);
    if SameFlights(s, t, id) {
      FlightsKept(c, s, t, id);
    } else if Takeoff(s, t, id) {
      FlightsAfterTakeoff(c, s, t, id);
    } else {
      FlightsAfterLanding(c, s, t, e, id);
    }
  }

  lemma {:induction false} ConsistentAlways(c: Setup, states: seq<Srv>, events: seq<Event>, k: nat)
    requires History(c, states, events) && k < |states|
    ensures Consistent(c, states[k])
  {
    if k > 0 {
      hide Next, Consistent, Enabled;
      ConsistentAlways(c, states, events, k - 1);
      StepAt(c, states, events, k - 1);
      ConsistentStep(c, states[k - 1], events[k - 1]);
    }
  }

  lemma StepAt(c: Setup, states: seq<Srv>, events: seq<Event>, k: nat)
    requires Steps(c, states, events) && k < |events|
    ensures |states| == |events| + 1 && Enabled(states[k], events[k]) && states[k + 1] == Next(c, states[k], events[k])
  {
  }
}

/** The operation server: every critical section of its handlers and goroutines is one step. */
module Server {
  import opened Wrappers
  import opened Recovery
  import opened Operations
  import opened OperationFiles

  datatype State = Pending | Running | Succeeded | Failed | Canceled

  datatype Problem = Problem(code: string, message: string, retryable: bool)

  datatype Progress = Progress(phase: string, message: string, percentage: int)

  datatype Result = Result(recoveryPointID: string, stateArchive: Option<Descriptor>)

  datatype OperationStatus = OperationStatus(
    operationID: string,
    state: State,
    progress: Option<Progress>,
    ui: Option<string>,
    result: Option<Result>,
    error: Option<Problem>)

  datatype Record = Record(
    request: Request,
    form: Form,
    status: OperationStatus,
    statePath: string,
    downloadPath: string,
    configurationPath: string,
    attemptTimeout: int)

  /** A create between its two lookups: the handler's own variables, while it holds the creation lock. */
  datatype Creating = Creating(request: Request, form: Form, attemptTimeout: int)

  datatype UploadStage = Receiving | Checked(content: Bytes) | Renamed

  /** An upload handler's own variables. */
  datatype Upload = Upload(id: string, descriptor: Artifact, stage: UploadStage)

  /** An `execute` goroutine: what it was started with. */
  datatype Flight = Flight(operation: Request, statePath: string)

  /** The operations, the files below the temporary root, and the handlers and goroutines in progress. */
  datatype Srv = Srv(
    ops: map<string, Record>,
    files: map<string, Bytes>,
    creating: Option<Creating>,
    uploads: map<nat, Upload>,
    flights: map<nat, Flight>,
    next: nat)

  /** The temporary root, and which texts are JSON objects. */
  datatype Setup = Setup(root: string, isObject: Bytes -> bool)

  datatype Settings = Unavailable | Refused | Taken

  datatype Outcome = Failure(message: string, canceled: bool) | Success(result: Result, downloadPath: string)

  /** What a handler answers; `Continues` if it goes on after the step. */
  datatype Answer = Continues | Replies(code: int, status: Option<OperationStatus>, problem: string)

  datatype Event =
    | CreateBegin(request: Request, now: int)
    | AcceptSettings(settings: Settings)
    | CreateInsert(staged: bool)
    | UploadBegin(id: string, length: int, header: HashText, made: bool)
    | UploadBody(upload: nat, body: Bytes, copied: bool)
    | UploadRename(upload: nat, ok: bool)
    | UploadCommit(upload: nat)
    | Run(id: string, readable: bool)
    | Update(flight: nat, progress: Progress)
    | Finish(flight: nat, outcome: Outcome)
    | Cancel(id: string)
    | Select(id: string, recoveryPointID: string, configuration: Bytes, staged: bool)

  /** The steps of a handler follow each other; creates hold the creation lock. */
  predicate Enabled(s: Srv, e: Event) {
    match e
    case CreateBegin(_, _) => s.creating == None
    case AcceptSettings(_) => s.creating.Some? && NeedsSettings(s.creating.value.request)
    case CreateInsert(_) => s.creating.Some? && !NeedsSettings(s.creating.value.request)
    case UploadBody(u, _, _) => u in s.uploads && s.uploads[u].stage == Receiving
    case UploadRename(u, _) => u in s.uploads && s.uploads[u].stage.Checked?
    case UploadCommit(u) => u in s.uploads && s.uploads[u].stage == Renamed
    case Update(t, _) => t in s.flights
    case Finish(t, _) => t in s.flights
    case _ => true
  }

  // ----- creation -----

  predicate Later(deadline: Option<int>, existing: Option<int>) {
    deadline.Some? && (existing == None || deadline.value > existing.value)
  }

  function Extended(record: Record, deadline: Option<int>, attemptTimeout: int): Record {
    if Later(deadline, record.request.deadline)
    then record.(request := record.request.(deadline := deadline), attemptTimeout := attemptTimeout)
    else record
  }

  /** A repeated create: a conflict, or the status of the existing operation, whose deadline may be extended. */
  function Repeat(s: Srv, r: Request, form: Form, attemptTimeout: int): (Srv, Answer)
    requires r.operationID in s.ops
  {
    var existing := s.ops[r.operationID];
    if existing.form != form then (s, Replies(409, None, "operation_conflict"))
    else
      (s.(ops := s.ops[r.operationID := Extended(existing, r.deadline, attemptTimeout)]),
        Replies(200, Some(existing.status), ""))
  }

  predicate InTime(r: Request, now: int) {
    r.deadline.Some? ==> r.deadline.value - now > 0
  }

  function Begin(c: Setup, s: Srv, r: Request, now: int): (Srv, Answer) {
    if !ValidRequest(r, c.isObject) || !InTime(r, now) then (s, Replies(400, None, "invalid_request"))
    else
      var timeout := if r.deadline.Some? then r.deadline.value - now else 0;
      var form := CanonicalRequest(r);
      if r.operationID in s.ops then Repeat(s, r, form, timeout)
      else (s.(creating := Some(Creating(r, form, timeout))), Continues)
  }

  function Accept(s: Srv, settings: Settings): (Srv, Answer)
    requires s.creating.Some?
  {
    match settings
    case Unavailable => (s.(creating := None), Replies(503, None, "configuration_unavailable"))
    case Refused => (s.(creating := None), Replies(502, None, "configuration_failed"))
    case Taken =>
      var pending := s.creating.value;
      (s.(creating := Some(pending.(request := pending.request.(configuration := [])))), Continues)
  }

  function NewStatus(r: Request): OperationStatus {
    var ui := if IsBootstrapRestore(r) && !r.headless then Some("/ui/restore?operation=" + r.operationID) else None;
    OperationStatus(r.operationID, Pending, None, ui, None, None)
  }

  predicate Stages(r: Request) {
    IsBootstrapRestore(r) && r.configuration != []
  }

  function Inserted(c: Setup, pending: Creating): Record {
    var r := pending.request;
    Record(if Stages(r) then r.(configuration := []) else r, pending.form, NewStatus(r), "", "",
           if Stages(r) then ConfigurationFile(c.root, r.operationID) else "", pending.attemptTimeout)
  }

  function Insert(c: Setup, s: Srv, staged: bool): (Srv, Answer)
    requires s.creating.Some?
  {
    var pending := s.creating.value;
    var r, id := pending.request, pending.request.operationID;
    if id in s.ops then
      var (t, answer) := Repeat(s, r, pending.form, pending.attemptTimeout);
      (t.(creating := None), answer)
    else if Stages(r) && !staged then (s.(creating := None), Replies(500, None, "configuration_write_failed"))
    else
      var record := Inserted(c, pending);
      var files := if Stages(r) then s.files[record.configurationPath := r.configuration] else s.files;
      (s.(ops := s.ops[id := record], files := files, creating := None), Replies(201, Some(record.status), ""))
  }

  // ----- the state archive -----

  function Receive(s: Srv, id: string, length: int, header: HashText, made: bool): (Srv, Answer) {
    if id !in s.ops || s.ops[id].request.operation != Backup || s.ops[id].request.stateArchive == None then
      (s, Replies(404, None, "operation_not_found"))
    else
      var descriptor := s.ops[id].request.stateArchive.value;
      if length != descriptor.size || !EqualFold(header, descriptor.sha256)
        then (s, Replies(400, None, "artifact_mismatch"))
      else if !made then (s, Replies(500, None, "artifact_write_failed"))
      else
        var upload := Upload(s.ops[id].request.operationID, descriptor, Receiving);
        (s.(uploads := s.uploads[s.next := upload], next := s.next + 1), Continues)
  }

  /** At most one byte more than promised is read. */
  function Limited(body: Bytes, descriptor: Artifact): Bytes {
    if 0 <= descriptor.size && descriptor.size + 1 < |body| then body[..descriptor.size + 1] else body
  }

  function Check(s: Srv, u: nat, body: Bytes, copied: bool): (Srv, Answer)
    requires u in s.uploads
  {
    var upload := s.uploads[u];
    var content := Limited(body, upload.descriptor);
    if copied && Matches(content, upload.descriptor) then
      (s.(uploads := s.uploads[u := upload.(stage := Checked(content))]), Continues)
    else (s.(uploads := s.uploads - {u}), Replies(400, None, "artifact_mismatch"))
  }

  function Rename(c: Setup, s: Srv, u: nat, ok: bool): (Srv, Answer)
    requires u in s.uploads && s.uploads[u].stage.Checked?
  {
    var upload := s.uploads[u];
    if ok then
      (s.(files := s.files[StateFile(c.root, upload.id) := upload.stage.content],
          uploads := s.uploads[u := upload.(stage := Renamed)]), Continues)
    else (s.(uploads := s.uploads - {u}), Replies(500, None, "artifact_write_failed"))
  }

  function Committed(c: Setup, record: Record, id: string): Record {
    record.(statePath := StateFile(c.root, id))
  }

  function Commit(c: Setup, s: Srv, u: nat): (Srv, Answer)
    requires u in s.uploads
  {
    var id := s.uploads[u].id;
    var ops := if id in s.ops then s.ops[id := Committed(c, s.ops[id], id)] else s.ops;
    (s.(ops := ops, uploads := s.uploads - {u}), Replies(204, None, ""))
  }

  // ----- execution -----

  const STARTING := Progress("starting", "Starting lifecycle operation", 0)
  const COMPLETE := Progress("complete", "Lifecycle operation complete", 100)

  /** Reads a staged configuration; what is empty or too long does not count as read. */
  function ReadConfiguration(files: map<string, Bytes>, path: string, readable: bool): Option<Bytes> {
    if readable && path in files && 0 < |files[path]| <= MAX_CONFIGURATION_SIZE then Some(files[path]) else None
  }

  predicate Incomplete(record: Record) {
    IsBootstrapRestore(record.request) && (record.request.recoveryPointID == "" || record.configurationPath == "")
  }

  function Launched(record: Record): Record {
    record.(status := record.status.(state := Running, progress := Some(STARTING), error := None))
  }

  const UNREADABLE := Problem("configuration_unavailable", "restore configuration is unavailable", true)

  function Grounded(record: Record): Record {
    record.(status := Launched(record).status.(state := Failed, error := Some(UNREADABLE)))
  }

  function Assignment(record: Record, configuration: Option<Bytes>): Request {
    if record.request.phase == Bootstrap
      && configuration.Some? then record.request.(configuration := configuration.value)
    else record.request
  }

  /** Starts an operation whose conditions are met. */
  function Start(s: Srv, id: string, readable: bool): (Srv, Answer)
    requires id in s.ops
  {
    var record := s.ops[id];
    var configuration := ReadConfiguration(s.files, record.configurationPath, readable);
    if record.request.phase == Bootstrap && configuration == None then
      var failed := Grounded(record);
      (s.(ops := s.ops[id := failed]), Replies(409, Some(failed.status), ""))
    else
      var started := Launched(record);
      var flight := Flight(Assignment(record, configuration), record.statePath);
      (s.(ops := s.ops[id := started], flights := s.flights[s.next := flight], next := s.next + 1),
       Replies(202, Some(started.status), ""))
  }

  function Launch(s: Srv, id: string, readable: bool): (Srv, Answer) {
    if id !in s.ops then (s, Replies(404, None, "operation_not_found"))
    else
      var record := s.ops[id];
      if record.status.state == Running
        || record.status.state == Succeeded then (s, Replies(200, Some(record.status), ""))
      else if record.status.state == Canceled then (s, Replies(409, None, "operation_canceled"))
      else if record.request.operation == Backup
        && record.statePath == "" then (s, Replies(409, None, "state_archive_missing"))
      else if Incomplete(record) then (s, Replies(200, Some(record.status), ""))
      else Start(s, id, readable)
  }

  function Reported(record: Record, progress: Progress): Record {
    record.(status := record.status.(progress := Some(progress)))
  }

  function Report(s: Srv, t: nat, progress: Progress): Srv
    requires t in s.flights
  {
    var id := s.flights[t].operation.operationID;
    if id in s.ops && s.ops[id].status.state == Running then
      s.(ops := s.ops[id := Reported(s.ops[id], progress)])
    else s
  }

  function Ended(record: Record, outcome: Outcome): Record {
    match outcome
    case Failure(message, canceled) =>
      record.(status := record.status.(state := Failed, error := Some(Problem("operation_failed", message, !canceled))))
    case Success(result, downloadPath) =>
      record.(status := record.status.(state := Succeeded, result := Some(result), progress := Some(COMPLETE)),
              downloadPath := downloadPath)
  }

  function Land(s: Srv, t: nat, outcome: Outcome): Srv
    requires t in s.flights
  {
    var id := s.flights[t].operation.operationID;
    var ops := if id in s.ops && s.ops[id].status.state != Canceled then s.ops[id := Ended(s.ops[id], outcome)]
      else s.ops;
    s.(ops := ops, flights := s.flights - {t})
  }

  function Stopped(record: Record): Record {
    record.(status := record.status.(state := Canceled))
  }

  function Stop(s: Srv, id: string): (Srv, Answer) {
    if id !in s.ops then (s, Replies(404, None, "operation_not_found"))
    else (s.(ops := s.ops[id := Stopped(s.ops[id])]), Replies(204, None, ""))
  }

  function Selected(r: Request, point: string, configuration: Bytes): Request {
    r.(recoveryPointID := point, configuration := configuration, headless := true)
  }

  function Chosen(c: Setup, record: Record, id: string, point: string): Record {
    record.(request := Selected(record.request, point, []),
            configurationPath := ConfigurationFile(c.root, id))
  }

  /** The selection; the handler goes on with `Run`. */
  function Choose(c: Setup, s: Srv, id: string, point: string, configuration: Bytes, staged: bool): (Srv, Answer) {
    if point == "" || configuration == [] then (s, Replies(400, None, "invalid_selection"))
    else if id !in s.ops || !IsBootstrapRestore(s.ops[id].request) then (s, Replies(404, None, "operation_not_found"))
    else if s.ops[id].status.state != Pending then (s, Replies(409, None, "operation_started"))
    else
      if !ValidRequest(Selected(s.ops[id].request, point, configuration), c.isObject)
        then (s, Replies(400, None, "invalid_selection"))
      else if !staged then (s, Replies(500, None, "configuration_write_failed"))
      else
        var record := Chosen(c, s.ops[id], id, point);
        (s.(ops := s.ops[id := record], files := s.files[record.configurationPath := configuration]), Continues)
  }

  // ----- downloads -----

  /** What a request for the restored archive gets: the file to be sent and the length it is announced with. */
  datatype ArchiveReply = NoArchive | Unreadable | Served(path: string, length: int)

  function DownloadArchive(s: Srv, id: string, readable: bool): ArchiveReply {
    if id !in s.ops then NoArchive
    else
      var record := s.ops[id];
      var result := record.status.result;
      if record.status.state != Succeeded || record.downloadPath == "" || result == None
        || result.value.stateArchive == None then NoArchive
      else if !readable then Unreadable
      else Served(record.downloadPath, result.value.stateArchive.value.size)
  }

  function Download(c: Setup, s: Srv, id: string, readable: bool): Option<Bytes> {
    if id !in s.ops || !IsBootstrapRestore(s.ops[id].request) || s.ops[id].status.state != Succeeded
       || s.ops[id].configurationPath == ""
    then None
    else
      var read := ReadConfiguration(s.files, s.ops[id].configurationPath, readable);
      if read.Some? && c.isObject(read.value) then read else None
  }

  // ----- steps -----

  function Apply(c: Setup, s: Srv, e: Event): (Srv, Answer)
    requires Enabled(s, e)
  {
    match e
    case CreateBegin(r, now) => Begin(c, s, r, now)
    case AcceptSettings(settings) => Accept(s, settings)
    case CreateInsert(staged) => Insert(c, s, staged)
    case UploadBegin(id, length, header, made) => Receive(s, id, length, header, made)
    case UploadBody(u, body, copied) => Check(s, u, body, copied)
    case UploadRename(u, ok) => Rename(c, s, u, ok)
    case UploadCommit(u) => Commit(c, s, u)
    case Run(id, readable) => Launch(s, id, readable)
    case Update(t, progress) => (Report(s, t, progress), Continues)
    case Finish(t, outcome) => (Land(s, t, outcome), Continues)
    case Cancel(id) => Stop(s, id)
    case Select(id, point, configuration, staged) => Choose(c, s, id, point, configuration, staged)
  }

  function Next(c: Setup, s: Srv, e: Event): Srv
    requires Enabled(s, e)
  {
    Apply(c, s, e).0
  }

  predicate Steps(c: Setup, states: seq<Srv>, events: seq<Event>) {
    && |states| == |events| + 1
    && forall i {:trigger events[i]} :: 0 <= i < |events| ==>
         Enabled(states[i], events[i]) && states[i + 1] == Next(c, states[i], events[i])
  }

  const EMPTY := Srv(map[], map[], None, map[], map[], 0)

  /** A run of a new server, whatever files it finds. */
  predicate History(c: Setup, states: seq<Srv>, events: seq<Event>) {
    c.root != "" && Steps(c, states, events) && states[0] == EMPTY.(files := states[0].files)
  }
}

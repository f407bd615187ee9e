/** The staged archives and configurations of operations that do not share a directory. */
module StagedFiles {
  import opened Wrappers
  import opened Recovery
  import opened Operations
  import opened OperationFiles
  import opened Server
  import opened ServerSafety

  predicate StatesMatch(c: Setup, files: map<string, Bytes>, id: string, archive: Artifact) {
    StateFile(c.root, id) in files && Matches(files[StateFile(c.root, id)], archive)
  }

  /** A configuration that a read accepts. */
  predicate Usable(c: Setup, content: Bytes) {
    0 < |content| <= MAX_CONFIGURATION_SIZE && c.isObject(content)
  }

  predicate FileSound(c: Setup, files: map<string, Bytes>, id: string, record: Record) {
    && (record.statePath != "" ==>
          record.request.stateArchive.Some? && StatesMatch(c, files, id, record.request.stateArchive.value))
    && (record.configurationPath != "" ==>
          ConfigurationFile(c.root, id) in files && Usable(c, files[ConfigurationFile(c.root, id)]))
  }

  predicate UploadFile(c: Setup, files: map<string, Bytes>, upload: Upload) {
    upload.stage.Renamed? ==> StatesMatch(c, files, upload.id, upload.descriptor)
  }

  predicate FlightFile(c: Setup, files: map<string, Bytes>, flight: Flight) {
    IsBootstrapRestore(flight.operation) ==>
      var path := ConfigurationFile(c.root, flight.operation.operationID);
      path in files && flight.operation.configuration == files[path]
  }

  ghost predicate Files(c: Setup, s: Srv) {
    && (forall id :: id in s.ops ==> FileSound(c, s.files, id, s.ops[id]))
    && (forall u :: u in s.uploads ==> UploadFile(c, s.files, s.uploads[u]))
    && (forall t :: t in s.flights ==> FlightFile(c, s.files, s.flights[t]))
  }

  datatype Written = Written(id: string, path: string, content: Bytes)

  /** The file that a step writes, if it writes one. */
  function Write(c: Setup, s: Srv, e: Event): Option<Written>
    requires Enabled(s, e)
  {
    match e
    case CreateInsert(staged) =>
      var r := s.creating.value.request;
      if staged && Stages(r) && r.operationID !in s.ops
      then Some(Written(r.operationID, ConfigurationFile(c.root, r.operationID), r.configuration)) else None
    case UploadRename(u, ok) =>
      if ok then Some(Written(s.uploads[u].id, StateFile(c.root, s.uploads[u].id), s.uploads[u].stage.content))
        else None
    case Select(id, point, configuration, staged) =>
      if staged && Selectable(c, s, id, point, configuration)
      then Some(Written(id, ConfigurationFile(c.root, id), configuration)) else None
    case _ => None
  }

  predicate Selectable(c: Setup, s: Srv, id: string, point: string, configuration: Bytes) {
    && point != "" && configuration != []
    && id in s.ops && IsBootstrapRestore(s.ops[id].request) && s.ops[id].status.state == Pending
    && ValidRequest(Selected(s.ops[id].request, point, configuration), c.isObject)
  }

  function Store(files: map<string, Bytes>, w: Option<Written>): map<string, Bytes> {
    if w.Some? then files[w.value.path := w.value.content] else files
  }

  lemma OnlyWritten(c: Setup, s: Srv, e: Event)
    requires Consistent(c, s) && Enabled(s, e)
    ensures Next(c, s, e).files == Store(s.files, Write(c, s, e))
  {
    hide Records, Flights, Uploads, Begin, Insert, Commit, Launch, Report, Land, Stop, Choose, ValidRequest,
      StateFile, ConfigurationFile, Creates;
    match e
    case CreateBegin(r, now) => BeginSound(c, s, r, now);
    case CreateInsert(staged) => InsertWrites(c, s, staged);
    case UploadCommit(u) => CommitSound(c, s, u);
    case Run(id, readable) => LaunchSound(c, s, id, readable);
    case Update(f, progress) => ReportSound(c, s, f, progress);
    case Finish(f, outcome) => LandSound(c, s, f, outcome);
    case Cancel(id) => StopSound(c, s, id);
    case Select(id, point, configuration, staged) => ChooseWrites(c, s, id, point, configuration, staged);
    case _ =>
  }

  lemma InsertWrites(c: Setup, s: Srv, staged: bool)
    requires s.creating.Some? && Enabled(s, CreateInsert(staged))
    ensures Insert(c, s, staged).0.files == Store(s.files, Write(c, s, CreateInsert(staged)))
  {
    hide ValidRequest, ConfigurationFile, NeedsSettings;
  }

  lemma ChooseWrites(c: Setup, s: Srv, id: string, point: string, configuration: Bytes, staged: bool)
    ensures Choose(c, s, id, point, configuration, staged).0.files
         == Store(s.files, Write(c, s, Select(id, point, configuration, staged)))
  {
    hide ValidRequest, ConfigurationFile, Selected, IsBootstrapRestore;
  }

  // ----- who is written -----

  predicate Stored(c: Setup, w: Written) {
    w.path == StateFile(c.root, w.id) || w.path == ConfigurationFile(c.root, w.id)
  }

  /** A write for one operation leaves the files of another alone. */
  lemma OtherFiles(c: Setup, w: Written, y: string)
    requires c.root != "" && Stored(c, w) && Accepted(w.id) && Accepted(y) && !SharesDirectory(w.id, y)
    ensures w.path != StateFile(c.root, y) && w.path != ConfigurationFile(c.root, y)
  {
    hide Accepted, SharesDirectory, StateFile, ConfigurationFile;
    FilesApart(c.root, w.id, y);
    FilesApart(c.root, y, w.id);
  }

  /** The operation written is one that exists after the step. */
  lemma WrittenExists(c: Setup, s: Srv, e: Event)
    requires Consistent(c, s) && Enabled(s, e) && Write(c, s, e).Some?
    ensures Stored(c, Write(c, s, e).value) && Write(c, s, e).value.id in Next(c, s, e).ops
  {
    hide Records, Flights, StateFile, ConfigurationFile, ValidRequest, WellFormed;
    if e.UploadRename? {
      assert UploadSound(s, s.uploads[e.upload]);
    }
  }

  lemma IDsAccepted(c: Setup, s: Srv, id: string)
    requires Records(c, s) && id in s.ops
    ensures Accepted(id)
  {
    RecordSound(c, s, id);
    ValidStays(s.ops[id].request, c.isObject);
  }

  lemma OthersKept(c: Setup, s: Srv, e: Event, id: string)
    requires Consistent(c, s) && Enabled(s, e) && id in Next(c, s, e).ops && Apart(Next(c, s, e).ops.Keys)
    requires Write(c, s, e).Some? ==> id != Write(c, s, e).value.id
    ensures FileAt(Next(c, s, e).files, StateFile(c.root, id)) == FileAt(s.files, StateFile(c.root, id))
    ensures FileAt(Next(c, s, e).files, ConfigurationFile(c.root, id)) == FileAt(s.files, ConfigurationFile(c.root, id))
  {
    hide *;
    var w, t := Write(c, s, e), Next(c, s, e);
    OnlyWritten(c, s, e);
    if w == None {
      assert t.files == s.files by { StoreNothing(s.files); }
    } else {
      WrittenExists(c, s, e);
      ConsistentStep(c, s, e);
      ConsistentRecords(c, t);
      IDsAccepted(c, t, id);
      IDsAccepted(c, t, w.value.id);
      ApartAt(t.ops.Keys, w.value.id, id);
      OtherFiles(c, w.value, id);
      StoreElsewhere(s.files, w.value, StateFile(c.root, id));
      StoreElsewhere(s.files, w.value, ConfigurationFile(c.root, id));
    }
  }

  lemma StoreNothing(files: map<string, Bytes>)
    ensures Store(files, None) == files
  {
  }

  lemma StoreElsewhere(files: map<string, Bytes>, w: Written, path: string)
    requires w.path != path
    ensures FileAt(Store(files, Some(w)), path) == FileAt(files, path)
  {
  }

  lemma ApartAt(ids: set<string>, a: string, b: string)
    requires Apart(ids) && a in ids && b in ids && a != b
    ensures !SharesDirectory(a, b)
  {
  }

  lemma ConsistentRecords(c: Setup, s: Srv)
    requires Consistent(c, s)
    ensures Records(c, s) && c.root != ""
  {
  }

  function FileAt(files: map<string, Bytes>, path: string): Option<Bytes> {
    if path in files then Some(files[path]) else None
  }

  // ----- paths of records -----

  predicate SamePaths(s: Srv, t: Srv, id: string) {
    id in s.ops && id in t.ops ==>
      && t.ops[id].statePath == s.ops[id].statePath
      && t.ops[id].configurationPath == s.ops[id].configurationPath
  }

  lemma RepeatPaths(s: Srv, r: Request, form: Form, attemptTimeout: int, id: string)
    requires r.operationID in s.ops
    ensures SamePaths(s, Repeat(s, r, form, attemptTimeout).0, id)
  {
  }

  lemma BeginPaths(c: Setup, s: Srv, r: Request, now: int, id: string)
    ensures SamePaths(s, Begin(c, s, r, now).0, id)
  {
    hide ValidRequest, Repeat;
    if r.operationID in s.ops {
      RepeatPaths(s, r, CanonicalRequest(r), if r.deadline.Some? then r.deadline.value - now else 0, id);
    }
  }

  lemma InsertPaths(c: Setup, s: Srv, staged: bool, id: string)
    requires s.creating.Some?
    ensures SamePaths(s, Insert(c, s, staged).0, id)
  {
    hide Repeat, Inserted, Stages;
    var pending := s.creating.value;
    if pending.request.operationID in s.ops {
      RepeatPaths(s, pending.request, pending.form, pending.attemptTimeout, id);
    }
  }

  lemma LaunchPaths(s: Srv, x: string, readable: bool, id: string)
    ensures SamePaths(s, Launch(s, x, readable).0, id)
  {
    hide Incomplete, ReadConfiguration;
  }

  lemma LandPaths(s: Srv, f: nat, outcome: Outcome, id: string)
    requires f in s.flights
    ensures SamePaths(s, Land(s, f, outcome), id)
  {
  }

  lemma CommitPaths(c: Setup, s: Srv, u: nat, id: string)
    requires u in s.uploads && id != s.uploads[u].id
    ensures SamePaths(s, Commit(c, s, u).0, id)
  {
  }

  lemma ChoosePaths(c: Setup, s: Srv, e: Event, id: string)
    requires e.Select? && (Write(c, s, e).Some? ==> id != Write(c, s, e).value.id)
    ensures SamePaths(s, Next(c, s, e), id)
  {
    hide ValidRequest, Selected, IsBootstrapRestore, ConfigurationFile;
  }

  lemma PathsStep(c: Setup, s: Srv, e: Event, id: string)
    requires Enabled(s, e) && !(e.UploadCommit? && e.upload in s.uploads && id == s.uploads[e.upload].id)
    requires Write(c, s, e).Some? ==> id != Write(c, s, e).value.id
    ensures SamePaths(s, Next(c, s, e), id)
  {
    hide Begin, Insert, Commit, Launch, Land, Choose, ConfigurationFile, ValidRequest, Matches, EqualFold, Limited,
      Write;
    match e
    case CreateBegin(r, now) => BeginPaths(c, s, r, now, id);
    case CreateInsert(staged) => InsertPaths(c, s, staged, id);
    case UploadCommit(u) => CommitPaths(c, s, u, id);
    case Run(x, readable) => LaunchPaths(s, x, readable, id);
    case Finish(f, outcome) => LandPaths(s, f, outcome, id);
    case Select(_, _, _, _) => ChoosePaths(c, s, e, id);
    case _ =>
  }

  // ----- files of records -----

  lemma SameFileSound(c: Setup, f: map<string, Bytes>, g: map<string, Bytes>, id: string, a: Record, b: Record)
    requires FileSound(c, f, id, a)
    requires a.statePath == b.statePath && a.configurationPath == b.configurationPath
    requires a.request.stateArchive == b.request.stateArchive
    requires FileAt(f, StateFile(c.root, id)) == FileAt(g, StateFile(c.root, id))
    requires FileAt(f, ConfigurationFile(c.root, id)) == FileAt(g, ConfigurationFile(c.root, id))
    ensures FileSound(c, g, id, b)
  {
    hide StateFile, ConfigurationFile, Matches;
  }

  /** A new operation has its configuration, if it brought one. */
  lemma InsertedFile(c: Setup, s: Srv, staged: bool, id: string)
    requires Creates(c, s) && s.creating.Some? && Enabled(s, CreateInsert(staged))
    requires id !in s.ops && id in Insert(c, s, staged).0.ops
    ensures FileSound(c, Insert(c, s, staged).0.files, id, Insert(c, s, staged).0.ops[id])
  {
    hide ValidRequest, StateFile, ConfigurationFile, NeedsSettings, Fixed;
    ValidStays(s.creating.value.request, c.isObject);
  }

  lemma ChosenFile(c: Setup, s: Srv, e: Event, id: string)
    requires Records(c, s) && e.Select? && Write(c, s, e).Some? && id == Write(c, s, e).value.id
    ensures FileSound(c, Next(c, s, e).files, id, Next(c, s, e).ops[id])
  {
    hide ValidRequest, StateFile, ConfigurationFile, Fixed;
    var selected := Selected(s.ops[id].request, e.recoveryPointID, e.configuration);
    ValidStays(selected, c.isObject);
    assert selected.configuration == e.configuration;
    assert WellFormed(c, id, s.ops[id]);
  }

  lemma RenamedFile(c: Setup, s: Srv, e: Event, id: string)
    requires Consistent(c, s) && e.UploadRename? && Enabled(s, e) && Write(c, s, e).Some?
        && id == Write(c, s, e).value.id
    requires FileSound(c, s.files, id, s.ops[id])
    ensures FileSound(c, Next(c, s, e).files, id, Next(c, s, e).ops[id])
    ensures UploadFile(c, Next(c, s, e).files, s.uploads[e.upload].(stage := Renamed))
  {
    hide StateFile, ConfigurationFile, Flights, ValidRequest, Matches, Fixed;
    assert UploadSound(s, s.uploads[e.upload]);
    assert WellFormed(c, id, s.ops[id]);
  }

  lemma CommittedFile(c: Setup, s: Srv, u: nat)
    requires Uploads(s) && Records(c, s) && u in s.uploads && s.uploads[u].stage.Renamed?
    requires UploadFile(c, s.files, s.uploads[u])
    ensures s.uploads[u].id in s.ops
    ensures FileSound(c, s.files, s.uploads[u].id, Committed(c, s.ops[s.uploads[u].id], s.uploads[u].id))
  {
    hide StateFile, ConfigurationFile, ValidRequest, Matches, Fixed;
    assert UploadSound(s, s.uploads[u]);
    assert WellFormed(c, s.uploads[u].id, s.ops[s.uploads[u].id]);
  }

  lemma NewRecordFiles(c: Setup, s: Srv, e: Event, id: string)
    requires Consistent(c, s) && Enabled(s, e) && id !in s.ops && id in Next(c, s, e).ops
    ensures FileSound(c, Next(c, s, e).files, id, Next(c, s, e).ops[id])
  {
    hide Consistent, Records, Creates, Flights, Uploads, FileSound, Begin, Insert, Commit, Launch, Report, Land,
      Stop, Choose, Shape;
    ConsistentParts(c, s);
    StepSound(c, s, e);
    assert e.CreateInsert?;
    InsertedFile(c, s, e.staged, id);
  }

  lemma ConsistentParts(c: Setup, s: Srv)
    requires Consistent(c, s)
    ensures c.root != "" && Records(c, s) && Flights(c, s) && Uploads(s) && Creates(c, s)
  {
  }

  lemma WriterFiles(c: Setup, s: Srv, e: Event, id: string)
    requires Consistent(c, s) && Enabled(s, e) && id in s.ops && FileSound(c, s.files, id, s.ops[id])
    requires Write(c, s, e).Some? && id == Write(c, s, e).value.id
    ensures id in Next(c, s, e).ops && FileSound(c, Next(c, s, e).files, id, Next(c, s, e).ops[id])
  {
    hide Consistent, Records, Creates, Flights, Uploads, FileSound, Next, Shape, StateFile, ConfigurationFile,
      Selectable;
    ConsistentParts(c, s);
    StepSound(c, s, e);
    WrittenExists(c, s, e);
    if e.Select? {
      ChosenFile(c, s, e, id);
    } else {
      RenamedFile(c, s, e, id);
    }
  }

  lemma CommitFiles(c: Setup, s: Srv, e: Event)
    requires Consistent(c, s) && Enabled(s, e) && e.UploadCommit? && UploadFile(c, s.files, s.uploads[e.upload])
    ensures var id := s.uploads[e.upload].id;
            id in Next(c, s, e).ops && FileSound(c, Next(c, s, e).files, id, Next(c, s, e).ops[id])
  {
    hide Consistent, Records, Creates, Flights, Uploads, FileSound, Committed, UploadFile;
    ConsistentParts(c, s);
    CommittedFile(c, s, e.upload);
  }

  lemma QuietFiles(c: Setup, s: Srv, e: Event, id: string)
    requires Consistent(c, s) && Enabled(s, e) && id in s.ops && FileSound(c, s.files, id, s.ops[id])
    requires id in Next(c, s, e).ops && Apart(Next(c, s, e).ops.Keys)
    requires Write(c, s, e).Some? ==> id != Write(c, s, e).value.id
    requires !(e.UploadCommit? && e.upload in s.uploads && id == s.uploads[e.upload].id)
    ensures FileSound(c, Next(c, s, e).files, id, Next(c, s, e).ops[id])
  {
    hide Consistent, Enabled, Next, FileSound, Write, StateFile, ConfigurationFile, Apart, Evolves;
    StepSound(c, s, e);
    assert id != Touched(s, e) ==> Next(c, s, e).ops[id] == s.ops[id];
    OthersKept(c, s, e, id);
    PathsStep(c, s, e, id);
    if id == Touched(s, e) {
      EvolvesKeeps(s.ops[id], Next(c, s, e).ops[id]);
    }
    SameFileSound(c, s.files, Next(c, s, e).files, id, s.ops[id], Next(c, s, e).ops[id]);
  }

  lemma RecordFiles(c: Setup, s: Srv, e: Event, id: string)
    requires Consistent(c, s) && Files(c, s) && Enabled(s, e)
    requires id in Next(c, s, e).ops && Apart(Next(c, s, e).ops.Keys)
    ensures FileSound(c, Next(c, s, e).files, id, Next(c, s, e).ops[id])
  {
    hide Consistent, Next, FileSound, Write, Apart, UploadFile, FlightFile;
    var w := Write(c, s, e);
    if id !in s.ops {
      NewRecordFiles(c, s, e, id);
    } else if w.Some? && w.value.id == id {
      WriterFiles(c, s, e, id);
    } else if e.UploadCommit? && s.uploads[e.upload].id == id {
      CommitFiles(c, s, e);
    } else {
      QuietFiles(c, s, e, id);
    }
  }

  // ----- files of uploads and flights -----

  lemma UploadFacts(s: Srv, u: nat)
    requires Uploads(s) && u in s.uploads
    ensures UploadSound(s, s.uploads[u]) && u < s.next
  {
  }

  /** What a step does to a renamed upload: it was renamed before, or is renamed now. */
  lemma RenamedBefore(c: Setup, s: Srv, e: Event, u: nat)
    requires Consistent(c, s) && Enabled(s, e) && u in Next(c, s, e).uploads && Next(c, s, e).uploads[u].stage.Renamed?
    ensures u in s.uploads
    ensures if e.UploadRename? && u == e.upload
            then Next(c, s, e).uploads[u] == s.uploads[u].(stage := Renamed) && Write(c, s, e).Some?
                 && Write(c, s, e).value.id == s.uploads[u].id
            else Next(c, s, e).uploads[u] == s.uploads[u]
  {
    hide Consistent, Begin, Insert, Launch, Report, Land, Stop, Choose, StateFile, ConfigurationFile, Matches,
      EqualFold, Limited,
         Shape, SameFlights, Takeoff, Landing;
    StepSound(c, s, e);
  }

  lemma WrittenKind(c: Setup, s: Srv, e: Event, u: nat)
    requires Consistent(c, s) && Enabled(s, e) && Write(c, s, e).Some?
    requires u in s.uploads && s.uploads[u].id == Write(c, s, e).value.id
    ensures e.UploadRename? && e.upload in s.uploads
    ensures s.uploads[e.upload].id == s.uploads[u].id && s.uploads[e.upload].descriptor == s.uploads[u].descriptor
  {
    hide Records, Flights, Creates, StateFile, ConfigurationFile, ValidRequest, Matches, Uploads;
    UploadFacts(s, u);
    if e.UploadRename? {
      UploadFacts(s, e.upload);
    }
  }

  lemma UploadFiles(c: Setup, s: Srv, e: Event, u: nat)
    requires Consistent(c, s) && Files(c, s) && Enabled(s, e)
    requires u in Next(c, s, e).uploads && Apart(Next(c, s, e).ops.Keys)
    ensures UploadFile(c, Next(c, s, e).files, Next(c, s, e).uploads[u])
  {
    hide *;
    var t, w := Next(c, s, e), Write(c, s, e);
    if t.uploads[u].stage.Renamed? {
      RenamedBefore(c, s, e, u);
      FilesOf(c, s);
      ConsistentParts(c, s);
      UploadFacts(s, u);
      UploadBacked(s, s.uploads[u]);
      if w.Some? && s.uploads[u].id == w.value.id {
        WrittenKind(c, s, e, u);
        RenamedFile(c, s, e, w.value.id);
        SameUploadFile(c, t.files, t.files, s.uploads[e.upload].(stage := Renamed), t.uploads[u]);
      } else {
        StepKeepsIDs(c, s, e);
        OthersKept(c, s, e, s.uploads[u].id);
        SameUploadFile(c, s.files, t.files, s.uploads[u], t.uploads[u]);
      }
    } else {
      NotRenamed(c, t.files, t.uploads[u]);
    }
  }

  lemma NotRenamed(c: Setup, files: map<string, Bytes>, upload: Upload)
    requires !upload.stage.Renamed?
    ensures UploadFile(c, files, upload)
  {
  }

  lemma UploadBacked(s: Srv, upload: Upload)
    requires UploadSound(s, upload)
    ensures upload.id in s.ops
  {
  }

  lemma FilesOf(c: Setup, s: Srv)
    requires Files(c, s)
    ensures forall id :: id in s.ops ==> FileSound(c, s.files, id, s.ops[id])
    ensures forall u :: u in s.uploads ==> UploadFile(c, s.files, s.uploads[u])
    ensures forall t :: t in s.flights ==> FlightFile(c, s.files, s.flights[t])
  {
  }

  lemma SameUploadFile(c: Setup, f: map<string, Bytes>, g: map<string, Bytes>, a: Upload, b: Upload)
    requires UploadFile(c, f, a) && a.id == b.id && a.descriptor == b.descriptor
        && (b.stage.Renamed? ==> a.stage.Renamed?)
    requires FileAt(f, StateFile(c.root, a.id)) == FileAt(g, StateFile(c.root, a.id))
    ensures UploadFile(c, g, b)
  {
    hide StateFile, Matches;
  }

  lemma StepKeepsIDs(c: Setup, s: Srv, e: Event)
    requires Consistent(c, s) && Enabled(s, e)
    ensures s.ops.Keys <= Next(c, s, e).ops.Keys
  {
    hide Consistent, Next, WellFormed, Evolves;
    StepSound(c, s, e);
  }

  lemma FlightFiles(c: Setup, s: Srv, e: Event, f: nat)
    requires Consistent(c, s) && Files(c, s) && Enabled(s, e)
    requires f in Next(c, s, e).flights && Apart(Next(c, s, e).ops.Keys)
    ensures FlightFile(c, Next(c, s, e).files, Next(c, s, e).flights[f])
  {
    hide *;
    var t, w := Next(c, s, e), Write(c, s, e);
    FlightBefore(c, s, e, f);
    if f !in s.flights {
      NewFlightFile(c, s, e, f);
    } else {
      FilesOf(c, s);
      ConsistentParts(c, s);
      FlightFacts(c, s, f);
      var id := s.flights[f].operation.operationID;
      if w.Some? && id == w.value.id {
        FlyingWritten(c, s, e, f);
      } else {
        StepKeepsIDs(c, s, e);
        OthersKept(c, s, e, id);
        SameFlightFile(c, s.files, t.files, s.flights[f]);
      }
    }
  }

  lemma FlightBefore(c: Setup, s: Srv, e: Event, f: nat)
    requires Consistent(c, s) && Enabled(s, e) && f in Next(c, s, e).flights
    ensures f in s.flights ==> Next(c, s, e).flights[f] == s.flights[f]
    ensures f !in s.flights ==> e.Run?
  {
    hide Consistent, Next, WellFormed, Evolves, Incomplete;
    StepSound(c, s, e);
    if f in s.flights {
      FlightsBounded(c, s, f);
    } else if !e.Run? {
      OnlyRunsFly(c, s, e);
    }
  }

  lemma FlightsBounded(c: Setup, s: Srv, f: nat)
    requires Consistent(c, s) && f in s.flights
    ensures f < s.next
  {
    hide Records, Uploads, Creates, FlightSound;
  }

  lemma SameFlightFile(c: Setup, f: map<string, Bytes>, g: map<string, Bytes>, flight: Flight)
    requires FlightFile(c, f, flight)
    requires var path := ConfigurationFile(c.root, flight.operation.operationID); FileAt(f, path) == FileAt(g, path)
    ensures FlightFile(c, g, flight)
  {
    hide ConfigurationFile;
  }

  /** Only starting an operation adds a flight. */
  lemma OnlyRunsFly(c: Setup, s: Srv, e: Event)
    requires Consistent(c, s) && Enabled(s, e) && !e.Run?
    ensures Next(c, s, e).flights.Keys <= s.flights.Keys
  {
    hide Consistent, Records, Flights, Uploads, Creates, Begin, Insert, Commit, Launch, Report, Land, Stop, Choose,
      Shape;
    ConsistentParts(c, s);
    match e
    case CreateBegin(r, now) => BeginSound(c, s, r, now);
    case CreateInsert(staged) => InsertSound(c, s, staged);
    case UploadCommit(u) => CommitSound(c, s, u);
    case Update(f, progress) => ReportSound(c, s, f, progress);
    case Finish(f, outcome) => LandSound(c, s, f, outcome);
    case Cancel(id) => StopSound(c, s, id);
    case Select(id, point, configuration, staged) => ChooseSound(c, s, id, point, configuration, staged);
    case _ => UploadFrame(c, s, e);
  }

  /** A started bootstrap restore received the staged configuration. */
  lemma NewFlightFile(c: Setup, s: Srv, e: Event, f: nat)
    requires Consistent(c, s) && e.Run? && f in Next(c, s, e).flights && f !in s.flights
    ensures FlightFile(c, Next(c, s, e).files, Next(c, s, e).flights[f])
  {
    hide Flights, Uploads, Creates, StateFile, ConfigurationFile, ValidRequest, Fixed;
    assert e.id in s.ops;
    assert WellFormed(c, e.id, s.ops[e.id]);
  }

  /** No step writes the configuration of an operation in flight. */
  lemma FlyingWritten(c: Setup, s: Srv, e: Event, f: nat)
    requires Consistent(c, s) && Enabled(s, e) && f in s.flights && FlightFile(c, s.files, s.flights[f])
    requires Write(c, s, e).Some? && Write(c, s, e).value.id == s.flights[f].operation.operationID
    ensures FlightFile(c, Next(c, s, e).files, s.flights[f])
  {
    hide Records, Uploads, Creates, StateFile, ConfigurationFile, ValidRequest, WellFormed, Flights, Next;
    ConsistentParts(c, s);
    FlightFacts(c, s, f);
    assert e.UploadRename?;
    OnlyWritten(c, s, e);
    var id := s.flights[f].operation.operationID;
    IDsAccepted(c, s, id);
    FilesApart(c.root, id, id);
    StoreElsewhere(s.files, Write(c, s, e).value, ConfigurationFile(c.root, id));
    SameFlightFile(c, s.files, Next(c, s, e).files, s.flights[f]);
  }

  // ----- whole runs -----

  lemma FilesStep(c: Setup, s: Srv, e: Event)
    requires Consistent(c, s) && Files(c, s) && Enabled(s, e) && Apart(Next(c, s, e).ops.Keys)
    ensures Files(c, Next(c, s, e))
  {
    hide Consistent, Next, Apart, FileSound, UploadFile, FlightFile;
    var t := Next(c, s, e);
    forall id | id in t.ops ensures FileSound(c, t.files, id, t.ops[id]) {
      RecordFiles(c, s, e, id);
    }
    forall u | u in t.uploads ensures UploadFile(c, t.files, t.uploads[u]) {
      UploadFiles(c, s, e, u);
    }
    forall f | f in t.flights ensures FlightFile(c, t.files, t.flights[f]) {
      FlightFiles(c, s, e, f);
    }
  }
}

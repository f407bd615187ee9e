/** The operation server itself: a map of mutable records behind a lock. Every method is one critical section,
    and does what the step of the same event does; what handlers keep in their own variables between two
    sections are fields here. */
module OperationServer {
  import opened Wrappers
  import opened Recovery
  import opened Operations
  import opened OperationFiles
  import opened Server

  class OperationRecord {
    var request: Request
    const form: Form
    var status: OperationStatus
    var statePath: string
    var downloadPath: string
    var configurationPath: string
    var attemptTimeout: int

    constructor (request: Request, form: Form, status: OperationStatus, configurationPath: string, attemptTimeout: int)
      ensures Value() == Record(request, form, status, "", "", configurationPath, attemptTimeout)
    {
      this.request := request;
      this.form := form;
      this.status := status;
      statePath := "";
      downloadPath := "";
      this.configurationPath := configurationPath;
      this.attemptTimeout := attemptTimeout;
    }

    ghost function Value(): Record
      reads this
    {
      Record(request, form, status, statePath, downloadPath, configurationPath, attemptTimeout)
    }
  }

  class OperationServer {
    const setup: Setup
    var operations: map<string, OperationRecord>
    var files: map<string, Bytes>
    var creating: Option<Creating>
    var uploads: map<nat, Upload>
    var flights: map<nat, Flight>
    var next: nat

    constructor (setup: Setup, files: map<string, Bytes>)
      ensures Valid() && View() == EMPTY.(files := files) && this.setup == setup
    {
      this.setup := setup;
      operations := map[];
      this.files := files;
      creating := None;
      uploads := map[];
      flights := map[];
      next := 0;
    }

    /** No record is shared by two operations. */
    ghost predicate Valid()
      reads this
    {
      forall a, b :: a in operations && b in operations && operations[a] == operations[b] ==> a == b
    }

    ghost function Ops(): map<string, Record>
      reads this, operations.Values
    {
      map id | id in operations :: operations[id].Value()
    }

    ghost function View(): Srv
      reads this, operations.Values
    {
      Srv(Ops(), files, creating, uploads, flights, next)
    }

    /** A change of one record is a change of one entry of the view. */
    twostate lemma OneRecord(id: string)
      requires old(Valid()) && operations == old(operations) && id in operations
      requires forall x :: x in operations && x != id ==> unchanged(operations[x])
      ensures Ops() == old(Ops())[id := operations[id].Value()]
    {
      assert forall x :: x in operations && x != id ==> operations[x].Value() == old(operations[x].Value());
    }

    twostate lemma SameRecords()
      requires operations == old(operations) && forall x :: x in operations ==> unchanged(operations[x])
      ensures Ops() == old(Ops())
    {
      assert forall x :: x in operations ==> operations[x].Value() == old(operations[x].Value());
    }

    /** The lookup that both critical sections of a create begin with. */
    method RepeatCreate(request: Request, form: Form, attemptTimeout: int) returns (answer: Answer)
      requires Valid() && request.operationID in operations
      modifies operations.Values
      ensures Ops() == Repeat(old(View()), request, form, attemptTimeout).0.ops
      ensures answer == Repeat(old(View()), request, form, attemptTimeout).1
    {
      var existing := operations[request.operationID];
      assert Ops()[request.operationID] == existing.Value();
      if existing.form != form {
        return Replies(409, None, "operation_conflict");
      }
      if request.deadline.Some? && (existing.request.deadline == None
        || request.deadline.value > existing.request.deadline.value) {
        existing.request := existing.request.(deadline := request.deadline);
        existing.attemptTimeout := attemptTimeout;
      }
      OneRecord(request.operationID);
      answer := Replies(200, Some(existing.status), "");
    }

    method CreateOperation(request: Request, now: int) returns (answer: Answer)
      requires Valid() && creating == None
      modifies this`creating, operations.Values
      ensures Valid() && (View(), answer) == Begin(setup, old(View()), request, now)
    {
      if !ValidRequest(request, setup.isObject) {
        return Replies(400, None, "invalid_request");
      }
      var attemptTimeout := 0;
      if request.deadline.Some? {
        attemptTimeout := request.deadline.value - now;
        if attemptTimeout <= 0 {
          return Replies(400, None, "invalid_request");
        }
      }
      var form := CanonicalRequest(request);
      if request.operationID in operations {
        answer := RepeatCreate(request, form, attemptTimeout);
        return;
      }
      creating := Some(Creating(request, form, attemptTimeout));
      answer := Continues;
      SameRecords();
    }

    method AcceptRestoreConfiguration(settings: Settings) returns (answer: Answer)
      requires Valid() && creating.Some? && NeedsSettings(creating.value.request)
      modifies this`creating
      ensures Valid() && (View(), answer) == Accept(old(View()), settings)
    {
      match settings {
        case Unavailable =>
          creating := None;
          answer := Replies(503, None, "configuration_unavailable");
        case Refused =>
          creating := None;
          answer := Replies(502, None, "configuration_failed");
        case Taken =>
          creating := Some(creating.value.(request := creating.value.request.(configuration := [])));
          answer := Continues;
      }
      SameRecords();
    }

    /** Writes to a temporary file and renames it into place. */
    method StageConfiguration(id: string, configuration: Bytes, staged: bool) returns (path: string)
      modifies this`files
      ensures path == ConfigurationFile(setup.root, id)
      ensures files == if staged then old(files)[path := configuration] else old(files)
    {
      path := ConfigurationFile(setup.root, id);
      if staged {
        files := files[path := configuration];
      }
    }

    method InsertOperation(staged: bool) returns (answer: Answer)
      requires Valid() && creating.Some? && !NeedsSettings(creating.value.request)
      modifies this, operations.Values
      ensures Valid() && fresh(operations.Values - old(operations.Values))
      ensures (View(), answer) == Insert(setup, old(View()), staged)
    {
      hide ConfigurationFile, Repeat, NeedsSettings;
      var operation, form, attemptTimeout := creating.value.request, creating.value.form, creating.value.attemptTimeout;
      var id := operation.operationID;
      if id in operations {
        RepeatFrame(View(), operation, form, attemptTimeout);
        answer := RepeatCreate(operation, form, attemptTimeout);
        label AfterRepeat:
        creating := None;
        SameRecords@AfterRepeat();
        return;
      }
      creating := None;
      var configurationPath := "";
      if operation.operation == Restore && operation.phase == Bootstrap && operation.configuration != [] {
        configurationPath := StageConfiguration(id, operation.configuration, staged);
        if !staged {
          SameRecords();
          return Replies(500, None, "configuration_write_failed");
        }
        operation := operation.(configuration := []);
      }
      SameRecords();
      var status := AddRecord(operation, form, configurationPath, attemptTimeout);
      answer := Replies(201, Some(status), "");
    }

    method AddRecord(operation: Request, form: Form, configurationPath: string,
        attemptTimeout: int) returns (status: OperationStatus)
      requires Valid() && operation.operationID !in operations
      modifies this`operations
      ensures Valid() && fresh(operations.Values - old(operations.Values))
      ensures status == NewStatus(operation)
      ensures var r := Record(operation, form, status, "", "", configurationPath, attemptTimeout);
              Ops() == old(Ops())[operation.operationID := r]
    {
      var id := operation.operationID;
      status := OperationStatus(id, Pending, None, None, None, None);
      if operation.operation == Restore && operation.phase == Bootstrap && !operation.headless {
        status := status.(ui := Some("/ui/restore?operation=" + id));
      }
      var record := new OperationRecord(operation, form, status, configurationPath, attemptTimeout);
      operations := operations[id := record];
      NewRecord(id);
    }

    /** A new record is a new entry of the view. */
    twostate lemma NewRecord(id: string)
      requires operations.Keys == old(operations).Keys + {id} && id !in old(operations)
      requires forall x :: x in old(operations) ==> operations[x] == old(operations)[x] && unchanged(operations[x])
      ensures Ops() == old(Ops())[id := operations[id].Value()]
    {
      assert forall x :: x in old(operations) ==> operations[x].Value() == old(operations[x].Value());
    }

    lemma RepeatFrame(s: Srv, r: Request, form: Form, attemptTimeout: int)
      requires r.operationID in s.ops
      ensures Repeat(s, r, form, attemptTimeout).0 == s.(ops := Repeat(s, r, form, attemptTimeout).0.ops)
    {
    }

    // ----- uploads -----

    method BeginUpload(id: string, length: int, header: HashText, made: bool) returns (answer: Answer)
      requires Valid()
      modifies this`uploads, this`next
      ensures Valid() && (View(), answer) == Receive(old(View()), id, length, header, made)
    {
      hide EqualFold;
      if id !in operations || operations[id].request.operation != Backup
        || operations[id].request.stateArchive == None {
        return Replies(404, None, "operation_not_found");
      }
      var descriptor := operations[id].request.stateArchive.value;
      if length != descriptor.size || !EqualFold(header, descriptor.sha256) {
        return Replies(400, None, "artifact_mismatch");
      }
      if !made {
        return Replies(500, None, "artifact_write_failed");
      }
      uploads := uploads[next := Upload(operations[id].request.operationID, descriptor, Receiving)];
      next := next + 1;
      SameRecords();
      answer := Continues;
    }

    /** Copies the body to a temporary file and hashes it on the way. */
    method CopyBody(u: nat, body: Bytes, copied: bool) returns (answer: Answer)
      requires Valid() && u in uploads && uploads[u].stage == Receiving
      modifies this`uploads
      ensures Valid() && (View(), answer) == Check(old(View()), u, body, copied)
    {
      var upload := uploads[u];
      var content: Bytes := [];
      var i := 0;
      while i < |body| && |content| < upload.descriptor.size + 1
        invariant i == |content| <= |body| && content == body[..i]
        invariant 0 <= upload.descriptor.size ==> i <= upload.descriptor.size + 1
      {
        content := content + [body[i]];
        i := i + 1;
      }
      LimitedMatches(body, content, upload.descriptor);
      if copied && |content| == upload.descriptor.size
        && EqualFold(HashOf(Sha256(content), 0), upload.descriptor.sha256) {
        uploads := uploads[u := upload.(stage := Checked(content))];
        answer := Continues;
      } else {
        uploads := uploads - {u};
        answer := Replies(400, None, "artifact_mismatch");
      }
      SameRecords();
    }

    /** What was copied passes the checks exactly when the limited body matches the descriptor. */
    lemma LimitedMatches(body: Bytes, content: Bytes, descriptor: Artifact)
      requires content <= body
      requires |content| == |body| || |content| >= descriptor.size + 1
      requires 0 <= descriptor.size ==> |content| <= descriptor.size + 1
      ensures |content| == descriptor.size && EqualFold(HashOf(Sha256(content), 0), descriptor.sha256)
         <==> Matches(Limited(body, descriptor), descriptor)
      ensures Matches(Limited(body, descriptor), descriptor) ==> Limited(body, descriptor) == content
    {
      if |content| == |body| {
        assert content == body;
      } else {
        assert 0 <= descriptor.size ==> content == body[..descriptor.size + 1];
      }
    }

    method RenameUpload(u: nat, ok: bool) returns (answer: Answer)
      requires Valid() && u in uploads && uploads[u].stage.Checked?
      modifies this`files, this`uploads
      ensures Valid() && (View(), answer) == Rename(setup, old(View()), u, ok)
    {
      hide StateFile;
      var upload := uploads[u];
      if ok {
        files := files[StateFile(setup.root, upload.id) := upload.stage.content];
        uploads := uploads[u := upload.(stage := Renamed)];
        answer := Continues;
      } else {
        uploads := uploads - {u};
        answer := Replies(500, None, "artifact_write_failed");
      }
      SameRecords();
    }

    method CommitUpload(u: nat) returns (answer: Answer)
      requires Valid() && u in uploads && uploads[u].stage == Renamed
      modifies this`uploads, operations.Values
      ensures Valid() && (View(), answer) == Commit(setup, old(View()), u)
    {
      hide StateFile;
      var id := uploads[u].id;
      if id in operations {
        var current := operations[id];
        assert Ops()[id] == current.Value();
        current.statePath := StateFile(setup.root, id);
        OneRecord(id);
        label Committed:
        uploads := uploads - {u};
        SameRecords@Committed();
      } else {
        uploads := uploads - {u};
        SameRecords();
      }
      answer := Replies(204, None, "");
    }

    // ----- execution -----

    method ReadFile(path: string, readable: bool) returns (content: Option<Bytes>)
      ensures content == ReadConfiguration(files, path, readable)
    {
      if !readable || path !in files || |files[path]| == 0 || |files[path]| > MAX_CONFIGURATION_SIZE {
        return None;
      }
      content := Some(files[path]);
    }

    /** Starts the operation in place; a bootstrap restore whose configuration cannot be read fails without a
        goroutine. */
    method RunOperation(id: string, readable: bool) returns (answer: Answer)
      requires Valid()
      modifies this`flights, this`next, operations.Values
      ensures Valid() && (View(), answer) == Launch(old(View()), id, readable)
    {
      hide Start;
      if id !in operations {
        return Replies(404, None, "operation_not_found");
      }
      var record := operations[id];
      assert Ops()[id] == record.Value();
      if record.status.state == Running || record.status.state == Succeeded {
        return Replies(200, Some(record.status), "");
      }
      if record.status.state == Canceled {
        return Replies(409, None, "operation_canceled");
      }
      if record.request.operation == Backup && record.statePath == "" {
        return Replies(409, None, "state_archive_missing");
      }
      if record.request.operation == Restore && record.request.phase == Bootstrap
         && (record.request.recoveryPointID == "" || record.configurationPath == "") {
        return Replies(200, Some(record.status), "");
      }
      answer := StartOperation(id, readable);
    }

    /** The rest of the same critical section. */
    method StartOperation(id: string, readable: bool) returns (answer: Answer)
      requires Valid() && id in operations
      modifies this`flights, this`next, operations.Values
      ensures Valid() && (View(), answer) == Start(old(View()), id, readable)
    {
      hide ReadConfiguration;
      var record := operations[id];
      assert Ops()[id] == record.Value();
      record.status := record.status.(state := Running, progress := Some(STARTING), error := None);
      var operation := record.request;
      if operation.phase == Bootstrap {
        var configuration := ReadFile(record.configurationPath, readable);
        if configuration == None {
          record.status := record.status.(state := Failed, error := Some(UNREADABLE));
          OneRecord(id);
          return Replies(409, Some(record.status), "");
        }
        operation := operation.(configuration := configuration.value);
      }
      OneRecord(id);
      answer := Replies(202, Some(record.status), "");
      label Started:
      flights := flights[next := Flight(operation, record.statePath)];
      next := next + 1;
      SameRecords@Started();
    }

    /** The progress callback of a goroutine. */
    method ReportProgress(flight: nat, progress: Progress)
      requires Valid() && flight in flights
      modifies operations.Values
      ensures Valid() && View() == Report(old(View()), flight, progress)
    {
      var id := flights[flight].operation.operationID;
      if id in operations && operations[id].status.state == Running {
        var record := operations[id];
        assert Ops()[id] == record.Value();
        record.status := record.status.(progress := Some(progress));
        OneRecord(id);
      }
    }

    /** The end of a goroutine; it looks for a cancellation, not for a running state. */
    method FinishExecution(flight: nat, outcome: Outcome)
      requires Valid() && flight in flights
      modifies this`flights, operations.Values
      ensures Valid() && View() == Land(old(View()), flight, outcome)
    {
      var id := flights[flight].operation.operationID;
      flights := flights - {flight};
      SameRecords();
      if id !in operations || operations[id].status.state == Canceled {
        return;
      }
      EndRecord(id, outcome);
    }

    method EndRecord(id: string, outcome: Outcome)
      requires Valid() && id in operations
      modifies operations[id]
      ensures Valid() && id in old(Ops()) && Ops() == old(Ops())[id := Ended(old(Ops())[id], outcome)]
    {
      var record := operations[id];
      assert Ops()[id] == record.Value();
      match outcome {
        case Failure(message, canceled) =>
          record.status := record.status.(state := Failed,
            error := Some(Problem("operation_failed", message, !canceled)));
        case Success(result, downloadPath) =>
          record.status := record.status.(state := Succeeded, result := Some(result), progress := Some(COMPLETE));
          record.downloadPath := downloadPath;
      }
      OneRecord(id);
    }

    method CancelOperation(id: string) returns (answer: Answer)
      requires Valid()
      modifies operations.Values
      ensures Valid() && (View(), answer) == Stop(old(View()), id)
    {
      if id !in operations {
        return Replies(404, None, "operation_not_found");
      }
      var record := operations[id];
      assert Ops()[id] == record.Value();
      record.status := record.status.(state := Canceled);
      OneRecord(id);
      answer := Replies(204, None, "");
    }

    /** The selection; its handler goes on with `RunOperation`. */
    method SelectRecoveryPoint(id: string, recoveryPointID: string, configuration: Bytes,
        staged: bool) returns (answer: Answer)
      requires Valid()
      modifies this`files, operations.Values
      ensures Valid() && (View(), answer) == Choose(setup, old(View()), id, recoveryPointID, configuration, staged)
    {
      hide ConfigurationFile, ValidRequest;
      if recoveryPointID == "" || configuration == [] {
        return Replies(400, None, "invalid_selection");
      }
      if id !in operations || operations[id].request.operation != Restore || operations[id].request.phase != Bootstrap {
        return Replies(404, None, "operation_not_found");
      }
      var record := operations[id];
      assert Ops()[id] == record.Value();
      if record.status.state != Pending {
        return Replies(409, None, "operation_started");
      }
      var selected := record.request;
      selected := selected.(recoveryPointID := recoveryPointID);
      selected := selected.(configuration := configuration);
      selected := selected.(headless := true);
      if !ValidRequest(selected, setup.isObject) {
        return Replies(400, None, "invalid_selection");
      }
      var path := StageConfiguration(id, configuration, staged);
      SameRecords();
      if !staged {
        return Replies(500, None, "configuration_write_failed");
      }
      label Staged:
      record.request := selected.(configuration := []);
      record.configurationPath := path;
      OneRecord@Staged(id);
      answer := Continues;
    }

    // ----- reads -----

    method GetOperation(id: string) returns (status: Option<OperationStatus>)
      ensures status == if id in View().ops then Some(View().ops[id].status) else None
    {
      status := if id in operations then Some(operations[id].status) else None;
    }

    method DownloadState(id: string, readable: bool) returns (reply: ArchiveReply)
      ensures reply == DownloadArchive(View(), id, readable)
    {
      if id !in operations {
        return NoArchive;
      }
      var record := operations[id];
      if record.status.state != Succeeded || record.downloadPath == "" || record.status.result == None
         || record.status.result.value.stateArchive == None {
        return NoArchive;
      }
      if !readable {
        return Unreadable;
      }
      reply := Served(record.downloadPath, record.status.result.value.stateArchive.value.size);
    }

    method DownloadConfiguration(id: string, readable: bool) returns (content: Option<Bytes>)
      ensures content == Download(setup, View(), id, readable)
    {
      if id !in operations {
        return None;
      }
      var record := operations[id];
      if record.request.operation != Restore || record.request.phase != Bootstrap || record.status.state != Succeeded
         || record.configurationPath == "" {
        return None;
      }
      content := ReadFile(record.configurationPath, readable);
      if content.Some? && !setup.isObject(content.value) {
        content := None;
      }
    }
  }
}

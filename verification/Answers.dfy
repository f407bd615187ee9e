/** What the server's handlers answer, and what their answers mean. */
module Answers {
  import opened Wrappers
  import opened Ids
  import opened Recovery
  import opened Operations
  import opened OperationFiles
  import opened Server
  import opened ServerSafety
  import opened StagedFiles
  import opened OperationHistory

  // ----- creation -----

  predicate GoodArtifact(a: Artifact) {
    && a.name != "" && (forall i :: 0 <= i < |a.name| ==> a.name[i] != '/' && a.name[i] != '\\')
    && a.size > 0 && (a.sha256.HashOf? || a.sha256.HashOfNothing?)
  }

  /** The three kinds of operation, and what each has to bring. */
  predicate Complete(r: Request, isObject: Bytes -> bool) {
    var configurable := r.configuration == [] || (|r.configuration| <= 0x100000 && isObject(r.configuration));
    match (r.operation, r.phase)
    case (Backup, InCluster) =>
      && r.stateArchive.Some? && r.configuration == [] && r.backupPolicy.Some?
      && |r.backupPolicy.value.includedNamespaces| > 0 && r.backupPolicy.value.volumeBackup == "fileSystem"
    case (Restore, Bootstrap) => r.backupPolicy == None && configurable && (r.configuration == [] || r.headless)
    case (Restore, InCluster) => r.backupPolicy == None && configurable && r.recoveryPointID != ""
    case _ => false
  }

  /** A create that is not refused as invalid. */
  ghost predicate Creatable(c: Setup, r: Request, now: int) {
    && r.apiVersion == "lifecycle.embeddedcluster.replicated.com/v1alpha1"
    && (exists id :: Canonical(id) && Spells(r.operationID, id))
    && Complete(r, c.isObject)
    && (r.stateArchive.Some? ==> GoodArtifact(r.stateArchive.value))
    && (r.deadline.Some? ==> now < r.deadline.value)
  }

  lemma AcceptedSpells(raw: string)
    ensures Accepted(raw) <==> exists id :: Canonical(id) && Spells(raw, id)
  {
    hide Canonical, Spells, Normalize;
    NormalizeIsCanonical(raw);
    if Accepted(raw) {
      NormalizeExactly(raw, Normalize(raw).value);
    }
    forall id | Canonical(id) && Spells(raw, id) ensures Accepted(raw) {
      NormalizeExactly(raw, id);
    }
  }

  lemma ValidExactly(c: Setup, r: Request, now: int)
    ensures ValidRequest(r, c.isObject) && InTime(r, now) <==> Creatable(c, r, now)
  {
    hide Normalize, Canonical, Spells;
    AcceptedSpells(r.operationID);
    if r.stateArchive.Some? {
      var name := r.stateArchive.value.name;
      assert '/' !in name && '\\' !in name <==> forall i :: 0 <= i < |name| ==> name[i] != '/' && name[i] != '\\';
    }
  }

  /** A create is refused with 400, and then changes nothing, exactly if its request is not creatable. */
  lemma RefusedExactly(c: Setup, s: Srv, r: Request, now: int)
    requires Enabled(s, CreateBegin(r, now))
    ensures Creatable(c, r, now) <==> Apply(c, s, CreateBegin(r, now)).1 != Replies(400, None, "invalid_request")
    ensures !Creatable(c, r, now) ==> Next(c, s, CreateBegin(r, now)) == s
  {
    hide ValidRequest, Creatable, CanonicalRequest, InTime;
    ValidExactly(c, r, now);
  }

  /** Settings are asked for only by an in-cluster restore that brings them. Those that cannot be accepted end the
      create without an operation; accepted ones let it go on. */
  lemma SettingsAnswers(c: Setup, s: Srv, settings: Settings)
    requires Enabled(s, AcceptSettings(settings))
    ensures s.creating.Some?
    ensures var r := s.creating.value.request; r.operation == Restore && r.phase == InCluster && r.configuration != []
    ensures var t, a := Next(c, s, AcceptSettings(settings)), Apply(c, s, AcceptSettings(settings)).1;
            && t == s.(creating := t.creating) && (t.creating.Some? <==> settings == Taken)
            && a == match settings
                    case Unavailable => Replies(503, None, "configuration_unavailable")
                    case Refused => Replies(502, None, "configuration_failed")
                    case Taken => Continues
  {
  }

  /** The record of a new operation: pending, with the whole request except its configuration, and the time that
      is left until the deadline. */
  predicate Created(c: Setup, record: Record, r: Request, now: int) {
    var bootstrap := r.operation == Restore && r.phase == Bootstrap;
    var page := if bootstrap && !r.headless then Some("/ui/restore?operation=" + r.operationID) else None;
    && record.request == r.(configuration := [])
    && record.status == OperationStatus(r.operationID, Pending, None, page, None, None)
    && record.statePath == "" && record.downloadPath == ""
    && record.attemptTimeout == (if r.deadline.Some? then r.deadline.value - now else 0)
    && record.configurationPath ==
      (if bootstrap && r.configuration != [] then ConfigurationFile(c.root, r.operationID) else "")
  }

  lemma {:induction false} CreatingTimeout(c: Setup, states: seq<Srv>, events: seq<Event>, i: nat, j: nat, m: nat)
    requires OneCreate(c, states, events, i, j) && i < m <= j
    ensures var r, now := events[i].request, events[i].now;
            && states[m].creating.value.attemptTimeout == (if r.deadline.Some? then r.deadline.value - now else 0)
            && (states[m].creating.value.request == r
                || (NeedsSettings(r) && states[m].creating.value.request == r.(configuration := [])))
  {
    hide Consistent, History, Next, Enabled, NeedsSettings;
    HistoryAt(c, states, events, m - 1);
    ConsistentAlways(c, states, events, m - 1);
    if m == i + 1 {
      BeginsWhole(c, states[i], events[i]);
      BeginsTimed(c, states[i], events[i]);
    } else {
      CreatingTimeout(c, states, events, i, j, m - 1);
      CreatingStep(c, states[m - 1], events[m - 1]);
      if events[m - 1].AcceptSettings? {
        OnlyNeeded(states[m - 1], events[m - 1]);
      }
    }
  }

  lemma BeginsTimed(c: Setup, s: Srv, e: Event)
    requires Enabled(s, e) && e.CreateBegin? && Next(c, s, e).creating.Some?
    ensures Next(c, s, e).creating.value.attemptTimeout
        == if e.request.deadline.Some? then e.request.deadline.value - e.now else 0
  {
    hide ValidRequest, Later;
  }

  lemma OnlyNeeded(s: Srv, e: Event)
    requires Enabled(s, e) && e.AcceptSettings?
    ensures NeedsSettings(s.creating.value.request)
  {
  }

  lemma InsertsRecord(c: Setup, s: Srv, e: Event, r: Request, now: int)
    requires Consistent(c, s) && Enabled(s, e) && e.CreateInsert?
    requires Apply(c, s, e).1.Replies? && Apply(c, s, e).1.code == 201
    requires var p := s.creating.value;
             && p.request.operationID !in s.ops
             && (p.request == r || (NeedsSettings(r) && p.request == r.(configuration := [])))
             && p.attemptTimeout == if r.deadline.Some? then r.deadline.value - now else 0
    ensures var t := Next(c, s, e);
            && r.operationID in t.ops && Created(c, t.ops[r.operationID], r, now)
            && Apply(c, s, e).1.status == Some(t.ops[r.operationID].status)
            && (t.ops[r.operationID].configurationPath != "" ==>
                  FileAt(t.files, ConfigurationFile(c.root, r.operationID)) == Some(r.configuration))
  {
    hide Records, Flights, Uploads, ConfigurationFile, ValidRequest, Fixed;
    var p := s.creating.value.request;
    ValidStays(p, c.isObject);
    assert p.(configuration := []) == r.(configuration := []);
    assert p.configuration == [] ==> p == p.(configuration := []);
  }

  /** A create that is answered 201 makes a pending operation of exactly what was asked for, under an ID that had
      none; the answer carries its status, and its configuration is staged if it has one. */
  lemma CreatedAsAsked(c: Setup, states: seq<Srv>, events: seq<Event>, i: nat, j: nat)
    requires OneCreate(c, states, events, i, j)
    requires AnswerAt(c, states, events, j).Replies? && AnswerAt(c, states, events, j).code == 201
    ensures |states| == |events| + 1
    ensures var id, t := events[i].request.operationID, states[j + 1];
            && id !in states[j].ops && id in t.ops && Created(c, t.ops[id], events[i].request, events[i].now)
            && AnswerAt(c, states, events, j).status == Some(t.ops[id].status)
            && (t.ops[id].configurationPath != "" ==>
                  FileAt(t.files, ConfigurationFile(c.root, id)) == Some(events[i].request.configuration))
  {
    hide Consistent, History, Next, Enabled, NeedsSettings, Created, ConfigurationFile;
    CreatingForm(c, states, events, i, j, j);
    CreatingTimeout(c, states, events, i, j, j);
    CreatingIsNew(c, states, events, j);
    HistoryAt(c, states, events, j);
    AnswerIs(c, states, events, j);
    ConsistentAlways(c, states, events, j);
    InsertsRecord(c, states[j], events[j], events[i].request, events[i].now);
  }

  // ----- uploads -----

  /** The announcement of an upload is taken exactly for a backup, with the promised size and digest. */
  predicate Announced(s: Srv, id: string, length: int, header: HashText) {
    && id in s.ops && s.ops[id].request.operation == Backup && s.ops[id].request.stateArchive.Some?
    && length == s.ops[id].request.stateArchive.value.size
    && SameDigits(header, s.ops[id].request.stateArchive.value.sha256)
  }

  /** The same checksum in any spelling. */
  predicate SameDigits(a: HashText, b: HashText) {
    match (a, b)
    case (HashOf(x, _), HashOf(y, _)) => x == y
    case (HashOfNothing(x), HashOfNothing(y)) => Lower(x) == Lower(y)
    case (NotAHash(x), NotAHash(y)) => Lower(x) == Lower(y)
    case _ => false
  }

  /** The code of an announcement that is not taken. */
  function UploadCode(s: Srv, e: Event): int
    requires e.UploadBegin?
  {
    if e.id !in s.ops || s.ops[e.id].request.operation != Backup then 404
    else if !Announced(s, e.id, e.length, e.header) then 400
    else 500
  }

  /** Which uploads are taken, and the code of every refusal. */
  lemma UploadAnswers(c: Setup, s: Srv, e: Event)
    requires Consistent(c, s) && Enabled(s, e)
    ensures e.UploadBegin? ==>
              var a := Apply(c, s, e).1;
              && (a == Continues <==> e.made && Announced(s, e.id, e.length, e.header))
              && (a != Continues ==> Next(c, s, e) == s && a.status == None && a.code == UploadCode(s, e))
    ensures e.UploadBody? ==>
              var promised := s.ops[s.uploads[e.upload].id].request.stateArchive.value;
              Apply(c, s, e).1 == if e.copied && |e.body| == promised.size && promised.sha256.HashOf?
                && promised.sha256.digest == Sha256(e.body) then Continues else Replies(400, None, "artifact_mismatch")
    ensures e.UploadRename? ==>
              Apply(c, s, e).1 == if e.ok then Continues else Replies(500, None, "artifact_write_failed")
    ensures e.UploadCommit? ==>
              var id := s.uploads[e.upload].id;
              && Apply(c, s, e).1 == Replies(204, None, "") && id in Next(c, s, e).ops
              && Next(c, s, e).ops[id] == s.ops[id].(statePath := StateFile(c.root, id))
  {
    hide Records, Flights, Creates, StateFile, Lower, ValidRequest;
    if e.UploadBegin? && e.id in s.ops && s.ops[e.id].request.operation == Backup {
      BackupHasArchive(c, s, e.id);
    } else if e.UploadBody? || e.UploadRename? || e.UploadCommit? {
      UploadFacts(s, e.upload);
    }
  }

  lemma BackupHasArchive(c: Setup, s: Srv, id: string)
    requires Consistent(c, s) && id in s.ops && s.ops[id].request.operation == Backup
    ensures s.ops[id].request.stateArchive.Some?
  {
    hide Flights, Uploads, Creates, StateFile, ConfigurationFile, Fixed;
    assert WellFormed(c, id, s.ops[id]);
  }

  // ----- runs, cancellations and selections -----

  /** The code of the answer to a run request. */
  function RunCode(s: Srv, id: string, readable: bool): int {
    if id !in s.ops then 404
    else
      var record := s.ops[id];
      match record.status.state
      case Running => 200
      case Succeeded => 200
      case Canceled => 409
      case _ =>
        match (record.request.operation, record.request.phase)
        case (Backup, _) => if record.statePath == "" then 409 else 202
        case (_, Bootstrap) =>
          if record.request.recoveryPointID == "" || record.configurationPath == "" then 200
          else if readable then 202 else 409
        case _ => 202
  }

  predicate Starting(a: OperationStatus, b: OperationStatus) {
    b == a.(state := Running, progress := Some(Progress("starting", "Starting lifecycle operation", 0)), error := None)
  }

  /** A run request is answered by state and by what is there; it starts the operation with 202, and fails one whose
      configuration cannot be read. */
  lemma RunAnswers(c: Setup, states: seq<Srv>, events: seq<Event>, k: nat)
    requires History(c, states, events) && k < |events| && Apart(states[k].ops.Keys) && events[k].Run?
    ensures |states| == |events| + 1
    ensures var s, t, id, a := states[k], states[k + 1], events[k].id, AnswerAt(c, states, events, k);
            && a.Replies? && a.code == RunCode(s, id, events[k].readable)
            && (a.code == 202 ==> id in t.ops && Starting(s.ops[id].status, t.ops[id].status)
                                  && a.status == Some(t.ops[id].status))
            && (a.code == 200 ==> t == s && a.status == Some(s.ops[id].status))
            && (a.code == 404 ==> t == s)
            && (a.code == 409 ==> t.flights == s.flights && t.files == s.files && id in t.ops)
            && (a.code == 409 && a.status == None ==> t == s)
            && (a.code == 409 && a.status.Some? ==>
                  && t.ops[id].status.state == Failed && a.status == Some(t.ops[id].status)
                  && t.ops[id].status.error.Some? && t.ops[id].status.error.value.code == "configuration_unavailable"
                  && t.ops[id].status.error.value.retryable)
  {
    hide Consistent, History, Files, Apart, RunCode, Starting;
    HistoryLength(c, states, events);
    HistoryAt(c, states, events, k);
    AnswerIs(c, states, events, k);
    ConsistentAlways(c, states, events, k);
    FilesAlways(c, states, events, k);
    RunAnswer(c, states[k], events[k]);
  }

  lemma RunAnswer(c: Setup, s: Srv, e: Event)
    requires Consistent(c, s) && Files(c, s) && e.Run? && Enabled(s, e)
    ensures var t, id, a := Next(c, s, e), e.id, Apply(c, s, e).1;
            && a.Replies? && a.code == RunCode(s, id, e.readable)
            && (a.code == 202 ==> id in t.ops && Starting(s.ops[id].status, t.ops[id].status)
                                  && a.status == Some(t.ops[id].status))
            && (a.code == 200 ==> t == s && a.status == Some(s.ops[id].status))
            && (a.code == 404 ==> t == s)
            && (a.code == 409 ==> t.flights == s.flights && t.files == s.files && id in t.ops)
            && (a.code == 409 && a.status == None ==> t == s)
            && (a.code == 409 && a.status.Some? ==>
                  && t.ops[id].status.state == Failed && a.status == Some(t.ops[id].status)
                  && t.ops[id].status.error.Some? && t.ops[id].status.error.value.code == "configuration_unavailable"
                  && t.ops[id].status.error.value.retryable)
  {
    hide Uploads, Creates, Flights, Records, Files, Assignment, ReadConfiguration;
    ConsistentParts(c, s);
    if e.id in s.ops {
      RecordKind(c, s, e.id);
      if Launchable(s.ops[e.id]) {
        StagedIsReadable(c, s, e.id, e.readable);
      }
    }
  }

  lemma RecordKind(c: Setup, s: Srv, id: string)
    requires Records(c, s) && id in s.ops
    ensures var r := s.ops[id].request;
            && (r.operation == Backup || r.operation == Restore) && (r.phase == Bootstrap || r.phase == InCluster)
            && (r.operation == Backup ==> r.phase == InCluster)
  {
    hide StateFile, ConfigurationFile, Fixed;
    assert WellFormed(c, id, s.ops[id]);
  }

  /** A cancellation is answered 204 and changes the state of its operation only, or 404 and changes nothing. */
  lemma CancelAnswers(c: Setup, s: Srv, id: string)
    ensures var t, a := Next(c, s, Cancel(id)), Apply(c, s, Cancel(id)).1;
            if id in s.ops
            then && a == Replies(204, None, "")
                 && t == s.(ops := s.ops[id := s.ops[id].(status := s.ops[id].status.(state := Canceled))])
            else a == Replies(404, None, "operation_not_found") && t == s
  {
  }

  /** The code of a selection that is refused; 202 if it is taken. */
  function SelectCode(c: Setup, s: Srv, e: Event): int
    requires e.Select?
  {
    if e.recoveryPointID == "" || e.configuration == [] then 400
    else if e.id !in s.ops || s.ops[e.id].request.operation != Restore then 404
    else if s.ops[e.id].request.phase != Bootstrap then 404
    else if s.ops[e.id].status.state != Pending then 409
    else if |e.configuration| > 0x100000 || !c.isObject(e.configuration) then 400
    else if !e.staged then 500
    else 202
  }

  /** A selection is taken exactly while its bootstrap restore is pending, with a point and a usable configuration;
      it sets these and marks the operation headless. */
  lemma SelectAnswers(c: Setup, s: Srv, e: Event)
    requires Consistent(c, s) && Enabled(s, e) && e.Select?
    ensures var t, a, id := Next(c, s, e), Apply(c, s, e).1, e.id;
            && (a.Replies? ==> t == s && a.status == None && a.code == SelectCode(c, s, e))
            && (a == Continues <==> SelectCode(c, s, e) == 202)
            && (a == Continues ==>
                  var r := s.ops[id].request.(recoveryPointID := e.recoveryPointID, headless := true);
                  var path := ConfigurationFile(c.root, id);
                  && t.ops == s.ops[id := s.ops[id].(request := r, configurationPath := path)]
                  && t.files == s.files[path := e.configuration] && t.flights == s.flights)
  {
    hide Consistent, ConfigurationFile, ValidRequest;
    if e.id in s.ops && IsBootstrapRestore(s.ops[e.id].request) && e.configuration != [] {
      SelectableExactly(c, s, e.id, e.recoveryPointID, e.configuration);
    }
  }

  lemma SelectableExactly(c: Setup, s: Srv, id: string, point: string, configuration: Bytes)
    requires Consistent(c, s) && id in s.ops && IsBootstrapRestore(s.ops[id].request) && configuration != []
    ensures ValidRequest(Selected(s.ops[id].request, point, configuration), c.isObject) <==>
            |configuration| <= 0x100000 && c.isObject(configuration)
    ensures s.ops[id].request.configuration == []
  {
    hide Flights, Uploads, Creates, StateFile, ConfigurationFile, Fixed;
    assert WellFormed(c, id, s.ops[id]);
  }

  /** No request that is answered with an error starts or ends an execution, touches a file or a record, except that
      a run whose configuration cannot be read fails its operation. */
  lemma ErrorsChangeNothing(c: Setup, s: Srv, e: Event)
    requires Enabled(s, e) && Apply(c, s, e).1.Replies? && Apply(c, s, e).1.code >= 400
    ensures var t := Next(c, s, e);
            && t.flights == s.flights && t.files == s.files
            && (t.ops == s.ops || (e.Run? && Apply(c, s, e).1.status.Some?))
  {
    hide ValidRequest, CanonicalRequest, Later, Stages, ReadConfiguration, StateFile, ConfigurationFile, Matches,
      EqualFold, Limited, Incomplete;
  }
}

/** What holds of operations over whole runs of the server. */
module OperationHistory {
  import opened Wrappers
  import opened Recovery
  import opened Operations
  import opened OperationFiles
  import opened Server
  import opened ServerSafety
  import opened StagedFiles

  // ----- execution -----

  function Executing(s: Srv, id: string): set<nat> {
    set t | t in s.flights && s.flights[t].operation.operationID == id
  }

  lemma OneExecution(c: Setup, s: Srv, id: string)
    requires Flights(c, s) && id in s.ops
    ensures |Executing(s, id)| <= 1
    ensures s.ops[id].status.state == Running ==> |Executing(s, id)| == 1
    ensures Executing(s, id) != {} ==> s.ops[id].status.state == Running || s.ops[id].status.state == Canceled
  {
    hide FlightSound;
    if s.ops[id].status.state == Running {
      assert Flies(s, id);
      var f :| f in s.flights && s.flights[f].operation.operationID == id;
      assert f in Executing(s, id);
    }
    if Executing(s, id) != {} {
      var f :| f in Executing(s, id);
      FlightFacts(c, s, f);
      assert forall g :: g in Executing(s, id) ==> g == f;
      assert Executing(s, id) == {f};
    }
  }

  /** However creates, selections, runs, reports, endings and cancellations interleave: a running operation
      has exactly one execution, a canceled one at most one, and any other none. */
  lemma AtMostOneExecution(c: Setup, states: seq<Srv>, events: seq<Event>, k: nat, id: string)
    requires History(c, states, events) && k < |states| && id in states[k].ops
    ensures var n := |Executing(states[k], id)|;
            match states[k].ops[id].status.state
            case Running => n == 1
            case Canceled => n <= 1
            case _ => n == 0
  {
    hide Consistent, Flights, Records, History, Executing;
    ConsistentAlways(c, states, events, k);
    ConsistentParts(c, states[k]);
    OneExecution(c, states[k], id);
  }

  /** The status says how the execution went. */
  predicate Reports(status: OperationStatus, outcome: Outcome) {
    match outcome
    case Success(result, _) =>
      status.state == Succeeded && status.result == Some(result) && status.error == None
      && status.progress == Some(Progress("complete", "Lifecycle operation complete", 100))
    case Failure(message, canceled) =>
      status.state == Failed && status.result == None
      && status.error == Some(Problem("operation_failed", message, !canceled))
  }

  predicate Ends(s: Srv, t: Srv, f: nat, outcome: Outcome)
    requires f in s.flights
  {
    var id := s.flights[f].operation.operationID;
    && id in s.ops && id in t.ops && Executing(t, id) == {}
    && (s.ops[id].status.state == Running || s.ops[id].status.state == Canceled)
    && (s.ops[id].status.state == Canceled ==> t.ops == s.ops)
    && (s.ops[id].status.state == Running ==>
          && Reports(t.ops[id].status, outcome)
          && t.ops[id].downloadPath == if outcome.Success? then outcome.downloadPath else "")
  }

  /** An execution that ends finds its operation running, which it moves to succeeded or failed, or canceled,
      which it leaves as it is. */
  lemma FinishEndsRunning(c: Setup, states: seq<Srv>, events: seq<Event>, k: nat)
    requires History(c, states, events) && k < |events| && events[k].Finish?
    ensures events[k].flight in states[k].flights
    ensures Ends(states[k], states[k + 1], events[k].flight, events[k].outcome)
  {
    hide Consistent, History, Ended, FlightSound;
    HistoryAt(c, states, events, k);
    ConsistentAlways(c, states, events, k);
    FinishStep(c, states[k], events[k]);
  }

  lemma HistoryAt(c: Setup, states: seq<Srv>, events: seq<Event>, k: nat)
    requires History(c, states, events) && k < |events|
    ensures |states| == |events| + 1 && Enabled(states[k], events[k]) && states[k + 1] == Next(c, states[k], events[k])
  {
    StepAt(c, states, events, k);
  }

  lemma HistoryLength(c: Setup, states: seq<Srv>, events: seq<Event>)
    requires History(c, states, events)
    ensures |states| == |events| + 1
  {
  }

  lemma FinishStep(c: Setup, s: Srv, e: Event)
    requires Consistent(c, s) && Enabled(s, e) && e.Finish?
    ensures e.flight in s.flights && Ends(s, Next(c, s, e), e.flight, e.outcome)
  {
    hide Records, Uploads, Creates, FlightSound, WellFormed;
    FlightFacts(c, s, e.flight);
    var id := s.flights[e.flight].operation.operationID;
    RecordSound(c, s, id);
    RunningIsClean(c, id, s.ops[id]);
  }

  lemma RunningIsClean(c: Setup, id: string, record: Record)
    requires WellFormed(c, id, record)
    ensures record.status.state == Running ==>
              record.status.error == None && record.status.result == None && record.downloadPath == ""
  {
    hide ValidRequest, StateFile, ConfigurationFile, Fixed;
  }

  /** A cancellation is final: from then on the operation is canceled, and it is never started again. */
  lemma CancelIsFinal(c: Setup, states: seq<Srv>, events: seq<Event>, k: nat, j: nat, id: string)
    requires History(c, states, events) && k < |events| && k < j < |states| && events[k] == Cancel(id)
        && id in states[k].ops
    ensures id in states[j].ops && states[j].ops[id].status.state == Canceled
    ensures j < |events| && events[j].Run? && events[j].id == id ==> states[j + 1] == states[j]
  {
    hide Consistent, History, Next, Enabled, Fixed;
    HistoryAt(c, states, events, k);
    CancelStep(c, states[k], id);
    RecordsLast(c, states, events, k + 1, j, id);
    if j < |events| && events[j].Run? && events[j].id == id {
      HistoryAt(c, states, events, j);
      CanceledStaysPut(c, states[j], events[j]);
    }
  }

  lemma CancelStep(c: Setup, s: Srv, id: string)
    requires id in s.ops && Enabled(s, Cancel(id))
    ensures var t := Next(c, s, Cancel(id)); id in t.ops && t.ops[id].status.state == Canceled
  {
  }

  lemma CanceledStaysPut(c: Setup, s: Srv, e: Event)
    requires e.Run? && Enabled(s, e) && e.id in s.ops && s.ops[e.id].status.state == Canceled
    ensures Next(c, s, e) == s
  {
    hide Start;
  }

  // ----- what lasts -----

  /** How a record may change over any number of steps. */
  predicate Lasting(a: Record, b: Record) {
    && a.form == b.form
    && Fixed(a.request) == Fixed(b.request)
    && (a.statePath != "" ==> b.statePath == a.statePath)
    && NotEarlier(a.request.deadline, b.request.deadline)
    && (b.status.state == Pending ==> a.status.state == Pending)
    && (a.status.state == Canceled ==> b.status.state == Canceled)
    && (a.status.state == Succeeded ==> b.status.state == Succeeded || b.status.state == Canceled)
    && b.status.ui == a.status.ui && b.status.operationID == a.status.operationID
    && (a.status.state == Succeeded || a.status.state == Canceled ==>
          b.status == a.status.(state := b.status.state) && b.downloadPath == a.downloadPath)
    && (a.status.state != Pending ==>
          a.request.(deadline := None) == b.request.(deadline := None) && a.configurationPath == b.configurationPath)
  }

  lemma LastingItself(a: Record)
    ensures Lasting(a, a)
  {
  }

  lemma LastingStep(a: Record, b: Record, d: Record)
    requires Lasting(a, b) && Evolves(b, d)
    ensures Lasting(a, d)
  {
    hide Fixed;
  }

  lemma RecordStep(c: Setup, s: Srv, e: Event, id: string)
    requires Consistent(c, s) && Enabled(s, e) && id in s.ops
    ensures id in Next(c, s, e).ops && Evolves(s.ops[id], Next(c, s, e).ops[id])
  {
    hide Consistent, Next, WellFormed, Evolves;
    StepSound(c, s, e);
    Reflexive(s.ops[id]);
  }

  /** Operations are never forgotten. Their canonical request stays, deadlines only move later, pending is
      never entered again, canceled is never left, and what was selected stays once pending is left. */
  lemma {:induction false} RecordsLast(c: Setup, states: seq<Srv>, events: seq<Event>, i: nat, j: nat, id: string)
    requires History(c, states, events) && i <= j < |states| && id in states[i].ops
    ensures id in states[j].ops && Lasting(states[i].ops[id], states[j].ops[id])
    decreases j - i
  {
    hide *;
    LastingItself(states[i].ops[id]);
    if i < j {
      HistoryLength(c, states, events);
      HistoryAt(c, states, events, j - 1);
      RecordsLast(c, states, events, i, j - 1, id);
      ConsistentAlways(c, states, events, j - 1);
      RecordStep(c, states[j - 1], events[j - 1], id);
      LastingStep(states[i].ops[id], states[j - 1].ops[id], states[j].ops[id]);
    }
  }

  /** No record holds configuration bytes; only bootstrap restores have a staged configuration; what was
      started is complete; errors and results go with the states they belong to. */
  lemma RecordsAreWellFormed(c: Setup, states: seq<Srv>, events: seq<Event>, k: nat, id: string)
    requires History(c, states, events) && k < |states| && id in states[k].ops
    ensures var record := states[k].ops[id];
            var state := record.status.state;
            && record.request.operationID == id && record.request.configuration == []
            && (record.configurationPath != "" ==> IsBootstrapRestore(record.request))
            && (Started(state) && record.request.operation == Backup ==> record.statePath != "")
            && (Started(state) && IsBootstrapRestore(record.request) ==>
                  record.request.recoveryPointID != "" && record.configurationPath != "")
            && (state == Failed ==> record.status.error.Some?)
            && (record.status.error.Some? ==> state == Failed || state == Canceled)
            && (record.status.result.Some? ==> state == Succeeded || state == Canceled)
  {
    hide Consistent, History, Records, ValidRequest, StateFile, ConfigurationFile, Fixed;
    ConsistentAlways(c, states, events, k);
    ConsistentParts(c, states[k]);
    RecordSound(c, states[k], id);
  }

  // ----- creation -----

  /** The create that is looking for its ID the second time never finds it, and settings are only ever
      accepted for an ID without a record. */
  lemma CreatingIsNew(c: Setup, states: seq<Srv>, events: seq<Event>, k: nat)
    requires History(c, states, events) && k < |events| && (events[k].AcceptSettings? || events[k].CreateInsert?)
    ensures states[k].creating.Some? && states[k].creating.value.request.operationID !in states[k].ops
  {
    hide Consistent, History, Records, Flights, Uploads, Next;
    HistoryAt(c, states, events, k);
    ConsistentAlways(c, states, events, k);
    ConsistentParts(c, states[k]);
  }

  function AnswerAt(c: Setup, states: seq<Srv>, events: seq<Event>, k: nat): Answer
    requires History(c, states, events) && k < |events|
  {
    Apply(c, states[k], events[k]).1
  }

  /** One create, from its first lookup at step `i` to its insertion at step `j`. */
  predicate OneCreate(c: Setup, states: seq<Srv>, events: seq<Event>, i: nat, j: nat) {
    && History(c, states, events) && i < j < |events|
    && events[i].CreateBegin? && events[j].CreateInsert?
    && forall m :: i < m <= j ==> states[m].creating.Some?
  }

  lemma CreatingStep(c: Setup, s: Srv, e: Event)
    requires Consistent(c, s) && Enabled(s, e) && s.creating.Some? && Next(c, s, e).creating.Some?
    ensures var a, b := s.creating.value, Next(c, s, e).creating.value;
            a.form == b.form && a.request.operationID == b.request.operationID && a.attemptTimeout == b.attemptTimeout
            && (b.request == a.request || (e == AcceptSettings(Taken) && b.request == a.request.(configuration := [])))
  {
    hide Consistent, Begin, Commit, Launch, Report, Land, Stop, Choose, Shape, SameFlights, Takeoff, Landing;
    StepSound(c, s, e);
  }

  lemma {:induction false} CreatingForm(c: Setup, states: seq<Srv>, events: seq<Event>, i: nat, j: nat, m: nat)
    requires OneCreate(c, states, events, i, j) && i < m <= j
    ensures states[m].creating.value.form == CanonicalRequest(events[i].request)
    ensures states[m].creating.value.request.operationID == events[i].request.operationID
    ensures events[i].request.operationID !in states[i].ops
  {
    hide Consistent, History, Next, Enabled, CanonicalRequest;
    HistoryAt(c, states, events, m - 1);
    ConsistentAlways(c, states, events, m - 1);
    if m == i + 1 {
      BeginsWith(c, states[i], events[i]);
    } else {
      CreatingForm(c, states, events, i, j, m - 1);
      CreatingStep(c, states[m - 1], events[m - 1]);
    }
  }

  lemma BeginsWith(c: Setup, s: Srv, e: Event)
    requires Enabled(s, e) && e.CreateBegin? && Next(c, s, e).creating.Some?
    ensures Next(c, s, e).creating.value.form == CanonicalRequest(e.request)
    ensures Next(c, s, e).creating.value.request.operationID == e.request.operationID && e.request.operationID !in s.ops
  {
    hide ValidRequest, Later;
  }

  lemma InsertKeepsForm(c: Setup, s: Srv, e: Event)
    requires Enabled(s, e) && e.CreateInsert? && s.creating.value.request.operationID !in s.ops
    requires Apply(c, s, e).1.Replies? && Apply(c, s, e).1.code == 201
    ensures var id := s.creating.value.request.operationID;
            id in Next(c, s, e).ops && Next(c, s, e).ops[id].form == s.creating.value.form
  {
    hide Stages;
  }

  /** A deadline later than the one there is, or the first, replaces it, and attempts get the time that is left for
      it; nothing else changes. */
  predicate ExtendedBy(s: Srv, t: Srv, id: string, deadline: Option<int>, now: int)
    requires id in s.ops
  {
    var a := s.ops[id];
    var d := if deadline.Some? && (a.request.deadline.Some? ==> deadline.value > a.request.deadline.value)
      then deadline else a.request.deadline;
    var timeout := if d == a.request.deadline then a.attemptTimeout else d.value - now;
    t == s.(ops := s.ops[id := a.(request := a.request.(deadline := d), attemptTimeout := timeout)])
  }

  lemma RepeatedCreate(c: Setup, s: Srv, e: Event)
    requires Enabled(s, e) && e.CreateBegin? && e.request.operationID in s.ops
    requires ValidRequest(e.request, c.isObject) && InTime(e.request, e.now)
    ensures Apply(c, s, e).1 == if s.ops[e.request.operationID].form == CanonicalRequest(e.request)
                                then Replies(200, Some(s.ops[e.request.operationID].status), "")
                                else Replies(409, None, "operation_conflict")
    ensures s.ops[e.request.operationID].form != CanonicalRequest(e.request) ==> Next(c, s, e) == s
    ensures s.ops[e.request.operationID].form == CanonicalRequest(e.request) ==>
              ExtendedBy(s, Next(c, s, e), e.request.operationID, e.request.deadline, e.now)
  {
    hide ValidRequest, CanonicalRequest;
  }

  /** An ID keeps the request of its first successful create for ever: a later valid create of that ID is
      answered 200 exactly when it asks for the same apart from the deadline, and otherwise conflicts and
      changes nothing. */
  lemma FirstRequestStays(c: Setup, states: seq<Srv>, events: seq<Event>, i: nat, j: nat, k: nat)
    requires OneCreate(c, states, events, i, j) && j < k < |events| && events[k].CreateBegin?
    requires AnswerAt(c, states, events, j).Replies? && AnswerAt(c, states, events, j).code == 201
    requires events[k].request.operationID == events[i].request.operationID
    requires ValidRequest(events[k].request, c.isObject) && InTime(events[k].request, events[k].now)
    ensures AnswerAt(c, states, events, k).Replies?
    ensures var same := events[k].request.(deadline := None) == events[i].request.(deadline := None);
            var (r, s, answer) := (events[k].request, states[k], AnswerAt(c, states, events, k));
            && answer.code == (if same then 200 else 409)
            && (!same ==> states[k + 1] == s)
            && r.operationID in s.ops
            && (same ==> answer.status == Some(s.ops[r.operationID].status))
            && (same ==> ExtendedBy(s, states[k + 1], r.operationID, r.deadline, events[k].now))
  {
    hide Consistent, History, Next, Enabled, CanonicalRequest, Apply, ValidRequest, InTime, Fixed;
    var id := events[i].request.operationID;
    CreatingForm(c, states, events, i, j, j);
    CreatingIsNew(c, states, events, j);
    HistoryAt(c, states, events, j);
    InsertKeepsForm(c, states[j], events[j]);
    RecordsLast(c, states, events, j + 1, k, id);
    HistoryAt(c, states, events, k);
    RepeatedCreate(c, states[k], events[k]);
    CanonicalFormsAgree(events[k].request, events[i].request);
  }

  lemma {:induction false} TakenStays(c: Setup, states: seq<Srv>, events: seq<Event>, i: nat, j: nat, m: nat, n: nat)
    requires OneCreate(c, states, events, i, j) && i < m < n <= j && events[m] == AcceptSettings(Taken)
    ensures states[n].creating.value.request.configuration == []
  {
    hide Consistent, History, Next, Enabled;
    HistoryAt(c, states, events, n - 1);
    ConsistentAlways(c, states, events, n - 1);
    if n == m + 1 {
      TakenClears(c, states[m], events[m]);
    } else {
      TakenStays(c, states, events, i, j, m, n - 1);
      CreatingStep(c, states[n - 1], events[n - 1]);
    }
  }

  lemma TakenClears(c: Setup, s: Srv, e: Event)
    requires Enabled(s, e) && e == AcceptSettings(Taken)
    ensures Next(c, s, e).creating.Some? && Next(c, s, e).creating.value.request.configuration == []
  {
  }

  /** Once restore settings have been accepted, the same create always ends with the new operation. */
  lemma AcceptedSettingsCreate(c: Setup, states: seq<Srv>, events: seq<Event>, i: nat, j: nat, m: nat)
    requires OneCreate(c, states, events, i, j) && i < m < j && events[m] == AcceptSettings(Taken)
    ensures AnswerAt(c, states, events, j).Replies? && AnswerAt(c, states, events, j).code == 201
    ensures events[i].request.operationID in states[j + 1].ops && events[i].request.operationID !in states[j].ops
  {
    hide Consistent, History, Next, CanonicalRequest, InTime, Fixed;
    TakenStays(c, states, events, i, j, m, j);
    CreatingForm(c, states, events, i, j, j);
    CreatingIsNew(c, states, events, j);
    HistoryAt(c, states, events, j);
    InsertsWithoutStaging(c, states[j], events[j]);
  }

  lemma InsertsWithoutStaging(c: Setup, s: Srv, e: Event)
    requires Enabled(s, e) && e.CreateInsert? && s.creating.value.request.operationID !in s.ops
    requires s.creating.value.request.configuration == []
    ensures Apply(c, s, e).1.Replies? && Apply(c, s, e).1.code == 201
    ensures s.creating.value.request.operationID in Next(c, s, e).ops
  {
  }

  lemma {:induction false} NeedsUntilTaken(c: Setup, states: seq<Srv>, events: seq<Event>, i: nat, j: nat, m: nat)
    requires OneCreate(c, states, events, i, j) && i < m <= j
    requires forall n :: i < n < m ==> events[n] != AcceptSettings(Taken)
    ensures states[m].creating.value.request == events[i].request
  {
    hide Consistent, History, Next, Enabled;
    HistoryAt(c, states, events, m - 1);
    ConsistentAlways(c, states, events, m - 1);
    if m == i + 1 {
      BeginsWhole(c, states[i], events[i]);
    } else {
      NeedsUntilTaken(c, states, events, i, j, m - 1);
      CreatingStep(c, states[m - 1], events[m - 1]);
    }
  }

  lemma BeginsWhole(c: Setup, s: Srv, e: Event)
    requires Enabled(s, e) && e.CreateBegin? && Next(c, s, e).creating.Some?
    ensures Next(c, s, e).creating.value.request == e.request
  {
    hide ValidRequest, Later;
  }

  lemma InsertNeedsNothing(s: Srv, e: Event)
    requires Enabled(s, e) && e.CreateInsert?
    ensures !NeedsSettings(s.creating.value.request)
  {
  }

  /** An in-cluster restore that brings its configuration is only acknowledged after the settings have been
      taken, so that the sender may then delete its copy. */
  lemma AcknowledgedAfterSettings(c: Setup, states: seq<Srv>, events: seq<Event>, i: nat, j: nat)
    requires OneCreate(c, states, events, i, j)
    requires var r := events[i].request; r.operation == Restore && r.phase == InCluster && r.configuration != []
    ensures exists m :: i < m < j && events[m] == AcceptSettings(Taken)
  {
    hide History, Enabled, Next;
    if forall m :: i < m < j ==> events[m] != AcceptSettings(Taken) {
      NeedsUntilTaken(c, states, events, i, j, j);
      HistoryAt(c, states, events, j);
      InsertNeedsNothing(states[j], events[j]);
      assert false;
    }
  }

  // ----- files -----

  lemma {:induction false} ApartBefore(c: Setup, states: seq<Srv>, events: seq<Event>, k: nat, j: nat)
    requires History(c, states, events) && k <= j < |states| && Apart(states[j].ops.Keys)
    ensures Apart(states[k].ops.Keys)
  {
    hide History, Lasting, SharesDirectory;
    forall id | id in states[k].ops ensures id in states[j].ops {
      RecordsLast(c, states, events, k, j, id);
    }
  }

  lemma NoFiles(c: Setup, s: Srv)
    requires s.ops == map[] && s.uploads == map[] && s.flights == map[]
    ensures Files(c, s)
  {
  }

  lemma {:induction false} FilesAlways(c: Setup, states: seq<Srv>, events: seq<Event>, k: nat)
    requires History(c, states, events) && k < |states| && Apart(states[k].ops.Keys)
    ensures Files(c, states[k])
  {
    if k == 0 {
      NoFiles(c, states[0]);
    } else {
      hide Consistent, History, Next, Enabled, Files, Apart;
      HistoryAt(c, states, events, k - 1);
      ConsistentAlways(c, states, events, k - 1);
      ApartBefore(c, states, events, k - 1, k);
      FilesAlways(c, states, events, k - 1);
      FilesStep(c, states[k - 1], events[k - 1]);
    }
  }

  /** Whenever a backup has a state archive, the file has exactly the size and the digest that its request
      promised, whichever of several racing uploads put it there. */
  lemma ArchiveIntegrity(c: Setup, states: seq<Srv>, events: seq<Event>, k: nat, id: string)
    requires History(c, states, events) && k < |states| && Apart(states[k].ops.Keys)
    requires id in states[k].ops && states[k].ops[id].statePath != ""
    ensures states[k].ops[id].statePath == StateFile(c.root, id)
    ensures states[k].ops[id].request.stateArchive.Some?
    ensures StatesMatch(c, states[k].files, id, states[k].ops[id].request.stateArchive.value)
  {
    hide Consistent, History, Records, ValidRequest, StateFile, ConfigurationFile, Fixed, StatesMatch, Apart;
    FilesAlways(c, states, events, k);
    ConsistentAlways(c, states, events, k);
    ConsistentParts(c, states[k]);
    RecordSound(c, states[k], id);
  }

  /** The uploaded archive of an operation never changes. */
  lemma ArchiveNeverChanges(c: Setup, states: seq<Srv>, events: seq<Event>, i: nat, j: nat, id: string)
    requires History(c, states, events) && i <= j < |states| && Apart(states[j].ops.Keys)
    requires id in states[i].ops && states[i].ops[id].statePath != ""
    ensures StateFile(c.root, id) in states[i].files && StateFile(c.root, id) in states[j].files
    ensures states[i].files[StateFile(c.root, id)] == states[j].files[StateFile(c.root, id)]
  {
    hide Consistent, History, StateFile, Fixed, Apart, Matches;
    ApartBefore(c, states, events, i, j);
    RecordsLast(c, states, events, i, j, id);
    ArchiveIntegrity(c, states, events, i, id);
    ArchiveIntegrity(c, states, events, j, id);
    SameArchive(states[i].ops[id].request, states[j].ops[id].request);
    OneContent(states[i].files[StateFile(c.root, id)], states[j].files[StateFile(c.root, id)],
               states[i].ops[id].request.stateArchive.value);
  }

  /** All executions of one backup operation, retries too, are started on the same archive. */
  lemma RetriesGetOneArchive(c: Setup, states: seq<Srv>, events: seq<Event>, i: nat, j: nat, f: nat, g: nat)
    requires History(c, states, events) && i <= j < |states| && Apart(states[j].ops.Keys)
    requires f in states[i].flights && g in states[j].flights
    requires states[i].flights[f].operation.operation == Backup && states[j].flights[g].operation.operation == Backup
    requires states[i].flights[f].operation.operationID == states[j].flights[g].operation.operationID
    ensures FileAt(states[i].files, states[i].flights[f].statePath).Some?
    ensures FileAt(states[i].files, states[i].flights[f].statePath)
         == FileAt(states[j].files, states[j].flights[g].statePath)
  {
    hide Consistent, History, StateFile, Apart;
    ConsistentAlways(c, states, events, i);
    ConsistentAlways(c, states, events, j);
    FlownArchive(c, states[i], f);
    FlownArchive(c, states[j], g);
    ArchiveNeverChanges(c, states, events, i, j, states[i].flights[f].operation.operationID);
  }

  lemma FlownArchive(c: Setup, s: Srv, f: nat)
    requires Consistent(c, s) && f in s.flights && s.flights[f].operation.operation == Backup
    ensures var id := s.flights[f].operation.operationID;
            && id in s.ops && s.ops[id].statePath != ""
            && s.flights[f].statePath == s.ops[id].statePath == StateFile(c.root, id)
  {
    hide Records, Uploads, Creates, StateFile, Fixed;
    FlightFacts(c, s, f);
  }

  /** The archive of an operation is the body of any upload that was accepted for it. */
  lemma AcceptedBodyIsTheArchive(c: Setup, states: seq<Srv>, events: seq<Event>, k: nat, j: nat, id: string)
    requires History(c, states, events) && k < |events| && k <= j < |states| && Apart(states[j].ops.Keys)
    requires events[k].UploadBody? && events[k].upload in states[k].uploads
    requires states[k].uploads[events[k].upload].id == id && AnswerAt(c, states, events, k) == Continues
    requires id in states[j].ops && states[j].ops[id].statePath != ""
    ensures FileAt(states[j].files, StateFile(c.root, id)) == Some(events[k].body)
  {
    hide Consistent, History, StateFile, Apart, Fixed, Matches, Next, Enabled;
    HistoryAt(c, states, events, k);
    ConsistentAlways(c, states, events, k);
    AnswerIs(c, states, events, k);
    AcceptedMatches(c, states[k], events[k]);
    RecordsLast(c, states, events, k, j, id);
    SameArchive(states[k].ops[id].request, states[j].ops[id].request);
    ArchiveIntegrity(c, states, events, j, id);
    OneContent(events[k].body, states[j].files[StateFile(c.root, id)], states[j].ops[id].request.stateArchive.value);
  }

  lemma AcceptedMatches(c: Setup, s: Srv, e: Event)
    requires Consistent(c, s) && e.UploadBody? && Enabled(s, e) && Apply(c, s, e).1 == Continues
    ensures var id := s.uploads[e.upload].id;
            && id in s.ops && s.ops[id].request.stateArchive.Some?
            && Matches(e.body, s.ops[id].request.stateArchive.value)
  {
    hide Records, Flights, Creates;
    UploadFacts(s, e.upload);
    var content := Limited(e.body, s.uploads[e.upload].descriptor);
    assert content == e.body;
  }

  lemma SameArchive(a: Request, b: Request)
    requires Fixed(a) == Fixed(b)
    ensures a.stateArchive == b.stateArchive
  {
    assert Fixed(a).stateArchive == a.stateArchive && Fixed(b).stateArchive == b.stateArchive;
  }

  lemma CommittedStep(c: Setup, s: Srv, e: Event, id: string)
    requires Consistent(c, s) && Enabled(s, e) && Apart(Next(c, s, e).ops.Keys)
    requires id in s.ops && IsBootstrapRestore(s.ops[id].request) && s.ops[id].status.state != Pending
    ensures var path := ConfigurationFile(c.root, id); FileAt(Next(c, s, e).files, path) == FileAt(s.files, path)
  {
    hide *;
    StepKeepsIDs(c, s, e);
    var w := Write(c, s, e);
    if w.Some? && w.value.id == id {
      OnlyWritten(c, s, e);
      ConsistentParts(c, s);
      IDsAccepted(c, s, id);
      FilesApart(c.root, id, id);
      WrittenArchive(c, s, e, id);
      StoreElsewhere(s.files, w.value, ConfigurationFile(c.root, id));
    } else {
      OthersKept(c, s, e, id);
    }
  }

  /** An operation that is no longer pending can only be written an archive. */
  lemma WrittenArchive(c: Setup, s: Srv, e: Event, id: string)
    requires Enabled(s, e) && Write(c, s, e).Some? && Write(c, s, e).value.id == id
    requires id in s.ops && s.ops[id].status.state != Pending
    ensures Write(c, s, e).value.path == StateFile(c.root, id)
  {
    hide ValidRequest, StateFile, ConfigurationFile, Stages;
  }

  lemma {:induction false} ConfigurationStays(c: Setup, states: seq<Srv>, events: seq<Event>, i: nat, j: nat,
      id: string)
    requires History(c, states, events) && i <= j < |states| && Apart(states[j].ops.Keys)
    requires id in states[i].ops && IsBootstrapRestore(states[i].ops[id].request)
        && states[i].ops[id].status.state != Pending
    ensures var path := ConfigurationFile(c.root, id); FileAt(states[j].files, path) == FileAt(states[i].files, path)
    decreases j - i
  {
    if i < j {
      hide Consistent, History, Next, Enabled, Fixed, Apart, ConfigurationFile;
      ApartBefore(c, states, events, j - 1, j);
      ConfigurationStays(c, states, events, i, j - 1, id);
      RecordsLast(c, states, events, i, j - 1, id);
      HistoryAt(c, states, events, j - 1);
      ConsistentAlways(c, states, events, j - 1);
      SameKind(states[i].ops[id].request, states[j - 1].ops[id].request);
      CommittedStep(c, states[j - 1], events[j - 1], id);
    }
  }

  lemma SameKind(a: Request, b: Request)
    requires Fixed(a) == Fixed(b)
    ensures IsBootstrapRestore(a) == IsBootstrapRestore(b)
  {
    assert Fixed(a).operation == a.operation && Fixed(b).operation == b.operation;
    assert Fixed(a).phase == a.phase && Fixed(b).phase == b.phase;
  }

  /** Once a bootstrap restore has left pending, its recovery point and its staged configuration never change,
      whatever selections race with it. */
  lemma SelectionIsCommitted(c: Setup, states: seq<Srv>, events: seq<Event>, i: nat, j: nat, id: string)
    requires History(c, states, events) && i <= j < |states| && Apart(states[j].ops.Keys)
    requires id in states[i].ops && IsBootstrapRestore(states[i].ops[id].request)
        && states[i].ops[id].status.state != Pending
    ensures id in states[j].ops
    ensures states[j].ops[id].request.recoveryPointID == states[i].ops[id].request.recoveryPointID
    ensures states[j].ops[id].configurationPath == states[i].ops[id].configurationPath
    ensures var path := ConfigurationFile(c.root, id); FileAt(states[j].files, path) == FileAt(states[i].files, path)
  {
    hide History, Apart, ConfigurationFile, Fixed, IsBootstrapRestore;
    ConfigurationStays(c, states, events, i, j, id);
    RecordsLast(c, states, events, i, j, id);
    var a, b := states[i].ops[id].request, states[j].ops[id].request;
    assert a.(deadline := None).recoveryPointID == b.(deadline := None).recoveryPointID;
  }

  /** A configuration downloaded after success is exactly what the successful execution received, for the
      recovery point that it restored. */
  lemma DownloadIsWhatRan(c: Setup, states: seq<Srv>, events: seq<Event>, i: nat, j: nat, id: string)
    requires History(c, states, events) && i < j < |states| && Apart(states[j].ops.Keys)
    requires i < |events| && events[i].Finish? && events[i].outcome.Success? && events[i].flight in states[i].flights
    requires states[i].flights[events[i].flight].operation.operationID == id
    requires IsBootstrapRestore(states[i].flights[events[i].flight].operation)
    requires id in states[j].ops && states[j].ops[id].status.state == Succeeded
    ensures var ran := states[i].flights[events[i].flight].operation;
            && Download(c, states[j], id, true) == Some(ran.configuration)
            && states[j].ops[id].request.recoveryPointID == ran.recoveryPointID
  {
    hide Consistent, History, Apart, ConfigurationFile, Fixed, Next, Enabled, Files, Download, FileSound,
      FlightSound, FlightFile;
    HistoryAt(c, states, events, i);
    ConsistentAlways(c, states, events, i);
    ConsistentAlways(c, states, events, j);
    ApartBefore(c, states, events, i, j);
    FilesAlways(c, states, events, i);
    FilesAlways(c, states, events, j);
    FlightHasRecord(c, states[i], events[i].flight);
    RecordsLast(c, states, events, i, j, id);
    SelectionIsCommitted(c, states, events, i, j, id);
    FlownConfiguration(c, states[i], events[i].flight);
    DownloadReads(c, states[j], id);
  }

  lemma FlightHasRecord(c: Setup, s: Srv, f: nat)
    requires Consistent(c, s) && f in s.flights
    ensures var r := s.flights[f].operation;
            && r.operationID in s.ops && s.ops[r.operationID].status.state != Pending
            && s.ops[r.operationID].request.recoveryPointID == r.recoveryPointID
            && IsBootstrapRestore(s.ops[r.operationID].request) == IsBootstrapRestore(r)
  {
    hide Records, Uploads, Creates;
    FlightFacts(c, s, f);
    var r := s.flights[f].operation;
    var record := s.ops[r.operationID];
    assert r.(deadline := None, configuration := []).recoveryPointID
      == record.request.(deadline := None).recoveryPointID;
    assert r.(deadline := None, configuration := []).operation == record.request.(deadline := None).operation;
    assert r.(deadline := None, configuration := []).phase == record.request.(deadline := None).phase;
  }

  lemma FlownConfiguration(c: Setup, s: Srv, f: nat)
    requires Files(c, s) && f in s.flights && IsBootstrapRestore(s.flights[f].operation)
    ensures FileAt(s.files, ConfigurationFile(c.root, s.flights[f].operation.operationID))
        == Some(s.flights[f].operation.configuration)
  {
    hide ConfigurationFile, FileSound, UploadFile;
    assert FlightFile(c, s.files, s.flights[f]);
  }

  lemma DownloadReads(c: Setup, s: Srv, id: string)
    requires Consistent(c, s) && Files(c, s)
    requires id in s.ops && IsBootstrapRestore(s.ops[id].request) && s.ops[id].status.state == Succeeded
    ensures Download(c, s, id, true) == FileAt(s.files, ConfigurationFile(c.root, id))
    ensures Download(c, s, id, true).Some?
  {
    hide ConfigurationFile, StateFile, UploadFile, FlightFile, Flights, Uploads, Creates, ValidRequest, Fixed;
    assert WellFormed(c, id, s.ops[id]);
    assert FileSound(c, s.files, id, s.ops[id]);
  }

  /** An operation that `Execute` can carry out: one of the three kinds, with all that its workflow needs. */
  predicate Executable(c: Setup, flight: Flight) {
    var o := flight.operation;
    && Accepted(o.operationID)
    && (|| (o.operation == Backup && o.phase == InCluster && o.backupPolicy.Some? && flight.statePath != ""
      && o.configuration == [])
        || (o.operation == Restore && o.phase == Bootstrap && o.recoveryPointID != "" && Usable(c, o.configuration))
        || (o.operation == Restore && o.phase == InCluster && o.recoveryPointID != "" && o.configuration == []))
  }

  /** Every execution is started with a supported operation and all that its workflow needs. */
  lemma ExecutionsAreExecutable(c: Setup, states: seq<Srv>, events: seq<Event>, k: nat, f: nat)
    requires History(c, states, events) && k < |states| && Apart(states[k].ops.Keys) && f in states[k].flights
    ensures Executable(c, states[k].flights[f])
  {
    hide *;
    FilesAlways(c, states, events, k);
    ConsistentAlways(c, states, events, k);
    FlightIsExecutable(c, states[k], f);
  }

  lemma FlightIsExecutable(c: Setup, s: Srv, f: nat)
    requires Consistent(c, s) && Files(c, s) && f in s.flights
    ensures Executable(c, s.flights[f])
  {
    hide Uploads, Creates, Flights, Records, StateFile, ConfigurationFile, Usable, Accepted, UploadFile, Fixed,
      ValidRequest, Matches;
    ConsistentParts(c, s);
    FlightFacts(c, s, f);
    var flight := s.flights[f];
    var id := flight.operation.operationID;
    var r := s.ops[id].request;
    RecordSound(c, s, id);
    ValidStays(r, c.isObject);
    FlightAsks(flight.operation, r);
    assert FileSound(c, s.files, id, s.ops[id]) && FlightFile(c, s.files, flight);
    assert r.operation == Backup ==> flight.statePath != "" by { FilesApart(c.root, id, id); }
    ValidRestore(r, c.isObject);
  }

  lemma ValidRestore(r: Request, isObject: Bytes -> bool)
    requires ValidRequest(r, isObject)
    ensures r.phase == Bootstrap || r.phase == InCluster
    ensures r.operation == Backup ==> r.phase == InCluster && r.backupPolicy.Some?
    ensures r.operation == Restore && r.phase == InCluster ==> r.recoveryPointID != ""
  {
  }

  lemma FlightAsks(a: Request, b: Request)
    requires a.(deadline := None, configuration := []) == b.(deadline := None)
    ensures a.operationID == b.operationID && a.operation == b.operation && a.phase == b.phase
    ensures a.recoveryPointID == b.recoveryPointID && a.backupPolicy == b.backupPolicy
  {
    var x, y := a.(deadline := None, configuration := []), b.(deadline := None);
    assert x.operationID == a.operationID && x.operation == a.operation && x.phase == a.phase;
    assert y.operationID == b.operationID && y.operation == b.operation && y.phase == b.phase;
    assert x.recoveryPointID == a.recoveryPointID && x.backupPolicy == a.backupPolicy;
    assert y.recoveryPointID == b.recoveryPointID && y.backupPolicy == b.backupPolicy;
  }

  // ----- runs -----

  /** A run request starts an execution exactly when the operation is pending or failed, has what it needs, and
      its configuration can be read if it has one; the staged configuration itself is never at fault. */
  lemma RunStartsExactly(c: Setup, states: seq<Srv>, events: seq<Event>, k: nat)
    requires History(c, states, events) && k < |events| && Apart(states[k].ops.Keys)
    requires events[k].Run? && events[k].id in states[k].ops
    ensures var s, t, id := states[k], states[k + 1], events[k].id;
            var starts := Launchable(s.ops[id]) && (IsBootstrapRestore(s.ops[id].request) ==> events[k].readable);
            && id in t.ops
            && (starts ==> t.ops[id].status.state == Running && Executing(s, id) == {} && Executing(t, id) == {s.next})
            && (!starts ==> t.flights == s.flights)
            && (starts <==> AnswerAt(c, states, events, k).Replies? && AnswerAt(c, states, events, k).code == 202)
  {
    hide *;
    HistoryLength(c, states, events);
    FilesAlways(c, states, events, k);
    ConsistentAlways(c, states, events, k);
    HistoryAt(c, states, events, k);
    AnswerIs(c, states, events, k);
    RunStep(c, states[k], events[k]);
  }

  lemma AnswerIs(c: Setup, states: seq<Srv>, events: seq<Event>, k: nat)
    requires History(c, states, events) && k < |events|
    ensures Enabled(states[k], events[k]) && AnswerAt(c, states, events, k) == Apply(c, states[k], events[k]).1
  {
    HistoryAt(c, states, events, k);
  }

  lemma RunStep(c: Setup, s: Srv, e: Event)
    requires Consistent(c, s) && Files(c, s) && e.Run? && Enabled(s, e) && e.id in s.ops
    ensures var t, id := Next(c, s, e), e.id;
            var starts := Launchable(s.ops[id]) && (IsBootstrapRestore(s.ops[id].request) ==> e.readable);
            && id in t.ops
            && (starts ==> t.ops[id].status.state == Running && Executing(s, id) == {} && Executing(t, id) == {s.next})
            && (!starts ==> t.flights == s.flights)
            && (starts <==> Apply(c, s, e).1.Replies? && Apply(c, s, e).1.code == 202)
  {
    hide Uploads, Creates, Flights, Records, Files, Executing, Launched, Grounded, Assignment, ReadConfiguration;
    ConsistentParts(c, s);
    OneExecution(c, s, e.id);
    if Launchable(s.ops[e.id]) {
      StagedIsReadable(c, s, e.id, e.readable);
      StartedState(s.ops[e.id]);
      AssignmentID(c, s, e.id, ReadConfiguration(s.files, s.ops[e.id].configurationPath, e.readable));
      if IsBootstrapRestore(s.ops[e.id].request) ==> e.readable {
        OneMoreFlight(c, s, Next(c, s, e), e.id);
      }
    }
  }

  lemma StartedState(record: Record)
    ensures Launched(record).status.state == Running && Grounded(record).status.state == Failed
  {
  }

  lemma AssignmentID(c: Setup, s: Srv, id: string, configuration: Option<Bytes>)
    requires Records(c, s) && id in s.ops
    ensures Assignment(s.ops[id], configuration).operationID == id
  {
    RecordID(c, s, id);
  }

  lemma OneMoreFlight(c: Setup, s: Srv, t: Srv, id: string)
    requires Flights(c, s) && Executing(s, id) == {} && s.next in t.flights
        && t.flights[s.next].operation.operationID == id
    requires t.flights == s.flights[s.next := t.flights[s.next]]
    ensures Executing(t, id) == {s.next}
  {
    hide Flights;
    assert forall f :: f in Executing(t, id) && f != s.next ==> f in Executing(s, id);
    assert s.next in Executing(t, id);
  }

  /** What a bootstrap restore has staged can be read whenever the file can. */
  lemma StagedIsReadable(c: Setup, s: Srv, id: string, readable: bool)
    requires Records(c, s) && Files(c, s) && id in s.ops && Launchable(s.ops[id])
    ensures s.ops[id].request.phase == Bootstrap <==> IsBootstrapRestore(s.ops[id].request)
    ensures IsBootstrapRestore(s.ops[id].request) ==>
              (ReadConfiguration(s.files, s.ops[id].configurationPath, readable).Some? <==> readable)
  {
    hide UploadFile, FlightFile, ValidRequest, StateFile, ConfigurationFile, Fixed;
    assert WellFormed(c, id, s.ops[id]) && FileSound(c, s.files, id, s.ops[id]);
    ValidStays(s.ops[id].request, c.isObject);
  }

  /** A selection that is accepted and then run executes with exactly the recovery point and the configuration
      that were selected. */
  lemma SelectionRuns(c: Setup, states: seq<Srv>, events: seq<Event>, k: nat)
    requires History(c, states, events) && k + 1 < |events|
    requires events[k].Select? && AnswerAt(c, states, events, k) == Continues
    requires events[k + 1] == Run(events[k].id, true)
    ensures var id, s, t := events[k].id, states[k + 1], states[k + 2];
            && id in t.ops && t.ops[id].status.state == Running && s.next in t.flights
            && t.flights[s.next].operation.operationID == id
            && t.flights[s.next].operation.recoveryPointID == events[k].recoveryPointID
            && t.flights[s.next].operation.configuration == events[k].configuration
  {
    hide *;
    HistoryLength(c, states, events);
    HistoryAt(c, states, events, k);
    HistoryAt(c, states, events, k + 1);
    AnswerIs(c, states, events, k);
    ConsistentAlways(c, states, events, k);
    ChosenRuns(c, states[k], events[k]);
  }

  lemma ChosenRuns(c: Setup, s: Srv, e: Event)
    requires Consistent(c, s) && e.Select? && Enabled(s, e) && Apply(c, s, e).1 == Continues
    ensures var t := Next(c, s, e);
            Enabled(t, Run(e.id, true)) &&
            var u := Next(c, t, Run(e.id, true));
            && e.id in u.ops && u.ops[e.id].status.state == Running && t.next in u.flights
            && u.flights[t.next].operation.operationID == e.id
            && u.flights[t.next].operation.recoveryPointID == e.recoveryPointID
            && u.flights[t.next].operation.configuration == e.configuration
  {
    hide Uploads, Creates, Flights, Records, ConfigurationFile, StateFile, ValidRequest, Start, WellFormed;
    ConsistentParts(c, s);
    var record := s.ops[e.id];
    RecordID(c, s, e.id);
    IDsAccepted(c, s, e.id);
    FilesApart(c.root, e.id, e.id);
    ValidStays(Selected(record.request, e.recoveryPointID, e.configuration), c.isObject);
    var t := Next(c, s, e);
    assert t.ops[e.id] == Chosen(c, record, e.id, e.recoveryPointID);
    assert Launch(t, e.id, true) == Start(t, e.id, true);
    StartsChosen(c, t, e.id, e.configuration);
  }

  lemma StartsChosen(c: Setup, t: Srv, id: string, configuration: Bytes)
    requires id in t.ops && t.ops[id].request.phase == Bootstrap && t.ops[id].request.operationID == id
    requires t.ops[id].configurationPath in t.files && t.files[t.ops[id].configurationPath] == configuration
    requires 0 < |configuration| <= MAX_CONFIGURATION_SIZE
    ensures var u := Start(t, id, true).0;
            && id in u.ops && u.ops[id].status.state == Running && t.next in u.flights
            && u.flights[t.next].operation == t.ops[id].request.(configuration := configuration)
  {
  }
}

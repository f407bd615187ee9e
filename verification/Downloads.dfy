/** What can be downloaded, and when, over whole runs of the server. */
module Downloads {
  import opened Wrappers
  import opened Recovery
  import opened Operations
  import opened OperationFiles
  import opened Server
  import opened ServerSafety
  import opened StagedFiles
  import opened OperationHistory

  /** At step `i` a running execution of `id` ends with success. */
  predicate Succeeds(states: seq<Srv>, events: seq<Event>, i: nat, id: string)
    requires |states| == |events| + 1
  {
    && i < |events| && events[i].Finish? && events[i].outcome.Success? && events[i].flight in states[i].flights
    && states[i].flights[events[i].flight].operation.operationID == id
    && id in states[i].ops && states[i].ops[id].status.state == Running
  }

  /** Only the successful end of a running execution makes an operation succeeded. */
  lemma SuccessStep(c: Setup, s: Srv, e: Event, t: Srv, id: string)
    requires id in t.ops && t.ops[id].status.state == Succeeded
    requires !(id in s.ops && s.ops[id].status.state == Succeeded)
    requires Consistent(c, s) && Enabled(s, e) && t == Next(c, s, e)
    ensures e.Finish? && e.outcome.Success? && e.flight in s.flights
    ensures s.flights[e.flight].operation.operationID == id
    ensures id in s.ops && s.ops[id].status.state == Running
  {
    hide *;
    StepSound(c, s, e);
    var x := Touched(s, e);
    if Landing(s, t, e, x) {
      LandingFacts(s, t, e, x);
      if id != x {
        OthersStay(c, s, t, x, id);
      }
      FinishStep(c, s, e);
      SuccessfulEnd(s, t, e.flight, e.outcome);
    } else {
      OnlyByLanding(c, s, t, x, id);
    }
  }

  /** Without the end of an execution nothing becomes succeeded. */
  lemma OnlyByLanding(c: Setup, s: Srv, t: Srv, x: string, id: string)
    requires Shape(c, s, t, x) && (SameFlights(s, t, x) || Takeoff(s, t, x))
    requires id in t.ops && t.ops[id].status.state == Succeeded
    ensures id in s.ops && s.ops[id].status.state == Succeeded
  {
    hide WellFormed, StatusEvolves, Fixed, NotEarlier, Launchable;
  }

  lemma OthersStay(c: Setup, s: Srv, t: Srv, x: string, id: string)
    requires Shape(c, s, t, x) && id in t.ops && id != x
    ensures id in s.ops && t.ops[id] == s.ops[id]
  {
    hide WellFormed, Evolves;
  }

  lemma LandingFacts(s: Srv, t: Srv, e: Event, x: string)
    requires Landing(s, t, e, x)
    ensures e.Finish? && e.flight in s.flights && s.flights[e.flight].operation.operationID == x
  {
  }

  lemma SuccessfulEnd(s: Srv, t: Srv, f: nat, outcome: Outcome)
    requires f in s.flights && Ends(s, t, f, outcome)
    requires var x := s.flights[f].operation.operationID;
             && x in t.ops && t.ops[x].status.state == Succeeded && !(x in s.ops && s.ops[x].status.state == Succeeded)
    ensures outcome.Success? && s.flights[f].operation.operationID in s.ops
    ensures s.ops[s.flights[f].operation.operationID].status.state == Running
  {
    hide Executing;
  }

  lemma {:induction false} SuccessWasReported(c: Setup, states: seq<Srv>, events: seq<Event>, j: nat, id: string)
    returns (i: nat)
    requires History(c, states, events) && j < |states|
    requires id in states[j].ops && states[j].ops[id].status.state == Succeeded
    ensures |states| == |events| + 1 && i < j && Succeeds(states, events, i, id)
    ensures states[j].ops[id].downloadPath == events[i].outcome.downloadPath
    ensures states[j].ops[id].status.result == Some(events[i].outcome.result)
  {
    hide Consistent, Next, Enabled, Lasting, Steps, Succeeds;
    HistoryLength(c, states, events);
    assert j > 0;
    HistoryAt(c, states, events, j - 1);
    ConsistentAlways(c, states, events, j - 1);
    if id in states[j - 1].ops && states[j - 1].ops[id].status.state == Succeeded {
      i := SuccessWasReported(c, states, events, j - 1, id);
      RecordsLast(c, states, events, j - 1, j, id);
      SuccessLasts(states[j - 1].ops[id], states[j].ops[id]);
    } else {
      i := j - 1;
      SuccessStep(c, states[i], events[i], states[j], id);
      FinishEndsRunning(c, states, events, i);
      IsSuccess(states, events, i, id);
    }
  }

  lemma IsSuccess(states: seq<Srv>, events: seq<Event>, i: nat, id: string)
    requires |states| == |events| + 1 && i < |events| && events[i].Finish? && events[i].outcome.Success?
    requires events[i].flight in states[i].flights
    requires states[i].flights[events[i].flight].operation.operationID == id
    requires id in states[i].ops && states[i].ops[id].status.state == Running
    ensures Succeeds(states, events, i, id)
  {
  }

  lemma SuccessLasts(a: Record, b: Record)
    requires Lasting(a, b) && (a.status.state == Succeeded || a.status.state == Canceled)
    ensures b.status.state == Succeeded || b.status.state == Canceled
    ensures b.status.result == a.status.result && b.downloadPath == a.downloadPath
  {
  }

  /** After a success the result stays, and the restored archive can be had from the path that the execution
      reported, with the size that it reported, exactly as long as the operation is not canceled, if it reported
      both. */
  lemma ArchiveServedExactly(c: Setup, states: seq<Srv>, events: seq<Event>, i: nat, j: nat, id: string, readable: bool)
    requires History(c, states, events) && |states| == |events| + 1 && i < j < |states|
    requires Succeeds(states, events, i, id)
    ensures id in states[j].ops
    ensures states[j].ops[id].status.state == Succeeded || states[j].ops[id].status.state == Canceled
    ensures states[j].ops[id].status.result == Some(events[i].outcome.result)
    ensures states[j].ops[id].downloadPath == events[i].outcome.downloadPath
    ensures var result, path := events[i].outcome.result, events[i].outcome.downloadPath;
            var reply := DownloadArchive(states[j], id, readable);
            if states[j].ops[id].status.state == Succeeded && path != "" && result.stateArchive.Some?
            then reply == if readable then Served(path, result.stateArchive.value.size) else Unreadable
            else reply == NoArchive
  {
    hide Consistent, History, Next, Enabled, Lasting;
    HistoryAt(c, states, events, i);
    FinishEndsRunning(c, states, events, i);
    RecordsLast(c, states, events, i + 1, j, id);
    SuccessLasts(states[i + 1].ops[id], states[j].ops[id]);
  }

  /** Whatever is served was reported by a successful execution of that operation. */
  lemma ServedWasReported(c: Setup, states: seq<Srv>, events: seq<Event>, j: nat, id: string, readable: bool)
    requires History(c, states, events) && |states| == |events| + 1 && j < |states|
    requires DownloadArchive(states[j], id, readable).Served?
    ensures exists i :: 0 <= i < j && Succeeds(states, events, i, id) && events[i].outcome.result.stateArchive.Some?
              && events[i].outcome.downloadPath == DownloadArchive(states[j], id, readable).path
              && events[i].outcome.result.stateArchive.value.size == DownloadArchive(states[j], id, readable).length
  {
    hide History, Succeeds;
    var i := SuccessWasReported(c, states, events, j, id);
  }

  // ----- the configuration -----

  /** A staged configuration is handed out exactly for a bootstrap restore that has succeeded, if its file can be
      read. */
  lemma ConfigurationServedExactly(c: Setup, states: seq<Srv>, events: seq<Event>, j: nat, id: string, readable: bool)
    requires History(c, states, events) && j < |states| && Apart(states[j].ops.Keys)
    ensures Download(c, states[j], id, readable).Some? <==>
            && readable && id in states[j].ops && states[j].ops[id].status.state == Succeeded
            && states[j].ops[id].request.operation == Restore && states[j].ops[id].request.phase == Bootstrap
    ensures Download(c, states[j], id, readable).Some? ==>
              Download(c, states[j], id, readable) == FileAt(states[j].files, ConfigurationFile(c.root, id))
  {
    hide Consistent, History, Files, Apart, ConfigurationFile;
    ConsistentAlways(c, states, events, j);
    FilesAlways(c, states, events, j);
    if id in states[j].ops && IsBootstrapRestore(states[j].ops[id].request)
      && states[j].ops[id].status.state == Succeeded {
      DownloadReads(c, states[j], id);
      if !readable {
        Unread(c, states[j], id);
      }
    }
  }

  lemma Unread(c: Setup, s: Srv, id: string)
    ensures Download(c, s, id, false) == None
  {
  }

  /** It is never handed out before an execution has succeeded, nor after a cancellation, whatever the IDs. */
  lemma ConfigurationOnlyAfterSuccess(c: Setup, states: seq<Srv>, events: seq<Event>, j: nat, id: string,
      readable: bool)
    requires History(c, states, events) && |states| == |events| + 1 && j < |states|
    requires Download(c, states[j], id, readable).Some?
    ensures exists i :: 0 <= i < j && Succeeds(states, events, i, id)
    ensures forall k :: 0 <= k < j && events[k] == Cancel(id) ==> id !in states[k].ops
  {
    hide History, Succeeds;
    var i := SuccessWasReported(c, states, events, j, id);
    forall k | 0 <= k < j && events[k] == Cancel(id) ensures id !in states[k].ops {
      if id in states[k].ops {
        CancelIsFinal(c, states, events, k, j, id);
        assert false;
      }
    }
  }
}

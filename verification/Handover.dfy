/** From the server to the backup workflow: retries of one operation hand over one input. */
module Handover {
  import opened Wrappers
  import opened Recovery
  import Lifecycle
  import opened Operations
  import opened OperationFiles
  import opened Server
  import opened StagedFiles
  import opened ServerSafety
  import opened OperationHistory

  /** What the execution `f` gives to its attempt: the archive it was started on, and the recovery key. */
  function Input(s: Srv, f: nat, key: string): Option<Lifecycle.Input>
    requires f in s.flights
  {
    var archive := FileAt(s.files, s.flights[f].statePath);
    if archive == None then None else Some(Lifecycle.Input(archive.value, key))
  }

  /** If a point was last given the input of some execution of an operation, then a later execution of the same
      operation, with the same recovery key, gives it the same input. */
  lemma RetriesKeepTheInput(c: Setup, states: seq<Srv>, events: seq<Event>, i: nat, j: nat, f: nat, g: nat, key: string,
      s: Lifecycle.State, who: Lifecycle.Handle)
    requires History(c, states, events) && i <= j < |states| && Apart(states[j].ops.Keys)
    requires f in states[i].flights && g in states[j].flights
    requires states[i].flights[f].operation.operation == Backup && states[j].flights[g].operation.operation == Backup
    requires states[i].flights[f].operation.operationID == states[j].flights[g].operation.operationID
    requires who.id in s.given ==> Some(s.given[who.id]) == Input(states[i], f, key)
    ensures Input(states[j], g, key).Some?
    ensures Lifecycle.SameInput(s, Lifecycle.Begin(who, Input(states[j], g, key).value))
  {
    RetriesGetOneArchive(c, states, events, i, j, f, g);
  }

  lemma FlownArtifact(a: Request, b: Request)
    requires a.(deadline := None, configuration := []) == b.(deadline := None)
    ensures a.stateArchive == b.stateArchive
  {
    var x, y := a.(deadline := None, configuration := []), b.(deadline := None);
    assert x.stateArchive == a.stateArchive && y.stateArchive == b.stateArchive;
  }

  lemma FlightOfRecord(c: Setup, s: Srv, f: nat)
    requires Consistent(c, s) && f in s.flights
    ensures var id := s.flights[f].operation.operationID;
            id in s.ops && s.flights[f].operation.stateArchive == s.ops[id].request.stateArchive
  {
    hide Records, Uploads, Creates;
    FlightFacts(c, s, f);
    FlownArtifact(s.flights[f].operation, s.ops[s.flights[f].operation.operationID].request);
  }

  /** The descriptor with which a restore returns the archive that a backup was given has the size and the digest
      that the backup's request promised. */
  lemma RestoredDescriptorIsPromised(c: Setup, states: seq<Srv>, events: seq<Event>, i: nat, f: nat, key: string,
      input: Lifecycle.Input, d: Descriptor)
    requires History(c, states, events) && i < |states| && Apart(states[i].ops.Keys)
    requires f in states[i].flights && states[i].flights[f].operation.operation == Backup
    requires Input(states[i], f, key) == Some(input)
    requires d.size == |input.archive| && d.sha256 == Sha256(input.archive)
    ensures var promised := states[i].flights[f].operation.stateArchive;
            && promised.Some? && d.size == promised.value.size
            && promised.value.sha256.HashOf? && promised.value.sha256.digest == d.sha256
  {
    hide Consistent, History, StateFile, Apart;
    ConsistentAlways(c, states, events, i);
    FlightOfRecord(c, states[i], f);
    FlownArchive(c, states[i], f);
    ArchiveIntegrity(c, states, events, i, states[i].flights[f].operation.operationID);
  }
}

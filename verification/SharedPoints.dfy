/** Exactly when two operations of the server can work for one recovery point at the same time. */
module SharedPoints {
  import opened Wrappers
  import opened Ids
  import opened Recovery
  import opened Operations
  import opened OperationFiles
  import opened Server
  import opened SharedDirectories
  import opened Paths

  predicate Executes(s: Srv, f: nat, operation: string, id: string) {
    && f in s.flights
    && s.flights[f].operation.operation == Backup && s.flights[f].operation.operationID == operation
    && operation in s.ops && s.ops[operation].status.state == Running
    && Normalize(operation) == Some(id)
  }

  /** A run of the server that ends while backups of the operations `a` and `b` execute, both for the recovery
      point `id`. */
  predicate BothExecute(c: Setup, states: seq<Srv>, events: seq<Event>, a: string, b: string, id: string) {
    && History(c, states, events)
    && var s := states[|states| - 1];
       exists f, g :: f in s.flights && g in s.flights && f != g && Executes(s, f, a, id) && Executes(s, g, b, id)
  }

  predicate Uploaded(c: Setup, s: Srv, id: string, content: Bytes) {
    id in s.ops && s.ops[id] == BackupRecord(id, content).(statePath := StateFile(c.root, id))
  }

  lemma StartBackup(c: Setup, s: Srv, id: string, content: Bytes)
    requires Uploaded(c, s, id, content) && StateFile(c.root, id) != "" && Accepted(id) && s.next !in s.flights
    ensures Enabled(s, Run(id, true))
    ensures var t := Next(c, s, Run(id, true));
            && Executes(t, s.next, id, Normalize(id).value)
            && t.ops == s.ops[id := t.ops[id]] && t.flights == s.flights[s.next := t.flights[s.next]]
            && t.next == s.next + 1
  {
    hide CanonicalRequest, StateFile, Normalize;
  }

  lemma TwoExecutions(c: Setup, a: string, b: string)
    requires c.root != "" && Accepted(a) && Accepted(b) && a != b && Normalize(a) == Normalize(b)
    ensures exists states, events, id :: BothExecute(c, states, events, a, b, id)
  {
    hide Accepted, StateFile, CanonicalRequest, Normalize, Path, Next, Enabled;
    FilesApart(c.root, a, b);
    FilesApart(c.root, b, a);
    var x: Bytes := [1];
    var next := Moves(c);
    var s, events := BothPrepared(c, a, b, x);
    StartBackup(c, s, a, x);
    var t := Next(c, s, Run(a, true));
    Longer(next, EMPTY, s, t, events, Run(a, true));
    StartBackup(c, t, b, x);
    var u := Next(c, t, Run(b, true));
    Longer(next, EMPTY, t, u, events + [Run(a, true)], Run(b, true));
    var all := events + [Run(a, true)] + [Run(b, true)];
    var states := PathIsSteps(c, EMPTY, u, all);
    assert EMPTY.(files := states[0].files) == EMPTY;
    assert Executes(u, s.next, a, Normalize(a).value) && Executes(u, t.next, b, Normalize(b).value);
    assert BothExecute(c, states, all, a, b, Normalize(a).value);
  }

  /** Both operations created and their archives uploaded. */
  lemma BothPrepared(c: Setup, a: string, b: string, x: Bytes) returns (s: Srv, events: seq<Event>)
    requires c.root != "" && Accepted(a) && Accepted(b) && a != b && x != []
    ensures Path(Moves(c), EMPTY, s, events)
    ensures Uploaded(c, s, a, x) && Uploaded(c, s, b, x) && s.flights == map[]
  {
    hide Accepted, StateFile, CanonicalRequest, Path;
    var next := Moves(c);
    var s1 := WithBackup(EMPTY, a, x);
    CreateBackup(c, EMPTY, a, x);
    var s2 := WithBackup(s1, b, x);
    CreateBackup(c, s1, b, x);
    var s3 := WithArchive(c, s2, a, x);
    UploadArchive(c, s2, a, x);
    s := WithArchive(c, s3, b, x);
    UploadArchive(c, s3, b, x);
    var createA, createB := CreateEvents(BackupOf(a, x)), CreateEvents(BackupOf(b, x));
    Joined(next, EMPTY, s1, s2, createA, createB);
    Joined(next, EMPTY, s2, s3, createA + createB, Uploading(s2.next, a, x));
    Joined(next, EMPTY, s3, s, createA + createB + Uploading(s2.next, a, x), Uploading(s3.next, b, x));
    events := createA + createB + Uploading(s2.next, a, x) + Uploading(s3.next, b, x);
  }

  /** Two different accepted operation IDs can execute for one recovery point at once if and only if they spell
      the same UUID. */
  lemma OnePointTwiceExactly(c: Setup, a: string, b: string)
    requires c.root != "" && Accepted(a) && Accepted(b) && a != b
    ensures Normalize(a) == Normalize(b) <==> exists states, events, id :: BothExecute(c, states, events, a, b, id)
  {
    hide Accepted, Normalize, History;
    if Normalize(a) == Normalize(b) {
      TwoExecutions(c, a, b);
    }
  }
}

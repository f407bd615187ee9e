/** Exactly when two operations can spoil each other's files. */
module SharedDirectories {
  import opened Wrappers
  import opened Ids
  import opened Recovery
  import opened Operations
  import opened OperationFiles
  import opened Server
  import opened StagedFiles
  import opened OperationHistory
  import opened Paths

  /** A run with no other operations than `a` and `b` ends with the archive of `a` uploaded, and with other
      bytes in its file than its request promised. */
  predicate Spoils(c: Setup, states: seq<Srv>, events: seq<Event>, a: string, b: string) {
    && History(c, states, events)
    && var s := states[|states| - 1];
       && s.ops.Keys <= {a, b} && a in s.ops && s.ops[a].statePath == StateFile(c.root, a)
       && s.ops[a].request.stateArchive.Some?
       && !StatesMatch(c, s.files, a, s.ops[a].request.stateArchive.value)
  }

  function Archive(content: Bytes): Artifact {
    Artifact("state", |content|, HashOf(Sha256(content), 0))
  }

  function BackupOf(id: string, content: Bytes): Request {
    Request(API_VERSION, id, Backup, InCluster, "", Some(Archive(content)), Some(Policy(["app"], [], "fileSystem")),
      [], false, None)
  }

  /** Any step of the server that is enabled. */
  function Moves(c: Setup): (Srv, Event) -> Option<Srv> {
    (s: Srv, e: Event) => if Enabled(s, e) then Some(Next(c, s, e)) else None
  }

  /** What a path visits is a run of the server. */
  lemma PathIsSteps(c: Setup, s: Srv, t: Srv, events: seq<Event>) returns (states: seq<Srv>)
    requires Path(Moves(c), s, t, events)
    ensures states == Visited(Moves(c), s, t, events)
    ensures Steps(c, states, events) && states[0] == s && states[|events|] == t
  {
    states := Visited(Moves(c), s, t, events);
    hide Next, Enabled;
    forall i | 0 <= i < |events|
      ensures Enabled(states[i], events[i]) && states[i + 1] == Next(c, states[i], events[i])
    {
      assert Moves(c)(states[i], events[i]) == Some(states[i + 1]);
    }
  }

  lemma TwoSteps(c: Setup, s: Srv, e: Event, f: Event)
    requires Enabled(s, e) && Enabled(Next(c, s, e), f)
    ensures Path(Moves(c), s, Next(c, Next(c, s, e), f), [e, f])
  {
    hide Enabled, Next;
    OneStep(Moves(c), s, Next(c, s, e), e);
    OneStep(Moves(c), Next(c, s, e), Next(c, Next(c, s, e), f), f);
    Joined(Moves(c), s, Next(c, s, e), Next(c, Next(c, s, e), f), [e], [f]);
    assert [e] + [f] == [e, f];
  }

  function BackupRecord(id: string, content: Bytes): Record {
    var r := BackupOf(id, content);
    Record(r, CanonicalRequest(r), NewStatus(r), "", "", "", 0)
  }

  function CreateEvents(r: Request): seq<Event> {
    [CreateBegin(r, 0), CreateInsert(true)]
  }

  function WithBackup(s: Srv, id: string, content: Bytes): Srv {
    s.(ops := s.ops[id := BackupRecord(id, content)])
  }

  /** Creating a backup adds its record. */
  lemma CreateBackup(c: Setup, s: Srv, id: string, content: Bytes)
    requires s.creating == None && id !in s.ops && Accepted(id) && content != []
    ensures Path(Moves(c), s, WithBackup(s, id, content), CreateEvents(BackupOf(id, content)))
  {
    hide Accepted, CanonicalRequest;
    var r := BackupOf(id, content);
    assert ValidRequest(r, c.isObject) by { BackupIsValid(id, content, c.isObject); }
    hide ValidRequest;
    var e, f := CreateBegin(r, 0), CreateInsert(true);
    var t := Next(c, s, e);
    assert t == s.(creating := Some(Creating(r, CanonicalRequest(r), 0)));
    assert r.(configuration := []) == r;
    assert Next(c, t, f) == WithBackup(s, id, content);
    TwoSteps(c, s, e, f);
  }

  lemma BackupIsValid(id: string, content: Bytes, isObject: Bytes -> bool)
    requires Accepted(id) && content != []
    ensures ValidRequest(BackupOf(id, content), isObject)
  {
    hide Normalize;
  }

  function Staging(u: nat, id: string, content: Bytes): seq<Event> {
    [UploadBegin(id, |content|, Archive(content).sha256, true), UploadBody(u, content, true)]
  }

  function Placing(u: nat): seq<Event> {
    [UploadRename(u, true), UploadCommit(u)]
  }

  function Uploading(u: nat, id: string, content: Bytes): seq<Event> {
    Staging(u, id, content) + Placing(u)
  }

  /** The content has been received and checked. */
  function Staged(s: Srv, id: string, content: Bytes): Srv {
    s.(uploads := s.uploads[s.next := Upload(id, Archive(content), Checked(content))], next := s.next + 1)
  }

  /** The content is in the file and the path in the record. */
  function Placed(c: Setup, s: Srv, u: nat, id: string, content: Bytes): Srv
    requires id in s.ops
  {
    var files := s.files[StateFile(c.root, id) := content];
    s.(ops := s.ops[id := Committed(c, s.ops[id], id)], files := files, uploads := s.uploads - {u})
  }

  function WithArchive(c: Setup, s: Srv, id: string, content: Bytes): Srv {
    var path := StateFile(c.root, id);
    s.(ops := s.ops[id := BackupRecord(id, content).(statePath := path)], files := s.files[path := content],
       next := s.next + 1)
  }

  lemma StageArchive(c: Setup, s: Srv, id: string, content: Bytes)
    requires id in s.ops && s.ops[id] == BackupRecord(id, content)
    ensures Path(Moves(c), s, Staged(s, id, content), Staging(s.next, id, content))
  {
    hide CanonicalRequest, StateFile;
    var descriptor := Archive(content);
    var e, f := UploadBegin(id, |content|, descriptor.sha256, true), UploadBody(s.next, content, true);
    var t := Next(c, s, e);
    assert t == s.(uploads := s.uploads[s.next := Upload(id, descriptor, Receiving)], next := s.next + 1);
    assert Next(c, t, f) == t.(uploads := s.uploads[s.next := Upload(id, descriptor, Checked(content))]);
    TwoSteps(c, s, e, f);
  }

  lemma PlaceArchive(c: Setup, s: Srv, u: nat, id: string, content: Bytes)
    requires u in s.uploads && s.uploads[u] == Upload(id, Archive(content), Checked(content)) && id in s.ops
    ensures Path(Moves(c), s, Placed(c, s, u, id, content), Placing(u))
  {
    hide StateFile, Committed;
    var e, f := UploadRename(u, true), UploadCommit(u);
    var t := Next(c, s, e);
    var uploads := s.uploads[u := Upload(id, Archive(content), Renamed)];
    assert t == s.(files := s.files[StateFile(c.root, id) := content], uploads := uploads);
    assert t.uploads - {u} == s.uploads - {u};
    TwoSteps(c, s, e, f);
  }

  /** Uploading its archive puts the content into the file and the path into the record. */
  lemma UploadArchive(c: Setup, s: Srv, id: string, content: Bytes)
    requires id in s.ops && s.ops[id] == BackupRecord(id, content) && s.next !in s.uploads
    ensures Path(Moves(c), s, WithArchive(c, s, id, content), Uploading(s.next, id, content))
  {
    hide CanonicalRequest, StateFile, Path;
    var u := s.next;
    var t := Staged(s, id, content);
    StageArchive(c, s, id, content);
    PlaceArchive(c, t, u, id, content);
    assert t.uploads - {u} == s.uploads;
    assert Placed(c, t, u, id, content) == WithArchive(c, s, id, content);
    Joined(Moves(c), s, t, WithArchive(c, s, id, content), Staging(u, id, content), Placing(u));
  }

  /** Two different accepted IDs can spoil each other's archives if and only if they share a directory: one
      is the other between slashes. */
  lemma SpoiledExactly(c: Setup, a: string, b: string)
    requires c.root != "" && Accepted(a) && Accepted(b) && a != b
    ensures SharesDirectory(a, b) <==> exists states, events :: Spoils(c, states, events, a, b)
  {
    hide Accepted, SharesDirectory;
    if SharesDirectory(a, b) {
      SpoilingRun(c, a, b);
    } else {
      forall states, events ensures !Spoils(c, states, events, a, b) {
        if Spoils(c, states, events, a, b) {
          NotSpoiled(c, states, events, a, b);
        }
      }
    }
  }

  lemma NotSpoiled(c: Setup, states: seq<Srv>, events: seq<Event>, a: string, b: string)
    requires c.root != "" && Accepted(a) && !SharesDirectory(a, b)
    ensures !Spoils(c, states, events, a, b)
  {
    hide StatesMatch, StateFile, Accepted, Next, Enabled;
    if Spoils(c, states, events, a, b) {
      var k := |states| - 1;
      assert Apart(states[k].ops.Keys) by { SymmetricSharing(a, b); }
      FilesApart(c.root, a, a);
      ArchiveIntegrity(c, states, events, k, a);
      assert false;
    }
  }

  lemma SymmetricSharing(a: string, b: string)
    ensures SharesDirectory(a, b) == SharesDirectory(b, a)
  {
  }

  lemma SpoilingRun(c: Setup, a: string, b: string)
    requires c.root != "" && Accepted(a) && Accepted(b) && a != b && SharesDirectory(a, b)
    ensures exists states, events :: Spoils(c, states, events, a, b)
  {
    hide Accepted, SharesDirectory, StateFile, CanonicalRequest;
    FilesApart(c.root, a, b);
    var x: Bytes, y: Bytes := [1], [2];
    var s0 := EMPTY;
    var s1 := WithBackup(s0, a, x);
    CreateBackup(c, s0, a, x);
    var s2 := WithBackup(s1, b, y);
    CreateBackup(c, s1, b, y);
    var s3 := WithArchive(c, s2, a, x);
    UploadArchive(c, s2, a, x);
    var s4 := WithArchive(c, s3, b, y);
    UploadArchive(c, s3, b, y);
    var create := CreateEvents(BackupOf(a, x)) + CreateEvents(BackupOf(b, y));
    Joined(Moves(c), s0, s1, s2, CreateEvents(BackupOf(a, x)), CreateEvents(BackupOf(b, y)));
    var upload := Uploading(s2.next, a, x) + Uploading(s3.next, b, y);
    Joined(Moves(c), s2, s3, s4, Uploading(s2.next, a, x), Uploading(s3.next, b, y));
    Joined(Moves(c), s0, s2, s4, create, upload);
    SpoiledAtEnd(c, s4, create + upload, a, b, x, y);
  }

  lemma SpoiledAtEnd(c: Setup, t: Srv, events: seq<Event>, a: string, b: string, x: Bytes, y: Bytes)
    requires c.root != "" && Path(Moves(c), EMPTY, t, events) && x != y && StateFile(c.root, a) == StateFile(c.root, b)
    requires t.ops.Keys == {a, b} && t.ops[a] == BackupRecord(a, x).(statePath := StateFile(c.root, a))
    requires StateFile(c.root, b) in t.files && t.files[StateFile(c.root, b)] == y
    ensures exists states, events :: Spoils(c, states, events, a, b)
  {
    hide StateFile, CanonicalRequest, Steps;
    var states := PathIsSteps(c, EMPTY, t, events);
    assert EMPTY.(files := states[0].files) == EMPTY;
    assert Spoils(c, states, events, a, b);
  }

  // ----- configurations -----

  /** A run with no other operations than `a` and `b` in which the staged configuration of the bootstrap
      restore `a` changes after step `i`, at which it is no longer pending. */
  predicate Restages(c: Setup, states: seq<Srv>, events: seq<Event>, i: nat, a: string, b: string) {
    && History(c, states, events) && i < |states|
    && a in states[i].ops && IsBootstrapRestore(states[i].ops[a].request) && states[i].ops[a].status.state != Pending
    && var s := states[|states| - 1];
       && s.ops.Keys <= {a, b}
       && FileAt(s.files, ConfigurationFile(c.root, a)) != FileAt(states[i].files, ConfigurationFile(c.root, a))
  }

  function RestoreOf(id: string, content: Bytes): Request {
    Request(API_VERSION, id, Restore, Bootstrap, "point", None, None, content, true, None)
  }

  function RestoreRecord(c: Setup, id: string, content: Bytes): Record {
    var r := RestoreOf(id, content);
    Record(RestoreOf(id, []), CanonicalRequest(r), NewStatus(r), "", "", ConfigurationFile(c.root, id), 0)
  }

  function WithRestore(c: Setup, s: Srv, id: string, content: Bytes): Srv {
    s.(ops := s.ops[id := RestoreRecord(c, id, content)], files := s.files[ConfigurationFile(c.root, id) := content])
  }

  lemma RestoreIsValid(c: Setup, id: string, content: Bytes)
    requires Accepted(id) && Usable(c, content)
    ensures ValidRequest(RestoreOf(id, content), c.isObject)
  {
    hide Normalize;
  }

  lemma CreateRestore(c: Setup, s: Srv, id: string, content: Bytes)
    requires s.creating == None && id !in s.ops && Accepted(id) && Usable(c, content)
    ensures Path(Moves(c), s, WithRestore(c, s, id, content), CreateEvents(RestoreOf(id, content)))
  {
    hide Accepted, CanonicalRequest, ValidRequest, ConfigurationFile;
    var r := RestoreOf(id, content);
    RestoreIsValid(c, id, content);
    var e, f := CreateBegin(r, 0), CreateInsert(true);
    var t := Next(c, s, e);
    assert t == s.(creating := Some(Creating(r, CanonicalRequest(r), 0)));
    assert r.(configuration := []) == RestoreOf(id, []);
    assert NewStatus(r) == NewStatus(RestoreOf(id, []));
    TwoSteps(c, s, e, f);
  }

  lemma StartRestore(c: Setup, s: Srv, id: string, content: Bytes)
    requires id in s.ops && s.ops[id] == RestoreRecord(c, id, content) && Usable(c, content)
    requires ConfigurationFile(c.root, id) != ""
    requires ConfigurationFile(c.root, id) in s.files && s.files[ConfigurationFile(c.root, id)] == content
    ensures var t := Next(c, s, Run(id, true));
            && t.ops == s.ops[id := Launched(s.ops[id])]
            && t == s.(ops := t.ops, flights := t.flights, next := t.next)
  {
    hide CanonicalRequest, ConfigurationFile;
  }

  lemma RestagingRun(c: Setup, a: string, b: string, x: Bytes, y: Bytes)
    requires c.root != "" && Accepted(a) && Accepted(b) && a != b && SharesDirectory(a, b)
    requires Usable(c, x) && Usable(c, y) && x != y
    ensures exists states, events, i :: Restages(c, states, events, i, a, b)
  {
    hide Accepted, SharesDirectory, ConfigurationFile, CanonicalRequest, Usable, Next, Enabled;
    FilesApart(c.root, a, b);
    var s0 := EMPTY;
    var s1 := WithRestore(c, s0, a, x);
    CreateRestore(c, s0, a, x);
    var run := Run(a, true);
    assert Enabled(s1, run) by { RunsAnyTime(s1, a); }
    var s2 := Next(c, s1, run);
    StartRestore(c, s1, a, x);
    OneStep(Moves(c), s1, s2, run);
    Joined(Moves(c), s0, s1, s2, CreateEvents(RestoreOf(a, x)), [run]);
    var s3 := WithRestore(c, s2, b, y);
    CreateRestore(c, s2, b, y);
    RestagedAtEnd(c, s2, s3, CreateEvents(RestoreOf(a, x)) + [run], CreateEvents(RestoreOf(b, y)), a, b);
  }

  lemma RunsAnyTime(s: Srv, id: string)
    ensures Enabled(s, Run(id, true))
  {
  }

  lemma RestagedAtEnd(c: Setup, s: Srv, t: Srv, es: seq<Event>, fs: seq<Event>, a: string, b: string)
    requires c.root != "" && Path(Moves(c), EMPTY, s, es) && Path(Moves(c), s, t, fs)
    requires a in s.ops && IsBootstrapRestore(s.ops[a].request) && s.ops[a].status.state != Pending
    requires t.ops.Keys <= {a, b}
    requires FileAt(t.files, ConfigurationFile(c.root, a)) != FileAt(s.files, ConfigurationFile(c.root, a))
    ensures exists states, events, i :: Restages(c, states, events, i, a, b)
  {
    hide ConfigurationFile, Steps, Next, Enabled, IsBootstrapRestore;
    VisitedJoined(Moves(c), EMPTY, s, t, es, fs);
    var events := es + fs;
    var states := PathIsSteps(c, EMPTY, t, events);
    assert EMPTY.(files := states[0].files) == EMPTY;
    assert Restages(c, states, events, |es|, a, b);
  }

  /** Two different accepted IDs can change each other's committed configuration if and only if they share a
      directory; `x` and `y` are any two configurations. */
  lemma RestagedExactly(c: Setup, a: string, b: string, x: Bytes, y: Bytes)
    requires c.root != "" && Accepted(a) && Accepted(b) && a != b
    requires Usable(c, x) && Usable(c, y) && x != y
    ensures SharesDirectory(a, b) <==> exists states, events, i :: Restages(c, states, events, i, a, b)
  {
    hide Accepted, SharesDirectory, Usable;
    if SharesDirectory(a, b) {
      RestagingRun(c, a, b, x, y);
    } else {
      forall states, events, i ensures !Restages(c, states, events, i, a, b) {
        NotRestaged(c, states, events, i, a, b);
      }
    }
  }

  lemma NotRestaged(c: Setup, states: seq<Srv>, events: seq<Event>, i: nat, a: string, b: string)
    requires !SharesDirectory(a, b)
    ensures !Restages(c, states, events, i, a, b)
  {
    hide Steps, ConfigurationFile, Next, Enabled, IsBootstrapRestore;
    if Restages(c, states, events, i, a, b) {
      var j := |states| - 1;
      assert Apart(states[j].ops.Keys) by { SymmetricSharing(a, b); }
      SelectionIsCommitted(c, states, events, i, j, a);
      assert false;
    }
  }
}

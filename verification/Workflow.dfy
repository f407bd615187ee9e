/** Whole workflows: what the results about runs say about executions of the executor. */
module Workflow {
  import opened Wrappers
  import opened Ids
  import opened Keys
  import opened Recovery
  import opened RecoveryStore
  import opened Lifecycle
  import opened LifecycleSafety
  import opened RetentionBound
  import Ranking
  import opened Executor
  import opened Schedule

  /** What an attempt adds to a run in which every ID had one input keeps that so, if its own input is the one
      that its ID had before. */
  lemma AttemptKeepsInputs(s0: seq<State>, l0: seq<Label>, s1: seq<State>, l1: seq<Label>, who: Handle, input: Input,
      policy: Option<int>)
    requires OneInputEach(s0, l0) && Run(s1, l1) && Attempted(s0, l0, s1, l1, who, policy)
    requires l1[|l0|] == Begin(who, input)
    requires who.id in s0[|l0|].given ==> s0[|l0|].given[who.id] == input
    ensures OneInputEach(s1, l1)
  {
    hide Mine, Applies, Step;
    forall k | 0 <= k < |l1| ensures SameInput(s1[k], l1[k]) {
      if k < |l0| {
        assert l1[k] == l0[k] && s1[k] == s0[k];
        assert SameInput(s0[k], l0[k]);
      } else if k == |l0| {
        assert s1[k] == s0[k];
      } else {
        assert !l1[k].Begin?;
      }
    }
  }

  lemma BegunIsGiven(states: seq<State>, labels: seq<Label>, k: nat)
    requires Run(states, labels) && k < |labels| && labels[k].Begin?
    ensures |states| == |labels| + 1
    ensures labels[k].who.id in states[k + 1].given && states[k + 1].given[labels[k].who.id] == labels[k].input
  {
    assert Step(states[k], labels[k], states[k + 1]);
  }

  lemma GivenLasts(states: seq<State>, labels: seq<Label>, k: nat, who: Handle, input: Input)
    requires OneInputEach(states, labels) && Inputs(states[0]) && k < |labels| && labels[k] == Begin(who, input)
    ensures |states| == |labels| + 1
    ensures who.id in states[|labels|].given && states[|labels|].given[who.id] == input
  {
    BegunIsGiven(states, labels, k);
    InputsAlways(states, labels, k + 1, |labels|);
  }

  /** An attempt begun for an ID that is neither published nor attempted keeps a run disciplined. */
  lemma AttemptKeepsDiscipline(s0: seq<State>, l0: seq<Label>, s1: seq<State>, l1: seq<Label>, who: Handle,
      policy: Option<int>)
    requires Disciplined(s0, l0) && Run(s1, l1) && Attempted(s0, l0, s1, l1, who, policy)
    requires Fresh(s0[|l0|], l1[|l0|]) && Exclusive(s0[|l0|], l1[|l0|])
    ensures Disciplined(s1, l1)
  {
    hide Mine, Applies, Step;
    forall k | 0 <= k < |l1| ensures Fresh(s1[k], l1[k]) && Exclusive(s1[k], l1[k]) {
      if k < |l0| {
        assert l1[k] == l0[k] && s1[k] == s0[k];
        assert Fresh(s0[k], l0[k]) && Exclusive(s0[k], l0[k]);
      } else if k == |l0| {
        assert s1[k] == s0[k];
      } else {
        assert !l1[k].Begin?;
      }
    }
  }

  /** Once an ID is published, a disciplined run gives it no other input. */
  lemma {:induction false} GivenOncePublished(states: seq<State>, labels: seq<Label>, i: nat, j: nat, id: string)
    requires Disciplined(states, labels) && i <= j < |states| && id in states[i].published && id in states[i].given
    ensures id in states[j].published && id in states[j].given && states[j].given[id] == states[i].given[id]
  {
    if i < j {
      GivenOncePublished(states, labels, i, j - 1, id);
      assert Step(states[j - 1], labels[j - 1], states[j - 1 + 1]) && Fresh(states[j - 1], labels[j - 1]);
    }
  }

  lemma {:induction false} GivenMeanwhile(states: seq<State>, labels: seq<Label>, i: nat, j: nat)
    requires Run(states, labels) && i <= j < |states| && forall k :: i <= k < j ==> !labels[k].Begin?
    ensures states[j].given == states[i].given
  {
    if i < j {
      GivenMeanwhile(states, labels, i, j - 1);
      assert Step(states[j - 1], labels[j - 1], states[j - 1 + 1]);
    }
  }

  /** What a point was given at its last beginning it still has in a disciplined run, once it has been published. */
  lemma PublishedIsGiven(states: seq<State>, labels: seq<Label>, k: nat, p: nat, i: nat, who: Handle, input: Input)
    requires Disciplined(states, labels) && Initial(states[0]) && k < p <= i < |states|
    requires k < |labels| && labels[k] == Begin(who, input) && forall m :: k < m < p ==> !labels[m].Begin?
    requires who.id in ReadyPoints(states[p].world.manifests)
    ensures who.id in states[i].given && states[i].given[who.id] == input
  {
    hide Safe, Current, Fresh, Exclusive, Stores;
    BegunIsGiven(states, labels, k);
    GivenMeanwhile(states, labels, k + 1, p);
    CurrentAlways(states, labels, p);
    ReadyIsCurrent(states[p], who.id);
    GivenOncePublished(states, labels, p, i, who.id);
  }

  /** What makes restored bytes certain: that the run was disciplined, or that every ID had one input only. */
  predicate Certain(states: seq<State>, labels: seq<Label>) {
    && |states| == |labels| + 1
    && ((Disciplined(states, labels) && Initial(states[0])) || (OneInputEach(states, labels) && Inputs(states[0])))
  }

  /** The next attempt for `id`, with this input, leaves a certain run certain. */
  predicate Continues(states: seq<State>, labels: seq<Label>, id: string, input: Input)
    requires |states| == |labels| + 1
  {
    var s, l := states[|labels|], Begin(Handle(id, 0), input);
    || (Disciplined(states, labels) && Initial(states[0]) && Fresh(s, l) && Exclusive(s, l))
    || (OneInputEach(states, labels) && Inputs(states[0]) && SameInput(s, l))
  }

  lemma AttemptContinues(s0: seq<State>, l0: seq<Label>, s1: seq<State>, l1: seq<Label>, who: Handle, input: Input,
      policy: Option<int>)
    requires |s0| == |l0| + 1 && Run(s1, l1) && Attempted(s0, l0, s1, l1, who, policy)
    requires l1[|l0|] == Begin(who, input) && Continues(s0, l0, who.id, input)
    ensures Certain(s1, l1)
  {
    hide Applies, Mine, Initial, Inputs, EndedUncleanly;
    assert s1[0] == s0[0];
    if OneInputEach(s0, l0) && Inputs(s0[0]) && SameInput(s0[|l0|], Begin(Handle(who.id, 0), input)) {
      AttemptKeepsInputs(s0, l0, s1, l1, who, input, policy);
    } else {
      AttemptKeepsDiscipline(s0, l0, s1, l1, who, policy);
    }
  }

  /** A backup, and later a bootstrap restore of its point with the same key, between which others may take any
      steps: in a certain run the restored file is the archive that was backed up. If nobody else works, the run is
      certain when the attempt continues a certain one. */
  method BackUpAndRestore(e: Executor, disk: Disk, operationID: string, statePath: string, archive: Bytes, key: string,
      configured: bool, retentionCount: Option<int>, lost: set<string>, patience: nat, tempRoot: string,
      restoreID: string, ghost alone: bool)
    returns (descriptor: Option<Descriptor>, path: string)
    requires e.Tracks()
    modifies e, e.store`bucket, disk
    modifies e.application`backups, e.application`deleteRequests, e.application`processed
    ensures e.Tracks()
    ensures descriptor.Some? && Certain(e.states, e.labels) ==>
              && path in disk.files && disk.files[path] == archive
              && descriptor.value == Descriptor("ec-state-v1.tar.gz", |archive|, Sha256(archive))
    ensures descriptor.Some? && alone ==>
              Normalize(operationID).Some? &&
              (Continues(old(e.states), old(e.labels), Normalize(operationID).value, Input(archive, key)) ==>
                 Certain(e.states, e.labels))
  {
    hide Normalize, Represents, ReadyPoints, OneInputEach, Inputs, Policy, Mine, Applies, Step, Certain, Continues;
    descriptor, path := None, "";
    ghost var input := Input(archive, key);
    ghost var from, before := |e.labels|, e.states;
    var outcome, point;
    ghost var who;
    outcome, point, who :=
      e.Backup(operationID, statePath, Some(archive), key, configured, retentionCount, lost, patience, input);
    if point == None {
      return;
    }
    ghost var states, labels := e.states, e.labels;
    if Continues(before, old(e.labels), who.value.id, input) {
      AttemptContinues(before, old(e.labels), states, labels, who.value, input,
                       Policy(configured, retentionCount, lost));
    }
    descriptor, path := e.BootstrapRestore(disk, tempRoot, restoreID, point.value, key, alone);
    if descriptor.Some? && Certain(e.states, e.labels) {
      RestoredIsBackedUp(e, from, states, labels, who.value, input, disk.files[path]);
    }
  }

  lemma RestoredIsBackedUp(e: Executor, from: nat, states: seq<State>, labels: seq<Label>, who: Handle, input: Input,
      plain: Bytes)
    requires e.Tracks() && Certain(e.states, e.labels) && states <= e.states && labels <= e.labels
    requires |states| == |labels| + 1 && from < |labels| && labels[from] == Begin(who, input)
    requires forall k :: from < k < |labels| ==> !labels[k].Begin?
    requires who.id in ReadyPoints(states[|labels|].world.manifests)
    requires e.Restored(who.id, input.key, plain)
    requires exists i :: |labels| <= i < |e.states| && e.SeenReady(i, who.id, input.key, plain)
    ensures plain == input.archive
  {
    hide ReadyPoints, OneInputEach, Inputs, Run, Initial, Represents;
    assert e.labels[from] == labels[from] && e.states[|labels|] == states[|labels|];
    if Disciplined(e.states, e.labels) && Initial(e.states[0]) {
      var i :| |labels| <= i < |e.states| && e.SeenReady(i, who.id, input.key, plain);
      PublishedIsGiven(e.states, e.labels, from, |labels|, i, who, input);
    } else {
      GivenLasts(e.states, e.labels, from, who, input);
    }
  }

  // ----- retention -----

  /** A run of attempts one after the other, all with retention count `r` and reliable listings. */
  predicate OneByOne(states: seq<State>, labels: seq<Label>, r: int) {
    && Run(states, labels)
    && Window(states[0]) == {}
    && (forall k :: 0 <= k < |labels| ==> Retains(states[k], labels[k], r))
    && (forall k :: 0 <= k < |states| ==> |states[k].active| <= 1)
  }

  lemma {:induction false} OnlyOneActive(states: seq<State>, labels: seq<Label>, n: nat, who: Handle, k: nat)
    requires Run(states, labels) && n < k < |states| && states[n].active == map[]
    requires forall m :: n <= m < |labels| ==> Mine(labels[m], who)
    ensures states[k].active.Keys <= {who}
  {
    assert Step(states[k - 1], labels[k - 1], states[k - 1 + 1]);
    if n + 1 < k {
      OnlyOneActive(states, labels, n, who, k - 1);
    }
    OwnStepKeeps(states[k - 1], labels[k - 1], who);
  }

  lemma OwnStepKeeps(s: State, l: Label, who: Handle)
    requires Enabled(s, l) && Mine(l, who) && s.active.Keys <= {who}
    ensures Apply(s, l).active.Keys <= {who}
  {
  }

  lemma AttemptKeepsOneByOne(s0: seq<State>, l0: seq<Label>, s1: seq<State>, l1: seq<Label>, who: Handle, r: int)
    requires OneByOne(s0, l0, r) && s0[|l0|].active == map[]
    requires Run(s1, l1) && Attempted(s0, l0, s1, l1, who, Some(r))
    ensures OneByOne(s1, l1, r)
  {
    hide Retains, Mine, Step, Window;
    forall k | 0 <= k < |l1| ensures Retains(s1[k], l1[k], r) {
      if k < |l0| {
        assert l1[k] == l0[k] && s1[k] == s0[k];
      }
    }
    forall k | 0 <= k < |s1| ensures |s1[k].active| <= 1 {
      if k < |s0| {
        assert s1[k] == s0[k];
      } else {
        assert s1[|l0|] == s0[|l0|];
        OnlyOneActive(s1, l1, |l0|, who, k);
        Ranking.Monotone(s1[k].active.Keys, {who});
      }
    }
  }

  lemma BoundedOneByOne(states: seq<State>, labels: seq<Label>, r: int, p: nat)
    requires OneByOne(states, labels, r) && r >= 1 && p < |labels| && labels[p].Publish? && labels[p].effect
    ensures |states| == |labels| + 1 && |ReadyIDs(states[|labels|])| <= r
  {
    SequentialRetentionBound(states, labels, r, p, |labels|);
  }

  datatype Job = Job(operationID: string, statePath: string, archive: Option<Bytes>, key: string, patience: nat)

  /** Backups one after the other, with one retention count and reliable reads: from the first success on there
      are never more ready points than the retention count, whatever failed before, between and after. */
  method BackUpAll(e: Executor, jobs: seq<Job>, r: int) returns (done: nat)
    requires e.Tracks() && r >= 1 && OneByOne(e.states, e.labels, r) && e.Now().active == map[]
    modifies e, e.store`bucket
    modifies e.application`backups, e.application`deleteRequests, e.application`processed
    ensures e.Tracks() && OneByOne(e.states, e.labels, r) && e.Now().active == map[]
    ensures done > 0 ==> |ReadyIDs(e.Now())| <= r
  {
    hide Normalize, Represents, ReadyPoints, Mine, Applies, OneByOne, ReadyIDs, Run, Canonical;
    done := 0;
    ghost var p: nat := 0;
    for i := 0 to |jobs|
      invariant e.Tracks() && OneByOne(e.states, e.labels, r) && e.Now().active == map[]
      invariant done > 0 ==> p < |e.labels| && e.labels[p].Publish? && e.labels[p].effect
    {
      var job := jobs[i];
      ghost var states, labels := e.states, e.labels;
      ghost var input := if job.archive.Some? then Input(job.archive.value, job.key) else Input([], job.key);
      var outcome, point;
      ghost var who;
      outcome, point, who :=
        e.Backup(job.operationID, job.statePath, job.archive, job.key, true, Some(r), {}, job.patience, input);
      if who.Some? {
        AttemptKeepsOneByOne(states, labels, e.states, e.labels, who.value, r);
      }
      assert done > 0 ==> e.labels[p] == labels[p];
      if outcome == Done {
        done := done + 1;
        p := |e.labels| - 1;
      }
    }
    if done > 0 {
      BoundedOneByOne(e.states, e.labels, r, p);
    }
  }

  // ----- schedules -----

  /** A poll of the schedule: if no manifest read fails, it reports exactly what the stored ready points make
      due at the time of the poll. */
  method Poll(e: Executor, settings: Option<(string, bool)>, schedule: Option<int -> int>, lost: set<string>)
    returns (status: Option<Schedule.Status>)
    requires e.Tracks()
    modifies e
    ensures e.Tracks() && e.Now().world == old(e.Now()).world
    ensures settings.Some? && (settings.value.0 == "" || settings.value.1) ==>
              status == Some(Schedule.Status(false, None, None))
    ensures lost == {} && status.Some? && settings.Some? && schedule.Some? ==>
              var (expression, paused) := settings.value;
              expression != "" && !paused ==>
                var points := ReadyPoints(e.Now().world.manifests);
                forall occasion ::
                  DueFor(points, e.Now().clock, expression, schedule.value, occasion) <==>
                  status.value.due && status.value.occasion == Some(occasion)
  {
    hide Represents, ReadyPoints, DueFor, Stored, ManifestKey;
    var pages := e.store.ListObjects(ListPrefix(e.store.prefix));
    var manifests := e.store.ListManifests(pages, lost);
    var now := e.ReadClock();
    status := BackupSchedule(true, Reads(settings, schedule, manifests), now);
    if manifests.Some? && lost == {} {
      ghost var ms :| Reflects(ms, e.store.bucket, e.store.prefix, lost) && manifests.value == OnlyReady(ms);
      ReflectsAll(ms, e.store.bucket, e.store.prefix, e.Now().world.manifests, e.Now().world.archives, lost);
      OnlyReadyInOrder(ms, e.Now().world.manifests);
    }
  }
}

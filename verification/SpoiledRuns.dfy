/** Runs from nothing that end with a ready point that cannot be restored: what the hypotheses of completeness
    exclude does happen. */
module SpoiledRuns {
  import opened Wrappers
  import opened Ids
  import opened Keys
  import opened Recovery
  import opened Retention
  import opened Lifecycle
  import opened LifecycleSafety
  import opened Paths
  import opened BeginGuard
  import RetentionBound
  import Rerun

  /** Steps of attempts for `id`, with a retention count of one and reliable listings as long as `id` is the only
      point; `once`: only attempts for an ID that is not published. */
  function Free(id: string, once: bool): (State, Label) -> Option<State> {
    (s: State, l: Label) => if FreeStep(s, l, id, once) then Some(Apply(s, l)) else None
  }

  predicate FreeStep(s: State, l: Label, id: string, once: bool) {
    && Enabled(s, l) && (once ==> Fresh(s, l)) && (l.Begin? ==> l.who.id == id) && !l.SkipRetention?
    && (l.List? ==> PlainList(s, l, id))
  }

  lemma OnwardIsFree(id: string, once: bool, s: State, t: State, labels: seq<Label>)
    requires Path(Onward(id), s, t, labels)
    ensures Path(Free(id, once), s, t, labels)
  {
    hide Apply, Enabled;
    Wider(Onward(id), Free(id, once), s, t, labels);
  }

  lemma NothingIsSettled()
    ensures Initial(NOTHING) && Safe(NOTHING) && Settled(NOTHING)
  {
    InitialIsSafe(NOTHING);
  }

  /** `id` is the only point there is. */
  ghost predicate OnlyPoint(s: State, id: string) {
    Sound(s) && s.published <= {id} && forall who :: who in s.active ==> who.id == id
  }

  lemma OnlyPointStep(s: State, l: Label, id: string, once: bool)
    requires OnlyPoint(s, id) && FreeStep(s, l, id, once)
    ensures OnlyPoint(Apply(s, l), id) && s.world.manifests.Keys <= {id} && RetentionBound.Retains(s, l, 1)
  {
    SoundStep(s, l);
    hide Canonical, VeleroName, AttemptSound, CleanBackup;
  }

  lemma {:induction false} OnlyPointAlways(states: seq<State>, labels: seq<Label>, id: string, once: bool, k: nat)
    requires |states| == |labels| + 1 && k < |states| && OnlyPoint(states[0], id)
    requires forall i {:trigger labels[i]} :: 0 <= i < |labels| ==>
      FreeStep(states[i], labels[i], id, once) && states[i + 1] == Apply(states[i], labels[i])
    ensures OnlyPoint(states[k], id)
  {
    if k > 0 {
      hide OnlyPoint, Apply;
      OnlyPointAlways(states, labels, id, once, k - 1);
      assert FreeStep(states[k - 1], labels[k - 1], id, once);
      assert states[k - 1 + 1] == Apply(states[k - 1], labels[k - 1]);
      OnlyPointStep(states[k - 1], labels[k - 1], id, once);
    }
  }

  /** A path of free steps from nothing is a run whose listings are all reliable. */
  lemma FreeRun(id: string, once: bool, t: State, labels: seq<Label>) returns (states: seq<State>)
    requires Path(Free(id, once), NOTHING, t, labels)
    ensures Run(states, labels) && Initial(states[0]) && states[|labels|] == t
    ensures states == Visited(Free(id, once), NOTHING, t, labels)
    ensures forall k :: 0 <= k < |labels| ==>
      RetentionBound.Retains(states[k], labels[k], 1) && (once ==> Fresh(states[k], labels[k]))
  {
    states := Visited(Free(id, once), NOTHING, t, labels);
    NothingIsSettled();
    forall k | 0 <= k < |labels|
      ensures FreeStep(states[k], labels[k], id, once) && states[k + 1] == Apply(states[k], labels[k])
    {
      assert Free(id, once)(states[k], labels[k]) == Some(states[k + 1]);
    }
    hide Apply, Enabled, OnlyPoint, FreeStep, RetentionBound.Retains;
    assert OnlyPoint(NOTHING, id) by { NothingIsOnlyPoint(id); }
    forall k | 0 <= k < |labels|
      ensures Step(states[k], labels[k], states[k + 1])
      ensures RetentionBound.Retains(states[k], labels[k], 1) && (once ==> Fresh(states[k], labels[k]))
    {
      OnlyPointAlways(states, labels, id, once, k);
      OnlyPointStep(states[k], labels[k], id, once);
      FreeIsEnabled(states[k], labels[k], id, once);
    }
  }

  lemma NothingIsOnlyPoint(id: string)
    ensures OnlyPoint(NOTHING, id)
  {
  }

  lemma FreeIsEnabled(s: State, l: Label, id: string, once: bool)
    requires FreeStep(s, l, id, once)
    ensures Enabled(s, l) && (once ==> Fresh(s, l))
  {
  }

  /** A run in which no attempt is begun for a published ID, with a retention count of one and reliable listings, ends
      with `id` ready and its archive gone. */
  predicate Spoils(states: seq<State>, labels: seq<Label>, id: string) {
    && Run(states, labels) && Initial(states[0])
    && (forall k :: 0 <= k < |labels| ==>
          Fresh(states[k], labels[k]) && RetentionBound.Retains(states[k], labels[k], 1))
    && id in ReadyPoints(states[|labels|].world.manifests) && id !in states[|labels|].world.archives
  }

  /** Two attempts for one ID at once: both begin before anything is published, one publishes, the other lists
      that point, removes it and publishes it again. */
  lemma TwoAttemptsForOneIDSpoil(id: string, x: Input, y: Input)
    requires Canonical(id)
    ensures exists states, labels :: Spoils(states, labels, id)
  {
    hide Canonical, VeleroName, Path, Safe, Sound, Settled;
    var first, second := Handle(id, 0), Handle(id, 1);
    var l, m := Begin(first, x), Begin(second, y);
    NothingIsSettled();
    SafeIsSound(NOTHING);
    var s := Apply(NOTHING, l);
    SoundStep(NOTHING, l);
    SettledStep(NOTHING, l);
    var begun := Apply(s, m);
    var t, rest := TwinBeginSpoils(s, second, y, first);
    OneStep(Free(id, true), NOTHING, s, l);
    Longer(Free(id, true), NOTHING, s, begun, [l], m);
    OnwardIsFree(id, true, begun, t, rest);
    Joined(Free(id, true), NOTHING, begun, t, [l] + [m], rest);
    var states := FreeRun(id, true, t, [l] + [m] + rest);
    assert Spoils(states, [l] + [m] + rest, id);
  }

  lemma SafeIsSound(s: State)
    requires Safe(s)
    ensures Sound(s)
  {
  }

  // ----- a rerun -----

  /** A run from nothing that publishes `id`, and from step `n` on is a rerun of `id` that lists at step `n + q`
      and finds its own point ready; it ends with the point ready and its archive gone. */
  predicate Reruns(states: seq<State>, labels: seq<Label>, who: Handle, n: nat, q: nat) {
    && Run(states, labels) && Initial(states[0]) && n < |labels|
    && Rerun.RerunShape(states[n..], labels[n..], who, q, 1)
    && who.id in ReadyPoints(states[n + q].world.manifests)
    && who.id in ReadyPoints(states[|labels|].world.manifests) && who.id !in states[|labels|].world.archives
  }

  lemma OwnAt(who: Handle, s: State, t: State, labels: seq<Label>, k: nat)
    requires Path(Own(who), s, t, labels) && k < |labels|
    ensures var states := Visited(Own(who), s, t, labels);
            && who in states[k].active && labels[k] == NextStep(states[k], who) && Plain(states[k], labels[k], who.id)
            && states[k + 1] == Apply(states[k], labels[k])
  {
    var states := Visited(Own(who), s, t, labels);
    assert Own(who)(states[k], labels[k]) == Some(states[k + 1]);
  }

  lemma NextIsOwn(s: State, who: Handle)
    requires who in s.active && Plain(s, NextStep(s, who), who.id)
    ensures Rerun.OwnStep(NextStep(s, who), who) && !NextStep(s, who).SkipRetention?
    ensures NextStep(s, who).Publish? ==> who !in Apply(s, NextStep(s, who)).active
    ensures s.active[who].pc.Listing? ==>
              && NextStep(s, who).List? && NextStep(s, who).who == who && NextStep(s, who).retentionCount == 1
              && Lists(NextStep(s, who).listing, s.world.manifests)
  {
    hide Canonical, VeleroName;
  }

  /** Driving an attempt on from its upload is a rerun, if its point is the only one. */
  lemma DrivenIsRerun(s: State, who: Handle)
    returns (t: State, labels: seq<Label>, q: nat)
    requires Driveable(s, who) && PhaseRank(s, who) == 4
    requires who.id in ReadyPoints(s.world.manifests) && s.world.manifests.Keys == {who.id}
    ensures Path(Own(who), s, t, labels)
    ensures Rerun.RerunShape(Visited(Own(who), s, t, labels), labels, who, q, 1)
    ensures who.id in ReadyPoints(Visited(Own(who), s, t, labels)[q].world.manifests)
  {
    hide Apply, Driveable, NextStep, Lists, InOrder, Handled;
    var u, early := DriveTo(s, who, 1);
    var list := NextStep(u, who);
    ListStep(u, who);
    OneStep(Own(who), u, Apply(u, list), list);
    var v, late := FinishWork(Apply(u, list), who, VeleroName(who.id), who.id);
    PublishStep(v, who);
    var publish := Publish(who, true, true);
    PublishIsNext(v, who);
    t := Apply(v, publish);
    OneStep(Own(who), v, t, publish);
    Joined(Own(who), Apply(u, list), v, t, late, [publish]);
    Joined(Own(who), u, Apply(u, list), t, [list], late + [publish]);
    VisitedJoined(Own(who), s, u, t, early, [list] + (late + [publish]));
    labels, q := early + ([list] + (late + [publish])), |early|;
    ShapeOfDrive(who, s, t, labels, q);
  }

  lemma PublishIsNext(s: State, who: Handle)
    requires Driveable(s, who) && IsPublishing(s.active[who].pc)
    ensures NextStep(s, who) == Publish(who, true, true)
  {
  }

  lemma ShapeOfDrive(who: Handle, s: State, t: State, labels: seq<Label>, q: nat)
    requires Path(Own(who), s, t, labels) && who in s.active && s.active[who].pc == Uploading
    requires s.world.manifests.Keys == {who.id} && q < |labels| - 1
    requires var u := Visited(Own(who), s, t, labels)[q];
             who in u.active && u.active[who].pc.Listing? && u.world.manifests == s.world.manifests
    requires labels[|labels| - 1] == Publish(who, true, true)
    ensures Rerun.RerunShape(Visited(Own(who), s, t, labels), labels, who, q, 1)
  {
    hide Apply, Enabled, NextStep, Path, Lists;
    var states := Visited(Own(who), s, t, labels);
    forall k | 0 <= k < |labels|
      ensures Step(states[k], labels[k], states[k + 1]) && who in states[k].active
      ensures Rerun.OwnStep(labels[k], who) && !labels[k].SkipRetention?
      ensures k < |labels| - 1 ==> !labels[k].Publish?
    {
      OwnAt(who, s, t, labels, k);
      NextIsOwn(states[k], who);
      if k < |labels| - 1 {
        OwnAt(who, s, t, labels, k + 1);
      }
    }
    OwnAt(who, s, t, labels, 0);
    FirstIsUpload(s, who);
    OwnAt(who, s, t, labels, q);
    NextIsOwn(states[q], who);
  }

  lemma FirstIsUpload(s: State, who: Handle)
    requires who in s.active && s.active[who].pc == Uploading
    ensures NextStep(s, who) == Upload(who, true, true)
  {
  }

  /** Driving one attempt to its publication leaves its point ready and its backup in order. */
  lemma FirstAttempt(id: string, x: Input) returns (s: State, labels: seq<Label>)
    requires Canonical(id)
    ensures Path(Free(id, false), NOTHING, s, labels)
    ensures s.active == map[] && id in ReadyPoints(s.world.manifests) && s.world.manifests.Keys == {id}
    ensures s.world.manifests[id].recoveryPointID == id && !EndedUncleanly(s.world, id)
    ensures labels != [] && labels[0] == Begin(Handle(id, 0), x) && BeginsNothing(labels[1..])
  {
    hide Canonical, VeleroName, Path, Safe, Sound, Settled, OnlyPoint;
    var who, begin := Handle(id, 0), Begin(Handle(id, 0), x);
    NothingIsSettled();
    SafeIsSound(NOTHING);
    var begun := Apply(NOTHING, begin);
    OneStep(Free(id, false), NOTHING, begun, begin);
    var u, first := DriveToPublication(begun, who, VeleroName(id));
    OwnIsOnward(who, begun, u, first);
    PublishStep(u, who);
    s := Apply(u, Publish(who, true, true));
    Longer(Onward(id), begun, u, s, first, Publish(who, true, true));
    OnwardIsFree(id, false, begun, s, first + [Publish(who, true, true)]);
    Joined(Free(id, false), NOTHING, begun, s, [begin], first + [Publish(who, true, true)]);
    labels := [begin] + (first + [Publish(who, true, true)]);
    OnwardBeginsNothing(id, begun, s, first + [Publish(who, true, true)]);
    assert labels[1..] == first + [Publish(who, true, true)];
    assert u.active == map[who := u.active[who]] && s.active == map[];
    var states := FreeRun(id, false, s, labels);
    OnlyPointAtEnd(id, false, s, labels);
  }

  lemma OnlyPointAtEnd(id: string, once: bool, t: State, labels: seq<Label>)
    requires Path(Free(id, once), NOTHING, t, labels)
    ensures t.world.manifests.Keys <= {id} && Sound(t)
  {
    hide OnlyPoint, Apply;
    var states := Visited(Free(id, once), NOTHING, t, labels);
    forall k | 0 <= k < |labels|
      ensures FreeStep(states[k], labels[k], id, once) && states[k + 1] == Apply(states[k], labels[k])
    {
      assert Free(id, once)(states[k], labels[k]) == Some(states[k + 1]);
    }
    NothingIsOnlyPoint(id);
    OnlyPointAlways(states, labels, id, once, |labels|);
    OnlyPointManifests(t, id);
  }

  lemma OnlyPointManifests(s: State, id: string)
    requires OnlyPoint(s, id)
    ensures s.world.manifests.Keys <= {id} && Sound(s)
  {
  }

  /** For every ID there is such a run. The second attempt begins at step `b`. */
  lemma RerunHappens(id: string, x: Input, y: Input)
    returns (states: seq<State>, labels: seq<Label>, b: nat, n: nat, q: nat)
    requires Canonical(id)
    ensures Reruns(states, labels, Handle(id, 1), n, q) && 0 < b < n
    ensures labels[0] == Begin(Handle(id, 0), x) && labels[b] == Begin(Handle(id, 1), y)
    ensures BeginsNothing(labels[1..b]) && BeginsNothing(labels[b + 1..])
    ensures |states| == |labels| + 1
    ensures id in ReadyPoints(states[b].world.manifests) && states[b].world.manifests.Keys == {id}
    ensures forall k :: 0 <= k < |labels| ==> RetentionBound.Retains(states[k], labels[k], 1)
  {
    hide *;
    var s, before := FirstAttempt(id, x);
    var begin := Begin(Handle(id, 1), y);
    var begun, u, more := SecondAttempt(id, s, begin);
    Joined(Free(id, false), NOTHING, s, begun, before, [begin]);
    Joined(Free(id, false), NOTHING, begun, u, before + [begin], more);
    var rest;
    states, labels, rest, q := RerunFrom(u, Handle(id, 1), before + [begin] + more);
    b, n := |before|, |before + [begin] + more|;
    MiddleState(id, s, begun, u, labels, states, before, begin, more, rest);
    TogetherBeginNothing(more, rest);
    PartsOfRun(before, begin, more, rest);
  }

  lemma PartsOfRun(before: seq<Label>, begin: Label, more: seq<Label>, rest: seq<Label>)
    requires before != []
    ensures var labels, b := before + [begin] + more + rest, |before|;
            && labels[0] == before[0] && labels[b] == begin && b < |before + [begin] + more|
            && labels[1..b] == before[1..] && labels[b + 1..] == more + rest
  {
  }

  lemma SecondAttempt(id: string, s: State, begin: Label) returns (begun: State, u: State, more: seq<Label>)
    requires Canonical(id) && begin.Begin? && begin.who == Handle(id, 1)
    requires s.active == map[] && id in ReadyPoints(s.world.manifests) && s.world.manifests.Keys == {id}
    requires s.world.manifests[id].recoveryPointID == id && !EndedUncleanly(s.world, id)
    ensures Path(Free(id, false), s, begun, [begin]) && Path(Free(id, false), begun, u, more) && BeginsNothing(more)
    ensures Driveable(u, begin.who) && PhaseRank(u, begin.who) == 4
    ensures id in ReadyPoints(u.world.manifests) && u.world.manifests.Keys == {id}
  {
    hide Canonical, VeleroName, Path, BeginsNothing;
    begun := Apply(s, begin);
    OneStep(Free(id, false), s, begun, begin);
    u, more := DriveTo(begun, begin.who, 4);
    OwnIsOnward(begin.who, begun, u, more);
    OnwardIsFree(id, false, begun, u, more);
    OnwardBeginsNothing(id, begun, u, more);
  }

  lemma MiddleState(id: string, s: State, begun: State, u: State, labels: seq<Label>, states: seq<State>,
      before: seq<Label>, begin: Label, more: seq<Label>, rest: seq<Label>)
    requires Path(Free(id, false), NOTHING, s, before) && Path(Free(id, false), s, begun, [begin])
    requires Path(Free(id, false), begun, u, more) && labels == before + [begin] + more + rest && |states| > 0
    requires Path(Free(id, false), u, states[|states| - 1], rest)
    requires Path(Free(id, false), NOTHING, states[|states| - 1], labels)
    requires states == Visited(Free(id, false), NOTHING, states[|states| - 1], labels)
    ensures |before| < |states| && states[|before|] == s
  {
    hide Path, Visited;
    var next, t := Free(id, false), states[|states| - 1];
    Joined(next, s, begun, u, [begin], more);
    Joined(next, s, u, t, [begin] + more, rest);
    VisitedJoined(next, NOTHING, s, t, before, [begin] + more + rest);
    assert labels == before + ([begin] + more + rest);
  }

  predicate BeginsNothing(labels: seq<Label>) {
    forall k :: 0 <= k < |labels| ==> !labels[k].Begin?
  }

  lemma OnwardBeginsNothing(id: string, s: State, t: State, labels: seq<Label>)
    requires Path(Onward(id), s, t, labels)
    ensures BeginsNothing(labels)
  {
    hide Apply, Enabled;
    var states := Visited(Onward(id), s, t, labels);
    forall k | 0 <= k < |labels| ensures !labels[k].Begin? {
      assert Onward(id)(states[k], labels[k]) == Some(states[k + 1]);
    }
  }

  lemma TogetherBeginNothing(first: seq<Label>, second: seq<Label>)
    requires BeginsNothing(first) && BeginsNothing(second)
    ensures BeginsNothing(first + second)
  {
  }

  lemma RerunFrom(u: State, who: Handle, before: seq<Label>)
    returns (states: seq<State>, labels: seq<Label>, rest: seq<Label>, q: nat)
    requires Path(Free(who.id, false), NOTHING, u, before)
    requires Driveable(u, who) && PhaseRank(u, who) == 4
    requires who.id in ReadyPoints(u.world.manifests) && u.world.manifests.Keys == {who.id}
    ensures Reruns(states, labels, who, |before|, q) && |states| == |labels| + 1
    ensures labels == before + rest && BeginsNothing(rest)
    ensures Path(Free(who.id, false), u, states[|labels|], rest)
    ensures Path(Free(who.id, false), NOTHING, states[|labels|], labels)
    ensures states == Visited(Free(who.id, false), NOTHING, states[|labels|], labels)
    ensures forall k :: 0 <= k < |labels| ==> RetentionBound.Retains(states[k], labels[k], 1)
  {
    hide Path, Sound, OnlyPoint, Driveable, Apply, Enabled, Rerun.RerunShape, Plain, NextStep, BeginsNothing;
    var next := Free(who.id, false);
    var t;
    t, rest, q := DrivenIsRerun(u, who);
    OwnIsOnward(who, u, t, rest);
    OnwardBeginsNothing(who.id, u, t, rest);
    VisitedOwn(who, u, t, rest);
    VisitedJoined(next, NOTHING, u, t, before, rest);
    labels := before + rest;
    states := FreeRun(who.id, false, t, labels);
    var n := |before|;
    assert labels[n..] == rest && states[n..] == Visited(Own(who), u, t, rest);
    ShapeSize(states[n..], rest, who, q);
    assert states[n + q] == states[n..][q];
    OnlyPointAtEnd(who.id, false, u, before);
    Rerun.RerunWithRetentionOne(states[n..], rest, who, q);
    assert states[n..][|rest|] == states[|labels|];
  }

  lemma VisitedOwn(who: Handle, s: State, t: State, labels: seq<Label>)
    requires Path(Own(who), s, t, labels)
    ensures Path(Free(who.id, false), s, t, labels)
    ensures Visited(Free(who.id, false), s, t, labels) == Visited(Own(who), s, t, labels)
  {
    hide Apply, NextStep, Enabled;
    Wider(Own(who), Free(who.id, false), s, t, labels);
  }

  lemma ShapeSize(states: seq<State>, labels: seq<Label>, who: Handle, q: nat)
    requires Rerun.RerunShape(states, labels, who, q, 1)
    ensures |states| == |labels| + 1 && q < |labels|
  {
  }

  // ----- a second input -----

  /** Steps of disciplined runs. */
  function Tidy(): (State, Label) -> Option<State> {
    (s: State, l: Label) => if Enabled(s, l) && Fresh(s, l) && Exclusive(s, l) then Some(Apply(s, l)) else None
  }

  lemma OwnIsTidy(who: Handle, s: State, t: State, labels: seq<Label>)
    requires Path(Own(who), s, t, labels)
    ensures Path(Tidy(), s, t, labels)
  {
    hide Apply, Enabled, NextStep;
    Wider(Own(who), Tidy(), s, t, labels);
  }

  lemma TidyRun(s: State, t: State, labels: seq<Label>) returns (states: seq<State>)
    requires Path(Tidy(), s, t, labels)
    ensures Disciplined(states, labels) && states == Visited(Tidy(), s, t, labels)
  {
    hide Apply, Enabled, Fresh, Exclusive;
    states := Visited(Tidy(), s, t, labels);
    forall k | 0 <= k < |labels|
      ensures Step(states[k], labels[k], states[k + 1])
      ensures Fresh(states[k], labels[k]) && Exclusive(states[k], labels[k])
    {
      assert Tidy()(states[k], labels[k]) == Some(states[k + 1]);
    }
  }

  /** An attempt that uploads and stops. */
  lemma UploadAndStop(id: string, x: Input) returns (s: State, labels: seq<Label>)
    requires Canonical(id)
    ensures Path(Tidy(), NOTHING, s, labels)
    ensures s.active == map[] && s.published == {} && s.world.manifests == map[] && !EndedUncleanly(s.world, id)
    ensures id in s.given && s.given[id] == x && Stores(s, id, x)
  {
    hide Canonical, VeleroName, Path;
    var who, begin := Handle(id, 0), Begin(Handle(id, 0), x);
    var begun := Apply(NOTHING, begin);
    OneStep(Tidy(), NOTHING, begun, begin);
    var u, more := DriveTo(begun, who, 4);
    OwnIsTidy(who, begun, u, more);
    Joined(Tidy(), NOTHING, begun, u, [begin], more);
    assert u.active == map[who := u.active[who]];
    var v := Apply(u, Upload(who, true, true));
    Longer(Tidy(), NOTHING, u, v, [begin] + more, Upload(who, true, true));
    s := Apply(v, Stop(who));
    Longer(Tidy(), NOTHING, v, s, [begin] + more + [Upload(who, true, true)], Stop(who));
    labels := [begin] + more + [Upload(who, true, true)] + [Stop(who)];
    assert s.active == map[];
  }

  /** The next attempt for the same ID publishes. */
  lemma PublishNext(id: string, y: Input, s: State) returns (t: State, labels: seq<Label>)
    requires Canonical(id) && s.active == map[] && s.published == {} && s.world.manifests == map[]
    requires !EndedUncleanly(s.world, id)
    ensures Path(Tidy(), s, t, labels) && labels != []
    ensures id in ReadyPoints(t.world.manifests) && id in t.given && t.given[id] == y
  {
    hide Canonical, VeleroName, Path;
    var who, begin := Handle(id, 1), Begin(Handle(id, 1), y);
    var begun := Apply(s, begin);
    OneStep(Tidy(), s, begun, begin);
    var u, more := DriveToPublication(begun, who, VeleroName(id));
    OwnIsTidy(who, begun, u, more);
    Joined(Tidy(), s, begun, u, [begin], more);
    PublishStep(u, who);
    t := Apply(u, Publish(who, true, true));
    Longer(Tidy(), s, u, t, [begin] + more, Publish(who, true, true));
    labels := [begin] + more + [Publish(who, true, true)];
  }

  /** For every ID and any two inputs a disciplined run uploads the first for it and ends with the point ready and
      the second in its place: what a restore returns is one archive for all time only if the ID is given one only. */
  lemma SecondInputReplacesTheFirst(id: string, x: Input, y: Input)
    returns (states: seq<State>, labels: seq<Label>, i: nat)
    requires Canonical(id)
    ensures Disciplined(states, labels) && Initial(states[0]) && i < |labels| && |states| == |labels| + 1
    ensures id in states[i].given && states[i].given[id] == x && Stores(states[i], id, x)
    ensures id in ReadyPoints(states[|labels|].world.manifests) && Stores(states[|labels|], id, y)
  {
    hide *;
    var s, before := UploadAndStop(id, x);
    var t, more := PublishNext(id, y, s);
    VisitedJoined(Tidy(), NOTHING, s, t, before, more);
    labels, i := before + more, |before|;
    states := TidyRun(NOTHING, t, labels);
    NothingIsSettled();
    CurrentAlways(states, labels, |labels|);
    ReadyIsCurrent(t, id);
  }
}

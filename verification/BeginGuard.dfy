/** The exact condition on beginning an attempt: without it some continuation leaves a ready point that cannot be
    restored, with it no continuation does. */
module BeginGuard {
  import opened Wrappers
  import opened Ids
  import opened Keys
  import opened Recovery
  import opened Retention
  import opened Lifecycle
  import opened LifecycleSafety
  import opened Paths

  // ----- what also holds in every run -----

  predicate AttemptSettled(s: State, who: Handle)
    requires who in s.active
  {
    var pc := s.active[who].pc;
    && (pc.Waiting? && VeleroName(who.id) !in s.world.deletes ==> VeleroName(who.id) in s.world.backups)
    && (pc.Retaining? && pc.stage != DroppingBackup ==>
          pc.toMark == [] && pc.toDelete != [] && pc.toDelete[0].veleroBackupName in s.world.deletes)
  }

  /** A published point loses its Velero backup or its manifest only after a deletion request. */
  ghost predicate Settled(s: State) {
    && (forall who :: who in s.active ==> AttemptSettled(s, who))
    && (forall id :: id in s.published && VeleroName(id) !in s.world.deletes ==>
          CleanBackup(s.world, id) && id in s.world.manifests)
  }

  lemma AttemptSettledStep(s: State, l: Label, who: Handle)
    requires Sound(s) && Settled(s) && Enabled(s, l) && who in Apply(s, l).active
    ensures AttemptSettled(Apply(s, l), who)
  {
    hide Canonical, VeleroName, Sound;
    assert who in s.active || l.Begin?;
  }

  lemma PublishedSettledStep(s: State, l: Label, id: string)
    requires Sound(s) && Settled(s) && Enabled(s, l)
    requires id in Apply(s, l).published && VeleroName(id) !in Apply(s, l).world.deletes
    ensures CleanBackup(Apply(s, l).world, id) && id in Apply(s, l).world.manifests
  {
    hide Canonical, VeleroName;
    if l.DropManifest? {
      var m := s.active[l.who].pc.toDelete[0];
      assert AttemptSound(s, l.who) && m in s.active[l.who].pc.toDelete && Owned(m, m.recoveryPointID);
      assert AttemptSettled(s, l.who);
    } else if l.Publish? && l.who.id == id {
      assert AttemptSound(s, l.who);
    }
  }

  lemma SettledStep(s: State, l: Label)
    requires Sound(s) && Settled(s) && Enabled(s, l)
    ensures Settled(Apply(s, l))
  {
    hide AttemptSettled, CleanBackup, Sound, Apply, Enabled;
    var t := Apply(s, l);
    forall who | who in t.active ensures AttemptSettled(t, who) {
      AttemptSettledStep(s, l, who);
    }
    forall id | id in t.published && VeleroName(id) !in t.world.deletes
      ensures CleanBackup(t.world, id) && id in t.world.manifests
    {
      PublishedSettledStep(s, l, id);
    }
  }

  lemma {:induction false} SettledAlways(states: seq<State>, labels: seq<Label>, i: nat)
    requires Run(states, labels) && Sound(states[0]) && Settled(states[0]) && i < |states|
    ensures Settled(states[i])
  {
    if i > 0 {
      hide Sound, Settled, Apply, Enabled;
      SettledAlways(states, labels, i - 1);
      SoundAlways(states, labels, i - 1);
      assert Step(states[i - 1], labels[i - 1], states[i - 1 + 1]);
      SettledStep(states[i - 1], labels[i - 1]);
    }
  }

  // ----- driving an attempt on -----

  /** A listing with retention count one, reliable if `id` is the only point. */
  predicate PlainList(s: State, l: Label, id: string)
    requires l.List?
  {
    l.retentionCount == 1 && (s.world.manifests.Keys <= {id} ==> IDs(l.listing) == s.world.manifests.Keys)
  }

  /** Steps that begin nothing and retain one point. */
  predicate Plain(s: State, l: Label, id: string) {
    Enabled(s, l) && !l.Begin? && !l.SkipRetention? && (l.List? ==> PlainList(s, l, id))
  }

  function Onward(id: string): (State, Label) -> Option<State> {
    (s: State, l: Label) => if Plain(s, l, id) then Some(Apply(s, l)) else None
  }

  /** The steps of the attempt `who` towards its publication. */
  function Own(who: Handle): (State, Label) -> Option<State> {
    (s: State, l: Label) =>
      if who in s.active && l == NextStep(s, who) && Plain(s, l, who.id) then Some(Apply(s, l)) else None
  }

  lemma OwnIsOnward(who: Handle, s: State, t: State, labels: seq<Label>)
    requires Path(Own(who), s, t, labels)
    ensures Path(Onward(who.id), s, t, labels)
  {
    hide Plain, Apply, NextStep;
    Wider(Own(who), Onward(who.id), s, t, labels);
  }

  /** The attempt can be driven to its publication. */
  predicate Driveable(s: State, who: Handle) {
    && who in s.active && !EndedUncleanly(s.world, who.id)
    && (s.active[who].pc.Waiting? ==> VeleroName(who.id) in s.world.backups)
    && (who.id in s.world.manifests ==> s.world.manifests[who.id].recoveryPointID == who.id)
  }

  function Shown(s: State, id: string): seq<Manifest> {
    if id in s.world.manifests then [s.world.manifests[id]] else []
  }

  function StageRank(stage: Stage): nat {
    match stage
    case DroppingBackup => 2
    case DroppingArchive => 1
    case DroppingManifest => 0
  }

  /** How far the attempt is from its publication. */
  function PhaseRank(s: State, who: Handle): nat
    requires who in s.active
  {
    match s.active[who].pc
    case Creating => 7
    case Waiting =>
      var name := VeleroName(who.id);
      if name in s.world.backups && s.world.backups[name] == InProgress then 6 else 5
    case Uploading => 4
    case Stamping => if s.clock == ZERO_TIME then 3 else 2
    case Listing(_) => 1
    case Retaining(_, _, _, _) => 0
  }

  function WorkRank(pc: Pc): nat {
    if pc.Retaining? then 4 * |pc.toMark| + 3 * |pc.toDelete| + StageRank(pc.stage) else 0
  }

  /** The next step towards the publication. */
  function NextStep(s: State, who: Handle): Label
    requires who in s.active
  {
    match s.active[who].pc
    case Creating => CreateBackup(who, true, true)
    case Waiting =>
      if VeleroName(who.id) in s.world.backups && s.world.backups[VeleroName(who.id)] == InProgress
      then VeleroEnds(VeleroName(who.id), Completed(0)) else Observe(who)
    case Uploading => Upload(who, true, true)
    case Stamping => if s.clock == ZERO_TIME then Tick(1) else Stamp(who)
    case Listing(_) => List(who, Shown(s, who.id), 1)
    case Retaining(_, toMark, toDelete, stage) =>
      if toMark != [] then Mark(who, true, true)
      else if toDelete == [] then Publish(who, true, true)
      else
        match stage
        case DroppingBackup => DropBackup(who, true, true)
        case DroppingArchive => DropArchive(who, true, true)
        case DroppingManifest => DropManifest(who, true, true)
  }

  /** Only the attempt `who` has moved. */
  predicate OnlyMoved(s: State, t: State, who: Handle) {
    && who in s.active && who in t.active && t.active == s.active[who := t.active[who]]
    && t.active[who].input == s.active[who].input
    && t.published == s.published && t.given == s.given && s.world.deletes <= t.world.deletes
  }

  lemma EarlyStep(s: State, who: Handle)
    requires Driveable(s, who) && !s.active[who].pc.Retaining? && !s.active[who].pc.Listing?
    ensures Plain(s, NextStep(s, who), who.id)
    ensures var t := Apply(s, NextStep(s, who));
            && Driveable(t, who) && OnlyMoved(s, t, who) && !t.active[who].pc.Retaining?
            && PhaseRank(t, who) < PhaseRank(s, who) && (PhaseRank(s, who) > 4 ==> PhaseRank(t, who) >= 4)
            && t.world.manifests == s.world.manifests
  {
    hide VeleroName;
  }

  /** Drives the attempt to phase `phase`: ready to upload (4) or ready to list (1). */
  lemma {:induction false} DriveTo(s: State, who: Handle, phase: nat) returns (t: State, labels: seq<Label>)
    requires Driveable(s, who) && phase <= PhaseRank(s, who) && (phase == 4 || phase == 1)
    ensures Path(Own(who), s, t, labels)
    ensures Driveable(t, who) && OnlyMoved(s, t, who) && PhaseRank(t, who) == phase
    ensures t.world.manifests == s.world.manifests
    decreases PhaseRank(s, who)
  {
    if PhaseRank(s, who) == phase {
      t, labels := s, [];
      Nowhere(Own(who), s);
    } else {
      EarlyStep(s, who);
      hide Plain, Apply, Driveable, NextStep;
      var l := NextStep(s, who);
      var rest;
      t, rest := DriveTo(Apply(s, l), who, phase);
      labels := [l] + rest;
      OneStep(Own(who), s, Apply(s, l), l);
      Joined(Own(who), s, Apply(s, l), t, [l], rest);
    }
  }

  lemma ListStep(s: State, who: Handle)
    requires Driveable(s, who) && s.active[who].pc.Listing?
    ensures Plain(s, NextStep(s, who), who.id)
    ensures var t := Apply(s, NextStep(s, who));
            && Driveable(t, who) && OnlyMoved(s, t, who) && t.active[who].pc.Retaining? && InOrder(t, who)
            && (who.id in s.world.manifests ==> Handled(t, who, s.world.manifests[who.id].veleroBackupName, who.id))
  {
    hide VeleroName;
    var listing := Shown(s, who.id);
    assert who.id in s.world.manifests ==> listing[0].recoveryPointID == who.id;
    assert IDs(listing) == if who.id in s.world.manifests then {who.id} else {};
    if who.id in s.world.manifests {
      var m := s.world.manifests[who.id];
      assert listing == [m] && [m][1..] == [];
      assert ListedReady([m]) == if m.status == Deleting then [] else [m];
      assert ListedDeleting([m]) == if m.status == Deleting then [m] else [];
      var pc := Apply(s, NextStep(s, who)).active[who].pc;
      assert pc.toMark == ListedReady([m]) && pc.toDelete == ListedDeleting([m]);
      assert m in pc.toMark || m in pc.toDelete;
    }
  }

  /** The deletion of the first entry has gone as far as its stage says. */
  predicate InOrder(s: State, who: Handle)
    requires who in s.active && s.active[who].pc.Retaining?
  {
    var pc := s.active[who].pc;
    pc.stage != DroppingBackup ==>
      pc.toMark == [] && pc.toDelete != [] && pc.toDelete[0].veleroBackupName in s.world.deletes
  }

  /** The point is on the work list, or its backup's deletion is requested and its archive gone. */
  ghost predicate Handled(s: State, who: Handle, name: string, id: string)
    requires who in s.active && s.active[who].pc.Retaining?
  {
    var pc := s.active[who].pc;
    && (pc.stage == DroppingManifest && pc.toDelete != [] ==> pc.toDelete[0].recoveryPointID !in s.world.archives)
    && (|| (name in s.world.deletes && id !in s.world.archives)
        || (exists m :: (m in pc.toMark || m in pc.toDelete) && m.veleroBackupName == name && m.recoveryPointID == id))
  }

  lemma WorkStep(s: State, who: Handle)
    requires Driveable(s, who) && s.active[who].pc.Retaining? && !IsPublishing(s.active[who].pc)
    requires InOrder(s, who)
    ensures Plain(s, NextStep(s, who), who.id)
    ensures var t := Apply(s, NextStep(s, who));
            && Driveable(t, who) && OnlyMoved(s, t, who) && t.active[who].pc.Retaining? && InOrder(t, who)
            && WorkRank(t.active[who].pc) < WorkRank(s.active[who].pc)
  {
    hide VeleroName;
  }

  lemma HandledStep(s: State, who: Handle, name: string, id: string)
    requires Driveable(s, who) && s.active[who].pc.Retaining? && !IsPublishing(s.active[who].pc)
    requires InOrder(s, who) && Handled(s, who, name, id) && Enabled(s, NextStep(s, who))
    requires var t := Apply(s, NextStep(s, who)); who in t.active && t.active[who].pc.Retaining?
    ensures Handled(Apply(s, NextStep(s, who)), who, name, id)
  {
    hide VeleroName;
    var pc, t := s.active[who].pc, Apply(s, NextStep(s, who));
    if !(name in s.world.deletes && id !in s.world.archives) {
      var m :| (m in pc.toMark || m in pc.toDelete) && m.veleroBackupName == name && m.recoveryPointID == id;
      if pc.toMark != [] {
        if m in pc.toMark && m !in pc.toMark[1..] {
          assert AsDeleting(m) in t.active[who].pc.toDelete;
        } else {
          assert m in t.active[who].pc.toMark || m in t.active[who].pc.toDelete;
        }
      } else {
        assert m == pc.toDelete[0] || m in pc.toDelete[1..];
      }
    }
  }

  /** The rest of a retention pass: afterwards every point that was handled has lost its archive, and Velero may
      delete its backup. */
  lemma {:induction false} FinishWork(s: State, who: Handle, name: string, id: string)
    returns (t: State, labels: seq<Label>)
    requires Driveable(s, who) && s.active[who].pc.Retaining? && InOrder(s, who)
    ensures Path(Own(who), s, t, labels)
    ensures Driveable(t, who) && OnlyMoved(s, t, who) && IsPublishing(t.active[who].pc)
    ensures Handled(s, who, name, id) ==> name in t.world.deletes && id !in t.world.archives
    decreases WorkRank(s.active[who].pc)
  {
    if IsPublishing(s.active[who].pc) {
      t, labels := s, [];
      Nowhere(Own(who), s);
    } else {
      WorkStep(s, who);
      if Handled(s, who, name, id) {
        HandledStep(s, who, name, id);
      }
      hide Plain, Apply, Enabled, Driveable, NextStep, Handled;
      var l := NextStep(s, who);
      var rest;
      t, rest := FinishWork(Apply(s, l), who, name, id);
      labels := [l] + rest;
      OneStep(Own(who), s, Apply(s, l), l);
      Joined(Own(who), s, Apply(s, l), t, [l], rest);
    }
  }

  // ----- the exact condition -----

  /** A ready point that cannot be restored. */
  predicate Incomplete(w: World, id: string) {
    id in ReadyPoints(w.manifests) && !(id in w.archives && CleanBackup(w, id))
  }

  lemma DriveToPublication(s: State, who: Handle, name: string)
    returns (t: State, labels: seq<Label>)
    requires who in s.active && Driveable(s, who) && (s.active[who].pc.Retaining? ==> InOrder(s, who))
    requires who.id in s.world.manifests ==> s.world.manifests[who.id].veleroBackupName == name
    ensures Path(Own(who), s, t, labels)
    ensures Driveable(t, who) && OnlyMoved(s, t, who) && IsPublishing(t.active[who].pc)
    ensures !s.active[who].pc.Retaining? && who.id in s.world.manifests ==>
              name in t.world.deletes && who.id !in t.world.archives
  {
    hide Apply, Driveable, NextStep, Handled, InOrder;
    if s.active[who].pc.Retaining? {
      t, labels := FinishWork(s, who, name, who.id);
    } else {
      var u, early := DriveTo(s, who, 1);
      assert u.active[who].pc.Listing?;
      ListStep(u, who);
      var v := Apply(u, NextStep(u, who));
      OneStep(Own(who), u, v, NextStep(u, who));
      Joined(Own(who), s, u, v, early, [NextStep(u, who)]);
      var late;
      t, late := FinishWork(v, who, name, who.id);
      labels := early + [NextStep(u, who)] + late;
      Joined(Own(who), s, v, t, early + [NextStep(u, who)], late);
    }
  }

  lemma PublishStep(s: State, who: Handle)
    requires Driveable(s, who) && IsPublishing(s.active[who].pc)
    ensures Plain(s, Publish(who, true, true), who.id)
    ensures var t := Apply(s, Publish(who, true, true));
            && t.active == s.active - {who} && t.world.deletes == s.world.deletes
            && t.world.backups == s.world.backups && t.world.archives == s.world.archives
            && who.id in t.world.manifests
            && t.world.manifests[who.id] == NewManifest(who.id, s.active[who].pc.createdAt)
  {
    hide VeleroName;
  }

  /** The attempt publishes; if a deletion of its backup has been requested, Velero deletes it after that. */
  lemma PublishDoomed(s: State, who: Handle) returns (t: State, labels: seq<Label>)
    requires Driveable(s, who) && IsPublishing(s.active[who].pc) && VeleroName(who.id) in s.world.deletes
    ensures Path(Onward(who.id), s, t, labels) && Incomplete(t.world, who.id) && t.world.archives == s.world.archives
  {
    hide VeleroName, Driveable;
    PublishStep(s, who);
    var u, l := Apply(s, Publish(who, true, true)), VeleroDeletes(VeleroName(who.id));
    OneStep(Onward(who.id), s, u, Publish(who, true, true));
    t, labels := Apply(u, l), [Publish(who, true, true)] + [l];
    Longer(Onward(who.id), s, u, t, [Publish(who, true, true)], l);
  }

  /** An attempt for a point that has a manifest, or whose backup is to be deleted, ends incomplete if it is
      driven on. */
  lemma SecondAttemptSpoils(s: State, who: Handle) returns (t: State, labels: seq<Label>)
    requires who in s.active && Driveable(s, who) && !s.active[who].pc.Retaining?
    requires who.id in s.world.manifests ==> s.world.manifests[who.id].veleroBackupName == VeleroName(who.id)
    requires who.id in s.world.manifests || VeleroName(who.id) in s.world.deletes
    ensures Path(Onward(who.id), s, t, labels) && Incomplete(t.world, who.id)
    ensures who.id in s.world.manifests ==> who.id !in t.world.archives
  {
    hide VeleroName, Driveable, Plain, Apply;
    var u, first := DriveToPublication(s, who, VeleroName(who.id));
    OwnIsOnward(who, s, u, first);
    var last;
    t, last := PublishDoomed(u, who);
    labels := first + last;
    Joined(Onward(who.id), s, u, t, first, last);
  }

  predicate BeginsWell(s: State, who: Handle, input: Input) {
    Fresh(s, Begin(who, input)) && Exclusive(s, Begin(who, input))
  }

  /** Beginning an attempt for a published ID. */
  lemma StaleBeginSpoils(s: State, who: Handle, input: Input) returns (t: State, labels: seq<Label>)
    requires Sound(s) && Settled(s) && Enabled(s, Begin(who, input)) && who.id in s.published
    ensures Path(Onward(who.id), Apply(s, Begin(who, input)), t, labels) && Incomplete(t.world, who.id)
  {
    hide VeleroName, Canonical;
    var begun := Apply(s, Begin(who, input));
    var name := VeleroName(who.id);
    if name in s.world.deletes {
      var u := Apply(begun, VeleroDeletes(name));
      OneStep(Onward(who.id), begun, u, VeleroDeletes(name));
      var rest;
      t, rest := SecondAttemptSpoils(u, who);
      labels := [VeleroDeletes(name)] + rest;
      Joined(Onward(who.id), begun, u, t, [VeleroDeletes(name)], rest);
    } else {
      t, labels := SecondAttemptSpoils(begun, who);
    }
  }

  /** Beginning an attempt next to another one for the same unpublished ID, which can still be published. */
  lemma TwinBeginSpoils(s: State, who: Handle, input: Input, other: Handle) returns (t: State, labels: seq<Label>)
    requires Sound(s) && Settled(s) && Enabled(s, Begin(who, input)) && who.id !in s.published
    requires other in s.active && other.id == who.id && !EndedUncleanly(s.world, who.id)
    ensures Path(Onward(who.id), Apply(s, Begin(who, input)), t, labels) && Incomplete(t.world, who.id)
    ensures who.id !in t.world.archives
  {
    hide VeleroName, Canonical, NextStep;
    var begun := Apply(s, Begin(who, input));
    assert AttemptSettled(s, other) && AttemptSound(s, other);
    assert Driveable(begun, other);
    var u, first := DriveToPublication(begun, other, VeleroName(who.id));
    OwnIsOnward(other, begun, u, first);
    PublishStep(u, other);
    var l := Publish(other, true, true);
    var v := Apply(u, l);
    Longer(Onward(who.id), begun, u, v, first, l);
    var rest;
    t, rest := SecondAttemptSpoils(v, who);
    labels := first + [l] + rest;
    Joined(Onward(who.id), begun, v, t, first + [l], rest);
  }

  lemma BadBeginSpoils(s: State, who: Handle, input: Input) returns (t: State, labels: seq<Label>)
    requires Sound(s) && Settled(s) && Enabled(s, Begin(who, input)) && !BeginsWell(s, who, input)
    ensures Path(Onward(who.id), Apply(s, Begin(who, input)), t, labels) && Incomplete(t.world, who.id)
    ensures who.id !in s.published ==> who.id !in t.world.archives
  {
    if who.id in s.published {
      t, labels := StaleBeginSpoils(s, who, input);
    } else {
      var other :| other in s.active && other.id == who.id;
      t, labels := TwinBeginSpoils(s, who, input, other);
    }
  }

  /** What a path visits is a disciplined run, in which nothing more begins. */
  lemma PathIsRun(id: string, s: State, t: State, labels: seq<Label>) returns (states: seq<State>)
    requires Path(Onward(id), s, t, labels)
    ensures Disciplined(states, labels) && states[0] == s && states[|labels|] == t
    ensures forall k :: 0 <= k < |labels| ==> Plain(states[k], labels[k], id)
  {
    states := Visited(Onward(id), s, t, labels);
    forall k | 0 <= k < |labels|
      ensures Plain(states[k], labels[k], id) && states[k + 1] == Apply(states[k], labels[k])
    {
      assert Onward(id)(states[k], labels[k]) == Some(states[k + 1]);
    }
    hide Plain, Apply, Enabled;
    forall k | 0 <= k < |labels|
      ensures Step(states[k], labels[k], states[k + 1])
      ensures Fresh(states[k], labels[k]) && Exclusive(states[k], labels[k])
    {
      PlainIsEnabled(states[k], labels[k], id);
    }
  }

  lemma PlainIsEnabled(s: State, l: Label, id: string)
    requires Plain(s, l, id)
    ensures Enabled(s, l) && !l.Begin?
  {
  }

  /** No disciplined continuation ever has a ready point that cannot be restored. */
  ghost predicate StaysComplete(s: State) {
    forall states: seq<State>, labels: seq<Label>, i: nat, id: string ::
      Disciplined(states, labels) && states[0] == s && i < |states| ==> !Incomplete(states[i].world, id)
  }

  lemma SafeStaysComplete(s: State)
    requires Safe(s)
    ensures StaysComplete(s)
  {
    forall states: seq<State>, labels: seq<Label>, i: nat, id: string
      | Disciplined(states, labels) && states[0] == s && i < |states|
      ensures !Incomplete(states[i].world, id)
    {
      SafeAlways(states, labels, i);
    }
  }

  /** From any state that a disciplined run can reach, an attempt may be begun without risk if and only if its ID
      is not published and no other attempt works for it, unless its Velero backup has ended uncleanly: exactly
      then no continuation leaves a ready point without its archive or its clean backup. */
  lemma BeginExactly(s: State, who: Handle, input: Input)
    requires Safe(s) && Settled(s) && Enabled(s, Begin(who, input))
    ensures BeginsWell(s, who, input) <==> StaysComplete(Apply(s, Begin(who, input)))
  {
    hide Sound, Settled, Apply, Enabled, Incomplete, Exclusive;
    var begun := Apply(s, Begin(who, input));
    if BeginsWell(s, who, input) {
      SafeStep(s, Begin(who, input));
      SafeStaysComplete(begun);
    } else {
      var t, labels := BadBeginSpoils(s, who, input);
      var states := PathIsRun(who.id, begun, t, labels);
      assert Incomplete(states[|labels|].world, who.id);
    }
  }

  /** The states of disciplined runs are such states. */
  lemma ReachedStates(states: seq<State>, labels: seq<Label>, i: nat)
    requires Disciplined(states, labels) && Initial(states[0]) && i < |states|
    ensures Safe(states[i]) && Settled(states[i])
  {
    InitialIsSafe(states[0]);
    SafeAlways(states, labels, i);
    SettledAlways(states, labels, i);
  }
}

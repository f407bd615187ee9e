/** The backup workflow, call by call. Every execution, whatever fails, is a run of the life cycle. */
module Executor {
  import opened Wrappers
  import opened Text
  import opened Ids
  import opened Keys
  import opened Recovery
  import opened Retention
  import opened Ranking
  import opened RecoveryStore
  import opened Representation
  import opened Lifecycle
  import opened LifecycleSafety
  import opened VeleroClient
  import opened RetentionBound
  import opened OperationFiles

  /** `Panic` is the index out of range of a retention count below one. */
  datatype Outcome = Done | Failure | Panic

  function AsLabel(e: Event): Label {
    match e
    case Ended(name, phase) => VeleroEnds(name, phase)
    case Removed(name) => VeleroDeletes(name)
  }

  lemma Extend(states: seq<State>, labels: seq<Label>, l: Label)
    requires Run(states, labels) && Enabled(states[|labels|], l)
    ensures Run(states + [Apply(states[|labels|], l)], labels + [l])
  {
    var more, ls := states + [Apply(states[|labels|], l)], labels + [l];
    forall i | 0 <= i < |ls| ensures Step(more[i], ls[i], more[i + 1]) {
      if i < |labels| {
        assert Step(states[i], labels[i], states[i + 1]);
      }
    }
  }

  lemma {:induction false} ListedReadyAppend(ms: seq<Manifest>, m: Manifest)
    ensures ListedReady(ms + [m]) == ListedReady(ms) + if m.status == Deleting then [] else [m]
  {
    if ms == [] {
      assert ms + [m] == [m] && [m][1..] == [];
    } else {
      assert (ms + [m])[1..] == ms[1..] + [m];
      ListedReadyAppend(ms[1..], m);
    }
  }

  lemma {:induction false} ListedDeletingAppend(ms: seq<Manifest>, m: Manifest)
    ensures ListedDeleting(ms + [m]) == ListedDeleting(ms) + if m.status == Deleting then [m] else []
  {
    if ms == [] {
      assert ms + [m] == [m] && [m][1..] == [];
    } else {
      assert (ms + [m])[1..] == ms[1..] + [m];
      ListedDeletingAppend(ms[1..], m);
    }
  }

  /** A label of the attempt `who`, or of Velero or the clock. */
  predicate Mine(l: Label, who: Handle) {
    match l
    case Tick(_) => true
    case VeleroEnds(_, _) => true
    case VeleroDeletes(_) => true
    case _ => l.who == who
  }

  lemma ProceedTwice(s: State, who: Handle, w: World, next: Pc, v: World, ok: bool, last: Pc)
    requires who in s.active
    ensures Proceed(Proceed(s, who, w, true, next), who, v, ok, last) == Proceed(s, who, v, ok, last)
  {
    assert s.active[who := s.active[who].(pc := next)] - {who} == s.active - {who};
  }

  /** Steps of the attempt other than its beginning, its listing and its publication. */
  predicate Quiet(l: Label, who: Handle) {
    Mine(l, who) && !l.Begin? && !l.SkipRetention? && !l.List? && !l.Publish?
  }

  function CreatedBackups(w: World, id: string, effect: bool): map<string, Phase> {
    if effect && VeleroName(id) !in w.backups then w.backups[VeleroName(id) := InProgress] else w.backups
  }

  /** The run has been prolonged by quiet steps of the attempt `who` and of its environment only. */
  predicate Extends(s0: seq<State>, l0: seq<Label>, s1: seq<State>, l1: seq<Label>, who: Handle) {
    s0 <= s1 && l0 <= l1 && forall k :: |l0| <= k < |l1| ==> Quiet(l1[k], who)
  }

  /** The retention count that a pass certainly applies to everything there is: retention is configured, its
      count could be read, and no manifest read fails. */
  function Policy(configured: bool, retentionCount: Option<int>, lost: set<string>): Option<int> {
    if configured && lost == {} then retentionCount else None
  }

  /** The steps from `from` on apply the policy, if there is one. */
  predicate Applies(states: seq<State>, labels: seq<Label>, from: nat, policy: Option<int>)
    requires |states| == |labels| + 1
  {
    policy.Some? ==> forall k :: from <= k < |labels| ==> Retains(states[k], labels[k], policy.value)
  }

  /** The run has been prolonged by a retention pass of the attempt `who`. */
  predicate Passes(s0: seq<State>, l0: seq<Label>, s1: seq<State>, l1: seq<Label>, who: Handle, policy: Option<int>)
    requires |s1| == |l1| + 1
  {
    && s0 <= s1 && l0 <= l1
    && (forall k :: |l0| <= k < |l1| ==> Mine(l1[k], who) && !l1[k].Begin? && !l1[k].Publish?)
    && Applies(s1, l1, |l0|, policy)
  }

  /** The run has been prolonged by a whole attempt: begun by its first step and by no other, published by its
      last step or not at all, with the policy applied. */
  predicate Attempted(s0: seq<State>, l0: seq<Label>, s1: seq<State>, l1: seq<Label>, who: Handle, policy: Option<int>)
    requires |s1| == |l1| + 1
  {
    && s0 <= s1 && l0 < l1
    && (forall k :: |l0| <= k < |l1| ==> Mine(l1[k], who))
    && (forall k :: |l0| < k < |l1| ==> !l1[k].Begin?)
    && (forall k :: |l0| <= k < |l1| - 1 ==> !l1[k].Publish?)
    && Applies(s1, l1, |l0|, policy)
  }

  lemma QuietApplies(s0: seq<State>, l0: seq<Label>, s1: seq<State>, l1: seq<Label>, who: Handle, policy: Option<int>)
    requires Extends(s0, l0, s1, l1, who) && |s1| == |l1| + 1
    ensures Passes(s0, l0, s1, l1, who, policy)
  {
  }

  lemma PassesOn(s0: seq<State>, l0: seq<Label>, s1: seq<State>, l1: seq<Label>, s2: seq<State>, l2: seq<Label>,
      who: Handle, policy: Option<int>)
    requires |s1| == |l1| + 1 && |s2| == |l2| + 1
    requires Passes(s0, l0, s1, l1, who, policy) && Passes(s1, l1, s2, l2, who, policy)
    ensures Passes(s0, l0, s2, l2, who, policy)
  {
    hide Retains, Mine;
    forall k | |l0| <= k < |l2|
      ensures Mine(l2[k], who) && !l2[k].Begin? && !l2[k].Publish?
      ensures policy.Some? ==> Retains(s2[k], l2[k], policy.value)
    {
      if k < |l1| {
        assert l2[k] == l1[k] && s2[k] == s1[k];
      }
    }
  }

  /** The steps of an attempt after its beginning. */
  predicate Finished(s0: seq<State>, l0: seq<Label>, s1: seq<State>, l1: seq<Label>, who: Handle, policy: Option<int>)
    requires |s1| == |l1| + 1
  {
    && s0 <= s1 && l0 < l1
    && (forall k :: |l0| <= k < |l1| ==> Mine(l1[k], who) && !l1[k].Begin?)
    && (forall k :: |l0| <= k < |l1| - 1 ==> !l1[k].Publish?)
    && Applies(s1, l1, |l0|, policy)
  }

  lemma FinishedOn(s0: seq<State>, l0: seq<Label>, s1: seq<State>, l1: seq<Label>, s2: seq<State>, l2: seq<Label>,
      who: Handle, policy: Option<int>)
    requires |s1| == |l1| + 1 && |s2| == |l2| + 1 && Passes(s0, l0, s1, l1, who, policy) && s1 <= s2
    requires exists effect, ok :: l2 == l1 + [Publish(who, effect, ok)]
    ensures Finished(s0, l0, s2, l2, who, policy)
  {
    hide Retains;
    var effect, ok :| l2 == l1 + [Publish(who, effect, ok)];
    PublishRetains(s2[|l1|], l2[|l1|], policy);
    forall k | |l0| <= k < |l2|
      ensures Mine(l2[k], who) && !l2[k].Begin? && (policy.Some? ==> Retains(s2[k], l2[k], policy.value))
    {
      if k < |l1| {
        assert l2[k] == l1[k] && s2[k] == s1[k];
      }
    }
  }

  lemma PublishRetains(s: State, l: Label, policy: Option<int>)
    requires l.Publish? || l.Begin?
    ensures policy.Some? ==> Retains(s, l, policy.value)
  {
  }

  lemma AttemptedOn(s0: seq<State>, l0: seq<Label>, s1: seq<State>, l1: seq<Label>, s2: seq<State>, l2: seq<Label>,
      who: Handle, policy: Option<int>)
    requires |s1| == |l1| + 1 && |s2| == |l2| + 1 && s0 <= s1 && Finished(s1, l1, s2, l2, who, policy)
    requires exists input :: l1 == l0 + [Begin(who, input)]
    ensures Attempted(s0, l0, s2, l2, who, policy) && |l2| > |l0| && l2[|l0|] == l1[|l0|]
  {
    hide Retains;
    var input :| l1 == l0 + [Begin(who, input)];
    PublishRetains(s2[|l0|], l2[|l0|], policy);
    assert l2[|l0|] == l1[|l0|];
  }

  /** There is always a handle for one more attempt. */
  lemma FreshHandle(active: map<Handle, Attempt>, id: string) returns (who: Handle)
    ensures who.id == id && who !in active
  {
    var n := NumberBound(active.Keys);
    who := Handle(id, n);
  }

  lemma {:induction false} NumberBound(handles: set<Handle>) returns (n: nat)
    ensures forall who :: who in handles ==> who.number < n
  {
    n := 0;
    if handles != {} {
      var first :| first in handles;
      n := NumberBound(handles - {first});
      assert forall who :: who in handles ==> who == first || who in handles - {first};
      n := if n > first.number then n else first.number + 1;
    }
  }

  class Executor {
    const store: ObjectStore
    const application: Velero
    var clock: int
    ghost var states: seq<State>
    ghost var labels: seq<Label>

    ghost function Now(): State
      reads this
      requires |states| == |labels| + 1
    {
      states[|labels|]
    }

    /** The recorded run ends in the present: the bucket, Velero and the clock are its last state. */
    ghost predicate Tracks()
      reads this, store, application
    {
      && Trimmed(store.prefix)
      && |states| == |labels| + 1
      && Run(states, labels)
      && Represents(store.bucket, store.prefix, Now().world.manifests, Now().world.archives)
      && Now().world.backups == application.backups
      && Now().world.deletes == application.deleteRequests
      && Now().clock == clock
      && clock > ZERO_TIME
    }

    constructor (s: ObjectStore, v: Velero, time: int, ghost start: State)
      requires Trimmed(s.prefix) && time > ZERO_TIME && start.clock == time
      requires Represents(s.bucket, s.prefix, start.world.manifests, start.world.archives)
      requires start.world.backups == v.backups && start.world.deletes == v.deleteRequests
      ensures Tracks() && store == s && application == v && states == [start] && labels == []
    {
      store, application, clock := s, v, time;
      states, labels := [start], [];
    }

    ghost method Take(l: Label)
      requires Run(states, labels) && Enabled(Now(), l)
      modifies this`states, this`labels
      ensures Run(states, labels) && labels == old(labels) + [l]
      ensures states == old(states) + [Apply(old(Now()), l)] && Now() == Apply(old(Now()), l)
    {
      Extend(states, labels, l);
      states, labels := states + [Apply(Now(), l)], labels + [l];
    }

    /** Records what Velero did while the client was polling. */
    ghost method TakeEvents(events: seq<Event>)
      requires Run(states, labels)
      requires AllPossible(Now().world.backups, Now().world.deletes, events)
      modifies this`states, this`labels
      ensures Run(states, labels)
      ensures old(states) <= states && old(labels) <= labels
      ensures Now() == old(Now()).(world := old(Now()).world.(backups := Replay(old(Now()).world.backups, events)))
      ensures forall k, who :: |old(labels)| <= k < |labels| ==> Quiet(labels[k], who)
      decreases |events|
    {
      if events != [] {
        var before, e := events[..|events| - 1], events[|events| - 1];
        TakeEvents(before);
        Take(AsLabel(e));
      }
    }

    /** `e.now()` */
    method ReadClock() returns (now: int)
      requires Tracks()
      modifies this
      ensures Tracks() && now == clock && old(clock) <= now
      ensures old(states) <= states && old(labels) <= labels && labels == old(labels) + [Tick(now)]
      ensures Now() == old(Now()).(clock := now)
    {
      var later: int := *;
      if later > clock {
        clock := later;
      }
      now := clock;
      Take(Tick(now));
    }

    /** `application.Backup` */
    method ApplicationBackup(ghost who: Handle, name: string, patience: nat) returns (ok: bool)
      requires Tracks() && who in Now().active && Now().active[who].pc == Creating && name == VeleroName(who.id)
      modifies this`states, this`labels, application`backups, application`processed
      ensures Tracks() && Extends(old(states), old(labels), states, labels, who)
      ensures Now() == Proceed(old(Now()), who, old(Now()).world.(backups := application.backups), ok, Uploading)
    {
      ghost var effect, ending, events;
      ok, effect, ending, events := application.Backup(name, patience);
      RecordBackup(who, effect, ending, events);
    }

    ghost method RecordBackup(who: Handle, effect: bool, ending: Ending, events: seq<Event>)
      requires Run(states, labels) && who in Now().active && Now().active[who].pc == Creating
      requires !ending.NotCreated? ==> effect || VeleroName(who.id) in Now().world.backups
      requires AllPossible(CreatedBackups(Now().world, who.id, effect), Now().world.deletes, events)
      requires ending.NotCreated? ==> events == []
      requires ending.Observed? ==>
                 var backups := Replay(CreatedBackups(Now().world, who.id, effect), events);
                 && VeleroName(who.id) in backups && backups[VeleroName(who.id)] == ending.phase
                 && ending.phase != InProgress
      modifies this`states, this`labels
      ensures Run(states, labels) && Extends(old(states), old(labels), states, labels, who)
      ensures var w := old(Now()).world;
              var after := w.(backups := Replay(CreatedBackups(w, who.id, effect), events));
              Now() == Proceed(old(Now()), who, after, ending.Observed? && Clean(ending.phase), Uploading)
    {
      hide VeleroName, Canonical, Run, AllPossible;
      Take(CreateBackup(who, effect, !ending.NotCreated?));
      TakeEvents(events);
      if ending.Observed? {
        Take(Observe(who));
      } else if ending.GaveUp? {
        Take(Stop(who));
      }
    }

    /** `store.PutEncryptedFile` on the state key of `id` */
    method UploadArchive(id: string, ghost who: Handle, archive: Option<Bytes>, key: string) returns (ok: bool)
      requires Tracks() && who.id == id && Canonical(id) && who in Now().active && Now().active[who].pc == Uploading
      requires archive.Some? ==> Now().active[who].input == Input(archive.value, key)
      modifies this`states, this`labels, store`bucket
      ensures Tracks() && Extends(old(states), old(labels), states, labels, who)
      ensures Now() == Proceed(old(Now()), who, Now().world, ok, Stamping)
      ensures ok ==> id in Now().world.archives
    {
      ghost var effect;
      ghost var w := Now().world;
      ghost var bucket := store.bucket;
      ok, effect := store.PutEncryptedFile(PathJoin([POINTS, id, ARCHIVE]), archive, key);
      if effect {
        PutArchiveRepresents(bucket, store.prefix, id, Age(key, archive.value), w.manifests, w.archives);
      }
      Take(Upload(who, effect, ok));
    }

    /** `store.MarkRecoveryPointDeleting` on the next expired manifest */
    method MarkNext(ghost who: Handle, m: Manifest) returns (ok: bool)
      requires Tracks() && who in Now().active && IsMarking(Now().active[who].pc) && Now().active[who].pc.toMark[0] == m
          && Valid(m)
      modifies this`states, this`labels, store`bucket
      ensures Valid(AsDeleting(m))
      ensures Tracks() && Extends(old(states), old(labels), states, labels, who)
      ensures var pc := old(Now()).active[who].pc;
              Now() == Proceed(old(Now()), who, Now().world, ok,
                pc.(toMark := pc.toMark[1..], toDelete := pc.toDelete + [AsDeleting(m)]))
    {
      ghost var effect;
      ghost var w := Now().world;
      ghost var bucket := store.bucket;
      ok, effect := store.MarkRecoveryPointDeleting(m);
      if effect {
        PutManifestRepresents(bucket, store.prefix, AsDeleting(m), w.manifests, w.archives);
      }
      Take(Mark(who, effect, ok));
    }

    /** `application.DeleteBackup`, then `store.DeleteRecoveryPoint`, on the next deleting manifest */
    method RemoveNext(ghost who: Handle, m: Manifest, patience: nat) returns (ok: bool)
      requires Tracks() && who in Now().active && IsDropping(Now().active[who].pc, DroppingBackup)
      requires Now().active[who].pc.toDelete[0] == m && Valid(m)
      modifies this`states, this`labels, store`bucket
      modifies application`backups, application`deleteRequests, application`processed
      ensures Tracks() && Extends(old(states), old(labels), states, labels, who)
      ensures var pc := old(Now()).active[who].pc;
              Now() == Proceed(old(Now()), who, Now().world, ok, pc.(toDelete := pc.toDelete[1..]))
    {
      hide Represents, Canonical, StatePath, RemoveDashes, Valid;
      ghost var effect, events;
      ok, effect, events := application.DeleteBackup(m.veleroBackupName, patience);
      Take(DropBackup(who, effect, ok));
      TakeEvents(events);
      if !ok {
        return;
      }
      ok := RemoveObjects(who, m);
    }

    method RemoveObjects(ghost who: Handle, m: Manifest) returns (ok: bool)
      requires Tracks() && who in Now().active && IsDropping(Now().active[who].pc, DroppingArchive)
      requires Now().active[who].pc.toDelete[0] == m && Valid(m)
      modifies this`states, this`labels, store`bucket
      ensures Tracks() && Extends(old(states), old(labels), states, labels, who)
      ensures var pc := old(Now()).active[who].pc;
              Now() == Proceed(old(Now()), who, Now().world, ok,
                pc.(toDelete := pc.toDelete[1..], stage := DroppingBackup))
    {
      ghost var archive, manifest;
      ghost var w := Now().world;
      ghost var bucket := store.bucket;
      ok, archive, manifest := store.DeleteRecoveryPoint(m);
      ghost var point := m.recoveryPointID;
      if archive.1 {
        DeleteArchiveRepresents(bucket, store.prefix, point, w.manifests, w.archives);
        w := w.(archives := w.archives - {point});
        bucket := bucket - {StateKey(store.prefix, point)};
      }
      if manifest.1 {
        DeleteManifestRepresents(bucket, store.prefix, point, w.manifests, w.archives);
        w := w.(manifests := w.manifests - {point});
        bucket := bucket - {ManifestKey(store.prefix, point)};
      }
      assert store.bucket == bucket;
      Record(who, archive, manifest);
    }

    ghost method Record(who: Handle, archive: (bool, bool), manifest: (bool, bool))
      requires Run(states, labels) && who in Now().active && IsDropping(Now().active[who].pc, DroppingArchive)
      requires (archive.0 ==> archive.1) && (manifest.0 ==> manifest.1) && (manifest.1 ==> archive.0)
      modifies this`states, this`labels
      ensures Run(states, labels) && Extends(old(states), old(labels), states, labels, who)
      ensures var pc, w := old(Now()).active[who].pc, old(Now()).world;
              var point := pc.toDelete[0].recoveryPointID;
              Now() == Proceed(old(Now()), who,
                               w.(archives := if archive.1 then w.archives - {point} else w.archives,
                                  manifests := if manifest.1 then w.manifests - {point} else w.manifests),
                               archive.0 && manifest.0, pc.(toDelete := pc.toDelete[1..], stage := DroppingBackup))
    {
      Take(DropArchive(who, archive.1, archive.0));
      if archive.0 {
        Take(DropManifest(who, manifest.1, manifest.0));
      }
    }

    /** `applyRetention`; `retentionCount` is what the settings read returned, `lost` the manifest keys whose
        read fails. Without a configuration store there is no retention. */
    method ApplyRetention(ghost who: Handle, configured: bool, retentionCount: Option<int>, lost: set<string>,
        patience: nat)
      returns (outcome: Outcome)
      requires Tracks() && who in Now().active && Now().active[who].pc.Listing?
      modifies this`states, this`labels, store`bucket
      modifies application`backups, application`deleteRequests, application`processed
      ensures Tracks()
      ensures Passes(old(states), old(labels), states, labels, who, Policy(configured, retentionCount, lost))
      ensures var last := Retaining(old(Now()).active[who].pc.createdAt, [], [], DroppingBackup);
              Now() == Proceed(old(Now()), who, Now().world, outcome == Done, last)
      ensures outcome == Panic ==> configured && retentionCount.Some? && retentionCount.value < 1
      ensures configured && retentionCount.Some? && retentionCount.value < 1 ==> outcome != Done
    {
      if !configured {
        Take(SkipRetention(who));
        return Done;
      }
      if retentionCount == None {
        Take(Stop(who));
        return Failure;
      }
      var pages := store.ListObjects(ListPrefix(store.prefix));
      var listing := store.ListRetentionManifests(pages, lost);
      if listing == None {
        Take(Stop(who));
        return Failure;
      }
      var manifests, r := listing.value, retentionCount.value;
      ReflectsAll(manifests, store.bucket, store.prefix, Now().world.manifests, Now().world.archives, lost);
      outcome := Retain(who, manifests, r, patience, Policy(configured, retentionCount, lost));
    }

    /** The part of `applyRetention` after the listing. A retention count below one starts below the list. */
    method Retain(ghost who: Handle, manifests: seq<Manifest>, r: int, patience: nat, ghost policy: Option<int>)
      returns (outcome: Outcome)
      requires Tracks() && who in Now().active && Now().active[who].pc.Listing?
      requires Lists(manifests, Now().world.manifests) && forall m :: m in manifests ==> Valid(m)
      requires policy.Some? ==> policy.value == r && IDs(manifests) == Now().world.manifests.Keys
      modifies this`states, this`labels, store`bucket
      modifies application`backups, application`deleteRequests, application`processed
      ensures Tracks() && Passes(old(states), old(labels), states, labels, who, policy)
      ensures var last := Retaining(old(Now()).active[who].pc.createdAt, [], [], DroppingBackup);
              Now() == Proceed(old(Now()), who, Now().world, outcome == Done, last)
      ensures outcome == Panic <==> r < 1
    {
      hide Retains, Lists;
      var deleting, ready := Split(manifests);
      var removeCount := |ready| - r + 1;
      var index := if removeCount > 0 then |ready| - removeCount else |ready|;
      TakeList(who, manifests, r, ready, deleting, index, policy);
      if index < 0 {
        return Panic;
      }
      label Listed:
      outcome := MarkAndRemove(who, ready, index, deleting, patience);
      QuietApplies(old@Listed(states), old@Listed(labels), states, labels, who, policy);
      PassesOn(old(states), old(labels), old@Listed(states), old@Listed(labels), states, labels, who, policy);
      ghost var createdAt := old(Now()).active[who].pc.createdAt;
      ProceedTwice(old(Now()), who, old(Now()).world, Retaining(createdAt, ready[index..], deleting, DroppingBackup),
                   Now().world, outcome == Done, Retaining(createdAt, [], [], DroppingBackup));
    }

    ghost method TakeList(who: Handle, manifests: seq<Manifest>, r: int, ready: seq<Manifest>,
        deleting: seq<Manifest>, index: int, policy: Option<int>)
      requires Tracks() && who in Now().active && Now().active[who].pc.Listing?
      requires Lists(manifests, Now().world.manifests)
      requires ready == ListedReady(manifests) && deleting == ListedDeleting(manifests)
      requires index == RemovalStart(|ready|, r)
      requires policy.Some? ==> policy.value == r && IDs(manifests) == Now().world.manifests.Keys
      modifies this`states, this`labels
      ensures Tracks() && Passes(old(states), old(labels), states, labels, who, policy)
      ensures index < 0 <==> r < 1
      ensures r < 1 ==> Now() == Proceed(old(Now()), who, Now().world, false, Creating)
      ensures r >= 1 ==>
                && index <= |ready|
                && Now() == Proceed(old(Now()), who, Now().world, true,
                                    Retaining(old(Now()).active[who].pc.createdAt, ready[index..], deleting,
                                              DroppingBackup))
    {
      Take(List(who, manifests, r));
    }

    method MarkAndRemove(ghost who: Handle, ready: seq<Manifest>, start: nat, listed: seq<Manifest>, patience: nat)
      returns (outcome: Outcome)
      requires Tracks() && who in Now().active && start <= |ready|
      requires Now().active[who].pc.Retaining? && Now().active[who].pc.stage == DroppingBackup
      requires Now().active[who].pc.toMark == ready[start..] && Now().active[who].pc.toDelete == listed
      requires forall m :: m in ready || m in listed ==> Valid(m)
      modifies this`states, this`labels, store`bucket
      modifies application`backups, application`deleteRequests, application`processed
      ensures Tracks() && Extends(old(states), old(labels), states, labels, who)
      ensures outcome != Panic
      ensures var last := Retaining(old(Now()).active[who].pc.createdAt, [], [], DroppingBackup);
              Now() == Proceed(old(Now()), who, Now().world, outcome == Done, last)
    {
      var deleting;
      outcome, deleting := MarkExpired(who, ready, start, listed);
      if outcome == Done {
        outcome := RemoveDeleting(who, deleting, patience);
      }
    }

    static method Split(manifests: seq<Manifest>) returns (deleting: seq<Manifest>, ready: seq<Manifest>)
      ensures deleting == ListedDeleting(manifests) && ready == ListedReady(manifests)
    {
      deleting, ready := [], [];
      for i := 0 to |manifests|
        invariant deleting == ListedDeleting(manifests[..i]) && ready == ListedReady(manifests[..i])
      {
        assert manifests[..i + 1] == manifests[..i] + [manifests[i]];
        ListedReadyAppend(manifests[..i], manifests[i]);
        ListedDeletingAppend(manifests[..i], manifests[i]);
        if manifests[i].status == Deleting {
          deleting := deleting + [manifests[i]];
        } else {
          ready := ready + [manifests[i]];
        }
      }
      assert manifests[..|manifests|] == manifests;
    }

    method MarkExpired(ghost who: Handle, ready: seq<Manifest>, start: nat, listed: seq<Manifest>)
      returns (outcome: Outcome, deleting: seq<Manifest>)
      requires Tracks() && who in Now().active && start <= |ready|
      requires Now().active[who].pc.Retaining? && Now().active[who].pc.stage == DroppingBackup
      requires Now().active[who].pc.toMark == ready[start..] && Now().active[who].pc.toDelete == listed
      requires forall m :: m in ready || m in listed ==> Valid(m)
      modifies this`states, this`labels, store`bucket
      ensures Tracks() && Extends(old(states), old(labels), states, labels, who)
      ensures outcome != Panic && forall m :: m in deleting ==> Valid(m)
      ensures var pc := old(Now()).active[who].pc;
              Now() == Proceed(old(Now()), who, Now().world, outcome == Done, pc.(toMark := [], toDelete := deleting))
    {
      hide Represents, Valid, Apply, Enabled;
      deleting := listed;
      var index := start;
      while index < |ready|
        invariant start <= index <= |ready|
        invariant Tracks() && Extends(old(states), old(labels), states, labels, who)
        invariant forall m :: m in deleting ==> Valid(m)
        invariant var pc := old(Now()).active[who].pc;
                  Now() == Proceed(old(Now()), who, Now().world, true,
                    pc.(toMark := ready[index..], toDelete := deleting))
      {
        var m := ready[index];
        var ok := MarkNext(who, m);
        deleting := deleting + [AsDeleting(m)];
        if !ok {
          return Failure, deleting;
        }
        index := index + 1;
      }
      outcome := Done;
    }

    method RemoveDeleting(ghost who: Handle, deleting: seq<Manifest>, patience: nat) returns (outcome: Outcome)
      requires Tracks() && who in Now().active
      requires Now().active[who].pc.Retaining? && Now().active[who].pc.stage == DroppingBackup
      requires Now().active[who].pc.toMark == [] && Now().active[who].pc.toDelete == deleting
      requires forall m :: m in deleting ==> Valid(m)
      modifies this`states, this`labels, store`bucket
      modifies application`backups, application`deleteRequests, application`processed
      ensures Tracks() && Extends(old(states), old(labels), states, labels, who)
      ensures outcome != Panic
      ensures var last := old(Now()).active[who].pc.(toDelete := []);
              Now() == Proceed(old(Now()), who, Now().world, outcome == Done, last)
    {
      hide Represents, Valid, Apply, Enabled, Canonical;
      for i := 0 to |deleting|
        invariant Tracks() && Extends(old(states), old(labels), states, labels, who)
        invariant var pc := old(Now()).active[who].pc;
                  Now() == Proceed(old(Now()), who, Now().world, true, pc.(toDelete := deleting[i..]))
      {
        var ok := RemoveNext(who, deleting[i], patience);
        if !ok {
          return Failure;
        }
      }
      outcome := Done;
    }

    /** `store.PutManifest` with the ready manifest */
    method PublishManifest(id: string, ghost who: Handle, createdAt: int) returns (ok: bool)
      requires Tracks() && who.id == id && Canonical(id) && who in Now().active && IsPublishing(Now().active[who].pc)
      requires createdAt == Now().active[who].pc.createdAt != ZERO_TIME
      modifies this`states, this`labels, store`bucket
      ensures Tracks() && old(states) <= states
      ensures Now().active == old(Now()).active - {who}
      ensures exists effect :: labels == old(labels) + [Publish(who, effect, ok)] && (ok ==> effect)
      ensures ok ==> id in ReadyPoints(Now().world.manifests)
      ensures ok ==> Now().world.manifests[id] == NewManifest(id, createdAt)
    {
      ghost var effect;
      ghost var w := Now().world;
      ghost var bucket := store.bucket;
      var m := Manifest(FORMAT, id, createdAt, "ec-dr-" + RemoveDashes(id), PathJoin([POINTS, id, ARCHIVE]), Ready);
      ok, effect := store.PutManifest(m);
      if effect {
        PutManifestRepresents(bucket, store.prefix, m, w.manifests, w.archives);
      }
      Take(Publish(who, effect, ok));
    }

    /** The bucket holds the manifest of a backup that finished in the given time. */
    ghost predicate Finishes(id: string, from: int, to: int)
      requires |states| == |labels| + 1
      reads this
    {
      && id in ReadyPoints(Now().world.manifests) && |id| == 36
      && FinishedManifest(Now().world.manifests[id], id, from, to)
    }

    /** `backup`. `statePath` is empty when no archive was uploaded, `archive` is what the file can be read as
        when it is encrypted. */
    method Backup(operationID: string, statePath: string, archive: Option<Bytes>, key: string, configured: bool,
        retentionCount: Option<int>, lost: set<string>, patience: nat, ghost input: Input)
      returns (outcome: Outcome, point: Option<string>, ghost who: Option<Handle>)
      requires Tracks() && (archive.Some? ==> input == Input(archive.value, key))
      modifies this, store`bucket, application`backups, application`deleteRequests, application`processed
      ensures Tracks() && Now().active == old(Now()).active
      ensures point.Some? <==> outcome == Done
      ensures who.Some? <==> statePath != "" && Normalize(operationID).Some?
      ensures who == None ==> outcome == Failure && states == old(states) && labels == old(labels)
      ensures who.Some? ==>
                var policy := Policy(configured, retentionCount, lost);
                && Normalize(operationID) == Some(who.value.id)
                && Attempted(old(states), old(labels), states, labels, who.value, policy)
                && labels[|old(labels)|] == Begin(who.value, input)
                && (outcome == Done <==> labels[|labels| - 1] == Publish(who.value, true, true))
                && (outcome == Done ==> point == Some(who.value.id))
                && (outcome == Done ==> Finishes(who.value.id, old(clock), clock))
      ensures outcome == Panic ==> configured && retentionCount.Some? && retentionCount.value < 1
    {
      hide Normalize, Apply, Enabled, Represents, ReadyPoints, Canonical, Retains;
      outcome, point, who := Failure, None, None;
      if statePath == "" {
        return;
      }
      var normalized := Normalize(operationID);
      if normalized == None {
        return;
      }
      var id := normalized.value;
      NormalizeIsCanonical(operationID);
      ghost var handle := FreshHandle(Now().active, id);
      who := Some(handle);
      outcome := BeginAttempt(id, handle, archive, key, configured, retentionCount, lost, patience, input);
      if outcome == Done {
        point := Some(id);
      }
    }

    method BeginAttempt(id: string, ghost who: Handle, archive: Option<Bytes>, key: string, configured: bool,
        retentionCount: Option<int>, lost: set<string>, patience: nat, ghost input: Input)
      returns (outcome: Outcome)
      requires Tracks() && who.id == id && Canonical(id) && who !in Now().active
      requires archive.Some? ==> input == Input(archive.value, key)
      modifies this, store`bucket, application`backups, application`deleteRequests, application`processed
      ensures Tracks()
      ensures Attempted(old(states), old(labels), states, labels, who, Policy(configured, retentionCount, lost))
      ensures Now().active == old(Now()).active && labels[|old(labels)|] == Begin(who, input)
      ensures outcome == Done <==> labels[|labels| - 1] == Publish(who, true, true)
      ensures outcome == Done ==> Finishes(id, old(clock), clock)
      ensures outcome == Panic ==> configured && retentionCount.Some? && retentionCount.value < 1
    {
      hide Attempted, Finished, Represents, Canonical, Mine, Applies, ReadyPoints, Policy;
      ghost var before := Now();
      ghost var policy := Policy(configured, retentionCount, lost);
      Take(Begin(who, input));
      assert Now().active - {who} == before.active;
      label Begun:
      outcome := RunAttempt(id, who, archive, key, configured, retentionCount, lost, patience);
      AttemptedOn(old(states), old(labels), old@Begun(states), old@Begun(labels), states, labels, who, policy);
    }

    /** The steps after the beginning: a pass, and possibly a publication. */
    method RunAttempt(id: string, ghost who: Handle, archive: Option<Bytes>, key: string, configured: bool,
        retentionCount: Option<int>, lost: set<string>, patience: nat)
      returns (outcome: Outcome)
      requires Tracks() && who.id == id && Canonical(id) && who in Now().active && Now().active[who].pc == Creating
      requires archive.Some? ==> Now().active[who].input == Input(archive.value, key)
      modifies this, store`bucket, application`backups, application`deleteRequests, application`processed
      ensures Tracks()
      ensures Finished(old(states), old(labels), states, labels, who, Policy(configured, retentionCount, lost))
      ensures Now().active == old(Now()).active - {who}
      ensures outcome == Done <==> labels[|labels| - 1] == Publish(who, true, true)
      ensures outcome == Done ==> Finishes(id, old(clock), clock)
      ensures outcome == Panic ==> configured && retentionCount.Some? && retentionCount.value < 1
    {
      hide Apply, Enabled, Represents, Canonical, StatePath, VeleroName, Retains;
      ghost var policy := Policy(configured, retentionCount, lost);
      var ok, createdAt := Prepare(id, who, archive, key, patience);
      QuietApplies(old(states), old(labels), states, labels, who, policy);
      if !ok {
        return Failure;
      }
      label Prepared:
      outcome := ApplyRetention(who, configured, retentionCount, lost, patience);
      PassesOn(old(states), old(labels), old@Prepared(states), old@Prepared(labels), states, labels, who, policy);
      if outcome != Done {
        return;
      }
      label Retained:
      ok := PublishManifest(id, who, createdAt);
      FinishedOn(old(states), old(labels), old@Retained(states), old@Retained(labels), states, labels, who, policy);
      outcome := if ok then Done else Failure;
      if ok {
        NewManifestForm(id, createdAt, old(clock), clock);
      }
    }

    /** The application backup, the upload and the time stamp. */
    method Prepare(id: string, ghost who: Handle, archive: Option<Bytes>, key: string, patience: nat)
      returns (ok: bool, createdAt: int)
      requires Tracks() && who.id == id && Canonical(id) && who in Now().active && Now().active[who].pc == Creating
      requires archive.Some? ==> Now().active[who].input == Input(archive.value, key)
      modifies this, store`bucket, application`backups, application`processed
      ensures Tracks() && Extends(old(states), old(labels), states, labels, who) && old(labels) < labels
      ensures ok ==> createdAt != ZERO_TIME && who in Now().active && Now().active[who].pc == Listing(createdAt)
      ensures ok ==> old(clock) <= createdAt <= clock
      ensures Now().active - {who} == old(Now()).active - {who}
      ensures !ok ==> who !in Now().active
    {
      hide Represents, Canonical, StatePath, RemoveDashes;
      createdAt := clock;
      var name := "ec-dr-" + RemoveDashes(id);
      ok := ApplicationBackup(who, name, patience);
      if !ok {
        return;
      }
      ok := UploadArchive(id, who, archive, key);
      if !ok {
        return;
      }
      createdAt := ReadClock();
      Take(Stamp(who));
    }

    /** What other attempts, Velero and the clock do meanwhile: any steps of the life cycle, or none. */
    method Interfere(ghost alone: bool)
      requires Tracks()
      modifies this, store`bucket, application`backups, application`deleteRequests, application`processed
      ensures Tracks() && old(states) <= states && old(labels) <= labels
      ensures alone ==> states == old(states) && labels == old(labels)
    {
    }

    /** `plain` is the archive that the point has at present; it is the one that was given for the point if each
        ID was only ever given one. */
    ghost predicate Restored(point: string, key: string, plain: Bytes)
      requires |states| == |labels| + 1
      reads this
    {
      var w := Now().world;
      && point in w.archives && Decrypt(w.archives[point], key) == Some(plain)
      && (OneInputEach(states, labels) && Inputs(states[0]) ==>
            point in Now().given && plain == Now().given[point].archive && key == Now().given[point].key)
    }

    /** The point was ready in state `i`; if the run is disciplined, `plain` is the archive that it had been given
        last by then. */
    ghost predicate SeenReady(i: nat, point: string, key: string, plain: Bytes)
      requires i < |states|
      reads this
    {
      && point in ReadyPoints(states[i].world.manifests)
      && (Disciplined(states, labels) && Initial(states[0]) ==>
            point in states[i].given && states[i].given[point] == Input(plain, key))
    }

    lemma SeenIsRestored(i: nat, point: string, key: string, plain: Bytes)
      requires |states| == |labels| + 1 && i < |states| && Restored(point, key, plain)
      requires point in ReadyPoints(states[i].world.manifests)
      ensures SeenReady(i, point, key, plain)
    {
      if Disciplined(states, labels) && Initial(states[0]) {
        SeenReadyRestores(states, labels, i, |labels|, point);
      }
    }

    /** `bootstrapRestore`: only a point that is ready when its manifest is read is restored, into a file that
        did not exist before the download. Unless it is `alone`, other attempts may take any
        steps between its calls. */
    method BootstrapRestore(disk: Disk, tempRoot: string, operationID: string, point: string, key: string,
        ghost alone: bool)
      returns (descriptor: Option<Descriptor>, downloadPath: string)
      requires Tracks()
      modifies this, store`bucket, application`backups, application`deleteRequests, application`processed, disk
      ensures Tracks() && old(states) <= states && old(labels) <= labels
      ensures alone ==> states == old(states) && labels == old(labels)
      ensures descriptor == None ==> downloadPath == ""
      ensures descriptor == None ==>
                var path := RestoredFile(tempRoot, operationID); disk.files - {path} == old(disk.files) - {path}
      ensures descriptor.Some? ==>
                && downloadPath in disk.files
                && (exists i :: |old(labels)| <= i < |states| && SeenReady(i, point, key, disk.files[downloadPath]))
                && downloadPath == PathJoin([PathJoin([tempRoot, operationID]), "ec-state-v1.tar.gz"])
                && descriptor.value.name == "ec-state-v1.tar.gz"
                && descriptor.value.size == |disk.files[downloadPath]|
                && descriptor.value.sha256 == Sha256(disk.files[downloadPath])
                && disk.files == old(disk.files)[downloadPath := disk.files[downloadPath]]
                && Restored(point, key, disk.files[downloadPath])
    {
      hide Canonical, StatePath, Represents, Restored, SeenReady, Run, ReadyPoints;
      descriptor, downloadPath := None, "";
      Interfere(alone);
      var manifest := store.GetManifest(point);
      if manifest == None {
        return;
      }
      StoredIsReady(point);
      ghost var seen, run := |labels|, states;
      Interfere(alone);
      assert run[seen] == states[seen];
      var destination := RestoredFile(tempRoot, operationID);
      var removed: bool := *;
      if !removed {
        return;
      }
      disk.files := disk.files - {destination};
      assert disk.files - {destination} == old(disk.files) - {destination};
      descriptor := Fetch(disk, destination, point, manifest.value, key);
      if descriptor.Some? {
        downloadPath := destination;
        SeenIsRestored(seen, point, key, disk.files[destination]);
      }
    }

    method Fetch(disk: Disk, destination: string, point: string, m: Manifest, key: string)
      returns (descriptor: Option<Descriptor>)
      requires Tracks() && Canonical(point) && m.stateObjectKey == StatePath(point)
      modifies disk
      ensures Tracks()
      ensures descriptor == None ==> disk.files == old(disk.files)
      ensures descriptor.Some? ==>
                && destination in disk.files && disk.files == old(disk.files)[destination := disk.files[destination]]
                && descriptor.value.name == "ec-state-v1.tar.gz"
                && descriptor.value.size == |disk.files[destination]|
                && descriptor.value.sha256 == Sha256(disk.files[destination])
                && Restored(point, key, disk.files[destination])
    {
      hide Canonical, StatePath, Represents, OneInputEach, Inputs;
      descriptor := store.GetDecryptedFile(m.stateObjectKey, disk, destination, key);
      if descriptor.Some? {
        HeldArchive(point);
        if OneInputEach(states, labels) && Inputs(states[0]) {
          RestoredIsGiven(point, key);
        }
      }
    }

    /** What a manifest read says about the recorded run. */
    lemma StoredIsReady(point: string)
      requires Tracks() && Stored(store.bucket, store.prefix, point).Some?
      requires Stored(store.bucket, store.prefix, point).value.status == Ready
      ensures |states| == |labels| + 1 && point in ReadyPoints(Now().world.manifests) && Canonical(point)
      ensures Stored(store.bucket, store.prefix, point).value.stateObjectKey == StatePath(point)
    {
      hide StatePath, ManifestKey;
    }

    lemma HeldArchive(point: string)
      requires Tracks() && Canonical(point)
      ensures var key := ObjectKey(store.prefix, StatePath(point));
              key in store.bucket && store.bucket[key].ArchiveData? ==>
                point in Now().world.archives && store.bucket[key] == ArchiveData(Now().world.archives[point])
    {
      hide Run, StatePath, ManifestKey;
    }

    lemma RestoredIsGiven(point: string, key: string)
      requires Tracks() && OneInputEach(states, labels) && Inputs(states[0])
      requires point in Now().world.archives && Decrypt(Now().world.archives[point], key).Some?
      ensures point in Now().given && Now().given[point].key == key
      ensures Decrypt(Now().world.archives[point], key) == Some(Now().given[point].archive)
    {
      hide Represents;
      InputsAlways(states, labels, |labels|, |labels|);
      RestoreReturnsTheUpload(states, labels, |labels|, |labels|, point, key);
    }
  }
}

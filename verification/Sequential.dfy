/** Backups one after the other: what retention never touches, convergence after failures, and reruns. */
module Sequential {
  import opened Wrappers
  import opened Ids
  import opened Keys
  import opened Recovery
  import opened Retention
  import opened Ranking
  import opened Lifecycle
  import opened LifecycleSafety
  import RetentionBound

  /** No other writer: at most one attempt at a time. */
  predicate Alone(s: State) {
    forall a, b :: a in s.active && b in s.active ==> a == b
  }

  predicate Publishes(l: Label) {
    l.Publish? && l.effect
  }

  /** The points that a pass starting from `s0` has to leave alone. */
  function Floor(s0: State, r: int): set<string> {
    Newest(ReadyPoints(s0.world.manifests), r - 1)
  }

  predicate Untouched(w0: World, w: World, id: string) {
    && id in w0.manifests && id in w.manifests && w.manifests[id] == w0.manifests[id]
    && id in w0.archives && id in w.archives && w.archives[id] == w0.archives[id]
    && VeleroName(id) in w0.backups && VeleroName(id) in w.backups
      && w.backups[VeleroName(id)] == w0.backups[VeleroName(id)]
  }

  /** The pass is on course: whatever is still ready beyond the floor is about to be marked, and whatever is
      being deleted is on the removal list. */
  predicate OnCourse(w: World, floor: set<string>, pc: Pc)
    requires pc.Retaining?
  {
    && IDs(pc.toMark) !! floor
    && IDs(pc.toDelete) !! floor
    && (forall id :: id in ReadyPoints(w.manifests) && id !in floor ==> id in IDs(pc.toMark))
    && (forall id :: id in w.manifests && w.manifests[id].status == Deleting ==> id in IDs(pc.toDelete))
  }

  /** Between two publications, from `s0` on. */
  ghost predicate Holding(s0: State, s: State, r: int) {
    && Safe(s)
    && Alone(s)
    && s0.published <= s.published
    && SubPoints(ReadyPoints(s.world.manifests), ReadyPoints(s0.world.manifests))
    && (forall id :: id in Floor(s0, r) ==> Untouched(s0.world, s.world, id))
    && (forall a :: a in s.active && s.active[a].pc.Retaining? ==> OnCourse(s.world, Floor(s0, r), s.active[a].pc))
  }

  ghost predicate Start(s0: State) {
    Safe(s0) && s0.active == map[] && DistinctTimes(ReadyPoints(s0.world.manifests))
  }

  lemma StartHolds(s0: State, r: int)
    requires Start(s0) && r >= 1
    ensures Holding(s0, s0, r)
  {
  }

  lemma ListOnCourse(s0: State, s: State, l: Label, r: int)
    requires Start(s0) && Holding(s0, s, r) && Enabled(s, l) && RetentionBound.Retains(s, l, r) && r >= 1 && l.List?
    ensures OnCourse(s.world, Floor(s0, r), Apply(s, l).active[l.who].pc)
  {
    hide Newer, VeleroName, Canonical, OnCourse;
    var points := ReadyPoints(s.world.manifests);
    forall id | id in Floor(s0, r) ensures id in points {
      assert Untouched(s0.world, s.world, id) && id in ReadyPoints(s0.world.manifests);
    }
    NewestOfSubset(points, ReadyPoints(s0.world.manifests), r - 1);
    ListingOnCourse(s.world, l.listing, r,
      Retaining(s.active[l.who].pc.createdAt, Expired(ListedReady(l.listing), r), ListedDeleting(l.listing),
        DroppingBackup));
  }

  lemma ListingOnCourse(w: World, listing: seq<Manifest>, r: int, pc: Pc)
    requires ListsAll(listing, w.manifests) && DistinctTimes(ReadyPoints(w.manifests)) && r >= 1
    requires forall id :: id in w.manifests ==> !w.manifests[id].status.Unsupported?
    requires pc.Retaining? && pc.toMark == Expired(ListedReady(listing), r) && pc.toDelete == ListedDeleting(listing)
    ensures OnCourse(w, Newest(ReadyPoints(w.manifests), r - 1), pc)
  {
    KeptIsNewest(listing, w.manifests, r);
    ReadyListing(listing, w.manifests);
  }

  lemma AppendIDs(ms: seq<Manifest>, m: Manifest)
    ensures IDs(ms + [m]) == IDs(ms) + {m.recoveryPointID}
  {
    var all := ms + [m];
    assert all[|ms|] == m;
    forall id | id in IDs(ms) ensures id in IDs(all) {
      var i :| 0 <= i < |ms| && ms[i].recoveryPointID == id;
      assert all[i] == ms[i];
    }
  }

  lemma RetainingOnCourse(s0: State, s: State, l: Label, r: int)
    requires Holding(s0, s, r) && Enabled(s, l) && !Publishes(l) && r >= 1
    requires l.Mark? || l.DropBackup? || l.DropArchive? || l.DropManifest?
    requires l.who in Apply(s, l).active
    ensures OnCourse(Apply(s, l).world, Floor(s0, r), Apply(s, l).active[l.who].pc)
  {
    var pc := s.active[l.who].pc;
    if l.Mark? {
      RetentionBound.IDsHead(pc.toMark);
      AppendIDs(pc.toDelete, AsDeleting(pc.toMark[0]));
    } else if l.DropManifest? {
      RetentionBound.IDsHead(pc.toDelete);
    }
  }

  /** No step but a publication touches a ready point that is on nobody's work list. */
  predicate OffLists(s: State, id: string) {
    forall a :: a in s.active && s.active[a].pc.Retaining? ==>
      id !in IDs(s.active[a].pc.toMark) && id !in IDs(s.active[a].pc.toDelete)
  }

  predicate ReadyAt(s: State, id: string) {
    id in s.world.manifests && s.world.manifests[id].status == Ready
  }

  lemma ManifestStays(s: State, l: Label, id: string)
    requires Safe(s) && OffLists(s, id) && ReadyAt(s, id) && Enabled(s, l) && !Publishes(l)
    ensures var w := Apply(s, l).world; id in w.manifests && w.manifests[id] == s.world.manifests[id]
  {
    if l.Mark? {
      MemberID(s.active[l.who].pc.toMark, s.active[l.who].pc.toMark[0]);
    } else if l.DropManifest? {
      MemberID(s.active[l.who].pc.toDelete, s.active[l.who].pc.toDelete[0]);
    }
  }

  lemma ArchiveStays(s: State, l: Label, id: string)
    requires Safe(s) && OffLists(s, id) && ReadyAt(s, id) && Enabled(s, l) && !Publishes(l)
    ensures var w := Apply(s, l).world;
            id in s.world.archives && id in w.archives && w.archives[id] == s.world.archives[id]
  {
    assert Complete(s.world, id) && id in s.published;
    if l.DropArchive? {
      MemberID(s.active[l.who].pc.toDelete, s.active[l.who].pc.toDelete[0]);
    }
  }

  lemma BackupStays(s: State, l: Label, id: string)
    requires Safe(s) && ReadyAt(s, id) && Enabled(s, l)
    ensures var w := Apply(s, l).world;
            VeleroName(id) in s.world.backups && VeleroName(id) in w.backups
            && w.backups[VeleroName(id)] == s.world.backups[VeleroName(id)]
  {
    assert Complete(s.world, id);
  }

  lemma FloorUntouched(s0: State, s: State, l: Label, r: int, id: string)
    requires Start(s0) && Holding(s0, s, r) && Enabled(s, l) && Fresh(s, l) && Exclusive(s, l) && !Publishes(l)
    requires id in Floor(s0, r)
    ensures Untouched(s0.world, Apply(s, l).world, id)
  {
    assert Untouched(s0.world, s.world, id) && id in ReadyPoints(s0.world.manifests);
    assert ReadyAt(s, id);
    ManifestStays(s, l, id);
    ArchiveStays(s, l, id);
    BackupStays(s, l, id);
  }

  lemma HoldingStep(s0: State, s: State, l: Label, r: int)
    requires Start(s0) && Holding(s0, s, r) && r >= 1
    requires Enabled(s, l) && Fresh(s, l) && Exclusive(s, l)
    requires RetentionBound.Retains(s, l, r) && !Publishes(l) && Alone(Apply(s, l))
    ensures Holding(s0, Apply(s, l), r)
  {
    hide Untouched, OnCourse, Floor, Sound, Complete, NoneReady, Canonical;
    var t := Apply(s, l);
    SafeStep(s, l);
    assert SubPoints(ReadyPoints(t.world.manifests), ReadyPoints(s.world.manifests));
    forall id | id in Floor(s0, r) ensures Untouched(s0.world, t.world, id) {
      FloorUntouched(s0, s, l, r, id);
    }
    forall a | a in t.active && t.active[a].pc.Retaining? ensures OnCourse(t.world, Floor(s0, r), t.active[a].pc) {
      OnCourseStep(s0, s, l, r, a);
    }
  }

  lemma OnCourseStep(s0: State, s: State, l: Label, r: int, a: Handle)
    requires Start(s0) && Holding(s0, s, r) && r >= 1
    requires Enabled(s, l) && RetentionBound.Retains(s, l, r) && !Publishes(l) && Alone(Apply(s, l))
    requires a in Apply(s, l).active && Apply(s, l).active[a].pc.Retaining?
    ensures OnCourse(Apply(s, l).world, Floor(s0, r), Apply(s, l).active[a].pc)
  {
    if l.List? {
      ListOnCourse(s0, s, l, r);
    } else if l.Mark? || l.DropBackup? || l.DropArchive? || l.DropManifest? {
      RetainingOnCourse(s0, s, l, r);
    } else {
      assert Apply(s, l).active[a].pc == s.active[a].pc;
    }
  }

  predicate SequentialRun(states: seq<State>, labels: seq<Label>, r: int) {
    && Disciplined(states, labels)
    && (forall i :: 0 <= i < |labels| ==> RetentionBound.Retains(states[i], labels[i], r))
    && (forall i :: 0 <= i < |states| ==> Alone(states[i]))
  }

  lemma {:induction false} HoldingAlways(states: seq<State>, labels: seq<Label>, r: int, i: nat)
    requires SequentialRun(states, labels, r) && Start(states[0]) && r >= 1 && i < |states|
    requires forall k :: 0 <= k < i ==> !Publishes(labels[k])
    ensures Holding(states[0], states[i], r)
  {
    if i == 0 {
      StartHolds(states[0], r);
    } else {
      HoldingAlways(states, labels, r, i - 1);
      assert Step(states[i - 1], labels[i - 1], states[i - 1 + 1]) && Fresh(states[i - 1], labels[i - 1]);
      assert Exclusive(states[i - 1], labels[i - 1]);
      assert RetentionBound.Retains(states[i - 1], labels[i - 1], r);
      HoldingStep(states[0], states[i - 1], labels[i - 1], r);
    }
  }

  /** During sequential backups from `n` ready points with distinct times, the newest `min(n, r - 1)` of them
      keep their manifest, archive and Velero backup in every state before the next publication, wherever
      attempts fail or stop. */
  lemma FloorAtEveryStep(states: seq<State>, labels: seq<Label>, r: int, i: nat)
    requires SequentialRun(states, labels, r) && Start(states[0]) && r >= 1 && i < |states|
    requires forall k :: 0 <= k < i ==> !Publishes(labels[k])
    ensures var points := ReadyPoints(states[0].world.manifests);
            |Floor(states[0], r)| == if |points| <= r - 1 then |points| else r - 1
    ensures forall id :: id in Floor(states[0], r) ==> Untouched(states[0].world, states[i].world, id)
  {
    HoldingAlways(states, labels, r, i);
    NewestSize(ReadyPoints(states[0].world.manifests), r - 1);
  }

  /** Any number of attempts that fail or stop before publishing, then one that publishes: the ready points
      are the new point and the newest `min(n, r - 1)` original ones, and no manifest is left `deleting`. */
  lemma CrashConvergence(states: seq<State>, labels: seq<Label>, r: int, p: nat)
    requires SequentialRun(states, labels, r) && Start(states[0]) && r >= 1 && p < |labels|
    requires forall k :: 0 <= k < p ==> !Publishes(labels[k])
    requires Publishes(labels[p])
    ensures ReadyPoints(states[p + 1].world.manifests).Keys == Floor(states[0], r) + {labels[p].who.id}
    ensures labels[p].who.id !in ReadyPoints(states[0].world.manifests)
    ensures ReadyPoints(states[p + 1].world.manifests) == states[p + 1].world.manifests
    ensures Complete(states[p + 1].world, labels[p].who.id)
    ensures forall id :: id in Floor(states[0], r) ==> Untouched(states[0].world, states[p + 1].world, id)
  {
    HoldingAlways(states, labels, r, p);
    assert Step(states[p], labels[p], states[p + 1]) && Fresh(states[p], labels[p]);
    assert Exclusive(states[p], labels[p]);
    SafeStep(states[p], labels[p]);
    assert labels[p].who.id in states[p + 1].world.manifests;
    PublishConverges(states[0], states[p], labels[p], r);
  }

  lemma PublishConverges(s0: State, s: State, l: Label, r: int)
    requires Start(s0) && Holding(s0, s, r) && Enabled(s, l) && Publishes(l)
    ensures ReadyPoints(Apply(s, l).world.manifests).Keys == Floor(s0, r) + {l.who.id}
    ensures l.who.id !in ReadyPoints(s0.world.manifests)
    ensures ReadyPoints(Apply(s, l).world.manifests) == Apply(s, l).world.manifests
    ensures forall id :: id in Floor(s0, r) ==> Untouched(s0.world, Apply(s, l).world, id)
  {
    hide Canonical, VeleroName, Complete, CleanBackup, Sound;
    OnlyFloorIsLeft(s0, s, l.who, r);
    assert Apply(s, l).world.manifests.Keys == s.world.manifests.Keys + {l.who.id};
    assert Apply(s, l).world.manifests[l.who.id].status == Ready;
    forall id | id in Floor(s0, r) ensures Untouched(s0.world, Apply(s, l).world, id) {
      assert Untouched(s0.world, s.world, id) && id != l.who.id;
    }
  }

  /** When a pass is ready to publish, exactly the floor is left. */
  lemma NothingElseIsLeft(s0: State, s: State, a: Handle, r: int)
    requires Start(s0) && Holding(s0, s, r) && a in s.active && IsPublishing(s.active[a].pc)
    ensures forall id :: id in s.world.manifests ==> s.world.manifests[id].status == Ready && id in Floor(s0, r)
  {
    hide Canonical, VeleroName, Complete, CleanBackup, Floor, Start;
    var pc := s.active[a].pc;
    assert OnCourse(s.world, Floor(s0, r), pc) && IDs(pc.toMark) == {} && IDs(pc.toDelete) == {};
    forall id | id in s.world.manifests ensures s.world.manifests[id].status == Ready && id in Floor(s0, r) {
      assert Owned(s.world.manifests[id], id);
    }
  }

  lemma OnlyFloorIsLeft(s0: State, s: State, a: Handle, r: int)
    requires Start(s0) && Holding(s0, s, r) && a in s.active && IsPublishing(s.active[a].pc)
    ensures s.world.manifests.Keys == Floor(s0, r)
    ensures ReadyPoints(s.world.manifests) == s.world.manifests
    ensures a.id !in ReadyPoints(s0.world.manifests)
  {
    hide Canonical, VeleroName, Complete, CleanBackup, OnCourse;
    NothingElseIsLeft(s0, s, a, r);
    forall id | id in Floor(s0, r) ensures id in s.world.manifests {
      assert Untouched(s0.world, s.world, id);
    }
    assert a.id !in s.published;
    assert forall id :: id in ReadyPoints(s0.world.manifests) ==> id in s0.world.manifests && id in s0.published;
  }
}

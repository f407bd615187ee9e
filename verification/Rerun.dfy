/** Running a backup again for an ID that already has a manifest: exactly when the point survives it. */
module Rerun {
  import opened Wrappers
  import opened Ids
  import opened Keys
  import opened Recovery
  import opened Retention
  import opened Ranking
  import opened Lifecycle
  import opened LifecycleSafety
  import RetentionBound
  import Sequential

  /** Velero and the clock may move, and the attempt `who`; no other writer does. */
  predicate OwnStep(l: Label, who: Handle) {
    match l
    case Tick(_) => true
    case VeleroEnds(_, _) => true
    case VeleroDeletes(_) => true
    case Begin(_, _) => false
    case Stop(_) => false
    case _ => l.who == who
  }

  /** What the attempt has still to remove: marking moves a manifest along this list, it does not change it. */
  function Work(pc: Pc): seq<Manifest>
    requires pc.Retaining?
  {
    pc.toDelete + pc.toMark
  }

  /** The IDs that a pass over this listing removes. */
  function Removal(listing: seq<Manifest>, r: int): set<string>
    requires r >= 1
  {
    IDs(ListedDeleting(listing) + Expired(ListedReady(listing), r))
  }

  function ArchivesLeft(pc: Pc): set<string>
    requires pc.Retaining?
  {
    if pc.stage == DroppingManifest && pc.toMark == [] && pc.toDelete != [] then IDs(Work(pc)[1..]) else IDs(Work(pc))
  }

  /** The pass has removed what it removes, apart from the rest of its work, and nothing else. */
  predicate Exact(w0: World, w: World, removal: set<string>, pc: Pc)
    requires pc.Retaining?
  {
    && DistinctIDs(Work(pc))
    && IDs(Work(pc)) <= removal
    && (pc.stage != DroppingBackup ==> pc.toMark == [] && pc.toDelete != [])
    && w.manifests.Keys == w0.manifests.Keys - (removal - IDs(Work(pc)))
    && w.archives == w0.archives - (removal - ArchivesLeft(pc))
  }

  lemma ListStartsExact(s: State, l: Label)
    requires Sound(s) && Enabled(s, l) && l.List? && l.retentionCount >= 1 && ListsAll(l.listing, s.world.manifests)
    ensures Apply(s, l).active[l.who].pc.Retaining?
    ensures Exact(s.world, s.world, Removal(l.listing, l.retentionCount), Apply(s, l).active[l.who].pc)
  {
    hide Expired, ListedReady, ListedDeleting, DistinctIDs, Lists;
    RemovalIsDistinct(l.listing, s.world.manifests, l.retentionCount);
    var pc := Apply(s, l).active[l.who].pc;
    assert Work(pc) == ListedDeleting(l.listing) + Expired(ListedReady(l.listing), l.retentionCount);
  }

  lemma RemovalIsDistinct(listing: seq<Manifest>, stored: map<string, Manifest>, r: int)
    requires ListsAll(listing, stored) && r >= 1
    requires forall id :: id in stored ==> !stored[id].status.Unsupported?
    ensures DistinctIDs(ListedDeleting(listing) + Expired(ListedReady(listing), r))
  {
    var ready, deleting := ListedReady(listing), ListedDeleting(listing);
    ReadyListing(listing, stored);
    ListedDeletingInOrder(listing);
    DistinctAppend(deleting, Expired(ready, r), stored);
  }

  lemma DistinctAppend(deleting: seq<Manifest>, ready: seq<Manifest>, stored: map<string, Manifest>)
    requires DistinctIDs(deleting) && DistinctIDs(ready)
    requires forall i :: 0 <= i < |deleting| ==> deleting[i].recoveryPointID in stored.Keys - ReadyPoints(stored).Keys
    requires forall i :: 0 <= i < |ready| ==> ready[i].recoveryPointID in ReadyPoints(stored)
    ensures DistinctIDs(deleting + ready)
  {
    var all := deleting + ready;
    forall i, j | 0 <= i < j < |all| ensures all[i].recoveryPointID != all[j].recoveryPointID {
      assert i < |deleting| ==> all[i] == deleting[i];
      assert j >= |deleting| ==> all[j] == ready[j - |deleting|];
    }
  }

  lemma MarkKeepsWork(pc: Pc)
    requires pc.Retaining? && pc.toMark != []
    ensures var next := pc.(toMark := pc.toMark[1..], toDelete := pc.toDelete + [AsDeleting(pc.toMark[0])]);
            IDs(Work(next)) == IDs(Work(pc)) && (DistinctIDs(Work(pc)) ==> DistinctIDs(Work(next)))
  {
    var next := pc.(toMark := pc.toMark[1..], toDelete := pc.toDelete + [AsDeleting(pc.toMark[0])]);
    assert |Work(next)| == |Work(pc)|;
    assert forall i :: 0 <= i < |Work(pc)| ==> Work(next)[i].recoveryPointID == Work(pc)[i].recoveryPointID;
  }

  lemma ExactStep(w0: World, s: State, l: Label, removal: set<string>, who: Handle)
    requires who in s.active && s.active[who].pc.Retaining? && Exact(w0, s.world, removal, s.active[who].pc)
    requires IDs(Work(s.active[who].pc)) <= s.world.manifests.Keys
    requires Enabled(s, l) && OwnStep(l, who) && !l.Publish? && who in Apply(s, l).active
    ensures Apply(s, l).active[who].pc.Retaining? && Exact(w0, Apply(s, l).world, removal, Apply(s, l).active[who].pc)
  {
    var pc := s.active[who].pc;
    if l.Mark? {
      MarkKeepsWork(pc);
      MemberID(pc.toMark, pc.toMark[0]);
      ConcatIDs(pc.toDelete, pc.toMark);
      assert pc.toMark[0].recoveryPointID in s.world.manifests;
    } else if l.DropBackup? || l.DropArchive? || l.DropManifest? {
      assert Work(pc) == pc.toDelete;
      RetentionBound.IDsHead(pc.toDelete);
      assert Work(Apply(s, l).active[who].pc) == if l.DropManifest? then pc.toDelete[1..] else pc.toDelete;
    }
  }

  /** Before the listing the archive is there; after it the pass is exact. */
  ghost predicate OnWay(s: State, who: Handle, w0: World, removal: set<string>, listed: bool) {
    && Sound(s)
    && who in s.active
    && PastUpload(s.active[who].pc)
    && (listed ==> s.active[who].pc.Retaining? && Exact(w0, s.world, removal, s.active[who].pc))
    && (!listed ==> !s.active[who].pc.Retaining? && who.id in s.world.archives)
  }

  lemma WorkIsStored(w0: World, s: State, who: Handle, removal: set<string>)
    requires removal <= w0.manifests.Keys
    requires who in s.active && s.active[who].pc.Retaining? && Exact(w0, s.world, removal, s.active[who].pc)
    ensures IDs(Work(s.active[who].pc)) <= s.world.manifests.Keys
  {
  }

  predicate RerunShape(states: seq<State>, labels: seq<Label>, who: Handle, q: nat, r: int) {
    && Run(states, labels)
    && 1 <= q < |labels| - 1
    && labels[0] == Upload(who, true, true)
    && labels[q].List? && labels[q].who == who && labels[q].retentionCount == r
    && r >= 1 && ListsAll(labels[q].listing, states[q].world.manifests)
    && labels[|labels| - 1] == Publish(who, true, true)
    && (forall k :: 0 <= k < |labels| ==> OwnStep(labels[k], who) && !labels[k].SkipRetention?)
    && (forall k :: 0 <= k < |labels| - 1 ==> !labels[k].Publish?)
    && (forall k :: 0 <= k < |labels| ==> who in states[k].active)
  }

  /** One step of the rerun after its listing, seen without the rest of the run. */
  lemma NextListed(s: State, l: Label, who: Handle, w0: World, removal: set<string>)
    requires OnWay(s, who, w0, removal, true) && removal <= w0.manifests.Keys
    requires Enabled(s, l) && OwnStep(l, who) && !l.SkipRetention? && !l.Publish? && who in Apply(s, l).active
    ensures OnWay(Apply(s, l), who, w0, removal, true)
  {
    hide Exact;
    SoundStep(s, l);
    WorkIsStored(w0, s, who, removal);
    ExactStep(w0, s, l, removal, who);
  }

  lemma NextListing(s: State, l: Label, who: Handle, w0: World, removal: set<string>)
    requires OnWay(s, who, w0, removal, false)
    requires Enabled(s, l) && l.List? && l.who == who && l.retentionCount >= 1 && ListsAll(l.listing, s.world.manifests)
    ensures OnWay(Apply(s, l), who, s.world, Removal(l.listing, l.retentionCount), true)
  {
    hide Exact, ListsAll;
    SoundStep(s, l);
    ListStartsExact(s, l);
  }

  lemma NextUnlisted(s: State, l: Label, who: Handle, w0: World, removal: set<string>)
    requires OnWay(s, who, w0, removal, false)
    requires Enabled(s, l) && OwnStep(l, who) && !l.SkipRetention? && !l.Publish? && who in Apply(s, l).active
    requires !Apply(s, l).active[who].pc.Retaining?
    ensures OnWay(Apply(s, l), who, w0, removal, false)
  {
    hide Exact;
    SoundStep(s, l);
    BeforeListing(s, l, who);
  }

  lemma FirstOnWay(s: State, l: Label, who: Handle, w0: World, removal: set<string>)
    requires Sound(s) && Enabled(s, l) && l == Upload(who, true, true)
    ensures OnWay(Apply(s, l), who, w0, removal, false)
  {
    SoundStep(s, l);
  }

  lemma ShapeAt(states: seq<State>, labels: seq<Label>, who: Handle, q: nat, r: int, k: nat)
    requires RerunShape(states, labels, who, q, r) && k < |labels|
    ensures Enabled(states[k], labels[k]) && states[k + 1] == Apply(states[k], labels[k])
    ensures who in states[k].active && OwnStep(labels[k], who) && !labels[k].SkipRetention?
    ensures k < |labels| - 1 ==> !labels[k].Publish?
    ensures 1 <= q < |labels| - 1 && |states| == |labels| + 1 && labels[0] == Upload(who, true, true)
    ensures labels[q].List? && labels[q].who == who && labels[q].retentionCount == r >= 1
    ensures ListsAll(labels[q].listing, states[q].world.manifests)
  {
    assert Step(states[k], labels[k], states[k + 1]);
  }

  lemma {:induction false} OnWayAlways(states: seq<State>, labels: seq<Label>, who: Handle, q: nat, r: int, k: nat,
      w0: World, removal: set<string>)
    requires RerunShape(states, labels, who, q, r) && Sound(states[0]) && 1 <= k < |labels|
    requires w0 == states[q].world && removal == Removal(labels[q].listing, r) && removal <= w0.manifests.Keys
    ensures OnWay(states[k], who, w0, removal, k > q)
  {
    hide Sound, Apply, Enabled, Removal, OwnStep, ListsAll, OnWay, Step, IDs;
    ShapeAt(states, labels, who, q, r, k - 1);
    if k == 1 {
      FirstOnWay(states[0], labels[0], who, w0, removal);
    } else {
      OnWayAlways(states, labels, who, q, r, k - 1, w0, removal);
      NextInShape(states, labels, who, q, r, k - 1, w0, removal);
    }
  }

  lemma NextInShape(states: seq<State>, labels: seq<Label>, who: Handle, q: nat, r: int, k: nat,
      w0: World, removal: set<string>)
    requires RerunShape(states, labels, who, q, r) && 1 <= k < |labels| - 1
    requires w0 == states[q].world && removal == Removal(labels[q].listing, r) && removal <= w0.manifests.Keys
    requires OnWay(states[k], who, w0, removal, k > q)
    ensures OnWay(states[k + 1], who, w0, removal, k + 1 > q)
  {
    hide Sound, Apply, Enabled, Removal, OwnStep, ListsAll, OnWay, Step, IDs;
    ShapeAt(states, labels, who, q, r, k);
    if k < q {
      OneListing(states, labels, who, q, r, k);
    }
    var s, l := states[k], labels[k];
    assert who in states[k + 1].active;
    NextOnWay(s, l, who, w0, removal, k > q, k == q, r);
  }

  lemma NextOnWay(s: State, l: Label, who: Handle, w0: World, removal: set<string>, after: bool, now: bool, r: int)
    requires OnWay(s, who, w0, removal, after) && removal <= w0.manifests.Keys && (after ==> !now)
    requires Enabled(s, l) && OwnStep(l, who) && !l.SkipRetention? && !l.Publish? && who in Apply(s, l).active
    requires now ==> l.List? && l.retentionCount == r >= 1 && ListsAll(l.listing, s.world.manifests)
    requires now ==> w0 == s.world && removal == Removal(l.listing, r)
    requires !after && !now ==> !Apply(s, l).active[who].pc.Retaining?
    ensures OnWay(Apply(s, l), who, w0, removal, after || now)
  {
    hide OnWay;
    if after {
      NextListed(s, l, who, w0, removal);
    } else if now {
      NextListing(s, l, who, w0, removal);
    } else {
      NextUnlisted(s, l, who, w0, removal);
    }
  }

  lemma BeforeListing(s: State, l: Label, who: Handle)
    requires who in s.active && PastUpload(s.active[who].pc) && !s.active[who].pc.Retaining?
    requires who.id in s.world.archives
    requires Enabled(s, l) && OwnStep(l, who) && !l.SkipRetention? && who in Apply(s, l).active
    ensures PastUpload(Apply(s, l).active[who].pc) && who.id in Apply(s, l).world.archives
    ensures Apply(s, l).active[who].pc.Retaining? ==> l.List?
  {
  }

  /** The attempt lists once: before its listing at `q` it cannot have listed. */
  lemma {:induction false} OneListing(states: seq<State>, labels: seq<Label>, who: Handle, q: nat, r: int, k: nat)
    requires RerunShape(states, labels, who, q, r) && k < q
    ensures who in states[k + 1].active && !states[k + 1].active[who].pc.Retaining?
    decreases q - k
  {
    ShapeAt(states, labels, who, q, r, k + 1);
    if k + 1 < q {
      OneListing(states, labels, who, q, r, k + 1);
      StaysRetaining(states[k + 1], labels[k + 1], who);
    }
  }

  lemma StaysRetaining(s: State, l: Label, who: Handle)
    requires Enabled(s, l) && OwnStep(l, who) && who in s.active && who in Apply(s, l).active
    ensures s.active[who].pc.Retaining? ==> Apply(s, l).active[who].pc.Retaining?
  {
  }

  lemma RemovalIsStored(listing: seq<Manifest>, stored: map<string, Manifest>, r: int)
    requires r >= 1 && ListsAll(listing, stored)
    ensures Removal(listing, r) <= stored.Keys
  {
    var all := ListedDeleting(listing) + Expired(ListedReady(listing), r);
    forall id | id in Removal(listing, r) ensures id in stored {
      var i :| 0 <= i < |all| && all[i].recoveryPointID == id;
      assert all[i] in all;
      assert all[i] in listing;
    }
  }

  /** A successful rerun with no other writer ends with its point ready; the manifests and archives that are
      left, its own among them, are those outside the removal set of its own listing. */
  lemma RerunBoundary(states: seq<State>, labels: seq<Label>, who: Handle, q: nat, r: int)
    requires RerunShape(states, labels, who, q, r) && Sound(states[0])
    ensures var before, after := states[q].world, states[|labels|].world;
            var removal := Removal(labels[q].listing, r);
            && who.id in after.manifests && after.manifests[who.id].status == Ready
            && (who.id in after.archives <==> who.id !in removal)
            && after.manifests.Keys == before.manifests.Keys - removal + {who.id}
            && after.archives == before.archives - removal
  {
    hide Sound, Apply, Enabled, Removal, Exact, OwnStep, ListsAll;
    var n := |labels| - 1;
    var removal := Removal(labels[q].listing, r);
    RemovalIsStored(labels[q].listing, states[q].world.manifests, r);
    OnWayAlways(states, labels, who, q, r, n, states[q].world, removal);
    OnWayAlways(states, labels, who, q, r, q, states[q].world, removal);
    ShapeAt(states, labels, who, q, r, n);
    PublishExact(states[q].world, states[n], labels[n], removal, who);
  }

  lemma PublishExact(w0: World, s: State, l: Label, removal: set<string>, who: Handle)
    requires who in s.active && s.active[who].pc.Retaining? && Exact(w0, s.world, removal, s.active[who].pc)
    requires Enabled(s, l) && l == Publish(who, true, true) && who.id in w0.archives
    ensures var w := Apply(s, l).world;
            && who.id in w.manifests && w.manifests[who.id].status == Ready
            && (who.id in w.archives <==> who.id !in removal)
            && w.manifests.Keys == w0.manifests.Keys - removal + {who.id}
            && w.archives == w0.archives - removal
  {
    assert Work(s.active[who].pc) == [];
  }

  /** The Velero backup of `id` is there, completed without errors, and nobody has asked for its deletion. */
  predicate BackupHeld(w: World, id: string) {
    CleanBackup(w, id) && VeleroName(id) !in w.deletes
  }

  lemma BackupHeldStep(s: State, l: Label, who: Handle, id: string)
    requires Sound(s) && Enabled(s, l) && OwnStep(l, who) && Canonical(id) && BackupHeld(s.world, id)
    requires l.DropBackup? ==> s.active[who].pc.toDelete[0].recoveryPointID != id
    ensures BackupHeld(Apply(s, l).world, id)
  {
    if l.DropBackup? {
      var m := s.active[who].pc.toDelete[0];
      assert m in s.active[who].pc.toDelete && AttemptSound(s, who);
      NamesDiffer(m.recoveryPointID, id);
    }
  }

  /** Outside the removal set the rerun asks for no deletion. */
  lemma NextDropIsRemoval(s: State, l: Label, who: Handle, w0: World, removal: set<string>, listed: bool)
    requires OnWay(s, who, w0, removal, listed) && Enabled(s, l) && OwnStep(l, who) && l.DropBackup?
    ensures s.active[who].pc.toDelete[0].recoveryPointID in removal
  {
    var pc := s.active[who].pc;
    assert Work(pc)[0] == pc.toDelete[0];
    MemberID(Work(pc), pc.toDelete[0]);
  }

  lemma {:induction false} BackupHeldAlways(states: seq<State>, labels: seq<Label>, who: Handle, q: nat, r: int,
      id: string, k: nat)
    requires RerunShape(states, labels, who, q, r) && Sound(states[0]) && k <= |labels|
    requires Canonical(id) && BackupHeld(states[0].world, id) && id !in Removal(labels[q].listing, r)
    ensures BackupHeld(states[k].world, id)
  {
    hide Sound, Apply, Enabled, Removal, OwnStep, ListsAll, OnWay, Step, IDs, BackupHeld, Canonical;
    if k > 0 {
      BackupHeldAlways(states, labels, who, q, r, id, k - 1);
      ShapeAt(states, labels, who, q, r, k - 1);
      SoundAlways(states, labels, k - 1);
      if labels[k - 1].DropBackup? {
        RemovalIsStored(labels[q].listing, states[q].world.manifests, r);
        OnWayAlways(states, labels, who, q, r, k - 1, states[q].world, Removal(labels[q].listing, r));
        NextDropIsRemoval(states[k - 1], labels[k - 1], who, states[q].world, Removal(labels[q].listing, r), k - 1 > q);
      }
      BackupHeldStep(states[k - 1], labels[k - 1], who, id);
    }
  }

  /** The exact boundary for completeness. If the Velero backup is in order when the rerun uploads, the rerun's
      own point ends complete, archive and backup, if and only if it is outside the removal set; and so does
      every other point that had its archive. */
  lemma RerunCompleteExactly(states: seq<State>, labels: seq<Label>, who: Handle, q: nat, r: int, id: string)
    requires RerunShape(states, labels, who, q, r) && Sound(states[0])
    requires Canonical(id) && BackupHeld(states[0].world, id)
    requires id == who.id || id in states[q].world.archives
    ensures Complete(states[|labels|].world, id) <==> id !in Removal(labels[q].listing, r)
  {
    hide Run, OwnStep, ListsAll, Sound, Removal, Canonical;
    RerunBoundary(states, labels, who, q, r);
    if id !in Removal(labels[q].listing, r) {
      ShapeLength(states, labels, who, q, r);
      BackupHeldAlways(states, labels, who, q, r, id, |labels|);
    }
  }

  lemma ShapeLength(states: seq<State>, labels: seq<Label>, who: Handle, q: nat, r: int)
    requires RerunShape(states, labels, who, q, r)
    ensures |states| == |labels| + 1
  {
  }

  /** The removal set in terms of the listing: listed as deleting, or at position `r - 1` or later among the
      listed ready manifests, newest first. */
  lemma RemovalPositions(listing: seq<Manifest>, r: int, id: string)
    requires r >= 1
    ensures id in Removal(listing, r) <==> ListedAsDeleting(listing, id) || ReadyFrom(listing, r - 1, id)
  {
    ConcatIDs(ListedDeleting(listing), Expired(ListedReady(listing), r));
    DeletingPositions(listing, id);
    ExpiredPositions(listing, r, id);
  }

  predicate ListedAsDeleting(listing: seq<Manifest>, id: string) {
    exists i :: 0 <= i < |listing| && listing[i].recoveryPointID == id && listing[i].status == Deleting
  }

  predicate ReadyFrom(listing: seq<Manifest>, first: nat, id: string) {
    exists i :: first <= i < |ListedReady(listing)| && ListedReady(listing)[i].recoveryPointID == id
  }

  lemma DeletingPositions(listing: seq<Manifest>, id: string)
    ensures id in IDs(ListedDeleting(listing)) <==> ListedAsDeleting(listing, id)
  {
    var deleting := ListedDeleting(listing);
    if id in IDs(deleting) {
      var k :| 0 <= k < |deleting| && deleting[k].recoveryPointID == id;
      assert deleting[k] in deleting;
      assert deleting[k] in listing;
    }
    if ListedAsDeleting(listing, id) {
      var i :| 0 <= i < |listing| && listing[i].recoveryPointID == id && listing[i].status == Deleting;
      assert listing[i] in listing;
      MemberID(deleting, listing[i]);
    }
  }

  lemma ExpiredPositions(listing: seq<Manifest>, r: int, id: string)
    requires r >= 1
    ensures id in IDs(Expired(ListedReady(listing), r)) <==> ReadyFrom(listing, r - 1, id)
  {
    var ready := ListedReady(listing);
    var start := RemovalStart(|ready|, r);
    var expired := Expired(ready, r);
    assert forall k :: 0 <= k < |expired| ==> expired[k] == ready[start + k];
    if id in IDs(expired) {
      var k :| 0 <= k < |expired| && expired[k].recoveryPointID == id;
      assert ready[start + k].recoveryPointID == id;
    }
    if ReadyFrom(listing, r - 1, id) {
      var i :| r - 1 <= i < |ready| && ready[i].recoveryPointID == id;
      assert start == r - 1 && expired[i - start] == ready[i];
    }
  }

  /** With a retention count of one, rerunning an ID whose manifest is ready always removes the point and then
      publishes it again: a ready manifest without its archive. */
  lemma RerunWithRetentionOne(states: seq<State>, labels: seq<Label>, who: Handle, q: nat)
    requires RerunShape(states, labels, who, q, 1) && Sound(states[0])
    requires who.id in ReadyPoints(states[q].world.manifests)
    ensures who.id in ReadyPoints(states[|labels|].world.manifests) && who.id !in states[|labels|].world.archives
  {
    RerunBoundary(states, labels, who, q, 1);
    SoundAlways(states, labels, q);
    ReadyIsListed(labels[q].listing, states[q].world.manifests, who.id);
    RemovalPositions(labels[q].listing, 1, who.id);
  }

  lemma ReadyIsListed(listing: seq<Manifest>, stored: map<string, Manifest>, id: string)
    requires ListsAll(listing, stored) && id in ReadyPoints(stored)
    requires forall x :: x in stored ==> !stored[x].status.Unsupported?
    ensures ReadyFrom(listing, 0, id)
  {
    ReadyListing(listing, stored);
    var ready := ListedReady(listing);
    assert id in IDs(ready);
    var i :| 0 <= i < |ready| && ready[i].recoveryPointID == id;
  }
}

/** Runs that show what the hypotheses of the retention bound are for, for every retention count. */
module RetentionLimits {
  import opened Wrappers
  import opened Ids
  import opened Keys
  import opened Recovery
  import opened Retention
  import opened Lifecycle
  import opened RetentionBound
  import opened Paths
  import LifecycleSafety
  import Ranking

  /** Disciplined steps with retention count `r` and at most `c` attempts at a time; unless a read may be lost,
      the listings are reliable. */
  predicate Allowed(s: State, l: Label, r: int, c: nat, lossy: bool) {
    && Enabled(s, l) && Fresh(s, l) && Exclusive(s, l)
    && !l.SkipRetention? && (l.List? ==> l.retentionCount == r) && (!lossy ==> Retains(s, l, r))
    && |Apply(s, l).active| <= c
  }

  function Limited(r: int, c: nat, lossy: bool): (State, Label) -> Option<State> {
    (s: State, l: Label) => if Allowed(s, l, r, c, lossy) then Some(Apply(s, l)) else None
  }

  // ----- one attempt -----

  function With(s: State, who: Handle, input: Input, w: World, pc: Pc): State {
    s.(world := w, active := s.active[who := Attempt(input, pc)], given := s.given[who.id := input])
  }

  function Backed(w: World, id: string, phase: Phase): World {
    w.(backups := w.backups[VeleroName(id) := phase])
  }

  function WithUpload(w: World, id: string, input: Input): World {
    Backed(w, id, Completed(0)).(archives := w.archives[id := Age(input.key, input.archive)])
  }

  // The states of an attempt that begins in state `s` and up to its publication finds nothing to remove.

  function Begun(s: State, who: Handle, input: Input): State {
    With(s, who, input, s.world, Creating)
  }

  function Asked(s: State, who: Handle, input: Input): State {
    With(s, who, input, Backed(s.world, who.id, InProgress), Waiting)
  }

  function BackupDone(s: State, who: Handle, input: Input): State {
    With(s, who, input, Backed(s.world, who.id, Completed(0)), Waiting)
  }

  function Opened(s: State, who: Handle, input: Input): State {
    With(s, who, input, Backed(s.world, who.id, Completed(0)), Uploading)
  }

  function Archived(s: State, who: Handle, input: Input): State {
    With(s, who, input, WithUpload(s.world, who.id, input), Stamping)
  }

  function Dated(s: State, who: Handle, input: Input): State {
    With(s, who, input, WithUpload(s.world, who.id, input), Listing(s.clock))
  }

  function Prepared(s: State, who: Handle, input: Input): State {
    With(s, who, input, WithUpload(s.world, who.id, input), Retaining(s.clock, [], [], DroppingBackup))
  }

  /** Nothing has been done for `id` yet. */
  predicate Unknown(s: State, id: string) {
    && Canonical(id) && id !in s.published && VeleroName(id) !in s.world.backups
    && forall who :: who in s.active ==> who.id != id
  }

  predicate CanBegin(s: State, who: Handle, c: nat) {
    Unknown(s, who.id) && s.clock != ZERO_TIME && |s.active| < c
  }

  /** A listing from which nothing expires. */
  predicate Spares(listing: seq<Manifest>, r: int) {
    r >= 1 && |listing| < r && forall i :: 0 <= i < |listing| ==> listing[i].status == Ready
  }

  lemma {:induction false} AllReady(listing: seq<Manifest>)
    requires forall i :: 0 <= i < |listing| ==> listing[i].status == Ready
    ensures ListedReady(listing) == listing && ListedDeleting(listing) == []
  {
    if listing != [] {
      AllReady(listing[1..]);
    }
  }

  function Opening(who: Handle, input: Input): seq<Label> {
    [Begin(who, input), CreateBackup(who, true, true), VeleroEnds(VeleroName(who.id), Completed(0)), Observe(who)]
  }

  function Closing(who: Handle, listing: seq<Manifest>, r: int): seq<Label> {
    [Upload(who, true, true), Stamp(who), List(who, listing, r)]
  }

  /** The step is allowed and leads to `t`. */
  ghost predicate Leads(s: State, l: Label, t: State, r: int, c: nat, lossy: bool)
    ensures Leads(s, l, t, r, c, lossy) ==> Limited(r, c, lossy)(s, l) == Some(t)
  {
    Allowed(s, l, r, c, lossy) && Apply(s, l) == t
  }

  lemma BeginLeads(s: State, who: Handle, input: Input, r: int, c: nat, lossy: bool)
    requires CanBegin(s, who, c)
    ensures Leads(s, Begin(who, input), Begun(s, who, input), r, c, lossy)
  {
    hide Canonical, VeleroName;
  }

  lemma CreateLeads(s: State, who: Handle, input: Input, r: int, c: nat, lossy: bool)
    requires CanBegin(s, who, c)
    ensures Leads(Begun(s, who, input), CreateBackup(who, true, true), Asked(s, who, input), r, c, lossy)
  {
    hide Canonical, VeleroName;
  }

  lemma EndLeads(s: State, who: Handle, input: Input, r: int, c: nat, lossy: bool)
    requires CanBegin(s, who, c)
    ensures var l := VeleroEnds(VeleroName(who.id), Completed(0));
            Leads(Asked(s, who, input), l, BackupDone(s, who, input), r, c, lossy)
  {
    hide Canonical, VeleroName;
  }

  lemma ObserveLeads(s: State, who: Handle, input: Input, r: int, c: nat, lossy: bool)
    requires CanBegin(s, who, c)
    ensures Leads(BackupDone(s, who, input), Observe(who), Opened(s, who, input), r, c, lossy)
  {
    hide Canonical, VeleroName;
  }

  lemma Opens(s: State, who: Handle, input: Input, r: int, c: nat, lossy: bool)
    requires CanBegin(s, who, c)
    ensures Path(Limited(r, c, lossy), s, Opened(s, who, input), Opening(who, input))
  {
    hide Path, Allowed, With;
    var next, name := Limited(r, c, lossy), VeleroName(who.id);
    var s1, s2 := Begun(s, who, input), Asked(s, who, input);
    var s3, s4 := BackupDone(s, who, input), Opened(s, who, input);
    BeginLeads(s, who, input, r, c, lossy);
    OneStep(next, s, s1, Begin(who, input));
    CreateLeads(s, who, input, r, c, lossy);
    Longer(next, s, s1, s2, [Begin(who, input)], CreateBackup(who, true, true));
    EndLeads(s, who, input, r, c, lossy);
    Longer(next, s, s2, s3, [Begin(who, input)] + [CreateBackup(who, true, true)], VeleroEnds(name, Completed(0)));
    ObserveLeads(s, who, input, r, c, lossy);
    Longer(next, s, s3, s4, [Begin(who, input)] + [CreateBackup(who, true, true)] + [VeleroEnds(name, Completed(0))],
           Observe(who));
    assert [Begin(who, input)] + [CreateBackup(who, true, true)] + [VeleroEnds(name, Completed(0))] + [Observe(who)]
        == Opening(who, input);
  }

  lemma UploadLeads(s: State, who: Handle, input: Input, r: int, c: nat, lossy: bool)
    requires CanBegin(s, who, c)
    ensures Leads(Opened(s, who, input), Upload(who, true, true), Archived(s, who, input), r, c, lossy)
  {
    hide Canonical, VeleroName;
  }

  lemma StampLeads(s: State, who: Handle, input: Input, r: int, c: nat, lossy: bool)
    requires CanBegin(s, who, c)
    ensures Leads(Archived(s, who, input), Stamp(who), Dated(s, who, input), r, c, lossy)
  {
    hide Canonical, VeleroName;
  }

  lemma ListLeads(s: State, who: Handle, input: Input, listing: seq<Manifest>, r: int, c: nat, lossy: bool)
    requires CanBegin(s, who, c) && Lists(listing, s.world.manifests) && Spares(listing, r)
    requires lossy || IDs(listing) == s.world.manifests.Keys
    ensures Leads(Dated(s, who, input), List(who, listing, r), Prepared(s, who, input), r, c, lossy)
  {
    hide Canonical, VeleroName, Lists, ListedReady, ListedDeleting;
    AllReady(listing);
    assert Expired(listing, r) == [];
  }

  lemma Closes(s: State, who: Handle, input: Input, listing: seq<Manifest>, r: int, c: nat, lossy: bool)
    requires CanBegin(s, who, c) && Lists(listing, s.world.manifests) && Spares(listing, r)
    requires lossy || IDs(listing) == s.world.manifests.Keys
    ensures Path(Limited(r, c, lossy), Opened(s, who, input), Prepared(s, who, input), Closing(who, listing, r))
  {
    hide Path, Allowed, With, Lists;
    var next := Limited(r, c, lossy);
    var s0, s1, s2 := Opened(s, who, input), Archived(s, who, input), Dated(s, who, input);
    UploadLeads(s, who, input, r, c, lossy);
    OneStep(next, s0, s1, Upload(who, true, true));
    StampLeads(s, who, input, r, c, lossy);
    Longer(next, s0, s1, s2, [Upload(who, true, true)], Stamp(who));
    ListLeads(s, who, input, listing, r, c, lossy);
    Longer(next, s0, s2, Prepared(s, who, input), [Upload(who, true, true)] + [Stamp(who)], List(who, listing, r));
    assert [Upload(who, true, true)] + [Stamp(who)] + [List(who, listing, r)] == Closing(who, listing, r);
  }

  function Preparing(who: Handle, input: Input, listing: seq<Manifest>, r: int): seq<Label> {
    Opening(who, input) + Closing(who, listing, r)
  }

  lemma Prepares(s: State, who: Handle, input: Input, listing: seq<Manifest>, r: int, c: nat, lossy: bool)
    requires CanBegin(s, who, c) && Lists(listing, s.world.manifests) && Spares(listing, r)
    requires lossy || IDs(listing) == s.world.manifests.Keys
    ensures Path(Limited(r, c, lossy), s, Prepared(s, who, input), Preparing(who, input, listing, r))
  {
    hide Path, CanBegin, Lists, Spares;
    Opens(s, who, input, r, c, lossy);
    Closes(s, who, input, listing, r, c, lossy);
    Joined(Limited(r, c, lossy), s, Opened(s, who, input), Prepared(s, who, input), Opening(who, input),
           Closing(who, listing, r));
  }

  function Published(s: State, who: Handle): State
    requires who in s.active && s.active[who].pc.Retaining?
  {
    s.(world := s.world.(manifests := s.world.manifests[who.id := NewManifest(who.id, s.active[who].pc.createdAt)]),
       active := s.active - {who}, published := s.published + {who.id})
  }

  lemma PublishLeads(s: State, who: Handle, r: int, c: nat, lossy: bool)
    requires who in s.active && s.active[who].pc == Retaining(s.clock, [], [], DroppingBackup) && |s.active| <= c
    ensures Leads(s, Publish(who, true, true), Published(s, who), r, c, lossy)
  {
    hide NewManifest;
    assert s.active == (s.active - {who})[who := s.active[who]];
  }

  // ----- many attempts -----

  predicate Different(ids: seq<string>) {
    && (forall i :: 0 <= i < |ids| ==> Canonical(ids[i]))
    && (forall i, j :: 0 <= i < j < |ids| ==> ids[i] != ids[j])
  }

  /** Exactly the points `ids` are stored, all of them ready. */
  predicate Holds(s: State, ids: set<string>) {
    && s.world.manifests.Keys == ids && s.clock == 1
    && forall id :: id in ids ==> s.world.manifests[id].recoveryPointID == id && s.world.manifests[id].status == Ready
  }

  /** A reliable listing of fewer ready points than the retention count, from which nothing expires. */
  lemma FullListing(s: State, ids: set<string>, r: int) returns (listing: seq<Manifest>)
    requires Holds(s, ids) && |ids| < r
    ensures Lists(listing, s.world.manifests) && IDs(listing) == s.world.manifests.Keys && Spares(listing, r)
  {
    listing := Ranking.ListingExists(s.world.manifests);
    SizeOfListing(listing);
    forall i | 0 <= i < |listing| ensures listing[i].status == Ready {
      assert listing[i].recoveryPointID in s.world.manifests;
    }
  }

  lemma {:induction false} SizeOfListing(ms: seq<Manifest>)
    requires DistinctIDs(ms)
    ensures |IDs(ms)| == |ms|
  {
    if ms != [] {
      SizeOfListing(ms[1..]);
      IDsHead(ms);
      assert ms[0].recoveryPointID !in IDs(ms[1..]);
    }
  }

  lemma PreparedFacts(s: State, who: Handle, input: Input, c: nat)
    requires CanBegin(s, who, c)
    ensures var t := Prepared(s, who, input);
            && t.world.manifests == s.world.manifests && t.clock == s.clock && t.published == s.published
            && t.active == s.active[who := Attempt(input, Retaining(s.clock, [], [], DroppingBackup))]
            && |t.active| == |s.active| + 1
            && forall id :: Unknown(s, id) && id != who.id ==> Unknown(t, id)
  {
    var t := Prepared(s, who, input);
    forall id | Unknown(s, id) && id != who.id ensures Unknown(t, id) {
      LifecycleSafety.NamesDiffer(id, who.id);
    }
  }

  lemma PublishedFacts(s: State, who: Handle, ids: set<string>)
    requires who in s.active && s.active[who].pc == Retaining(s.clock, [], [], DroppingBackup) && Holds(s, ids)
    ensures var t := Published(s, who);
            && Holds(t, ids + {who.id}) && t.active == s.active - {who}
            && forall id :: Unknown(s, id) && id != who.id ==> Unknown(t, id)
  {
    hide Canonical, VeleroName;
  }

  function Set(ids: seq<string>): set<string> {
    set i | 0 <= i < |ids| :: ids[i]
  }

  lemma SetSnoc(ids: seq<string>, id: string)
    ensures Set(ids + [id]) == Set(ids) + {id}
  {
    var more := ids + [id];
    assert more[|ids|] == id;
    assert forall i :: 0 <= i < |ids| ==> more[i] == ids[i];
  }

  lemma {:induction false} SetSize(ids: seq<string>)
    requires Different(ids)
    ensures |Set(ids)| == |ids|
    decreases |ids|
  {
    if ids != [] {
      hide Different, Set;
      var rest, id := Front(ids);
      SetSize(rest);
    } else {
      assert Set(ids) == {};
    }
  }

  lemma Front(ids: seq<string>) returns (rest: seq<string>, id: string)
    requires Different(ids) && ids != []
    ensures ids == rest + [id] && Different(rest) && Canonical(id)
    ensures id !in Set(rest) && Set(ids) == Set(rest) + {id}
  {
    hide Canonical;
    rest, id := ids[..|ids| - 1], ids[|ids| - 1];
    SetSnoc(rest, id);
  }

  /** Attempts one after the other, up to the retention count: nothing expires and all are ready. */
  lemma {:induction false} PublishOneByOne(ids: seq<string>, input: Input, r: int, c: nat)
    returns (t: State, labels: seq<Label>)
    requires Different(ids) && |ids| <= r && r >= 1 && c >= 1
    ensures Path(Limited(r, c, false), NOTHING, t, labels)
    ensures Holds(t, Set(ids)) && t.active == map[]
    ensures forall id :: Canonical(id) && id !in Set(ids) ==> Unknown(t, id)
    decreases |ids|
  {
    if ids == [] {
      t, labels := NOTHING, [];
      Nowhere(Limited(r, c, false), NOTHING);
    } else {
      hide Path, Allowed, Holds, Different, Set;
      var rest, id := Front(ids);
      var s, before := PublishOneByOne(rest, input, r, c);
      SetSize(rest);
      var listing := FullListing(s, Set(rest), r);
      var more;
      t, more := PublishOne(s, id, input, listing, r, c, false, Set(rest));
      labels := before + more;
      Joined(Limited(r, c, false), NOTHING, s, t, before, more);
    }
  }

  lemma PublishOne(s: State, id: string, input: Input, listing: seq<Manifest>, r: int, c: nat, lossy: bool,
      ids: set<string>)
    returns (t: State, labels: seq<Label>)
    requires Unknown(s, id) && s.active == map[] && Holds(s, ids) && c >= 1
    requires Lists(listing, s.world.manifests) && Spares(listing, r)
    requires lossy || IDs(listing) == s.world.manifests.Keys
    ensures Path(Limited(r, c, lossy), s, t, labels)
    ensures labels == Preparing(Handle(id, 0), input, listing, r) + [Publish(Handle(id, 0), true, true)]
    ensures Holds(t, ids + {id}) && t.active == map[]
    ensures forall other :: Unknown(s, other) && other != id ==> Unknown(t, other)
  {
    hide Path, Lists, Spares, Allowed, VeleroName, Canonical;
    var who := Handle(id, 0);
    Prepares(s, who, input, listing, r, c, lossy);
    PreparedFacts(s, who, input, c);
    var u := Prepared(s, who, input);
    PublishLeads(u, who, r, c, lossy);
    PublishedFacts(u, who, ids);
    t := Published(u, who);
    Longer(Limited(r, c, lossy), s, u, t, Preparing(who, input, listing, r), Publish(who, true, true));
    labels := Preparing(who, input, listing, r) + [Publish(who, true, true)];
  }

  /** The attempts for `ids`, and no others, are ready to publish. */
  predicate AllPrepared(s: State, ids: seq<string>) {
    && (forall who :: who in s.active ==> who.id in Set(ids) && who.number == 0)
    && |s.active| == |ids|
    && forall i :: 0 <= i < |ids| ==>
         && Handle(ids[i], 0) in s.active
         && s.active[Handle(ids[i], 0)].pc == Retaining(s.clock, [], [], DroppingBackup)
  }

  /** Attempts that all list before any of them publishes. */
  lemma {:induction false} PrepareAll(s: State, ids: seq<string>, input: Input, r: int, c: nat, stored: set<string>)
    returns (t: State, labels: seq<Label>)
    requires Different(ids) && Holds(s, stored) && |stored| < r && s.active == map[] && |ids| <= c
    requires forall i :: 0 <= i < |ids| ==> Unknown(s, ids[i])
    ensures Path(Limited(r, c, false), s, t, labels)
    ensures Holds(t, stored) && AllPrepared(t, ids)
    ensures forall id :: Unknown(s, id) && id !in Set(ids) ==> Unknown(t, id)
    decreases |ids|
  {
    if ids == [] {
      t, labels := s, [];
      Nowhere(Limited(r, c, false), s);
    } else {
      var rest, id := Front(ids);
      forall i | 0 <= i < |rest| ensures Unknown(s, rest[i]) {
        assert ids[i] == rest[i];
      }
      assert ids[|rest|] == id;
      var u, before := PrepareAll(s, rest, input, r, c, stored);
      var listing := FullListing(u, stored, r);
      var who := Handle(id, 0);
      Prepares(u, who, input, listing, r, c, false);
      PreparedFacts(u, who, input, c);
      t := Prepared(u, who, input);
      labels := before + Preparing(who, input, listing, r);
      Joined(Limited(r, c, false), s, u, t, before, Preparing(who, input, listing, r));
      OneMorePrepared(u, t, rest, id, input);
    }
  }

  lemma OneMorePrepared(s: State, t: State, ids: seq<string>, id: string, input: Input)
    requires AllPrepared(s, ids) && id !in Set(ids) && t.clock == s.clock
    requires t.active == s.active[Handle(id, 0) := Attempt(input, Retaining(s.clock, [], [], DroppingBackup))]
    ensures AllPrepared(t, ids + [id])
  {
    SetSnoc(ids, id);
    assert Handle(id, 0) !in s.active;
  }

  lemma PublishLast(s: State, ids: seq<string>, id: string, r: int, c: nat, stored: set<string>) returns (t: State)
    requires Holds(s, stored) && AllPrepared(s, ids + [id]) && id !in Set(ids) && |ids| < c
    ensures Path(Limited(r, c, false), s, t, [Publish(Handle(id, 0), true, true)])
    ensures Holds(t, stored + {id}) && AllPrepared(t, ids)
  {
    hide Path, Allowed, Holds, AllPrepared, Unknown, Set, NewManifest;
    var who := Handle(id, 0);
    LastPrepared(s, ids, id);
    PublishLeads(s, who, r, c, false);
    PublishedFacts(s, who, stored);
    t := Published(s, who);
    OneLessPrepared(s, t, ids, id);
    OneStep(Limited(r, c, false), s, t, Publish(who, true, true));
  }

  /** They publish one after the other. */
  lemma {:induction false} PublishAll(s: State, ids: seq<string>, r: int, c: nat, stored: set<string>)
    returns (t: State, labels: seq<Label>)
    requires Different(ids) && Holds(s, stored) && AllPrepared(s, ids) && |ids| <= c
    ensures Path(Limited(r, c, false), s, t, labels)
    ensures Holds(t, stored + Set(ids))
    decreases |ids|
  {
    if ids == [] {
      t, labels := s, [];
      Nowhere(Limited(r, c, false), s);
      assert stored + Set(ids) == stored;
    } else {
      hide *;
      var u, rest, id := PublishFirst(s, ids, r, c, stored);
      var more;
      t, more := PublishAll(u, rest, r, c, stored + {id});
      Regrouped(stored, {id}, Set(rest));
      labels := [Publish(Handle(id, 0), true, true)] + more;
      Joined(Limited(r, c, false), s, u, t, [Publish(Handle(id, 0), true, true)], more);
    }
  }

  lemma Regrouped<T>(a: set<T>, b: set<T>, c: set<T>)
    ensures a + b + c == a + (c + b)
  {
  }

  lemma PublishFirst(s: State, ids: seq<string>, r: int, c: nat, stored: set<string>)
    returns (t: State, rest: seq<string>, id: string)
    requires Different(ids) && Holds(s, stored) && AllPrepared(s, ids) && |ids| <= c && ids != []
    ensures |rest| == |ids| - 1 && Different(rest) && Set(ids) == Set(rest) + {id}
    ensures Path(Limited(r, c, false), s, t, [Publish(Handle(id, 0), true, true)])
    ensures Holds(t, stored + {id}) && AllPrepared(t, rest)
  {
    hide *;
    rest, id := Front(ids);
    t := PublishLast(s, rest, id, r, c, stored);
  }

  lemma LastPrepared(s: State, ids: seq<string>, id: string)
    requires AllPrepared(s, ids + [id])
    ensures Handle(id, 0) in s.active && |s.active| == |ids| + 1
    ensures s.active[Handle(id, 0)].pc == Retaining(s.clock, [], [], DroppingBackup)
  {
    var all := ids + [id];
    assert all[|ids|] == id;
  }

  lemma OneLessPrepared(s: State, t: State, ids: seq<string>, id: string)
    requires AllPrepared(s, ids + [id]) && id !in Set(ids)
    requires t.clock == s.clock && t.active == s.active - {Handle(id, 0)}
    ensures AllPrepared(t, ids)
  {
    SetSnoc(ids, id);
    var all := ids + [id];
    assert all[|ids|] == id;
    assert forall i :: 0 <= i < |ids| ==> all[i] == ids[i] && ids[i] in Set(ids);
    assert s.active == t.active[Handle(id, 0) := s.active[Handle(id, 0)]];
  }

  // ----- the results -----

  /** A disciplined run from nothing, with retention count `r`, at most `c` attempts at a time and reliable
      listings, ends with exactly the ready points `ready`. */
  predicate EndsReady(states: seq<State>, labels: seq<Label>, r: int, c: nat, ready: set<string>) {
    && Disciplined(states, labels) && Initial(states[0])
    && (forall k :: 0 <= k < |labels| ==> Retains(states[k], labels[k], r))
    && (forall k :: 0 <= k < |states| ==> |states[k].active| <= c)
    && ReadyIDs(states[|labels|]) == ready
  }

  lemma AllowedAt(s: State, t: State, labels: seq<Label>, r: int, c: nat, lossy: bool, k: nat)
    requires Path(Limited(r, c, lossy), s, t, labels) && k < |labels|
    ensures var states := Visited(Limited(r, c, lossy), s, t, labels);
            Allowed(states[k], labels[k], r, c, lossy) && states[k + 1] == Apply(states[k], labels[k])
  {
    var states := Visited(Limited(r, c, lossy), s, t, labels);
    assert Limited(r, c, lossy)(states[k], labels[k]) == Some(states[k + 1]);
  }

  lemma AllowedMeans(s: State, l: Label, r: int, c: nat, lossy: bool)
    requires Allowed(s, l, r, c, lossy)
    ensures Enabled(s, l) && Fresh(s, l) && Exclusive(s, l) && |Apply(s, l).active| <= c
    ensures !lossy || !l.List? ==> Retains(s, l, r)
  {
  }

  /** A path from nothing is a disciplined run. */
  lemma PathRuns(t: State, labels: seq<Label>, r: int, c: nat, lossy: bool) returns (states: seq<State>)
    requires Path(Limited(r, c, lossy), NOTHING, t, labels)
    ensures states == Visited(Limited(r, c, lossy), NOTHING, t, labels)
    ensures Disciplined(states, labels) && Initial(states[0]) && states[|labels|] == t
    ensures forall k :: 0 <= k < |labels| ==> (!lossy || !labels[k].List? ==> Retains(states[k], labels[k], r))
    ensures forall k :: 0 <= k < |states| ==> |states[k].active| <= c
  {
    hide Allowed, Apply, Enabled, Fresh, Exclusive, Retains;
    states := Visited(Limited(r, c, lossy), NOTHING, t, labels);
    forall k | 0 <= k < |labels|
      ensures Step(states[k], labels[k], states[k + 1])
      ensures Fresh(states[k], labels[k]) && Exclusive(states[k], labels[k])
      ensures !lossy || !labels[k].List? ==> Retains(states[k], labels[k], r)
    {
      AllowedAt(NOTHING, t, labels, r, c, lossy, k);
      AllowedMeans(states[k], labels[k], r, c, lossy);
    }
    forall k | 0 <= k < |states| ensures |states[k].active| <= c {
      if k > 0 {
        AllowedAt(NOTHING, t, labels, r, c, lossy, k - 1);
        AllowedMeans(states[k - 1], labels[k - 1], r, c, lossy);
      }
    }
  }

  lemma HoldsReady(s: State, ids: set<string>)
    requires Holds(s, ids)
    ensures ReadyIDs(s) == ids
  {
  }

  /** Sequential attempts up to the count and then concurrent ones. */
  lemma BoundIsReached(ids: seq<string>, input: Input, r: nat, c: nat)
    requires r >= 1 && c >= 1 && Different(ids) && |ids| <= r + c - 1
    ensures exists states, labels :: EndsReady(states, labels, r, c, Set(ids))
  {
    hide Path, Allowed, Canonical, Holds, AllPrepared, Unknown, EndsReady, Different, Set;
    var n := if |ids| < r then |ids| else r - 1;
    Parts(ids, n);
    var first, last := ids[..n], ids[n..];
    var s, ls := PublishOneByOne(first, input, r, c);
    SetSize(first);
    forall i | 0 <= i < |last| ensures Unknown(s, last[i]) {
      assert Canonical(last[i]) && last[i] !in Set(first);
    }
    var u, ms := PrepareAll(s, last, input, r, c, Set(first));
    var t, ns := PublishAll(u, last, r, c, Set(first));
    Joined(Limited(r, c, false), NOTHING, s, u, ls, ms);
    Joined(Limited(r, c, false), NOTHING, u, t, ls + ms, ns);
    SetSplit(ids, n);
    HoldsReady(t, Set(ids));
    PathEnds(t, ls + ms + ns, r, c, Set(ids));
  }

  lemma PathEnds(t: State, labels: seq<Label>, r: int, c: nat, ready: set<string>)
    requires Path(Limited(r, c, false), NOTHING, t, labels) && ReadyIDs(t) == ready
    ensures exists states, ls :: EndsReady(states, ls, r, c, ready)
  {
    hide Path, Allowed, ReadyIDs, Retains;
    var states := PathRuns(t, labels, r, c, false);
    assert EndsReady(states, labels, r, c, ready);
  }

  /** Without a publication nothing is ever ready. */
  lemma {:induction false} NothingPublished(states: seq<State>, labels: seq<Label>, i: nat)
    requires Run(states, labels) && Initial(states[0]) && i < |states|
    requires forall k :: 0 <= k < i ==> !(labels[k].Publish? && labels[k].effect)
    ensures states[i].published == {}
  {
    if i > 0 {
      NothingPublished(states, labels, i - 1);
      assert Step(states[i - 1], labels[i - 1], states[i - 1 + 1]);
    }
  }

  lemma EndsWithinBound(states: seq<State>, labels: seq<Label>, r: nat, c: nat, ready: set<string>)
    requires r >= 1 && c >= 1 && EndsReady(states, labels, r, c, ready)
    ensures |ready| <= r + c - 1
  {
    hide Retains, Step, Fresh, Exclusive;
    if p: nat :| p < |labels| && labels[p].Publish? && labels[p].effect {
      forall k | 0 <= k < |states| ensures |Window(states[k])| <= c {
        Ranking.Monotone(Window(states[k]), states[k].active.Keys);
      }
      ConcurrentRetentionBound(states, labels, r, c, p, |labels|);
    } else {
      NothingPublished(states, labels, |labels|);
      LifecycleSafety.InitialIsSafe(states[0]);
      LifecycleSafety.SoundAlways(states, labels, |labels|);
      assert ready == {};
    }
  }

  /** Exactly how many points can be ready at once, for all `r` and `c`: the points of given IDs can all be ready at
      the end of such a run if and only if there are at most `r + c - 1` of them. */
  lemma ReadyTogetherExactly(ids: seq<string>, input: Input, r: nat, c: nat)
    requires r >= 1 && c >= 1 && Different(ids)
    ensures |ids| <= r + c - 1 <==> exists states, labels :: EndsReady(states, labels, r, c, Set(ids))
  {
    hide EndsReady, Different, Set;
    SetSize(ids);
    if |ids| <= r + c - 1 {
      BoundIsReached(ids, input, r, c);
    } else {
      forall states, labels ensures !EndsReady(states, labels, r, c, Set(ids)) {
        if EndsReady(states, labels, r, c, Set(ids)) {
          EndsWithinBound(states, labels, r, c, Set(ids));
          assert false;
        }
      }
    }
  }

  lemma Parts(ids: seq<string>, n: nat)
    requires Different(ids) && n <= |ids|
    ensures Different(ids[..n]) && Different(ids[n..])
    ensures forall i :: 0 <= i < |ids[n..]| ==> Canonical(ids[n..][i]) && ids[n..][i] !in Set(ids[..n])
  {
    hide Canonical;
    forall i | 0 <= i < |ids[n..]| ensures Canonical(ids[n..][i]) && ids[n..][i] !in Set(ids[..n]) {
      assert ids[n..][i] == ids[n + i];
    }
    forall i, j | 0 <= i < j < |ids[n..]| ensures ids[n..][i] != ids[n..][j] {
      assert ids[n..][i] == ids[n + i] && ids[n..][j] == ids[n + j];
    }
  }

  lemma SetSplit(ids: seq<string>, n: nat)
    requires n <= |ids|
    ensures Set(ids) == Set(ids[..n]) + Set(ids[n..])
  {
    forall id | id in Set(ids) ensures id in Set(ids[..n]) + Set(ids[n..]) {
      var i :| 0 <= i < |ids| && ids[i] == id;
      assert if i < n then ids[..n][i] == id else ids[n..][i - n] == id;
    }
    forall id | id in Set(ids[n..]) ensures id in Set(ids) {
      var i :| 0 <= i < |ids[n..]| && ids[n..][i] == id;
      assert ids[n + i] == id;
    }
  }
}

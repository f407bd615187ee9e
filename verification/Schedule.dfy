/** Scheduled backups: which operation a poll reports, and that each instant is used once. */
module Schedule {
  import opened Wrappers
  import opened Recovery
  import opened Retention
  import opened Ranking
  import opened Lifecycle
  import opened LifecycleSafety
  import opened Sequential
  import RetentionBound

  /** What the name-based operation ID is computed from. */
  datatype Occasion = InitialBackup(expression: string) | Instant(at: int)

  datatype Status = Status(due: bool, occasion: Option<Occasion>, nextAt: Option<int>)

  predicate LatestIs(points: map<string, Manifest>, t: int) {
    (exists id :: id in points && points[id].createdAt == t) && forall id :: id in points ==> points[id].createdAt <= t
  }

  /** A poll of these ready points at this time reports `occasion` as due. */
  ghost predicate DueFor(points: map<string, Manifest>, now: int, expression: string, next: int -> int,
    occasion: Occasion) {
    if points == map[] then occasion == InitialBackup(expression)
    else exists t :: LatestIs(points, t) && now >= next(t) && occasion == Instant(next(t))
  }

  /** The schedule read from the settings, and what the reads it needs returned. */
  datatype Reads = Reads(
    settings: Option<(string, bool)>,
    schedule: Option<int -> int>,
    manifests: Option<seq<Manifest>>)

  /** Nothing is scheduled, because of an empty expression or a pause. */
  predicate Idle(inputs: Reads) {
    inputs.settings.Some? && (inputs.settings.value.0 == "" || inputs.settings.value.1)
  }

  /** Some read or parse that the poll needs has failed. */
  predicate Broken(inputs: Reads) {
    inputs.settings == None || (!Idle(inputs) && (inputs.schedule == None || inputs.manifests == None))
  }

  /** The latest time of a listing. */
  predicate Newest(ms: seq<Manifest>, t: int) {
    (exists k :: 0 <= k < |ms| && ms[k].createdAt == t) && forall k :: 0 <= k < |ms| ==> ms[k].createdAt <= t
  }

  method BackupSchedule(configured: bool, inputs: Reads, now: int) returns (status: Option<Status>)
    ensures !configured ==> status == Some(Status(false, None, None))
    ensures configured ==> (status == None <==> Broken(inputs))
    ensures configured && Idle(inputs) ==> status == Some(Status(false, None, None))
    ensures inputs.settings.Some? && (inputs.settings.value.0 == "" || inputs.settings.value.1) ==>
      status == Some(Status(false, None, None))
    ensures configured && !Broken(inputs) && !Idle(inputs) ==> (status.value.due <==> status.value.occasion.Some?)
    ensures configured && !Broken(inputs) && !Idle(inputs) ==>
        && status.value.nextAt.Some? && (status.value.due <==> status.value.nextAt.value <= now)
        && (status.value.due && inputs.manifests.value != [] ==>
              status.value.occasion == Some(Instant(status.value.nextAt.value)))
    ensures configured && !Broken(inputs) && !Idle(inputs) && inputs.manifests.value == [] ==>
        status.value.nextAt == Some(now) && status.value.occasion == Some(InitialBackup(inputs.settings.value.0))
    ensures configured && !Broken(inputs) && !Idle(inputs) ==> forall t ::
      Newest(inputs.manifests.value, t) ==> status.value.nextAt == Some(inputs.schedule.value(t))
    ensures configured && !Broken(inputs) && !Idle(inputs) ==> forall points, t ::
      ListsAll(inputs.manifests.value, points) && LatestIs(points, t) ==>
        status.value.nextAt == Some(inputs.schedule.value(t))
    ensures configured && !Broken(inputs) && !Idle(inputs) ==> forall points, occasion ::
      ListsAll(inputs.manifests.value, points) ==>
        (DueFor(points, now, inputs.settings.value.0, inputs.schedule.value, occasion) <==>
          status.value.due && status.value.occasion == Some(occasion))
  {
    if !configured {
      return Some(Status(false, None, None));
    }
    if inputs.settings == None {
      return None;
    }
    var (expression, paused) := inputs.settings.value;
    if expression == "" || paused {
      return Some(Status(false, None, None));
    }
    if inputs.schedule == None || inputs.manifests == None {
      return None;
    }
    var next, manifests := inputs.schedule.value, inputs.manifests.value;
    if |manifests| == 0 {
      forall points | ListsAll(manifests, points) ensures points == map[] {
        assert points.Keys == {};
      }
      return Some(Status(true, Some(InitialBackup(expression)), Some(now)));
    }
    var latest := manifests[0].createdAt;
    for i := 1 to |manifests|
      invariant forall k :: 0 <= k < i ==> manifests[k].createdAt <= latest
      invariant exists k :: 0 <= k < i && manifests[k].createdAt == latest
    {
      if manifests[i].createdAt > latest {
        latest := manifests[i].createdAt;
      }
    }
    assert Newest(manifests, latest);
    hide Newest, LatestIs, DueFor, ListsAll;
    var nextAt := next(latest);
    forall points | ListsAll(manifests, points)
      ensures forall o :: DueFor(points, now, expression, next, o) <==> now >= nextAt && o == Instant(nextAt)
      ensures forall t :: LatestIs(points, t) ==> nextAt == next(t)
    {
      LatestOfListing(manifests, points, latest);
    }
    if now >= nextAt {
      status := Some(Status(true, Some(Instant(nextAt)), Some(nextAt)));
    } else {
      status := Some(Status(false, None, Some(nextAt)));
    }
  }

  lemma LatestOfListing(manifests: seq<Manifest>, points: map<string, Manifest>, latest: int)
    requires ListsAll(manifests, points) && manifests != []
    requires forall k :: 0 <= k < |manifests| ==> manifests[k].createdAt <= latest
    requires exists k :: 0 <= k < |manifests| && manifests[k].createdAt == latest
    ensures points != map[] && forall t :: LatestIs(points, t) <==> t == latest
  {
    var k :| 0 <= k < |manifests| && manifests[k].createdAt == latest;
    assert manifests[k].recoveryPointID in points;
    forall id | id in points ensures points[id].createdAt <= latest {
      assert id in IDs(manifests);
      var i :| 0 <= i < |manifests| && manifests[i].recoveryPointID == id;
    }
    assert LatestIs(points, latest);
  }

  // ----- over runs of sequential backups -----

  predicate LatestFrom(points: map<string, Manifest>, t: int) {
    exists id :: id in points && points[id].createdAt >= t
  }

  /** Some newest ready point is not going to be marked. */
  predicate KeepsNewest(points: map<string, Manifest>, marks: set<string>) {
    points == map[] || exists k :: k in points && k !in marks && forall x :: x in points ==>
      points[x].createdAt <= points[k].createdAt
  }

  ghost predicate Steady(s: State) {
    && Safe(s)
    && Alone(s)
    && (forall a :: a in s.active && s.active[a].pc.Retaining? ==>
          KeepsNewest(ReadyPoints(s.world.manifests), IDs(s.active[a].pc.toMark)))
  }

  lemma ListKeepsNewest(listing: seq<Manifest>, stored: map<string, Manifest>, r: int)
    requires ListsAll(listing, stored) && r >= 2
    requires forall x :: x in stored ==> !stored[x].status.Unsupported?
    ensures KeepsNewest(ReadyPoints(stored), IDs(Expired(ListedReady(listing), r)))
  {
    ReadyListing(listing, stored);
    HeadIsKept(ListedReady(listing), ReadyPoints(stored), r);
  }

  lemma HeadIsKept(ready: seq<Manifest>, points: map<string, Manifest>, r: int)
    requires ListsAll(ready, points) && r >= 2
    ensures KeepsNewest(points, IDs(Expired(ready, r)))
  {
    if ready == [] {
      assert points.Keys == {};
    } else {
      var k, start := ready[0].recoveryPointID, RemovalStart(|ready|, r);
      forall x | x in points ensures points[x].createdAt <= points[k].createdAt {
        assert x in IDs(ready);
        var i :| 0 <= i < |ready| && ready[i].recoveryPointID == x;
      }
      assert start >= 1 && forall i :: 0 <= i < |Expired(ready, r)| ==> Expired(ready, r)[i] == ready[start + i];
      assert k in points && k !in IDs(Expired(ready, r));
    }
  }

  /** A step that does not publish changes neither whether there are ready points nor the latest time. */
  lemma LatestStays(s: State, l: Label, r: int)
    requires Steady(s) && Enabled(s, l) && RetentionBound.Retains(s, l, r) && r >= 2 && !Publishes(l)
    ensures var before, after := ReadyPoints(s.world.manifests), ReadyPoints(Apply(s, l).world.manifests);
            && (before == map[] <==> after == map[])
            && forall t :: LatestIs(before, t) <==> LatestIs(after, t)
  {
    if l.Mark? {
      MarkKeepsLatest(s, l);
    } else {
      ReadyUnchanged(s, l);
    }
  }

  /** Only publishing and marking change the ready points. */
  lemma ReadyUnchanged(s: State, l: Label)
    requires Safe(s) && Enabled(s, l) && !Publishes(l) && !l.Mark?
    ensures ReadyPoints(Apply(s, l).world.manifests) == ReadyPoints(s.world.manifests)
  {
    hide Complete, CleanBackup, Sound;
    if l.DropManifest? {
      assert s.active[l.who].pc.toDelete[0] in s.active[l.who].pc.toDelete;
    }
  }

  lemma MarkShrinksReady(s: State, l: Label)
    requires Enabled(s, l) && l.Mark?
    ensures var before, after := ReadyPoints(s.world.manifests), ReadyPoints(Apply(s, l).world.manifests);
            SubPoints(after, before) && before.Keys - IDs(s.active[l.who].pc.toMark) <= after.Keys
  {
    MemberID(s.active[l.who].pc.toMark, s.active[l.who].pc.toMark[0]);
  }

  lemma MarkKeepsLatest(s: State, l: Label)
    requires Steady(s) && Enabled(s, l) && l.Mark?
    ensures var before, after := ReadyPoints(s.world.manifests), ReadyPoints(Apply(s, l).world.manifests);
            && (before == map[] <==> after == map[])
            && forall t :: LatestIs(before, t) <==> LatestIs(after, t)
  {
    var before, after := ReadyPoints(s.world.manifests), ReadyPoints(Apply(s, l).world.manifests);
    MarkShrinksReady(s, l);
    if before == map[] {
      assert after.Keys == {};
    } else {
      var k :| k in before && k !in IDs(s.active[l.who].pc.toMark) && forall x :: x in before ==>
        before[x].createdAt <= before[k].createdAt;
      LosingOthersKeepsLatest(before, after, k);
    }
  }

  lemma LosingOthersKeepsLatest(before: map<string, Manifest>, after: map<string, Manifest>, k: string)
    requires SubPoints(after, before) && k in before && k in after
    requires forall x :: x in before ==> before[x].createdAt <= before[k].createdAt
    ensures forall t :: LatestIs(before, t) <==> LatestIs(after, t)
  {
    var top := before[k].createdAt;
    assert LatestIs(before, top) && LatestIs(after, top);
  }

  lemma SteadyStep(s: State, l: Label, r: int)
    requires Steady(s) && Enabled(s, l) && Fresh(s, l) && Exclusive(s, l)
    requires RetentionBound.Retains(s, l, r) && r >= 2 && Alone(Apply(s, l))
    ensures Steady(Apply(s, l))
  {
    var t := Apply(s, l);
    SafeStep(s, l);
    forall a | a in t.active && t.active[a].pc.Retaining?
      ensures KeepsNewest(ReadyPoints(t.world.manifests), IDs(t.active[a].pc.toMark))
    {
      if l.List? {
        ListKeepsNewest(l.listing, s.world.manifests, r);
      } else if l.Mark? {
        MarkKeepsNewest(s, l);
      } else {
        RetainingKeepsNewest(s, l, a);
      }
    }
  }

  lemma MarkKeepsNewest(s: State, l: Label)
    requires Steady(s) && Enabled(s, l) && l.Mark? && l.who in Apply(s, l).active
    ensures KeepsNewest(ReadyPoints(Apply(s, l).world.manifests), IDs(Apply(s, l).active[l.who].pc.toMark))
  {
    var before, after := ReadyPoints(s.world.manifests), ReadyPoints(Apply(s, l).world.manifests);
    var marks := s.active[l.who].pc.toMark;
    RetentionBound.IDsHead(marks);
    MarkShrinksReady(s, l);
    if after != map[] {
      var k :| k in before && k !in IDs(marks) && forall x :: x in before ==>
        before[x].createdAt <= before[k].createdAt;
      assert k in after;
    }
  }

  lemma RetainingKeepsNewest(s: State, l: Label, a: Handle)
    requires Steady(s) && Enabled(s, l) && !l.List? && !l.Mark? && !l.SkipRetention? && Alone(Apply(s, l))
    requires a in Apply(s, l).active && Apply(s, l).active[a].pc.Retaining?
    ensures KeepsNewest(ReadyPoints(Apply(s, l).world.manifests), IDs(Apply(s, l).active[a].pc.toMark))
  {
    assert a in s.active && s.active[a].pc.Retaining? && Apply(s, l).active[a].pc.toMark == s.active[a].pc.toMark;
    ReadyUnchanged(s, l);
  }

  lemma {:induction false} SteadyAlways(states: seq<State>, labels: seq<Label>, r: int, i: nat)
    requires SequentialRun(states, labels, r) && Steady(states[0]) && r >= 2 && i < |states|
    ensures Steady(states[i])
  {
    if i > 0 {
      SteadyAlways(states, labels, r, i - 1);
      RunAt(states, labels, r, i - 1);
      SteadyStep(states[i - 1], labels[i - 1], r);
    }
  }

  lemma RunLength(states: seq<State>, labels: seq<Label>, r: int)
    requires SequentialRun(states, labels, r)
    ensures |states| == |labels| + 1
  {
  }

  lemma RunAt(states: seq<State>, labels: seq<Label>, r: int, k: nat)
    requires SequentialRun(states, labels, r) && k < |labels|
    ensures Enabled(states[k], labels[k]) && states[k + 1] == Apply(states[k], labels[k])
    ensures Fresh(states[k], labels[k]) && Exclusive(states[k], labels[k])
    ensures RetentionBound.Retains(states[k], labels[k], r) && Alone(states[k + 1])
  {
    assert Step(states[k], labels[k], states[k + 1]);
  }

  /** Publishing adds a point and takes none away. */
  lemma PublishAdds(s: State, l: Label)
    requires Steady(s) && Enabled(s, l) && Publishes(l)
    ensures var before, after := ReadyPoints(s.world.manifests), ReadyPoints(Apply(s, l).world.manifests);
            && SubPoints(before, after) && LatestFrom(after, s.active[l.who].pc.createdAt)
  {
    assert l.who.id !in s.published && l.who.id !in s.world.manifests;
    var after := ReadyPoints(Apply(s, l).world.manifests);
    assert l.who.id in after && after[l.who.id].createdAt == s.active[l.who].pc.createdAt;
  }

  /** With `r >= 2`, once there is a ready point there always is one, and the latest time never decreases. */
  lemma {:induction false} LatestNeverDecreases(states: seq<State>, labels: seq<Label>, r: int, i: nat, j: nat, t: int)
    requires SequentialRun(states, labels, r) && Steady(states[0]) && r >= 2 && i <= j < |states|
    requires LatestFrom(ReadyPoints(states[i].world.manifests), t)
    ensures LatestFrom(ReadyPoints(states[j].world.manifests), t)
  {
    hide *;
    if i < j {
      RunLength(states, labels, r);
      LatestNeverDecreases(states, labels, r, i, j - 1, t);
      SteadyAlways(states, labels, r, j - 1);
      RunAt(states, labels, r, j - 1);
      LatestFromStep(states[j - 1], labels[j - 1], r, t);
    }
  }

  lemma LatestFromStep(s: State, l: Label, r: int, t: int)
    requires Steady(s) && Enabled(s, l) && RetentionBound.Retains(s, l, r) && r >= 2
    requires LatestFrom(ReadyPoints(s.world.manifests), t)
    ensures LatestFrom(ReadyPoints(Apply(s, l).world.manifests), t)
  {
    var before, after := ReadyPoints(s.world.manifests), ReadyPoints(Apply(s, l).world.manifests);
    var id :| id in before && before[id].createdAt >= t;
    if Publishes(l) {
      PublishAdds(s, l);
    } else {
      var latest := LatestExists(before);
      LatestStays(s, l, r);
      assert LatestIs(after, latest);
    }
  }

  lemma {:induction false} LatestExists(points: map<string, Manifest>) returns (t: int)
    requires points != map[]
    ensures LatestIs(points, t)
    decreases |points|
  {
    var id :| id in points;
    var rest := points - {id};
    assert rest.Keys == points.Keys - {id};
    assert forall x :: x in points ==> x == id || (x in rest && rest[x] == points[x]);
    if rest == map[] {
      t := points[id].createdAt;
    } else {
      t := LatestExists(rest);
      if t < points[id].createdAt {
        t := points[id].createdAt;
      }
    }
  }

  /** All due polls between two publications report one operation. */
  lemma {:induction false} PollsAgree(states: seq<State>, labels: seq<Label>, r: int, i: nat, j: nat,
      expression: string, next: int -> int, first: Occasion, second: Occasion)
    requires SequentialRun(states, labels, r) && Steady(states[0]) && r >= 2 && i <= j < |states|
    requires forall k :: i <= k < j ==> !Publishes(labels[k])
    requires DueFor(ReadyPoints(states[i].world.manifests), states[i].clock, expression, next, first)
    requires DueFor(ReadyPoints(states[j].world.manifests), states[j].clock, expression, next, second)
    ensures first == second
  {
    LatestSame(states, labels, r, i, j);
    SameOccasion(ReadyPoints(states[i].world.manifests), ReadyPoints(states[j].world.manifests),
                 states[i].clock, states[j].clock, expression, next, first, second);
  }

  lemma SameOccasion(a: map<string, Manifest>, b: map<string, Manifest>, now: int, moment: int,
      expression: string, next: int -> int, first: Occasion, second: Occasion)
    requires (a == map[] <==> b == map[]) && forall t :: LatestIs(a, t) <==> LatestIs(b, t)
    requires DueFor(a, now, expression, next, first) && DueFor(b, moment, expression, next, second)
    ensures first == second
  {
    if a != map[] {
      var t :| LatestIs(a, t) && now >= next(t) && first == Instant(next(t));
      var u :| LatestIs(b, u) && moment >= next(u) && second == Instant(next(u));
      assert LatestIs(a, u) && t == u;
    }
  }

  lemma {:induction false} LatestSame(states: seq<State>, labels: seq<Label>, r: int, i: nat, j: nat)
    requires SequentialRun(states, labels, r) && Steady(states[0]) && r >= 2 && i <= j < |states|
    requires forall k :: i <= k < j ==> !Publishes(labels[k])
    ensures var a, b := ReadyPoints(states[i].world.manifests), ReadyPoints(states[j].world.manifests);
            (a == map[] <==> b == map[]) && forall t :: LatestIs(a, t) <==> LatestIs(b, t)
  {
    hide *;
    if i < j {
      RunLength(states, labels, r);
      LatestSame(states, labels, r, i, j - 1);
      SteadyAlways(states, labels, r, j - 1);
      RunAt(states, labels, r, j - 1);
      LatestStays(states[j - 1], labels[j - 1], r);
    }
  }

  predicate Stamped(pc: Pc) {
    pc.Listing? || pc.Retaining?
  }

  /** An attempt that began after time `t` is stamped at `t` or later. */
  lemma {:induction false} StampedAfter(states: seq<State>, labels: seq<Label>, r: int, i: nat, j: nat, id: string)
    requires SequentialRun(states, labels, r) && i <= j < |states|
    requires forall who :: who in states[i].active ==> who.id != id
    ensures states[i].clock <= states[j].clock
    ensures StampedFrom(states[j], id, states[i].clock)
  {
    if i < j {
      StampedAfter(states, labels, r, i, j - 1, id);
      RunAt(states, labels, r, j - 1);
      StampStep(states[j - 1], labels[j - 1], id, states[i].clock);
    }
  }

  predicate StampedFrom(s: State, id: string, t: int) {
    forall who :: who in s.active && who.id == id && Stamped(s.active[who].pc) ==> s.active[who].pc.createdAt >= t
  }

  lemma StampStep(s: State, l: Label, id: string, t: int)
    requires Enabled(s, l) && t <= s.clock && StampedFrom(s, id, t)
    ensures t <= Apply(s, l).clock && StampedFrom(Apply(s, l), id, t)
  {
  }

  /** Once the point of a due operation is published, that operation is never due again. `idOf` stands for the
      name-based operation ID, which is injective on occasions; `next` for any satisfiable schedule. */
  lemma ScheduledOnce(states: seq<State>, labels: seq<Label>, r: int, i: nat, p: nat, k: nat,
      expression: string, next: int -> int, idOf: Occasion -> string, first: Occasion, later: Occasion)
    requires SequentialRun(states, labels, r) && Steady(states[0]) && r >= 2 && i <= p < k < |states|
    requires forall t :: next(t) > t
    requires forall a, b :: idOf(a) == idOf(b) ==> a == b
    requires DueFor(ReadyPoints(states[i].world.manifests), states[i].clock, expression, next, first)
    requires forall who :: who in states[i].active ==> who.id != idOf(first)
    requires Publishes(labels[p]) && labels[p].who.id == idOf(first)
    requires DueFor(ReadyPoints(states[k].world.manifests), states[k].clock, expression, next, later)
    ensures idOf(later) != idOf(first)
  {
    var s := states[p];
    RunAt(states, labels, r, p);
    SteadyAlways(states, labels, r, p);
    StampedAfter(states, labels, r, i, p, idOf(first));
    var c := s.active[labels[p].who].pc.createdAt;
    PublishAdds(s, labels[p]);
    LatestNeverDecreases(states, labels, r, p + 1, k, c);
    var points := ReadyPoints(states[k].world.manifests);
    var x :| x in points && points[x].createdAt >= c;
    var u :| LatestIs(points, u) && states[k].clock >= next(u) && later == Instant(next(u));
    assert u >= c >= states[i].clock && next(u) > u;
  }
}

/** What one manifest read that fails during a listing does to retention counts and to schedules. */
module LostReads {
  import opened Wrappers
  import opened Ids
  import opened Keys
  import opened Recovery
  import opened Retention
  import opened Lifecycle
  import opened RetentionBound
  import opened Schedule
  import opened Paths
  import opened RetentionLimits
  import Ranking
  import Rerun
  import SpoiledRuns

  // ----- counts -----

  /** A disciplined run from nothing of attempts one after the other with retention count `r`, in which every listing
      is reliable except the one at step `j`, which misses one stored manifest. */
  predicate LosesOneRead(states: seq<State>, labels: seq<Label>, r: int, j: nat) {
    && Disciplined(states, labels) && Initial(states[0])
    && (forall k :: 0 <= k < |states| ==> |states[k].active| <= 1)
    && j < |labels| && labels[j].List? && labels[j].retentionCount == r
    && (exists x :: x in states[j].world.manifests && IDs(labels[j].listing) == states[j].world.manifests.Keys - {x})
    && (forall k :: 0 <= k < |labels| && k != j ==> Retains(states[k], labels[k], r))
  }

  /** One lost read is enough for one point too many, whatever the retention count. */
  lemma LostReadExceeds(ids: seq<string>, input: Input, r: nat)
    requires r >= 1 && Different(ids) && |ids| == r + 1
    ensures exists states, labels, j :: LosesOneRead(states, labels, r, j) && ReadyIDs(states[|labels|]) == Set(ids)
    ensures |Set(ids)| == r + 1
  {
    hide *;
    SetSize(ids);
    var rest, id := Front(ids);
    var s, before := PublishOneByOne(rest, input, r, 1);
    SetSize(rest);
    var x, listing := LossyListing(s, Set(rest), r);
    var t, more := PublishOne(s, id, input, listing, r, 1, true, Set(rest));
    HoldsReady(t, Set(ids));
    var states, labels, j := LossyRun(s, t, before, more, Handle(id, 0), input, listing, r, x);
  }

  lemma LossyListing(s: State, ids: set<string>, r: int) returns (x: string, listing: seq<Manifest>)
    requires Holds(s, ids) && |ids| == r >= 1
    ensures x in s.world.manifests && IDs(listing) == s.world.manifests.Keys - {x}
    ensures Lists(listing, s.world.manifests) && Spares(listing, r)
  {
    x :| x in ids;
    var left := s.world.manifests - {x};
    listing := Ranking.ListingExists(left);
    assert left.Keys == ids - {x};
    SizeOfListing(listing);
    forall i | 0 <= i < |listing| ensures listing[i].status == Ready {
      assert listing[i].recoveryPointID in s.world.manifests;
    }
  }

  lemma LossyRun(s: State, t: State, before: seq<Label>, more: seq<Label>, who: Handle, input: Input,
      listing: seq<Manifest>, r: int, x: string)
    returns (states: seq<State>, labels: seq<Label>, j: nat)
    requires Path(Limited(r, 1, false), NOTHING, s, before) && Path(Limited(r, 1, true), s, t, more)
    requires more == Preparing(who, input, listing, r) + [Publish(who, true, true)]
    requires x in s.world.manifests && IDs(listing) == s.world.manifests.Keys - {x}
    ensures LosesOneRead(states, labels, r, j) && states[|labels|] == t
  {
    hide *;
    Widens(NOTHING, s, before, r);
    VisitedJoined(Limited(r, 1, true), NOTHING, s, t, before, more);
    labels, j := before + more, |before| + 6;
    states := PathRuns(t, labels, r, 1, true);
    PreparingForm(who, input, listing, r);
    StillStored(s, t, more, r, 6);
    assert states[j] == states[|before|..][6];
    forall k | 0 <= k < |labels| && k != j ensures Retains(states[k], labels[k], r) {
      if k < |before| {
        StrictStart(s, t, before, more, r, k);
      } else {
        assert labels[k] == more[k - |before|];
      }
    }
    IsLossy(states, labels, r, j, x);
  }

  lemma IsLossy(states: seq<State>, labels: seq<Label>, r: int, j: nat, x: string)
    requires Disciplined(states, labels) && Initial(states[0])
    requires forall k :: 0 <= k < |states| ==> |states[k].active| <= 1
    requires j < |labels| && labels[j].List? && labels[j].retentionCount == r && |states| == |labels| + 1
    requires x in states[j].world.manifests && IDs(labels[j].listing) == states[j].world.manifests.Keys - {x}
    requires forall k :: 0 <= k < |labels| && k != j ==> Retains(states[k], labels[k], r)
    ensures LosesOneRead(states, labels, r, j)
  {
    hide Disciplined, Initial, Retains, IDs;
  }

  lemma StrictStart(s: State, t: State, before: seq<Label>, more: seq<Label>, r: int, k: nat)
    requires Path(Limited(r, 1, false), NOTHING, s, before) && Path(Limited(r, 1, true), s, t, more) && k < |before|
    ensures Path(Limited(r, 1, true), NOTHING, t, before + more)
    ensures Retains(Visited(Limited(r, 1, true), NOTHING, t, before + more)[k], (before + more)[k], r)
  {
    hide *;
    Widens(NOTHING, s, before, r);
    SameStart(NOTHING, s, t, before, more, r, k);
    var strict := PathRuns(s, before, r, 1, false);
    assert (before + more)[k] == before[k];
  }

  lemma Widens(s: State, t: State, labels: seq<Label>, r: int)
    requires Path(Limited(r, 1, false), s, t, labels)
    ensures Path(Limited(r, 1, true), s, t, labels)
    ensures Visited(Limited(r, 1, true), s, t, labels) == Visited(Limited(r, 1, false), s, t, labels)
  {
    hide Apply, Enabled, Retains;
    Wider(Limited(r, 1, false), Limited(r, 1, true), s, t, labels);
  }

  lemma PreparingForm(who: Handle, input: Input, listing: seq<Manifest>, r: int)
    ensures var labels := Preparing(who, input, listing, r) + [Publish(who, true, true)];
            && |labels| == 8 && labels[6] == List(who, listing, r)
            && forall k :: 0 <= k < 8 ==> (k != 6 ==> !labels[k].List?) && (k < 6 ==> LeavesManifests(labels[k]))
  {
  }

  predicate LeavesManifests(l: Label) {
    !l.Mark? && !l.DropManifest? && !l.Publish?
  }

  lemma {:induction false} StillStored(s: State, t: State, labels: seq<Label>, r: int, k: nat)
    requires Path(Limited(r, 1, true), s, t, labels) && k <= |labels|
    requires forall i :: 0 <= i < k ==> LeavesManifests(labels[i])
    ensures Visited(Limited(r, 1, true), s, t, labels)[k].world.manifests == s.world.manifests
  {
    if k > 0 {
      StillStored(s, t, labels, r, k - 1);
      AllowedAt(s, t, labels, r, 1, true, k - 1);
      var states := Visited(Limited(r, 1, true), s, t, labels);
      assert LeavesManifests(labels[k - 1]);
      assert states[k - 1 + 1] == Apply(states[k - 1], labels[k - 1]);
    }
  }

  lemma {:induction false} SameStart(s: State, t: State, u: State, first: seq<Label>, second: seq<Label>, r: int,
      k: nat)
    requires Path(Limited(r, 1, true), s, t, first) && Path(Limited(r, 1, true), t, u, second) && k <= |first|
    ensures Path(Limited(r, 1, true), s, u, first + second)
    ensures Visited(Limited(r, 1, true), s, u, first + second)[k] == Visited(Limited(r, 1, true), s, t, first)[k]
  {
    hide Path, Allowed;
    var next := Limited(r, 1, true);
    Joined(next, s, t, u, first, second);
    if k > 0 {
      SameStart(s, t, u, first, second, r, k - 1);
      assert (first + second)[k - 1] == first[k - 1];
      assert next(Visited(next, s, t, first)[k - 1], first[k - 1]) == Some(Visited(next, s, t, first)[k]);
    }
  }

  // ----- schedules -----

  /** An operation whose point `x` is published is reported as due again if the read of that point's manifest fails,
      and is not if all are read. */
  lemma LostReadRepeatsTheOccasion(points: map<string, Manifest>, x: string, at: int, now: int, expression: string,
      next: int -> int, occasion: Occasion)
    requires x in points && points[x].createdAt >= at && at <= now && forall t :: next(t) > t
    requires DueFor(points - {x}, at, expression, next, occasion)
    ensures DueFor(points - {x}, now, expression, next, occasion)
    ensures !DueFor(points, now, expression, next, occasion)
  {
    var before := points - {x};
    if before != map[] {
      var t :| LatestIs(before, t) && at >= next(t) && occasion == Instant(next(t));
      assert LatestIs(before, t);
      forall u | LatestIs(points, u) ensures next(u) > next(t) {
        assert u >= points[x].createdAt >= next(t);
      }
    }
  }

  /** A run of two backups that polls of the schedule start, with a retention count of one and reliable listings for
      retention. The poll at step `b` loses the read of the only ready point and reports the operation of that point
      again; the run ends with the point ready and its archive gone. */
  ghost predicate RepeatedByLostRead(states: seq<State>, labels: seq<Label>, b: nat, id: string, expression: string,
      next: int -> int)
  {
    var initial := InitialBackup(expression);
    && Run(states, labels) && Initial(states[0]) && 0 < b < |labels|
    && (forall k :: 0 <= k < |labels| ==> Retains(states[k], labels[k], 1))
    && (forall k :: 0 <= k < |labels| ==> (labels[k].Begin? <==> k == 0 || k == b))
    && labels[0].who.id == id && labels[b].who.id == id
    && DueFor(ReadyPoints(states[0].world.manifests), states[0].clock, expression, next, initial)
    && id in ReadyPoints(states[b].world.manifests)
    && !DueFor(ReadyPoints(states[b].world.manifests), states[b].clock, expression, next, initial)
    && DueFor(ReadyPoints(states[b].world.manifests) - {id}, states[b].clock, expression, next, initial)
    && id in ReadyPoints(states[|labels|].world.manifests) && id !in states[|labels|].world.archives
  }

  lemma NoPoints(manifests: map<string, Manifest>)
    ensures manifests == map[] ==> ReadyPoints(manifests) == map[]
  {
  }

  lemma OnePoint(manifests: map<string, Manifest>, id: string)
    requires manifests.Keys == {id}
    ensures ReadyPoints(manifests) - {id} == map[]
  {
    assert (ReadyPoints(manifests) - {id}).Keys == {};
  }

  /** Such a run exists, whatever ID is computed for the initial backup. */
  lemma LostReadRerunsTheBackup(id: string, x: Input, y: Input, expression: string, next: int -> int)
    requires Canonical(id)
    ensures exists states, labels, b :: RepeatedByLostRead(states, labels, b, id, expression, next)
  {
    hide Canonical, ReadyPoints, Retains, Step, Rerun.RerunShape;
    var states, labels, b, n, q := SpoiledRuns.RerunHappens(id, x, y);
    forall k | 0 <= k < |labels| ensures labels[k].Begin? <==> k == 0 || k == b {
      if 0 < k < b {
        assert labels[k] == labels[1..b][k - 1];
      } else if b < k {
        assert labels[k] == labels[b + 1..][k - b - 1];
      }
    }
    NoPoints(states[0].world.manifests);
    OnePoint(states[b].world.manifests, id);
    assert RepeatedByLostRead(states, labels, b, id, expression, next);
  }
}

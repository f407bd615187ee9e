/** How many ready points concurrent backups can leave: the retention count plus the concurrency minus one. */
module RetentionBound {
  import opened Wrappers
  import opened Recovery
  import opened Retention
  import opened Lifecycle
  import Ranking

  function ReadyIDs(s: State): set<string> {
    ReadyPoints(s.world.manifests).Keys
  }

  /** The attempts between listing and publishing. */
  function Window(s: State): set<Handle> {
    set who | who in s.active && s.active[who].pc.Retaining?
  }

  function Targets(attempts: set<Handle>): set<string> {
    set who | who in attempts :: who.id
  }

  /** What an attempt saw when it listed: the points its retention keeps and the points that the attempts then
      in the window work for. */
  datatype View = View(tick: nat, keep: set<string>, peers: set<string>)

  /** Views of the attempts, and the view of the publisher that listed last. */
  datatype History = History(tick: nat, views: map<Handle, View>, anchor: Option<View>)

  function Record(h: History, s: State, l: Label): History
    requires Enabled(s, l)
  {
    match l
    case List(who, listing, r) =>
      if r < 1 then h
      else
        var view := View(h.tick, IDs(Kept(ListedReady(listing), r)), Targets(Window(Apply(s, l))));
        h.(tick := h.tick + 1, views := h.views[who := view])
    case Publish(who, effect, _) =>
      if effect && who in h.views && (h.anchor == None || h.anchor.value.tick < h.views[who].tick)
      then h.(anchor := Some(h.views[who]))
      else h
    case _ => h
  }

  function HistoryAt(states: seq<State>, labels: seq<Label>, i: nat): History
    requires Run(states, labels) && i < |states|
  {
    if i == 0 then History(0, map[], None)
    else
      assert Step(states[i - 1], labels[i - 1], states[i - 1 + 1]);
      Record(HistoryAt(states, labels, i - 1), states[i - 1], labels[i - 1])
  }

  predicate Sized(v: View, r: int, c: nat) {
    |v.keep| <= r - 1 && |v.peers| <= c
  }

  function Pending(s: State, who: Handle): set<string>
    requires who in Window(s)
  {
    IDs(s.active[who].pc.toMark)
  }

  predicate AfterAnchor(v: View, anchor: Option<View>) {
    anchor == None || anchor.value.tick < v.tick
  }

  predicate Viewed(s: State, h: History, r: int, c: nat, who: Handle)
    requires who in Window(s)
  {
    && who in h.views
    && h.views[who].tick < h.tick
    && who.id in h.views[who].peers
    && Sized(h.views[who], r, c)
    && (h.anchor.Some? ==> h.views[who].tick != h.anchor.value.tick)
    && (AfterAnchor(h.views[who], h.anchor) ==> ReadyIDs(s) <= h.views[who].keep + Pending(s, who) + h.views[who].peers)
    && (!AfterAnchor(h.views[who], h.anchor) ==> who.id in h.anchor.value.peers)
  }

  predicate Ordered(s: State, h: History)
    requires forall who :: who in Window(s) ==> who in h.views
  {
    forall a, b :: a in Window(s) && b in Window(s) && a != b ==>
      h.views[a].tick != h.views[b].tick && (h.views[a].tick < h.views[b].tick ==> a.id in h.views[b].peers)
  }

  predicate Bounded(s: State, h: History, r: int, c: nat) {
    && (forall who :: who in Window(s) ==> Viewed(s, h, r, c, who))
    && Ordered(s, h)
    && (h.anchor.Some? ==>
          Sized(h.anchor.value, r, c) && h.anchor.value.tick < h.tick &&
          ReadyIDs(s) <= h.anchor.value.keep + h.anchor.value.peers)
  }

  /** Retention runs, always with count `r`, on reliable listings. */
  predicate Retains(s: State, l: Label, r: int) {
    !l.SkipRetention? && (l.List? ==> l.retentionCount == r && IDs(l.listing) == s.world.manifests.Keys)
  }

  lemma {:induction false} IDsSize(ms: seq<Manifest>)
    ensures |IDs(ms)| <= |ms|
  {
    if ms != [] {
      IDsSize(ms[1..]);
      IDsHead(ms);
    }
  }

  lemma ListedReadyIsKeptAndExpired(listing: seq<Manifest>, stored: map<string, Manifest>, r: int)
    requires r >= 1 && ListsAll(listing, stored)
    ensures ReadyPoints(stored).Keys <= IDs(Kept(ListedReady(listing), r)) + IDs(Expired(ListedReady(listing), r))
    ensures |IDs(Kept(ListedReady(listing), r))| <= r - 1
  {
    var ready := ListedReady(listing);
    IDsSize(Kept(ready, r));
    forall id | id in ReadyPoints(stored) ensures id in IDs(Kept(ready, r)) + IDs(Expired(ready, r)) {
      var i :| 0 <= i < |listing| && listing[i].recoveryPointID == id;
      SplitMember(ready, r, listing[i]);
    }
  }

  lemma SplitMember(ready: seq<Manifest>, r: int, m: Manifest)
    requires r >= 1 && m in ready
    ensures m.recoveryPointID in IDs(Kept(ready, r)) + IDs(Expired(ready, r))
  {
    var start := RemovalStart(|ready|, r);
    var k :| 0 <= k < |ready| && ready[k] == m;
    if k < start {
      assert Kept(ready, r)[k] == m;
    } else {
      assert Expired(ready, r)[k - start] == m;
    }
  }

  /** Nothing becomes ready and no listing is added: the views stay good. */
  lemma ShrinkingKeepsViews(s: State, t: State, h: History, r: int, c: nat)
    requires Bounded(s, h, r, c)
    requires ReadyIDs(t) <= ReadyIDs(s) && Window(t) <= Window(s)
    requires forall who, x :: who in Window(t) && x in Pending(s, who) ==> x in Pending(t, who) || x !in ReadyIDs(t)
    ensures Bounded(t, h, r, c)
  {
    forall who | who in Window(t) ensures Viewed(t, h, r, c, who) {
      assert Viewed(s, h, r, c, who);
      if AfterAnchor(h.views[who], h.anchor) {
        forall x | x in ReadyIDs(t) ensures x in h.views[who].keep + Pending(t, who) + h.views[who].peers {
          assert x in ReadyIDs(s);
        }
      }
    }
  }

  /** Marking a point takes it out of the pending set and out of the ready set at once. */
  lemma MarkKeepsViews(s: State, l: Label, h: History, r: int, c: nat)
    requires Bounded(s, h, r, c) && Enabled(s, l) && l.Mark?
    ensures Bounded(Apply(s, l), h, r, c)
  {
    var t := Apply(s, l);
    var m := s.active[l.who].pc.toMark[0];
    assert ReadyIDs(t) <= ReadyIDs(s);
    assert l.effect ==> m.recoveryPointID !in ReadyIDs(t);
    IDsHead(s.active[l.who].pc.toMark);
    forall who | who in Window(t) && who != l.who ensures Pending(t, who) == Pending(s, who) {
    }
    ShrinkingKeepsViews(s, t, h, r, c);
  }

  lemma ListAddsView(s: State, l: Label, h: History, r: int, c: nat)
    requires Bounded(s, h, r, c) && Enabled(s, l) && Retains(s, l, r) && r >= 1
    requires l.List? && |Window(Apply(s, l))| <= c
    ensures Bounded(Apply(s, l), Record(h, s, l), r, c)
  {
    var t := Apply(s, l);
    ListOpensWindow(s, l, r);
    ListedReadyIsKeptAndExpired(l.listing, s.world.manifests, r);
    var view := View(h.tick, IDs(Kept(ListedReady(l.listing), r)), Targets(Window(t)));
    FewTargets(Window(t));
    AddView(s, t, h, r, c, l.who, view);
    assert Record(h, s, l) == h.(tick := h.tick + 1, views := h.views[l.who := view]);
  }

  lemma ListOpensWindow(s: State, l: Label, r: int)
    requires Enabled(s, l) && l.List? && l.retentionCount == r >= 1
    ensures var t := Apply(s, l);
            && l.who !in Window(s) && Window(t) == Window(s) + {l.who} && ReadyIDs(t) == ReadyIDs(s)
            && Pending(t, l.who) == IDs(Expired(ListedReady(l.listing), r))
            && forall other :: other in Window(s) ==> Pending(t, other) == Pending(s, other)
  {
    assert Apply(s, l).active[l.who].pc.toMark == Expired(ListedReady(l.listing), r);
  }

  lemma {:induction false} FewTargets(attempts: set<Handle>)
    ensures |Targets(attempts)| <= |attempts|
  {
    if attempts != {} {
      var who :| who in attempts;
      var rest := attempts - {who};
      FewTargets(rest);
      assert Targets(attempts) == Targets(rest) + {who.id};
    }
  }

  lemma AddView(s: State, t: State, h: History, r: int, c: nat, who: Handle, view: View)
    requires Bounded(s, h, r, c) && who !in Window(s) && Window(t) == Window(s) + {who}
    requires ReadyIDs(t) == ReadyIDs(s) && forall other :: other in Window(s) ==> Pending(t, other) == Pending(s, other)
    requires view.tick == h.tick && view.peers == Targets(Window(t)) && Sized(view, r, c)
    requires ReadyIDs(t) <= view.keep + Pending(t, who)
    ensures Bounded(t, h.(tick := h.tick + 1, views := h.views[who := view]), r, c)
  {
    var k := h.(tick := h.tick + 1, views := h.views[who := view]);
    forall other | other in Window(t) ensures Viewed(t, k, r, c, other) {
      if other != who {
        assert other in Window(s) && Viewed(s, h, r, c, other) && k.views[other] == h.views[other];
      }
    }
    forall a, b | a in Window(t) && b in Window(t) && a != b
      ensures k.views[a].tick != k.views[b].tick && (k.views[a].tick < k.views[b].tick ==> a.id in k.views[b].peers)
    {
      if a != who {
        assert Viewed(s, h, r, c, a);
      }
      if b != who {
        assert Viewed(s, h, r, c, b);
      }
    }
    assert Ordered(t, k);
  }

  lemma PublishKeepsView(s: State, l: Label, h: History, r: int, c: nat, who: Handle)
    requires Bounded(s, h, r, c) && Enabled(s, l) && l.Publish? && who in Window(Apply(s, l))
    ensures Viewed(Apply(s, l), Record(h, s, l), r, c, who)
  {
    var t := Apply(s, l);
    assert Viewed(s, h, r, c, l.who) && Viewed(s, h, r, c, who) && who != l.who && Pending(t, who) == Pending(s, who);
    assert ReadyIDs(t) <= ReadyIDs(s) + {l.who.id} && (!l.effect ==> ReadyIDs(t) == ReadyIDs(s));
  }

  lemma PublishMovesAnchor(s: State, l: Label, h: History, r: int, c: nat)
    requires Bounded(s, h, r, c) && Enabled(s, l) && l.Publish?
    ensures Bounded(Apply(s, l), Record(h, s, l), r, c)
  {
    var t, k := Apply(s, l), Record(h, s, l);
    assert Viewed(s, h, r, c, l.who) && Pending(s, l.who) == {};
    assert ReadyIDs(t) <= ReadyIDs(s) + {l.who.id} && (!l.effect ==> ReadyIDs(t) == ReadyIDs(s));
    assert Window(t) <= Window(s);
    forall who | who in Window(t) ensures Viewed(t, k, r, c, who) {
      PublishKeepsView(s, l, h, r, c, who);
    }
  }

  lemma IDsHead(ms: seq<Manifest>)
    requires ms != []
    ensures IDs(ms) == IDs(ms[1..]) + {ms[0].recoveryPointID}
  {
    forall id | id in IDs(ms) ensures id in IDs(ms[1..]) + {ms[0].recoveryPointID} {
      var i :| 0 <= i < |ms| && ms[i].recoveryPointID == id;
      if i > 0 {
        assert ms[1..][i - 1].recoveryPointID == id;
      }
    }
    forall id | id in IDs(ms[1..]) ensures id in IDs(ms) {
      var i :| 0 <= i < |ms[1..]| && ms[1..][i].recoveryPointID == id;
      assert ms[i + 1].recoveryPointID == id;
    }
  }

  lemma BoundedStep(s: State, l: Label, h: History, r: int, c: nat)
    requires Bounded(s, h, r, c) && Enabled(s, l) && Retains(s, l, r) && r >= 1
    requires |Window(Apply(s, l))| <= c
    ensures Bounded(Apply(s, l), Record(h, s, l), r, c)
  {
    var t := Apply(s, l);
    if l.List? {
      ListAddsView(s, l, h, r, c);
    } else if l.Publish? {
      PublishMovesAnchor(s, l, h, r, c);
    } else if l.Mark? {
      MarkKeepsViews(s, l, h, r, c);
    } else {
      assert ReadyIDs(t) <= ReadyIDs(s);
      forall who | who in Window(t) ensures who in Window(s) && Pending(t, who) == Pending(s, who) {
      }
      ShrinkingKeepsViews(s, t, h, r, c);
    }
  }

  lemma BoundedAtFirst(states: seq<State>, labels: seq<Label>, r: int, c: nat)
    requires Run(states, labels) && Window(states[0]) == {}
    ensures Bounded(states[0], HistoryAt(states, labels, 0), r, c)
  {
    hide Window, ReadyIDs;
  }

  lemma {:induction false} BoundedAlways(states: seq<State>, labels: seq<Label>, r: int, c: nat, i: nat)
    requires Run(states, labels) && r >= 1 && Window(states[0]) == {} && i < |states|
    requires forall k :: 0 <= k < |labels| ==> Retains(states[k], labels[k], r)
    requires forall k :: 0 <= k < |states| ==> |Window(states[k])| <= c
    ensures Bounded(states[i], HistoryAt(states, labels, i), r, c)
  {
    hide *;
    if i == 0 {
      BoundedAtFirst(states, labels, r, c);
    } else {
      BoundedAlways(states, labels, r, c, i - 1);
      HistoryStep(states, labels, i);
      BoundedStep(states[i - 1], labels[i - 1], HistoryAt(states, labels, i - 1), r, c);
    }
  }

  lemma {:induction false} AnchoredAfterPublishing(states: seq<State>, labels: seq<Label>, r: int, c: nat, p: nat,
      i: nat)
    requires Run(states, labels) && r >= 1 && Window(states[0]) == {} && p < i < |states|
    requires forall k :: 0 <= k < |labels| ==> Retains(states[k], labels[k], r)
    requires forall k :: 0 <= k < |states| ==> |Window(states[k])| <= c
    requires labels[p].Publish? && labels[p].effect
    ensures HistoryAt(states, labels, i).anchor.Some?
  {
    hide Apply, Enabled, Bounded, Window, Record, Retains;
    HistoryStep(states, labels, i);
    if i == p + 1 {
      BoundedAlways(states, labels, r, c, p);
      PublishAnchors(states[p], labels[p], HistoryAt(states, labels, p), r, c);
    } else {
      AnchoredAfterPublishing(states, labels, r, c, p, i - 1);
      AnchorStays(states[i - 1], labels[i - 1], HistoryAt(states, labels, i - 1));
    }
  }

  lemma HistoryStep(states: seq<State>, labels: seq<Label>, i: nat)
    requires Run(states, labels) && 0 < i < |states|
    ensures |states| == |labels| + 1
    ensures Enabled(states[i - 1], labels[i - 1]) && states[i] == Apply(states[i - 1], labels[i - 1])
    ensures HistoryAt(states, labels, i) == Record(HistoryAt(states, labels, i - 1), states[i - 1], labels[i - 1])
  {
    hide Apply, Enabled, Record;
    assert Step(states[i - 1], labels[i - 1], states[i - 1 + 1]);
  }

  lemma PublishAnchors(s: State, l: Label, h: History, r: int, c: nat)
    requires Bounded(s, h, r, c) && Enabled(s, l) && l.Publish? && l.effect
    ensures Record(h, s, l).anchor.Some?
  {
    assert l.who in Window(s) && Viewed(s, h, r, c, l.who);
  }

  lemma AnchorStays(s: State, l: Label, h: History)
    requires Enabled(s, l) && h.anchor.Some?
    ensures Record(h, s, l).anchor.Some?
  {
  }

  /** With a constant retention count `r >= 1`, reliable listings and never more than `c` attempts between
      listing and publishing, there are at most `r + c - 1` ready points from the first publication on, however
      many there were before, whatever fails, stops or is retried. */
  lemma ConcurrentRetentionBound(states: seq<State>, labels: seq<Label>, r: int, c: nat, p: nat, i: nat)
    requires Run(states, labels) && r >= 1 && Window(states[0]) == {} && p < i < |states|
    requires forall k :: 0 <= k < |labels| ==> Retains(states[k], labels[k], r)
    requires forall k :: 0 <= k < |states| ==> |Window(states[k])| <= c
    requires labels[p].Publish? && labels[p].effect
    ensures |ReadyIDs(states[i])| <= r + c - 1
  {
    BoundedAlways(states, labels, r, c, i);
    AnchoredAfterPublishing(states, labels, r, c, p, i);
    var anchor := HistoryAt(states, labels, i).anchor.value;
    Ranking.Monotone(ReadyIDs(states[i]), anchor.keep + anchor.peers);
    assert |anchor.keep + anchor.peers| == |anchor.keep| + |anchor.peers| - |anchor.keep * anchor.peers|;
  }

  /** Sequential backups stay within the retention count itself. */
  lemma SequentialRetentionBound(states: seq<State>, labels: seq<Label>, r: int, p: nat, i: nat)
    requires Run(states, labels) && r >= 1 && Window(states[0]) == {} && p < i < |states|
    requires forall k :: 0 <= k < |labels| ==> Retains(states[k], labels[k], r)
    requires forall k :: 0 <= k < |states| ==> |states[k].active| <= 1
    requires labels[p].Publish? && labels[p].effect
    ensures |ReadyIDs(states[i])| <= r
  {
    forall k | 0 <= k < |states| ensures |Window(states[k])| <= 1 {
      Ranking.Monotone(Window(states[k]), states[k].active.Keys);
    }
    ConcurrentRetentionBound(states, labels, r, 1, p, i);
  }
}

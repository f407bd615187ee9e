/** The newest points of a set, defined by counting newer ones, and its agreement with sorted listings. */
module Ranking {
  import opened Recovery
  import opened Retention

  function Newer(points: map<string, Manifest>, id: string): set<string>
    requires id in points
  {
    set x | x in points && points[x].createdAt > points[id].createdAt
  }

  /** The points that fewer than `k` others are newer than. */
  function Newest(points: map<string, Manifest>, k: int): set<string> {
    set id | id in points && |Newer(points, id)| < k
  }

  predicate DistinctTimes(points: map<string, Manifest>) {
    forall a, b :: a in points && b in points && a != b ==> points[a].createdAt != points[b].createdAt
  }

  lemma ConcatIDs(a: seq<Manifest>, b: seq<Manifest>)
    ensures IDs(a + b) == IDs(a) + IDs(b)
  {
    var c := a + b;
    assert forall i :: 0 <= i < |a| ==> c[i] == a[i];
    forall id | id in IDs(b) ensures id in IDs(c) {
      var i :| 0 <= i < |b| && b[i].recoveryPointID == id;
      assert c[|a| + i] == b[i];
    }
    forall id | id in IDs(a) ensures id in IDs(c) {
      var i :| 0 <= i < |a| && a[i].recoveryPointID == id;
      assert c[i] == a[i];
    }
  }

  lemma OnlyID(m: Manifest)
    ensures IDs([m]) == {m.recoveryPointID}
  {
    assert [m][0] == m;
  }

  // ----- insertion into a newest-first sequence: sorted listings exist -----

  function Position(m: Manifest, ms: seq<Manifest>): (k: nat)
    requires NewestFirst(ms)
    ensures k <= |ms|
    ensures forall i :: 0 <= i < k ==> ms[i].createdAt > m.createdAt
    ensures forall i :: k <= i < |ms| ==> ms[i].createdAt <= m.createdAt
  {
    if ms == [] || ms[0].createdAt <= m.createdAt then 0 else Position(m, ms[1..]) + 1
  }

  function Insert(m: Manifest, ms: seq<Manifest>): (r: seq<Manifest>)
    requires NewestFirst(ms)
    ensures NewestFirst(r) && multiset(r) == multiset(ms) + multiset{m}
  {
    var k := Position(m, ms);
    assert ms == ms[..k] + ms[k..];
    ms[..k] + [m] + ms[k..]
  }

  lemma InsertIDs(m: Manifest, ms: seq<Manifest>)
    requires NewestFirst(ms) && DistinctIDs(ms) && m.recoveryPointID !in IDs(ms)
    ensures DistinctIDs(Insert(m, ms)) && IDs(Insert(m, ms)) == IDs(ms) + {m.recoveryPointID}
  {
    var k := Position(m, ms);
    InsertedDistinct(m, ms, k);
    InsertedIDs(m, ms, k);
  }

  lemma InsertedDistinct(m: Manifest, ms: seq<Manifest>, k: nat)
    requires k <= |ms| && DistinctIDs(ms) && m.recoveryPointID !in IDs(ms)
    ensures DistinctIDs(ms[..k] + [m] + ms[k..])
  {
    var r := ms[..k] + [m] + ms[k..];
    assert forall i :: 0 <= i < |ms| ==> ms[i].recoveryPointID in IDs(ms);
    forall i, j | 0 <= i < j < |r| ensures r[i].recoveryPointID != r[j].recoveryPointID {
      assert r[i] == if i < k then ms[i] else if i == k then m else ms[i - 1];
      assert r[j] == if j < k then ms[j] else if j == k then m else ms[j - 1];
    }
  }

  lemma InsertedIDs(m: Manifest, ms: seq<Manifest>, k: nat)
    requires k <= |ms|
    ensures IDs(ms[..k] + [m] + ms[k..]) == IDs(ms) + {m.recoveryPointID}
  {
    hide IDs;
    ConcatIDs(ms[..k] + [m], ms[k..]);
    ConcatIDs(ms[..k], [m]);
    OnlyID(m);
    ConcatIDs(ms[..k], ms[k..]);
    assert ms == ms[..k] + ms[k..];
  }

  function Sorted(ms: seq<Manifest>): (r: seq<Manifest>)
    ensures NewestFirst(r) && multiset(r) == multiset(ms)
  {
    if ms == [] then []
    else
      assert ms == [ms[0]] + ms[1..];
      Insert(ms[0], Sorted(ms[1..]))
  }

  /** Reordering a sequence keeps its members and their distinctness. */
  lemma PermutationKeepsIDs(a: seq<Manifest>, b: seq<Manifest>)
    requires multiset(a) == multiset(b)
    requires DistinctIDs(a)
    ensures DistinctIDs(b) && IDs(a) == IDs(b)
    ensures forall m :: m in a <==> m in b
  {
    assert forall m :: m in a <==> m in multiset(a);
    assert forall m :: m in b <==> m in multiset(b);
    forall i, j | 0 <= i < j < |b| ensures b[i].recoveryPointID != b[j].recoveryPointID {
      if b[i].recoveryPointID == b[j].recoveryPointID {
        assert b[i] in a && b[j] in a;
        assert b[i] == b[j];
        TwiceInSequence(b, i, j);
        OnceInDistinct(a, b[i]);
        assert false;
      }
    }
    forall id | id in IDs(a) ensures id in IDs(b) {
      var i :| 0 <= i < |a| && a[i].recoveryPointID == id;
      assert a[i] in b;
    }
    forall id | id in IDs(b) ensures id in IDs(a) {
      var i :| 0 <= i < |b| && b[i].recoveryPointID == id;
      assert b[i] in a;
    }
  }

  lemma TwiceInSequence(b: seq<Manifest>, i: nat, j: nat)
    requires i < j < |b| && b[i] == b[j]
    ensures multiset(b)[b[i]] >= 2
  {
    assert b == b[..i] + [b[i]] + b[i + 1..j] + [b[j]] + b[j + 1..];
  }

  lemma {:induction false} OnceInDistinct(a: seq<Manifest>, m: Manifest)
    requires DistinctIDs(a)
    ensures multiset(a)[m] <= 1
  {
    if a != [] {
      assert a == [a[0]] + a[1..];
      OnceInDistinct(a[1..], m);
      if a[0] == m {
        assert m !in a[1..];
        assert m !in multiset(a[1..]);
      }
    }
  }

  /** Every set of manifests filed under their own IDs has a newest-first listing. */
  lemma {:induction false} ListingExists(stored: map<string, Manifest>) returns (ms: seq<Manifest>)
    requires forall id :: id in stored ==> stored[id].recoveryPointID == id
    ensures ListsAll(ms, stored)
    decreases |stored|
  {
    if stored == map[] {
      ms := [];
    } else {
      var id :| id in stored;
      var rest := stored - {id};
      assert rest.Keys == stored.Keys - {id};
      var before := ListingExists(rest);
      ms := ListsOneMore(stored, id, before);
    }
  }

  lemma ListsOneMore(stored: map<string, Manifest>, id: string, before: seq<Manifest>) returns (ms: seq<Manifest>)
    requires id in stored && stored[id].recoveryPointID == id && ListsAll(before, stored - {id})
    ensures ListsAll(ms, stored)
  {
    assert id !in IDs(before);
    InsertIDs(stored[id], before);
    ms := Insert(stored[id], before);
    forall k | 0 <= k < |ms| ensures ms[k].recoveryPointID in stored && stored[ms[k].recoveryPointID] == ms[k] {
      InsertMember(stored[id], before, k);
    }
  }

  lemma InsertMember(m: Manifest, ms: seq<Manifest>, k: nat)
    requires NewestFirst(ms) && k < |Insert(m, ms)|
    ensures Insert(m, ms)[k] == m || exists i :: 0 <= i < |ms| && ms[i] == Insert(m, ms)[k]
  {
    var p := Position(m, ms);
    if k < p {
      assert Insert(m, ms)[k] == ms[k];
    } else if k > p {
      assert Insert(m, ms)[k] == ms[k - 1];
    }
  }

  // ----- listings and ranks -----

  lemma {:induction false} ListedReadyInOrder(ms: seq<Manifest>)
    requires NewestFirst(ms) && DistinctIDs(ms)
    ensures NewestFirst(ListedReady(ms)) && DistinctIDs(ListedReady(ms))
  {
    if ms == [] {
    } else {
      assert NewestFirst(ms[1..]) && DistinctIDs(ms[1..]);
      ListedReadyInOrder(ms[1..]);
      Prepend(ms, ListedReady(ms[1..]));
    }
  }

  lemma {:induction false} ListedDeletingInOrder(ms: seq<Manifest>)
    requires NewestFirst(ms) && DistinctIDs(ms)
    ensures NewestFirst(ListedDeleting(ms)) && DistinctIDs(ListedDeleting(ms))
  {
    if ms == [] {
    } else {
      assert NewestFirst(ms[1..]) && DistinctIDs(ms[1..]);
      ListedDeletingInOrder(ms[1..]);
      Prepend(ms, ListedDeleting(ms[1..]));
    }
  }

  lemma Prepend(ms: seq<Manifest>, some: seq<Manifest>)
    requires ms != [] && NewestFirst(ms) && DistinctIDs(ms) && forall m :: m in some ==> m in ms[1..]
    requires NewestFirst(some) && DistinctIDs(some)
    ensures NewestFirst([ms[0]] + some) && DistinctIDs([ms[0]] + some)
  {
    var all := [ms[0]] + some;
    forall i, j | 0 <= i < j < |all|
      ensures all[i].createdAt >= all[j].createdAt && all[i].recoveryPointID != all[j].recoveryPointID
    {
      assert all[j] == some[j - 1];
      if i == 0 {
        assert some[j - 1] in ms[1..];
      } else {
        assert all[i] == some[i - 1];
      }
    }
  }

  lemma MemberID(ms: seq<Manifest>, m: Manifest)
    requires m in ms
    ensures m.recoveryPointID in IDs(ms)
  {
  }

  /** The ready part of a reliable listing is a listing of the ready points. */
  lemma ReadyListing(ms: seq<Manifest>, stored: map<string, Manifest>)
    requires ListsAll(ms, stored)
    requires forall id :: id in stored ==> !stored[id].status.Unsupported?
    ensures ListsAll(ListedReady(ms), ReadyPoints(stored))
    ensures IDs(ListedDeleting(ms)) == stored.Keys - ReadyPoints(stored).Keys
  {
    ListedReadyInOrder(ms);
    ListedDeletingInOrder(ms);
    var ready, deleting := ListedReady(ms), ListedDeleting(ms);
    forall i | 0 <= i < |ready| ensures ready[i].recoveryPointID in ReadyPoints(stored)
      && ReadyPoints(stored)[ready[i].recoveryPointID] == ready[i] {
      assert ready[i] in ready;
    }
    forall i | 0 <= i < |deleting| ensures deleting[i].recoveryPointID in stored.Keys - ReadyPoints(stored).Keys {
      assert deleting[i] in deleting;
    }
    forall id | id in stored ensures if id in ReadyPoints(stored) then id in IDs(ready) else id in IDs(deleting) {
      var i :| 0 <= i < |ms| && ms[i].recoveryPointID == id;
      assert ms[i] in ms && ms[i] == stored[id];
      if id in ReadyPoints(stored) {
        MemberID(ready, ms[i]);
      } else {
        MemberID(deleting, ms[i]);
      }
    }
  }

  lemma {:induction false} PrefixSize(ms: seq<Manifest>, i: nat)
    requires DistinctIDs(ms) && i <= |ms|
    ensures |IDs(ms[..i])| == i
  {
    if i > 0 {
      PrefixSize(ms, i - 1);
      var id := ms[i - 1].recoveryPointID;
      assert IDs(ms[..i]) == IDs(ms[..i - 1]) + {id} by {
        forall x | x in IDs(ms[..i]) ensures x in IDs(ms[..i - 1]) + {id} {
          var k :| 0 <= k < i && ms[..i][k].recoveryPointID == x;
          assert k < i - 1 ==> ms[..i - 1][k].recoveryPointID == x;
        }
        forall x | x in IDs(ms[..i - 1]) + {id} ensures x in IDs(ms[..i]) {
          if x == id {
            assert ms[..i][i - 1].recoveryPointID == x;
          } else {
            var k :| 0 <= k < i - 1 && ms[..i - 1][k].recoveryPointID == x;
            assert ms[..i][k].recoveryPointID == x;
          }
        }
      }
      assert id !in IDs(ms[..i - 1]);
    }
  }

  /** In a listing with distinct times the position of a point is the number of newer points. */
  lemma PositionIsRank(ms: seq<Manifest>, points: map<string, Manifest>, i: nat)
    requires ListsAll(ms, points) && DistinctTimes(points) && i < |ms|
    ensures |Newer(points, ms[i].recoveryPointID)| == i
  {
    var id := ms[i].recoveryPointID;
    PrefixSize(ms, i);
    assert Newer(points, id) == IDs(ms[..i]) by {
      forall x | x in Newer(points, id) ensures x in IDs(ms[..i]) {
        assert x in IDs(ms);
        var k :| 0 <= k < |ms| && ms[k].recoveryPointID == x;
        assert ms[k] == points[x] && k < i;
        assert ms[..i][k].recoveryPointID == x;
      }
      forall x | x in IDs(ms[..i]) ensures x in Newer(points, id) {
        var k :| 0 <= k < i && ms[..i][k].recoveryPointID == x;
        assert ms[k] == points[x] && x != id;
      }
    }
  }

  lemma PrefixIsNewest(ms: seq<Manifest>, points: map<string, Manifest>, k: nat)
    requires ListsAll(ms, points) && DistinctTimes(points) && k <= |ms|
    ensures IDs(ms[..k]) == Newest(points, k)
    ensures |ms| == |points|
  {
    forall x | x in IDs(ms[..k]) ensures x in Newest(points, k) {
      var i :| 0 <= i < k && ms[..k][i].recoveryPointID == x;
      PositionIsRank(ms, points, i);
    }
    forall x | x in Newest(points, k) ensures x in IDs(ms[..k]) {
      assert x in IDs(ms);
      var i :| 0 <= i < |ms| && ms[i].recoveryPointID == x;
      PositionIsRank(ms, points, i);
      assert ms[..k][i].recoveryPointID == x;
    }
    PrefixSize(ms, |ms|);
    assert ms[..|ms|] == ms;
    assert IDs(ms) == points.Keys && |points.Keys| == |points|;
  }

  /** What one retention pass keeps of a reliable listing is the newest `r - 1` ready points. */
  lemma KeptIsNewest(ms: seq<Manifest>, stored: map<string, Manifest>, r: int)
    requires ListsAll(ms, stored) && DistinctTimes(ReadyPoints(stored)) && r >= 1
    requires forall id :: id in stored ==> !stored[id].status.Unsupported?
    ensures IDs(Kept(ListedReady(ms), r)) == Newest(ReadyPoints(stored), r - 1)
    ensures IDs(Expired(ListedReady(ms), r)) == ReadyPoints(stored).Keys - Newest(ReadyPoints(stored), r - 1)
  {
    ReadyListing(ms, stored);
    SplitIsNewest(ListedReady(ms), ReadyPoints(stored), r);
  }

  lemma SplitIsNewest(ready: seq<Manifest>, points: map<string, Manifest>, r: int)
    requires ListsAll(ready, points) && DistinctTimes(points) && r >= 1
    ensures IDs(Kept(ready, r)) == Newest(points, r - 1)
    ensures IDs(Expired(ready, r)) == points.Keys - Newest(points, r - 1)
  {
    var start := RemovalStart(|ready|, r);
    PrefixIsNewest(ready, points, start);
    if start < r - 1 {
      AllNewest(ready, points, r - 1);
      assert ready[..start] == ready;
    }
    SuffixIDs(ready, start);
  }

  /** Cutting a sequence with distinct IDs splits its IDs. */
  lemma SuffixIDs(ms: seq<Manifest>, start: nat)
    requires DistinctIDs(ms) && start <= |ms|
    ensures IDs(ms[start..]) == IDs(ms) - IDs(ms[..start])
  {
    forall x | x in IDs(ms[start..]) ensures x in IDs(ms) - IDs(ms[..start]) {
      var i :| 0 <= i < |ms[start..]| && ms[start..][i].recoveryPointID == x;
      assert ms[start + i].recoveryPointID == x;
    }
    forall k | 0 <= k < start ensures ms[k].recoveryPointID in IDs(ms[..start]) {
      assert ms[..start][k] == ms[k];
    }
    forall x | x in IDs(ms) - IDs(ms[..start]) ensures x in IDs(ms[start..]) {
      var i :| 0 <= i < |ms| && ms[i].recoveryPointID == x;
      assert ms[start..][i - start].recoveryPointID == x;
    }
  }

  lemma AllNewest(ms: seq<Manifest>, points: map<string, Manifest>, k: int)
    requires ListsAll(ms, points) && DistinctTimes(points) && |ms| <= k
    ensures Newest(points, k) == points.Keys
  {
    forall x | x in points ensures x in Newest(points, k) {
      assert x in IDs(ms);
      var i :| 0 <= i < |ms| && ms[i].recoveryPointID == x;
      PositionIsRank(ms, points, i);
    }
  }

  /** There are `min(n, k)` newest points. */
  lemma NewestSize(points: map<string, Manifest>, k: nat)
    requires DistinctTimes(points) && forall id :: id in points ==> points[id].recoveryPointID == id
    ensures |Newest(points, k)| == if |points| <= k then |points| else k
  {
    var ms := ListingExists(points);
    if |ms| <= k {
      AllNewest(ms, points, k);
      PrefixIsNewest(ms, points, |ms|);
    } else {
      PrefixIsNewest(ms, points, k);
      PrefixSize(ms, k);
    }
  }

  predicate SubPoints(a: map<string, Manifest>, b: map<string, Manifest>) {
    forall id :: id in a ==> id in b && a[id] == b[id]
  }

  /** Losing points that are not among the newest does not change which are the newest. */
  lemma NewestOfSubset(some: map<string, Manifest>, points: map<string, Manifest>, k: nat)
    requires DistinctTimes(points) && forall id :: id in points ==> points[id].recoveryPointID == id
    requires SubPoints(some, points) && Newest(points, k) <= some.Keys
    ensures Newest(some, k) == Newest(points, k)
  {
    var top := Newest(points, k);
    forall x | x in some ensures x in Newest(some, k) <==> x in top {
      assert Newer(some, x) <= Newer(points, x);
      Monotone(Newer(some, x), Newer(points, x));
      if x !in top {
        assert top <= Newer(some, x) by {
          forall y | y in top ensures points[y].createdAt > points[x].createdAt {
            if points[y].createdAt < points[x].createdAt {
              assert Newer(points, x) <= Newer(points, y);
              Monotone(Newer(points, x), Newer(points, y));
            }
          }
        }
        NewestSize(points, k);
        Monotone(top, Newer(some, x));
        Monotone(Newer(points, x), points.Keys);
        assert |points.Keys| == |points|;
      }
    }
  }

  lemma {:induction false} Monotone<T>(a: set<T>, b: set<T>)
    requires a <= b
    ensures |a| <= |b|
  {
    if a != {} {
      var x :| x in a;
      Monotone(a - {x}, b - {x});
    }
  }
}

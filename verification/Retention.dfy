/** Which recovery points one retention pass removes. */
module Retention {
  import opened Recovery

  function ListedDeleting(ms: seq<Manifest>): (r: seq<Manifest>)
    ensures forall m :: m in r <==> m in ms && m.status == Deleting
  {
    if ms == [] then []
    else
      var rest := ListedDeleting(ms[1..]);
      assert forall m :: m in ms <==> m == ms[0] || m in ms[1..];
      if ms[0].status == Deleting then [ms[0]] + rest else rest
  }

  function ListedReady(ms: seq<Manifest>): (r: seq<Manifest>)
    ensures forall m :: m in r <==> m in ms && m.status != Deleting
  {
    if ms == [] then []
    else
      var rest := ListedReady(ms[1..]);
      assert forall m :: m in ms <==> m == ms[0] || m in ms[1..];
      if ms[0].status == Deleting then rest else [ms[0]] + rest
  }

  /** The first position that `applyRetention` removes; negative when the retention count is not positive,
      which the program does not survive. */
  function RemovalStart(readyCount: nat, retentionCount: int): int {
    var removeCount := readyCount - retentionCount + 1;
    if removeCount > 0 then readyCount - removeCount else readyCount
  }

  function Kept(ready: seq<Manifest>, r: int): seq<Manifest>
    requires r >= 1
  {
    ready[..RemovalStart(|ready|, r)]
  }

  function Expired(ready: seq<Manifest>, r: int): seq<Manifest>
    requires r >= 1
  {
    ready[RemovalStart(|ready|, r)..]
  }

  function AsDeleting(m: Manifest): Manifest {
    m.(status := Deleting)
  }

  /** With no retention count configured the start index is -1, whatever was listed. */
  lemma ZeroRetentionStartsBelowTheList(readyCount: nat)
    ensures RemovalStart(readyCount, 0) == -1
  {
  }
}

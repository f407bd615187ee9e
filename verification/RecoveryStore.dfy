/** The object store: every operation on the bucket, with calls that may fail with or without effect. */
module RecoveryStore {
  import opened Wrappers
  import opened Text
  import opened Ids
  import opened Keys
  import opened Recovery
  import opened Retention
  import opened Ranking

  datatype Body = ManifestJSON(manifest: Manifest) | ArchiveData(cipher: Cipher) | OtherData

  /** The manifest that a successful read of `id` returns. */
  function Stored(bucket: map<string, Body>, prefix: string, id: string): Option<Manifest> {
    if !Canonical(id) then None
    else
      var key := ManifestKey(prefix, id);
      if key in bucket && bucket[key].ManifestJSON? && Valid(bucket[key].manifest)
        && bucket[key].manifest.recoveryPointID == id
      then Some(bucket[key].manifest)
      else None
  }

  ghost predicate HoldsManifests(bucket: map<string, Body>, prefix: string, manifests: map<string, Manifest>) {
    && (forall id :: id in manifests ==> Stored(bucket, prefix, id) == Some(manifests[id]))
    && (forall id :: Stored(bucket, prefix, id).Some? ==> id in manifests)
  }

  ghost predicate HoldsArchives(bucket: map<string, Body>, prefix: string, archives: map<string, Cipher>) {
    && (forall id :: id in archives ==> Canonical(id))
    && (forall id :: Canonical(id) ==> (id in archives <==> StateKey(prefix, id) in bucket))
    && (forall id :: id in archives ==> bucket[StateKey(prefix, id)] == ArchiveData(archives[id]))
  }

  /** The bucket seen as manifests and archives by recovery point ID. */
  ghost predicate Represents(bucket: map<string, Body>, prefix: string,
                             manifests: map<string, Manifest>, archives: map<string, Cipher>) {
    HoldsManifests(bucket, prefix, manifests) && HoldsArchives(bucket, prefix, archives)
  }

  // ----- listing -----

  function Flatten(pages: seq<seq<string>>): seq<string> {
    if pages == [] then [] else Flatten(pages[..|pages| - 1]) + pages[|pages| - 1]
  }

  /** The pages of a listing: every key under the prefix, once. */
  ghost predicate Paged(pages: seq<seq<string>>, bucket: map<string, Body>, list: string) {
    var keys := Flatten(pages);
    && (forall i, j :: 0 <= i < j < |keys| ==> keys[i] != keys[j])
    && (forall k :: k in keys <==> k in bucket && HasPrefix(k, list))
  }

  /** What listing gets from one key; `lost` are the keys whose read fails. */
  function FromKey(bucket: map<string, Body>, prefix: string, lost: set<string>, key: string): Option<Manifest> {
    var id := ParseListedKey(prefix, key);
    if id == None || ManifestKey(prefix, id.value) in lost then None else Stored(bucket, prefix, id.value)
  }

  function Collected(bucket: map<string, Body>, prefix: string, lost: set<string>, keys: seq<string>): seq<Manifest> {
    if keys == [] then []
    else
      var before := Collected(bucket, prefix, lost, keys[..|keys| - 1]);
      var m := FromKey(bucket, prefix, lost, keys[|keys| - 1]);
      if m == None then before else before + [m.value]
  }

  /** The listing contains exactly the readable stored manifests, each once, newest first. */
  ghost predicate Reflects(ms: seq<Manifest>, bucket: map<string, Body>, prefix: string, lost: set<string>) {
    && NewestFirst(ms)
    && DistinctIDs(ms)
    && forall m ::
         m in ms <==>
           Stored(bucket, prefix, m.recoveryPointID) == Some(m) && ManifestKey(prefix, m.recoveryPointID) !in lost
  }

  /** The manifest can be read: it is stored under its own key, names its own archive, has the supported version, a
      Velero backup and a time, and is ready or being deleted. */
  ghost predicate Readable(m: Manifest, bucket: map<string, Body>, prefix: string) {
    var id := m.recoveryPointID;
    var key := Base(prefix) + ("recovery-points/" + id + "/manifest.json");
    && Canonical(id) && key in bucket && bucket[key] == ManifestJSON(m)
    && m.formatVersion == "1" && m.veleroBackupName != "" && m.createdAt != 0
    && (m.status == Ready || m.status == Deleting)
    && m.stateObjectKey == "recovery-points/" + id + "/ec-state-v1.tar.gz.age"
  }

  lemma ReadableIsStored(m: Manifest, bucket: map<string, Body>, prefix: string)
    requires Trimmed(prefix)
    ensures Stored(bucket, prefix, m.recoveryPointID) == Some(m) <==> Readable(m, bucket, prefix)
  {
    if Canonical(m.recoveryPointID) {
      KeyForms(prefix, m.recoveryPointID);
    }
    hide Canonical, ManifestKey, StatePath, Base;
  }

  /** A listing shows exactly the manifests that can be read and were not lost. */
  lemma ReflectsReadable(ms: seq<Manifest>, bucket: map<string, Body>, prefix: string, lost: set<string>)
    requires Trimmed(prefix) && Reflects(ms, bucket, prefix, lost)
    ensures forall m ::
      m in ms <==> Readable(m, bucket, prefix) && ManifestKey(prefix, m.recoveryPointID) !in lost
  {
    hide Stored, Readable, ManifestKey;
    forall m
      ensures m in ms <==> Readable(m, bucket, prefix) && ManifestKey(prefix, m.recoveryPointID) !in lost
    {
      ReadableIsStored(m, bucket, prefix);
    }
  }

  lemma CollectedOneMore(bucket: map<string, Body>, prefix: string, lost: set<string>, keys: seq<string>, key: string)
    ensures Collected(bucket, prefix, lost, keys + [key]) ==
            var m := FromKey(bucket, prefix, lost, key);
            Collected(bucket, prefix, lost, keys) + if m == None then [] else [m.value]
  {
    hide FromKey;
    assert (keys + [key])[..|keys|] == keys;
  }

  lemma {:induction false} CollectedMembers(bucket: map<string, Body>, prefix: string, lost: set<string>,
      keys: seq<string>, m: Manifest)
    ensures m in Collected(bucket, prefix, lost, keys) <==>
            exists k :: k in keys && FromKey(bucket, prefix, lost, k) == Some(m)
  {
    if keys != [] {
      var last := keys[|keys| - 1];
      CollectedMembers(bucket, prefix, lost, keys[..|keys| - 1], m);
      assert forall k :: k in keys <==> k in keys[..|keys| - 1] || k == last;
    }
  }

  lemma FromKeyExactly(bucket: map<string, Body>, prefix: string, lost: set<string>, key: string, m: Manifest)
    requires Trimmed(prefix) && HasPrefix(key, ListPrefix(prefix))
    ensures FromKey(bucket, prefix, lost, key) == Some(m) <==>
            Stored(bucket, prefix, m.recoveryPointID) == Some(m) && key == ManifestKey(prefix, m.recoveryPointID)
              && key !in lost
  {
    if Canonical(m.recoveryPointID) {
      ListingParsesExactly(prefix, key, m.recoveryPointID);
    }
  }

  lemma {:induction false} CollectedDistinct(bucket: map<string, Body>, prefix: string, lost: set<string>,
      keys: seq<string>)
    requires Trimmed(prefix) && (forall k :: k in keys ==> HasPrefix(k, ListPrefix(prefix)))
    requires forall i, j :: 0 <= i < j < |keys| ==> keys[i] != keys[j]
    ensures DistinctIDs(Collected(bucket, prefix, lost, keys))
  {
    if keys != [] {
      var last, rest := keys[|keys| - 1], keys[..|keys| - 1];
      CollectedDistinct(bucket, prefix, lost, rest);
      var before := Collected(bucket, prefix, lost, rest);
      if FromKey(bucket, prefix, lost, last).Some? {
        var m := FromKey(bucket, prefix, lost, last).value;
        FromKeyExactly(bucket, prefix, lost, last, m);
        forall i | 0 <= i < |before| ensures before[i].recoveryPointID != m.recoveryPointID {
          CollectedMembers(bucket, prefix, lost, rest, before[i]);
          var k :| k in rest && FromKey(bucket, prefix, lost, k) == Some(before[i]);
          FromKeyExactly(bucket, prefix, lost, k, before[i]);
        }
      }
    }
  }

  lemma CollectedReflects(pages: seq<seq<string>>, bucket: map<string, Body>, prefix: string, lost: set<string>,
      sorted: seq<Manifest>)
    requires Trimmed(prefix) && Paged(pages, bucket, ListPrefix(prefix))
    requires NewestFirst(sorted) && multiset(sorted) == multiset(Collected(bucket, prefix, lost, Flatten(pages)))
    ensures Reflects(sorted, bucket, prefix, lost)
    ensures forall m ::
      m in sorted <==> Readable(m, bucket, prefix) && ManifestKey(prefix, m.recoveryPointID) !in lost
  {
    CollectedIsReflected(pages, bucket, prefix, lost, sorted);
    ReflectsReadable(sorted, bucket, prefix, lost);
  }

  lemma CollectedIsReflected(pages: seq<seq<string>>, bucket: map<string, Body>, prefix: string, lost: set<string>,
      sorted: seq<Manifest>)
    requires Trimmed(prefix) && Paged(pages, bucket, ListPrefix(prefix))
    requires NewestFirst(sorted) && multiset(sorted) == multiset(Collected(bucket, prefix, lost, Flatten(pages)))
    ensures Reflects(sorted, bucket, prefix, lost)
  {
    var keys := Flatten(pages);
    var collected := Collected(bucket, prefix, lost, keys);
    CollectedDistinct(bucket, prefix, lost, keys);
    PermutationKeepsIDs(collected, sorted);
    forall m
      ensures m in sorted <==>
              Stored(bucket, prefix, m.recoveryPointID) == Some(m) && ManifestKey(prefix, m.recoveryPointID) !in lost
    {
      CollectedMembers(bucket, prefix, lost, keys, m);
      forall k | k in keys {
        FromKeyExactly(bucket, prefix, lost, k, m);
      }
      var key := ManifestKey(prefix, m.recoveryPointID);
      if Stored(bucket, prefix, m.recoveryPointID) == Some(m) && key !in lost {
        ListingParsesExactly(prefix, key, m.recoveryPointID);
        assert key in keys;
      }
    }
  }

  /** With reliable reads a listing is exactly the stored manifests. */
  lemma ReflectsAll(ms: seq<Manifest>, bucket: map<string, Body>, prefix: string,
                    manifests: map<string, Manifest>, archives: map<string, Cipher>, lost: set<string>)
    requires Reflects(ms, bucket, prefix, lost) && Represents(bucket, prefix, manifests, archives)
    ensures Lists(ms, manifests)
    ensures lost == {} ==> ListsAll(ms, manifests)
  {
    forall i | 0 <= i < |ms| ensures ms[i].recoveryPointID in manifests && manifests[ms[i].recoveryPointID] == ms[i] {
      assert ms[i] in ms;
    }
    if lost == {} {
      forall id | id in manifests ensures id in IDs(ms) {
        MemberID(ms, manifests[id]);
      }
    }
  }

  lemma ReflectsInOrder(ms: seq<Manifest>, bucket: map<string, Body>, prefix: string, lost: set<string>)
    requires Reflects(ms, bucket, prefix, lost)
    ensures NewestFirst(ms) && DistinctIDs(ms)
    ensures NewestFirst(OnlyReady(ms)) && DistinctIDs(OnlyReady(ms))
    ensures forall m :: m in OnlyReady(ms) <==> m in ms && m.status == Ready
  {
    OnlyReadyPart(ms);
  }

  function OnlyReady(ms: seq<Manifest>): seq<Manifest> {
    if ms == [] then []
    else
      var before := OnlyReady(ms[..|ms| - 1]);
      if ms[|ms| - 1].status == Ready then before + [ms[|ms| - 1]] else before
  }

  lemma OnlyReadyInOrder(ms: seq<Manifest>, stored: map<string, Manifest>)
    requires Lists(ms, stored)
    ensures Lists(OnlyReady(ms), ReadyPoints(stored))
    ensures forall m :: m in OnlyReady(ms) <==> m in ms && m.status == Ready
    ensures ListsAll(ms, stored) ==> ListsAll(OnlyReady(ms), ReadyPoints(stored))
  {
    OnlyReadyPart(ms);
    forall i | 0 <= i < |OnlyReady(ms)|
      ensures OnlyReady(ms)[i].recoveryPointID in ReadyPoints(stored)
      ensures ReadyPoints(stored)[OnlyReady(ms)[i].recoveryPointID] == OnlyReady(ms)[i]
    {
      assert OnlyReady(ms)[i] in OnlyReady(ms);
    }
    if ListsAll(ms, stored) {
      forall id | id in ReadyPoints(stored) ensures id in IDs(OnlyReady(ms)) {
        var i :| 0 <= i < |ms| && ms[i].recoveryPointID == id;
        assert ms[i] in ms && ms[i].status == Ready;
        MemberID(OnlyReady(ms), ms[i]);
      }
    }
  }

  lemma {:induction false} OnlyReadyPart(ms: seq<Manifest>)
    requires NewestFirst(ms) && DistinctIDs(ms)
    ensures NewestFirst(OnlyReady(ms)) && DistinctIDs(OnlyReady(ms))
    ensures forall m :: m in OnlyReady(ms) <==> m in ms && m.status == Ready
  {
    if ms != [] {
      var last, rest := ms[|ms| - 1], ms[..|ms| - 1];
      OnlyReadyPart(rest);
      assert forall m :: m in ms <==> m in rest || m == last;
      forall i | 0 <= i < |OnlyReady(rest)|
        ensures OnlyReady(rest)[i].createdAt >= last.createdAt
            && OnlyReady(rest)[i].recoveryPointID != last.recoveryPointID
      {
        assert OnlyReady(rest)[i] in rest;
      }
    }
  }

  /** `sort.Slice` newest first; the order of equal times is not specified. */
  method SortNewestFirst(ms: seq<Manifest>) returns (sorted: seq<Manifest>)
    ensures NewestFirst(sorted) && multiset(sorted) == multiset(ms)
  {
    sorted := Sorted(ms);
  }

  /** The compaction of `ListManifests`: the ready manifests move to the front of the same array. */
  method CompactReady(a: array<Manifest>) returns (n: nat)
    modifies a
    ensures n <= a.Length && a[..n] == OnlyReady(old(a[..]))
  {
    n := 0;
    ghost var before := a[..];
    for i := 0 to a.Length
      invariant n <= i
      invariant forall k :: i <= k < a.Length ==> a[k] == before[k]
      invariant a[..n] == OnlyReady(before[..i])
    {
      assert before[..i + 1][..i] == before[..i];
      if a[i].status == Ready {
        a[n] := a[i];
        n := n + 1;
        assert a[..n] == OnlyReady(before[..i]) + [before[i]];
      }
    }
    assert before[..a.Length] == before;
  }

  // ----- the world outside: files -----

  class Disk {
    var files: map<string, Bytes>

    constructor ()
      ensures files == map[]
    {
      files := map[];
    }
  }

  class ObjectStore {
    const prefix: string
    var bucket: map<string, Body>

    constructor (configuredPrefix: string, contents: map<string, Body>)
      ensures prefix == TrimSlash(configuredPrefix) && Trimmed(prefix) && bucket == contents
    {
      prefix := TrimSlash(configuredPrefix);
      bucket := contents;
      TrimmedEnds(configuredPrefix);
    }

    method PutObject(key: string, body: Body) returns (ok: bool, ghost effect: bool)
      modifies this`bucket
      ensures ok ==> effect
      ensures bucket == if effect then old(bucket)[key := body] else old(bucket)
    {
      var stored: bool := *;
      if stored {
        bucket := bucket[key := body];
      }
      effect := stored;
      var reported: bool := *;
      ok := stored && reported;
    }

    method DeleteObject(key: string) returns (ok: bool, ghost effect: bool)
      modifies this`bucket
      ensures ok ==> effect
      ensures bucket == if effect then old(bucket) - {key} else old(bucket)
    {
      var deleted: bool := *;
      if deleted {
        bucket := bucket - {key};
      }
      effect := deleted;
      var reported: bool := *;
      ok := deleted && reported;
    }

    method GetObject(key: string) returns (body: Option<Body>)
      ensures body.Some? ==> key in bucket && body.value == bucket[key]
    {
      var reached: bool := *;
      body := if reached && key in bucket then Some(bucket[key]) else None;
    }

    method PutEncryptedFile(objectKey: string, source: Option<Bytes>, recoveryKey: string)
      returns (ok: bool, ghost effect: bool)
      modifies this`bucket
      ensures ok ==> effect
      ensures effect ==> source.Some? && recoveryKey != ""
      ensures var key := ObjectKey(prefix, objectKey);
              bucket == if effect then old(bucket)[key := ArchiveData(Age(recoveryKey, source.value))] else old(bucket)
    {
      effect := false;
      if recoveryKey == "" || source == None {
        return false, false;
      }
      ok, effect := PutObject(ObjectKey(prefix, objectKey), ArchiveData(Age(recoveryKey, source.value)));
    }

    /** Downloads and decrypts to a file that must not exist yet; a failed copy leaves no file. */
    method GetDecryptedFile(objectKey: string, disk: Disk, destination: string, recoveryKey: string)
      returns (descriptor: Option<Descriptor>)
      modifies disk
      ensures descriptor.Some? ==>
                var key := ObjectKey(prefix, objectKey);
                && key in bucket && bucket[key].ArchiveData?
                && Decrypt(bucket[key].cipher, recoveryKey).Some?
                && var plain := Decrypt(bucket[key].cipher, recoveryKey).value;
                && disk.files == old(disk.files)[destination := plain]
                && descriptor.value == Descriptor("ec-state-v1.tar.gz", |plain|, Sha256(plain))
      ensures descriptor == None ==> disk.files == old(disk.files)
      ensures destination in old(disk.files) ==> descriptor == None
    {
      var body := GetObject(ObjectKey(prefix, objectKey));
      if body == None || !body.value.ArchiveData? {
        return None;
      }
      var plain := Decrypt(body.value.cipher, recoveryKey);
      if plain == None || destination in disk.files {
        return None;
      }
      var written: int := *;
      if 0 <= written < |plain.value| {
        disk.files := disk.files[destination := plain.value[..written]];
        disk.files := disk.files - {destination};
        return None;
      }
      disk.files := disk.files[destination := plain.value];
      descriptor := Some(Describe(plain.value));
    }

    method PutManifest(m: Manifest) returns (ok: bool, ghost effect: bool)
      modifies this`bucket
      ensures ok ==> effect
      ensures effect ==> Valid(m)
      ensures effect && Trimmed(prefix) ==> Readable(m, bucket, prefix)
      ensures bucket == if effect then old(bucket)[ManifestKey(prefix, m.recoveryPointID) := ManifestJSON(m)]
          else old(bucket)
    {
      effect := false;
      if !Valid(m) {
        return false, false;
      }
      ok, effect := PutObject(ObjectKey(prefix, PathJoin([POINTS, m.recoveryPointID, MANIFEST])), ManifestJSON(m));
      if effect && Trimmed(prefix) {
        ReadableIsStored(m, bucket, prefix);
      }
    }

    method ReadManifest(id: string) returns (m: Option<Manifest>)
      ensures m.Some? ==> Stored(bucket, prefix, id) == m
      ensures m.Some? && Trimmed(prefix) ==> m.value.recoveryPointID == id && Readable(m.value, bucket, prefix)
    {
      if !Canonical(id) {
        return None;
      }
      var body := GetObject(ObjectKey(prefix, PathJoin([POINTS, id, MANIFEST])));
      if body == None || !body.value.ManifestJSON? {
        return None;
      }
      var manifest := body.value.manifest;
      if !Valid(manifest) || manifest.recoveryPointID != id {
        return None;
      }
      m := Some(manifest);
      if Trimmed(prefix) {
        ReadableIsStored(manifest, bucket, prefix);
      }
    }

    method GetManifest(id: string) returns (m: Option<Manifest>)
      ensures m.Some? ==> Stored(bucket, prefix, id) == m && m.value.status == Ready
      ensures m.Some? && Trimmed(prefix) ==> m.value.recoveryPointID == id && Readable(m.value, bucket, prefix)
    {
      m := ReadManifest(id);
      if m.Some? && m.value.status != Ready {
        m := None;
      }
    }

    /** The keys below `list`, in some division into pages. */
    method ListObjects(list: string) returns (pages: seq<seq<string>>)
      ensures Paged(pages, bucket, list)
    {
      var rest := set k | k in bucket && HasPrefix(k, list);
      pages := [];
      while rest != {}
        invariant forall i, j :: 0 <= i < j < |Flatten(pages)| ==> Flatten(pages)[i] != Flatten(pages)[j]
        invariant forall k :: k in Flatten(pages) ==> k !in rest
        invariant forall k :: k in Flatten(pages) || k in rest <==> k in bucket && HasPrefix(k, list)
        decreases |rest|
      {
        var key :| key in rest;
        assert (pages + [[key]])[..|pages|] == pages;
        assert Flatten(pages + [[key]]) == Flatten(pages) + [key];
        pages := pages + [[key]];
        rest := rest - {key};
      }
    }

    /** `listManifests`: page by page, key by key; a page that cannot be read fails the listing, a manifest
        that cannot be read is skipped. */
    method ListRetentionManifests(pages: seq<seq<string>>, lost: set<string>) returns (ms: Option<seq<Manifest>>)
      requires Trimmed(prefix) && Paged(pages, bucket, ListPrefix(prefix))
      ensures ms.Some? ==> Reflects(ms.value, bucket, prefix, lost)
      ensures ms.Some? ==> forall m ::
        m in ms.value <==> Readable(m, bucket, prefix) && ManifestKey(prefix, m.recoveryPointID) !in lost
    {
      var manifests: seq<Manifest> := [];
      for i := 0 to |pages|
        invariant manifests == Collected(bucket, prefix, lost, Flatten(pages[..i]))
      {
        var reached: bool := *;
        if !reached {
          return None;
        }
        manifests := AppendPage(manifests, pages[i], lost, Flatten(pages[..i]));
        assert pages[..i + 1][..i] == pages[..i];
      }
      assert pages[..|pages|] == pages;
      var sorted := SortNewestFirst(manifests);
      CollectedReflects(pages, bucket, prefix, lost, sorted);
      ms := Some(sorted);
    }

    /** One page: keys that are not manifest keys, and manifests that cannot be read, are skipped. */
    method AppendPage(manifests: seq<Manifest>, page: seq<string>, lost: set<string>, ghost before: seq<string>)
      returns (all: seq<Manifest>)
      requires manifests == Collected(bucket, prefix, lost, before)
      ensures all == Collected(bucket, prefix, lost, before + page)
    {
      hide Collected, FromKey;
      all := manifests;
      assert before + page[..0] == before;
      for j := 0 to |page|
        invariant all == Collected(bucket, prefix, lost, before + page[..j])
      {
        var key := page[j];
        var m := ReadKey(key, lost);
        CollectedOneMore(bucket, prefix, lost, before + page[..j], key);
        assert before + page[..j + 1] == (before + page[..j]) + [key];
        if m.Some? {
          all := all + [m.value];
        }
      }
      assert page[..|page|] == page;
    }

    method ReadKey(key: string, lost: set<string>) returns (m: Option<Manifest>)
      ensures m == FromKey(bucket, prefix, lost, key)
    {
      if !HasSuffix(key, "/" + MANIFEST) {
        return None;
      }
      var relative := TrimPrefix(key, ListPrefix(prefix));
      var id := TrimSuffix(relative, "/" + MANIFEST);
      if id == "" || '/' in id {
        return None;
      }
      m := ReadListed(id, lost);
    }

    /** `getManifest` on a listed ID, failing exactly on the lost keys. */
    method ReadListed(id: string, lost: set<string>) returns (m: Option<Manifest>)
      ensures m == if ManifestKey(prefix, id) in lost then None else Stored(bucket, prefix, id)
    {
      if !Canonical(id) {
        return None;
      }
      var key := ObjectKey(prefix, PathJoin([POINTS, id, MANIFEST]));
      if key in lost || key !in bucket || !bucket[key].ManifestJSON? {
        return None;
      }
      var manifest := bucket[key].manifest;
      m := if Valid(manifest) && manifest.recoveryPointID == id then Some(manifest) else None;
    }

    method ListManifests(pages: seq<seq<string>>, lost: set<string>) returns (ready: Option<seq<Manifest>>)
      requires Trimmed(prefix) && Paged(pages, bucket, ListPrefix(prefix))
      ensures ready.Some? ==> exists ms :: Reflects(ms, bucket, prefix, lost) && ready.value == OnlyReady(ms)
      ensures ready.Some? ==> NewestFirst(ready.value) && DistinctIDs(ready.value)
      ensures ready.Some? ==> forall m ::
        m in ready.value <==>
          && Readable(m, bucket, prefix) && ManifestKey(prefix, m.recoveryPointID) !in lost
          && m.status == Ready
    {
      hide NewestFirst, DistinctIDs, Readable, Reflects, Stored, Paged, ManifestKey;
      var ms := ListRetentionManifests(pages, lost);
      if ms == None {
        return None;
      }
      ReflectsInOrder(ms.value, bucket, prefix, lost);
      var a := new Manifest[|ms.value|](i requires 0 <= i < |ms.value| => ms.value[i]);
      assert a[..] == ms.value;
      var n := CompactReady(a);
      ready := Some(a[..n]);
    }

    method MarkRecoveryPointDeleting(m: Manifest) returns (ok: bool, ghost effect: bool)
      modifies this`bucket
      ensures ok ==> effect
      ensures effect ==> Valid(AsDeleting(m))
      ensures var key := ManifestKey(prefix, m.recoveryPointID);
              bucket == if effect then old(bucket)[key := ManifestJSON(AsDeleting(m))] else old(bucket)
    {
      ok, effect := PutManifest(m.(status := Deleting));
    }

    /** Archive first, manifest last; the second deletion is not attempted if the first reports an error. */
    method DeleteRecoveryPoint(m: Manifest) returns (ok: bool, ghost archive: (bool, bool),
        ghost manifest: (bool, bool))
      modifies this`bucket
      ensures archive.0 ==> archive.1
      ensures manifest.0 ==> manifest.1
      ensures ok <==> archive.0 && manifest.0
      ensures manifest.1 ==> archive.0
      ensures archive.1 ==> Valid(m)
      ensures bucket == old(bucket)
                        - (if archive.1 then {ObjectKey(prefix, m.stateObjectKey)} else {})
                        - (if manifest.1 then {ManifestKey(prefix, m.recoveryPointID)} else {})
    {
      archive, manifest := (false, false), (false, false);
      if !Valid(m) {
        return false, archive, manifest;
      }
      ghost var effect;
      ok, effect := DeleteObject(ObjectKey(prefix, m.stateObjectKey));
      archive := (ok, effect);
      if !ok {
        return;
      }
      ok, effect := DeleteObject(ObjectKey(prefix, PathJoin([POINTS, m.recoveryPointID, MANIFEST])));
      manifest := (ok, effect);
    }
  }
}

/** Object keys and Velero names: construction, and the parse that listing applies to keys. */
module Keys {
  import opened Wrappers
  import opened Text
  import opened Ids

  const POINTS := "recovery-points"
  const MANIFEST := "manifest.json"
  const ARCHIVE := "ec-state-v1.tar.gz.age"

  /** `objectKey`; the store's prefix has its outer slashes trimmed. */
  function ObjectKey(prefix: string, key: string): string {
    if prefix == "" then TrimLeftSlash(key) else PathJoin([prefix, key])
  }

  function ManifestPath(id: string): string {
    PathJoin([POINTS, id, MANIFEST])
  }

  function StatePath(id: string): string {
    PathJoin([POINTS, id, ARCHIVE])
  }

  function ManifestKey(prefix: string, id: string): string {
    ObjectKey(prefix, ManifestPath(id))
  }

  function StateKey(prefix: string, id: string): string {
    ObjectKey(prefix, StatePath(id))
  }

  function ListPrefix(prefix: string): string {
    TrimRightSlash(ObjectKey(prefix, POINTS)) + "/"
  }

  /** The ID that listing extracts from a listed key, if it keeps the key at all. */
  function ParseListedKey(prefix: string, key: string): Option<string> {
    ParseBelow(ListPrefix(prefix), "/" + MANIFEST, key)
  }

  function ParseBelow(list: string, suffix: string, key: string): Option<string> {
    if !HasSuffix(key, suffix) then None
    else
      var id := TrimSuffix(TrimPrefix(key, list), suffix);
      if id == "" || '/' in id then None else Some(id)
  }

  function VeleroName(id: string): string {
    "ec-dr-" + RemoveDashes(id)
  }

  /** `veleroStoragePrefix`, applied to the configured (untrimmed) prefix. */
  function VeleroPrefix(configured: string): string {
    PathJoin([TrimSlash(configured), "velero"])
  }

  /** What a trimmed prefix puts in front of every key, after cleaning. */
  function Base(prefix: string): string {
    var stack := Resolve(false, Components(prefix), []);
    if stack == [] then "" else JoinSlash(stack) + "/"
  }

  predicate Trimmed(prefix: string) {
    prefix != "" ==> prefix[0] != '/'
  }

  lemma BaseForm(prefix: string, parts: seq<string>)
    requires Trimmed(prefix) && parts != []
    requires forall p :: p in parts ==> Plain(p)
    ensures ObjectKey(prefix, JoinSlash(parts)) == Base(prefix) + JoinSlash(parts)
  {
    var key := JoinSlash(parts);
    PlainJoinStart(parts);
    if prefix != "" {
      assert NonEmpty([prefix, key]) == [prefix, key] by {
        assert [prefix, key][1..] == [key];
        NonEmptySingle(key);
      }
      assert JoinSlash([prefix, key]) == prefix + "/" + key by {
        assert [prefix, key][1..] == [key];
      }
      ComponentsOfJoin(prefix, key);
      ComponentsOfParts(parts);
      var stack := Resolve(false, Components(prefix), []);
      ResolveAppend(false, Components(prefix), parts, []);
      ResolvePlain(false, parts, stack);
      JoinAppend(stack, parts);
    }
  }

  lemma NonEmptySingle(part: string)
    requires part != ""
    ensures NonEmpty([part]) == [part]
  {
    assert [part][1..] == [];
    assert NonEmpty([]) == [];
  }

  lemma CanonicalIsPlain(id: string)
    requires Canonical(id)
    ensures Plain(id)
  {
    forall i | 0 <= i < 36 ensures id[i] != '/' {
      assert if DashAt(i) then id[i] == '-' else LowerHex(id[i]);
    }
  }

  lemma PathForms(id: string)
    requires Canonical(id)
    ensures ManifestPath(id) == JoinSlash([POINTS, id, MANIFEST]) == POINTS + "/" + id + "/" + MANIFEST
    ensures StatePath(id) == JoinSlash([POINTS, id, ARCHIVE]) == POINTS + "/" + id + "/" + ARCHIVE
  {
    CanonicalIsPlain(id);
    forall last | last == MANIFEST || last == ARCHIVE
      ensures PathJoin([POINTS, id, last]) == JoinSlash([POINTS, id, last]) == POINTS + "/" + id + "/" + last
    {
      var parts := [POINTS, id, last];
      assert Plain(POINTS) && Plain(last);
      PathJoinPlain(parts);
      assert parts[1..] == [id, last] && parts[1..][1..] == [last];
      assert JoinSlash([id, last]) == id + "/" + last;
    }
  }

  /** The cleaned prefix ends in a slash unless it is empty; a prefix of ordinary elements stays as it is. */
  lemma BaseForms(prefix: string, parts: seq<string>)
    requires forall p :: p in parts ==> Plain(p)
    ensures Base("") == ""
    ensures prefix == JoinSlash(parts) && parts != [] ==> Base(prefix) == prefix + "/"
  {
    assert Components("") == [""] && Resolve(false, [""], []) == Resolve(false, [""][1..], []) == [];
    if prefix == JoinSlash(parts) && parts != [] {
      ComponentsOfParts(parts);
      ResolvePlain(false, parts, []);
      assert [] + parts == parts;
    }
  }

  /** Every key is the cleaned prefix followed by the relative key, and every Velero name is made of the five
      groups of digits. */
  lemma KeyForms(prefix: string, id: string)
    requires Trimmed(prefix) && Canonical(id)
    ensures ManifestKey(prefix, id) == Base(prefix) + ("recovery-points/" + id + "/manifest.json")
    ensures StateKey(prefix, id) == Base(prefix) + ("recovery-points/" + id + "/ec-state-v1.tar.gz.age")
    ensures StatePath(id) == "recovery-points/" + id + "/ec-state-v1.tar.gz.age"
    ensures VeleroName(id) == "ec-dr-" + (id[..8] + id[9..13] + id[14..18] + id[19..23] + id[24..])
  {
    hide Base, Canonical, ManifestKey, StateKey, StatePath;
    RelativeForms(prefix, id);
    PathForms(id);
    CanonicalGroups(id);
    Literals(id);
  }

  lemma RelativeForms(prefix: string, id: string)
    requires Trimmed(prefix) && Canonical(id)
    ensures ManifestKey(prefix, id) == Base(prefix) + (POINTS + "/" + id + "/" + MANIFEST)
    ensures StateKey(prefix, id) == Base(prefix) + (POINTS + "/" + id + "/" + ARCHIVE)
  {
    PathForms(id);
    CanonicalIsPlain(id);
    assert Plain(POINTS) && Plain(MANIFEST) && Plain(ARCHIVE);
    BaseForm(prefix, [POINTS, id, MANIFEST]);
    BaseForm(prefix, [POINTS, id, ARCHIVE]);
  }

  lemma Literals(id: string)
    ensures POINTS + "/" + id + "/" + MANIFEST == "recovery-points/" + id + "/manifest.json"
    ensures POINTS + "/" + id + "/" + ARCHIVE == "recovery-points/" + id + "/ec-state-v1.tar.gz.age"
  {
    assert POINTS + "/" == "recovery-points/" && "/" + MANIFEST == "/manifest.json";
    assert "/" + ARCHIVE == "/ec-state-v1.tar.gz.age";
    assert POINTS + "/" + id + "/" + MANIFEST == (POINTS + "/") + id + ("/" + MANIFEST);
    assert POINTS + "/" + id + "/" + ARCHIVE == (POINTS + "/") + id + ("/" + ARCHIVE);
  }

  lemma ListPrefixForm(prefix: string)
    requires Trimmed(prefix)
    ensures ListPrefix(prefix) == Base(prefix) + (POINTS + "/")
  {
    assert Plain(POINTS);
    BaseForm(prefix, [POINTS]);
    var key := ObjectKey(prefix, POINTS);
    assert key == Base(prefix) + POINTS;
    assert key[|key| - 1] == POINTS[|POINTS| - 1] != '/';
  }

  lemma SameWrap(base: string, a: string, b: string, suffix: string, other: string)
    requires |a| == |b| && base + (POINTS + "/" + a + "/" + suffix) == base + (POINTS + "/" + b + "/" + other)
    ensures a == b && suffix == other
  {
    var left, right := POINTS + "/" + a + "/" + suffix, POINTS + "/" + b + "/" + other;
    assert (base + left)[|base|..] == left && (base + right)[|base|..] == right;
    var n := |POINTS| + 1;
    assert left[n..n + |a|] == a && right[n..n + |a|] == b;
    assert left[n + |a| + 1..] == suffix && right[n + |a| + 1..] == other;
  }

  lemma VeleroNamesDistinct(a: string, b: string)
    requires Canonical(a) && Canonical(b) && VeleroName(a) == VeleroName(b)
    ensures a == b
  {
    hide RemoveDashes, Canonical;
    assert RemoveDashes(a) == VeleroName(a)[6..] && RemoveDashes(b) == VeleroName(b)[6..];
    DashRemovalInjective(a, b);
  }

  /** Two different recovery points never share a manifest key, an archive key or a Velero name, and no
      manifest key is an archive key. */
  lemma KeysDistinct(prefix: string, a: string, b: string)
    requires Trimmed(prefix) && Canonical(a) && Canonical(b)
    ensures ManifestKey(prefix, a) == ManifestKey(prefix, b) ==> a == b
    ensures StateKey(prefix, a) == StateKey(prefix, b) ==> a == b
    ensures ManifestKey(prefix, a) != StateKey(prefix, b)
    ensures VeleroName(a) == VeleroName(b) ==> a == b
  {
    assert |a| == 36 && |b| == 36;
    hide ManifestKey, StateKey, VeleroName, Base, Canonical;
    RelativeForms(prefix, a);
    RelativeForms(prefix, b);
    if ManifestKey(prefix, a) == ManifestKey(prefix, b) {
      SameWrap(Base(prefix), a, b, MANIFEST, MANIFEST);
    }
    if StateKey(prefix, a) == StateKey(prefix, b) {
      SameWrap(Base(prefix), a, b, ARCHIVE, ARCHIVE);
    }
    ManifestIsNoArchive(Base(prefix), a, b);
    if VeleroName(a) == VeleroName(b) {
      VeleroNamesDistinct(a, b);
    }
  }

  lemma ManifestIsNoArchive(base: string, a: string, b: string)
    requires |a| == |b|
    ensures base + (POINTS + "/" + a + "/" + MANIFEST) != base + (POINTS + "/" + b + "/" + ARCHIVE)
  {
    assert |MANIFEST| == 13 && |ARCHIVE| == 22;
    assert |base + (POINTS + "/" + a + "/" + MANIFEST)| + 9 == |base + (POINTS + "/" + b + "/" + ARCHIVE)|;
  }

  /** On listed keys the parse inverts manifest key construction, for every prefix: it yields the canonical
      ID `id` from the manifest key of `id` and from no other key. */
  lemma ListingParsesExactly(prefix: string, key: string, id: string)
    requires Trimmed(prefix) && Canonical(id)
    ensures HasPrefix(key, ListPrefix(prefix)) && ParseListedKey(prefix, key) == Some(id) <==>
        key == ManifestKey(prefix, id)
  {
    RelativeForms(prefix, id);
    ListPrefixForm(prefix);
    CanonicalIsPlain(id);
    ParseBelowExactly(ListPrefix(prefix), "/" + MANIFEST, key, id);
    Regroup(Base(prefix), POINTS, "/", id, MANIFEST);
  }

  lemma Regroup(a: string, b: string, c: string, d: string, e: string)
    ensures a + (b + c + d + c + e) == (a + (b + c)) + (d + (c + e))
  {
  }

  lemma ParseBelowExactly(list: string, suffix: string, key: string, id: string)
    requires id != "" && '/' !in id && 0 < |suffix| <= |id| && suffix[0] == '/'
    ensures HasPrefix(key, list) && ParseBelow(list, suffix, key) == Some(id) <==> key == list + (id + suffix)
  {
    if key == list + (id + suffix) {
      assert key[|list|..] == id + suffix && (id + suffix)[|id|..] == suffix && (id + suffix)[..|id|] == id;
      assert key[|key| - |suffix|..] == suffix;
    }
    if HasPrefix(key, list) && HasSuffix(key, suffix) {
      var relative := key[|list|..];
      assert key == list + relative;
      assert TrimPrefix(key, list) == relative;
      assert |relative| >= |suffix| ==> relative[|relative| - |suffix|..] == key[|key| - |suffix|..];
      if HasSuffix(relative, suffix) {
        assert relative == relative[..|relative| - |suffix|] + suffix;
      }
    }
  }

  lemma VeleroPrefixForm(configured: string)
    ensures Trimmed(TrimSlash(configured))
    ensures VeleroPrefix(configured) == Base(TrimSlash(configured)) + "velero"
  {
    var prefix := TrimSlash(configured);
    TrimmedEnds(configured);
    assert Plain("velero");
    var velero := VeleroPrefix(configured);
    if prefix == "" {
      assert NonEmpty(["", "velero"]) == ["velero"] by {
        assert ["", "velero"][1..] == ["velero"];
      }
      PathJoinPlain(["velero"]);
      assert NonEmpty(["velero"]) == ["velero"];
    } else {
      BaseForm(prefix, ["velero"]);
    }
  }

  /** Velero's own objects live below a directory that holds no recovery-point key. */
  lemma VeleroPrefixDisjoint(configured: string, id: string)
    requires Canonical(id)
    ensures Trimmed(TrimSlash(configured))
    ensures VeleroPrefix(configured) == Base(TrimSlash(configured)) + "velero"
    ensures !HasPrefix(ManifestKey(TrimSlash(configured), id), VeleroPrefix(configured) + "/")
    ensures !HasPrefix(StateKey(TrimSlash(configured), id), VeleroPrefix(configured) + "/")
  {
    hide VeleroPrefix, Base, Canonical, TrimSlash;
    var prefix := TrimSlash(configured);
    VeleroPrefixForm(configured);
    RelativeForms(prefix, id);
    var velero, n := VeleroPrefix(configured), |Base(prefix)|;
    assert (velero + "/")[n] == 'v' && ManifestKey(prefix, id)[n] == 'r' && StateKey(prefix, id)[n] == 'r';
  }
}

/** The string-keyed bucket as the life cycle's maps: what one put or delete does to both. */
module Representation {
  import opened Wrappers
  import opened Ids
  import opened Keys
  import opened Recovery
  import opened RecoveryStore

  lemma ManifestKeysDiffer(prefix: string, a: string, b: string)
    requires Trimmed(prefix) && Canonical(a) && Canonical(b)
    ensures a != b ==> ManifestKey(prefix, a) != ManifestKey(prefix, b) && StateKey(prefix, a) != StateKey(prefix, b)
    ensures ManifestKey(prefix, a) != StateKey(prefix, b) && StateKey(prefix, a) != ManifestKey(prefix, b)
  {
    KeysDistinct(prefix, a, b);
    KeysDistinct(prefix, b, a);
  }

  /** Only the entry of `key` may differ. */
  predicate SameElsewhere(b: map<string, Body>, c: map<string, Body>, key: string) {
    && (forall k :: k in b && k != key ==> k in c && c[k] == b[k])
    && (forall k :: k in c && k != key ==> k in b)
  }

  lemma ManifestChange(b: map<string, Body>, c: map<string, Body>, prefix: string, id: string,
      manifests: map<string, Manifest>, changed: map<string, Manifest>, archives: map<string, Cipher>)
    requires Trimmed(prefix) && Canonical(id) && Represents(b, prefix, manifests, archives)
    requires SameElsewhere(b, c, ManifestKey(prefix, id))
    requires forall other :: other != id ==> (other in changed <==> other in manifests)
    requires forall other :: other != id && other in manifests ==> changed[other] == manifests[other]
    requires Stored(c, prefix, id) == if id in changed then Some(changed[id]) else None
    ensures Represents(c, prefix, changed, archives)
  {
    OtherManifests(b, c, prefix, id, ManifestKey(prefix, id));
    forall other | Canonical(other)
      ensures StateKey(prefix, other) in c <==> StateKey(prefix, other) in b
      ensures StateKey(prefix, other) in b ==> c[StateKey(prefix, other)] == b[StateKey(prefix, other)]
    {
      ManifestKeysDiffer(prefix, other, id);
    }
    assert HoldsArchives(c, prefix, archives);
  }

  lemma OtherManifests(b: map<string, Body>, c: map<string, Body>, prefix: string, id: string, key: string)
    requires Trimmed(prefix) && Canonical(id) && SameElsewhere(b, c, key)
    requires key == ManifestKey(prefix, id) || key == StateKey(prefix, id)
    ensures forall other :: other != id ==> Stored(c, prefix, other) == Stored(b, prefix, other)
    ensures key == StateKey(prefix, id) ==> Stored(c, prefix, id) == Stored(b, prefix, id)
  {
    forall other | Canonical(other) && (other != id || key == StateKey(prefix, id))
      ensures Stored(c, prefix, other) == Stored(b, prefix, other)
    {
      ManifestKeysDiffer(prefix, other, id);
    }
  }

  lemma PutManifestRepresents(b: map<string, Body>, prefix: string, m: Manifest,
      manifests: map<string, Manifest>, archives: map<string, Cipher>)
    requires Trimmed(prefix) && Valid(m) && Represents(b, prefix, manifests, archives)
    ensures var id := m.recoveryPointID;
            Represents(b[ManifestKey(prefix, id) := ManifestJSON(m)], prefix, manifests[id := m], archives)
  {
    var id := m.recoveryPointID;
    ManifestChange(b, b[ManifestKey(prefix, id) := ManifestJSON(m)], prefix, id, manifests, manifests[id := m],
      archives);
  }

  lemma DeleteManifestRepresents(b: map<string, Body>, prefix: string, id: string,
      manifests: map<string, Manifest>, archives: map<string, Cipher>)
    requires Trimmed(prefix) && Canonical(id) && Represents(b, prefix, manifests, archives)
    ensures Represents(b - {ManifestKey(prefix, id)}, prefix, manifests - {id}, archives)
  {
    ManifestChange(b, b - {ManifestKey(prefix, id)}, prefix, id, manifests, manifests - {id}, archives);
  }

  lemma ArchiveChange(b: map<string, Body>, c: map<string, Body>, prefix: string, id: string,
      manifests: map<string, Manifest>, archives: map<string, Cipher>, changed: map<string, Cipher>)
    requires Trimmed(prefix) && Canonical(id) && Represents(b, prefix, manifests, archives)
    requires SameElsewhere(b, c, StateKey(prefix, id))
    requires forall other :: other != id ==> (other in changed <==> other in archives)
    requires forall other :: other != id && other in archives ==> changed[other] == archives[other]
    requires id in changed <==> StateKey(prefix, id) in c
    requires id in changed ==> c[StateKey(prefix, id)] == ArchiveData(changed[id])
    ensures Represents(c, prefix, manifests, changed)
  {
    OtherManifests(b, c, prefix, id, StateKey(prefix, id));
    assert HoldsManifests(c, prefix, manifests);
    forall other | Canonical(other) && other != id
      ensures StateKey(prefix, other) in c <==> StateKey(prefix, other) in b
      ensures StateKey(prefix, other) in b ==> c[StateKey(prefix, other)] == b[StateKey(prefix, other)]
    {
      ManifestKeysDiffer(prefix, other, id);
    }
    assert HoldsArchives(c, prefix, changed);
  }

  lemma PutArchiveRepresents(b: map<string, Body>, prefix: string, id: string, c: Cipher,
      manifests: map<string, Manifest>, archives: map<string, Cipher>)
    requires Trimmed(prefix) && Canonical(id) && Represents(b, prefix, manifests, archives)
    ensures Represents(b[StateKey(prefix, id) := ArchiveData(c)], prefix, manifests, archives[id := c])
  {
    ArchiveChange(b, b[StateKey(prefix, id) := ArchiveData(c)], prefix, id, manifests, archives, archives[id := c]);
  }

  lemma DeleteArchiveRepresents(b: map<string, Body>, prefix: string, id: string,
      manifests: map<string, Manifest>, archives: map<string, Cipher>)
    requires Trimmed(prefix) && Canonical(id) && Represents(b, prefix, manifests, archives)
    ensures Represents(b - {StateKey(prefix, id)}, prefix, manifests, archives - {id})
  {
    ArchiveChange(b, b - {StateKey(prefix, id)}, prefix, id, manifests, archives, archives - {id});
  }
}

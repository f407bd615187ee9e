/** Recovery points: manifests, encrypted archives, and what a listing of manifests is. */
module Recovery {
  import opened Wrappers
  import opened Ids
  import opened Keys

  newtype Byte = x: int | 0 <= x < 256
  type Bytes = seq<Byte>

  /** An ideal hash: digests are equal exactly when the contents are. */
  datatype Digest = Sha256(content: Bytes)

  /** An ideal cipher: only the key it was made with opens it. */
  datatype Cipher = Age(key: string, plain: Bytes)

  function Decrypt(cipher: Cipher, key: string): Option<Bytes> {
    if cipher.key == key then Some(cipher.plain) else None
  }

  datatype Descriptor = Descriptor(name: string, size: int, sha256: Digest)

  const RESTORED := "ec-state-v1.tar.gz"

  function Describe(content: Bytes): Descriptor {
    Descriptor(RESTORED, |content|, Sha256(content))
  }

  datatype Status = Ready | Deleting | Unsupported(text: string)

  datatype Manifest = Manifest(
    formatVersion: string,
    recoveryPointID: string,
    createdAt: int,
    veleroBackupName: string,
    stateObjectKey: string,
    status: Status)

  const FORMAT := "1"
  const ZERO_TIME := 0

  /** `Manifest.Validate` */
  predicate Valid(m: Manifest) {
    && m.formatVersion == FORMAT
    && Canonical(m.recoveryPointID)
    && m.veleroBackupName != ""
    && m.createdAt != ZERO_TIME
    && !m.status.Unsupported?
    && m.stateObjectKey == StatePath(m.recoveryPointID)
  }

  /** The manifest that a backup publishes. */
  function NewManifest(id: string, createdAt: int): Manifest {
    Manifest(FORMAT, id, createdAt, VeleroName(id), StatePath(id), Ready)
  }

  /** What the manifest of a finished backup says; `id` is canonical. */
  predicate FinishedManifest(m: Manifest, id: string, from: int, to: int)
    requires |id| == 36
  {
    && m.formatVersion == "1" && m.recoveryPointID == id && m.status == Ready
    && from <= m.createdAt <= to
    && m.veleroBackupName == "ec-dr-" + (id[..8] + id[9..13] + id[14..18] + id[19..23] + id[24..])
    && m.stateObjectKey == "recovery-points/" + id + "/ec-state-v1.tar.gz.age"
  }

  lemma NewManifestForm(id: string, createdAt: int, from: int, to: int)
    requires Canonical(id) && from <= createdAt <= to
    ensures |id| == 36 && FinishedManifest(NewManifest(id, createdAt), id, from, to)
  {
    KeyForms("", id);
  }

  predicate NewestFirst(ms: seq<Manifest>) {
    forall i, j :: 0 <= i < j < |ms| ==> ms[i].createdAt >= ms[j].createdAt
  }

  predicate DistinctIDs(ms: seq<Manifest>) {
    forall i, j :: 0 <= i < j < |ms| ==> ms[i].recoveryPointID != ms[j].recoveryPointID
  }

  predicate AllStored(ms: seq<Manifest>, stored: map<string, Manifest>) {
    forall i :: 0 <= i < |ms| ==> ms[i].recoveryPointID in stored && stored[ms[i].recoveryPointID] == ms[i]
  }

  function IDs(ms: seq<Manifest>): set<string> {
    set i | 0 <= i < |ms| :: ms[i].recoveryPointID
  }

  /** A listing that may have skipped manifests it could not read. */
  predicate Lists(ms: seq<Manifest>, stored: map<string, Manifest>) {
    NewestFirst(ms) && DistinctIDs(ms) && AllStored(ms, stored)
  }

  /** A listing with reliable reads: every stored manifest, exactly once, newest first. */
  predicate ListsAll(ms: seq<Manifest>, stored: map<string, Manifest>) {
    Lists(ms, stored) && IDs(ms) == stored.Keys
  }

  function ReadyPoints(stored: map<string, Manifest>): map<string, Manifest> {
    map id | id in stored && stored[id].status == Ready :: stored[id]
  }
}

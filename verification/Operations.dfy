/** Operation requests: their validation, and the form in which repeated requests are compared. */
module Operations {
  import opened Wrappers
  import opened Ids
  import opened Recovery

  datatype Operation = Backup | Restore | OtherOperation(text: string)
  datatype Phase = Bootstrap | InCluster | OtherPhase(text: string)

  const API_VERSION := "lifecycle.embeddedcluster.replicated.com/v1alpha1"
  const MAX_CONFIGURATION_SIZE := 0x100000

  /** The text of a checksum: 64 hexadecimal digits in some spelling, with the content they are the digest of
      if there is any, or some other text. */
  datatype HashText =
    | HashOf(digest: Digest, spelling: nat)
    | HashOfNothing(digits: string)
    | NotAHash(text: string)

  /** `strings.EqualFold` on checksum texts. */
  predicate EqualFold(a: HashText, b: HashText) {
    if a.HashOf? && b.HashOf? then a.digest == b.digest
    else if a.HashOfNothing? && b.HashOfNothing? then Lower(a.digits) == Lower(b.digits)
    else a.NotAHash? && b.NotAHash? && Lower(a.text) == Lower(b.text)
  }

  datatype Artifact = Artifact(name: string, size: int, sha256: HashText)

  datatype Policy = Policy(includedNamespaces: seq<string>, includedClusterResources: seq<string>, volumeBackup: string)

  datatype Request = Request(
    apiVersion: string,
    operationID: string,
    operation: Operation,
    phase: Phase,
    recoveryPointID: string,
    stateArchive: Option<Artifact>,
    backupPolicy: Option<Policy>,
    configuration: Bytes,
    headless: bool,
    deadline: Option<int>)

  /** `ArtifactDescriptor.Validate` */
  predicate ValidArtifact(a: Artifact) {
    a.name != "" && '/' !in a.name && '\\' !in a.name && a.size > 0 && !a.sha256.NotAHash?
  }

  /** `OperationRequest.Validate`; `isObject` says which texts are JSON objects. */
  predicate ValidRequest(r: Request, isObject: Bytes -> bool) {
    && r.apiVersion == API_VERSION
    && Normalize(r.operationID).Some?
    && !r.operation.OtherOperation?
    && !r.phase.OtherPhase?
    && (r.operation == Backup ==>
          && r.phase == InCluster && r.stateArchive.Some? && r.backupPolicy.Some?
          && r.backupPolicy.value.includedNamespaces != [] && r.backupPolicy.value.volumeBackup == "fileSystem")
    && (r.operation != Backup ==> r.backupPolicy == None)
    && (r.operation == Restore && r.phase == InCluster ==> r.recoveryPointID != "")
    && (r.stateArchive.Some? ==> ValidArtifact(r.stateArchive.value))
    && (r.configuration != [] ==>
          && r.operation == Restore && !(r.phase == Bootstrap && !r.headless)
          && |r.configuration| <= MAX_CONFIGURATION_SIZE
          && isObject(r.configuration))
  }

  /** The canonical form: the request without its deadline and with the digest of its configuration. */
  datatype Form = Form(request: Request, configuration: Option<Digest>)

  /** `canonicalRequest`; the JSON text that the source compares is represented by what it encodes. */
  function CanonicalRequest(r: Request): Form {
    Form(r.(deadline := None, configuration := []), if r.configuration == [] then None
      else Some(Sha256(r.configuration)))
  }

  predicate IsBootstrapRestore(r: Request) {
    r.operation == Restore && r.phase == Bootstrap
  }

  /** An in-cluster restore that brings its configuration. */
  predicate NeedsSettings(r: Request) {
    r.operation == Restore && r.phase == InCluster && r.configuration != []
  }

  /** The content that an artifact descriptor promises. */
  predicate Matches(content: Bytes, a: Artifact) {
    |content| == a.size && a.sha256.HashOf? && a.sha256.digest == Sha256(content)
  }

  /** Canonical forms forget the deadline and nothing else. */
  lemma CanonicalFormsAgree(a: Request, b: Request)
    ensures CanonicalRequest(a) == CanonicalRequest(b) <==> a.(deadline := None) == b.(deadline := None)
  {
    if CanonicalRequest(a) == CanonicalRequest(b) {
      assert a.configuration == b.configuration;
      assert a.(deadline := None) == CanonicalRequest(a).request.(configuration := a.configuration);
      assert b.(deadline := None) == CanonicalRequest(b).request.(configuration := b.configuration);
    }
  }

  /** A descriptor is met by one content at most. */
  lemma OneContent(x: Bytes, y: Bytes, a: Artifact)
    requires Matches(x, a) && Matches(y, a)
    ensures x == y
  {
  }
}

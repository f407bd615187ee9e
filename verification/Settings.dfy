/** The disaster recovery settings and their publication: an ordered write of several cluster resources whose
    last one makes the settings visible. */
module Settings {
  import opened Wrappers
  import opened Text
  import opened Ids
  import opened Keys

  datatype Storage = Storage(
    bucket: string,
    prefix: string,
    region: string,
    endpoint: string,
    accessKeyID: string,
    secretAccessKey: string,
    forcePathStyle: bool,
    customCAPEM: string,
    proxyURL: string)

  datatype Configuration = Configuration(storage: Storage, recoveryKey: string)

  datatype Settings = Settings(configuration: Configuration, schedule: string, retentionCount: int,
    schedulePaused: bool)

  datatype SetupRequest = SetupRequest(storage: Storage, schedule: string, retentionCount: int)

  /** URL and cron parsing. */
  datatype Checks = Checks(isEndpoint: string -> bool, isProxy: string -> bool, isSchedule: string -> bool)

  // ----- validation -----

  predicate Space(c: char) {
    c == ' ' || '\t' <= c <= '\r' || c == '\U{85}' || c == '\U{A0}' || c == '\U{1680}' || '\U{2000}' <= c <= '\U{200A}'
    || c == '\U{2028}' || c == '\U{2029}' || c == '\U{202F}' || c == '\U{205F}' || c == '\U{3000}'
  }

  function TrimSpace(s: string): string {
    if s == "" then ""
    else if Space(s[0]) then TrimSpace(s[1..])
    else if Space(s[|s| - 1]) then TrimSpace(s[..|s| - 1])
    else s
  }

  predicate BreaksLine(s: string) {
    '\r' in s || '\n' in s
  }

  /** `Configuration.Validate` */
  predicate ValidConfiguration(c: Configuration, checks: Checks) {
    var s := c.storage;
    && TrimSpace(s.bucket) != "" && !BreaksLine(s.bucket)
    && s.accessKeyID != "" && s.secretAccessKey != "" && !BreaksLine(s.accessKeyID + s.secretAccessKey)
    && |c.recoveryKey| >= 16 && !BreaksLine(c.recoveryKey)
    && (s.endpoint != "" ==> checks.isEndpoint(s.endpoint))
    && |s.customCAPEM| <= 0x40000
    && (s.proxyURL != "" ==> checks.isProxy(s.proxyURL))
  }

  /** `Settings.Validate` */
  predicate ValidSettings(s: Settings, checks: Checks) {
    && ValidConfiguration(s.configuration, checks)
    && (s.schedule != "" ==> checks.isSchedule(s.schedule))
    && 1 <= s.retentionCount <= 1000
  }

  // ----- the cluster -----

  datatype Ref = Secret(name: string) | StorageLocation(name: string)

  /** An ideal hash of the proxy URL. */
  datatype ProxyHash = HashOf(url: string)

  datatype Object =
    | Repository(password: string)
    | Proxy(httpProxy: string, httpsProxy: string)
    | Location(bucket: string, prefix: string, region: string, forcePathStyle: bool, s3Url: string, caCert: string)
    | Published(json: Option<Settings>, accessKeyID: string, secretAccessKey: string, recoveryKey: string,
                customCAPEM: string, proxyURL: string)

  /** The objects that a save writes, and the proxy annotation of the Velero deployment. */
  datatype Cluster = Cluster(objects: map<Ref, Object>, proxyHash: Option<ProxyHash>)

  const REPOSITORY := Secret("velero-repo-credentials")
  const PROXY := Secret("embedded-cluster-dr-proxy")
  const CONFIGURATION := Secret("embedded-cluster-dr")
  const LOCATION := StorageLocation("default")

  datatype Change = Put(ref: Ref, content: Object) | Annotate(hash: ProxyHash)

  function LocationOf(s: Storage): Object {
    Location(s.bucket, VeleroPrefix(s.prefix), s.region, s.forcePathStyle, s.endpoint, s.customCAPEM)
  }

  /** The location that Velero is to have: the saved bucket, and in it a directory of its own next to the recovery
      points. */
  predicate Locates(o: Object, s: Storage) {
    && o.Location? && o.bucket == s.bucket && o.prefix == Base(TrimSlash(s.prefix)) + "velero"
    && o.region == s.region && o.forcePathStyle == s.forcePathStyle && o.s3Url == s.endpoint
    && o.caCert == s.customCAPEM
  }

  lemma LocationForm(s: Storage)
    ensures forall o :: Locates(o, s) <==> o == LocationOf(s)
  {
    hide VeleroPrefix, Base, TrimSlash;
    VeleroPrefixForm(s.prefix);
  }

  function SecretOf(s: Settings): Object {
    var storage := s.configuration.storage;
    Published(Some(s), storage.accessKeyID, storage.secretAccessKey, s.configuration.recoveryKey,
      storage.customCAPEM, storage.proxyURL)
  }

  /** What `save` writes, in its order. */
  function Changes(s: Settings): (cs: seq<Change>)
    ensures |cs| == 5
  {
    var proxy := s.configuration.storage.proxyURL;
    [ Put(REPOSITORY, Repository(s.configuration.recoveryKey)),
      Put(PROXY, Proxy(proxy, proxy)),
      Put(LOCATION, LocationOf(s.configuration.storage)),
      Annotate(HashOf(proxy)),
      Put(CONFIGURATION, SecretOf(s)) ]
  }

  function After(c: Cluster, change: Change): Cluster {
    match change
    case Put(ref, content) => c.(objects := c.objects[ref := content])
    case Annotate(hash) => c.(proxyHash := Some(hash))
  }

  /** A save of `s` of which the first `k` writes take effect. */
  function Saved(c: Cluster, s: Settings, k: nat): Cluster
    requires k <= 5
  {
    var proxy := s.configuration.storage.proxyURL;
    var o1 := if k >= 1 then c.objects[REPOSITORY := Repository(s.configuration.recoveryKey)] else c.objects;
    var o2 := if k >= 2 then o1[PROXY := Proxy(proxy, proxy)] else o1;
    var o3 := if k >= 3 then o2[LOCATION := LocationOf(s.configuration.storage)] else o2;
    var o5 := if k >= 5 then o3[CONFIGURATION := SecretOf(s)] else o3;
    Cluster(o5, if k >= 4 then Some(HashOf(proxy)) else c.proxyHash)
  }

  /** The writes take effect in order, the configuration Secret last. */
  lemma SavedStep(c: Cluster, s: Settings, k: nat)
    requires k < 5
    ensures Saved(c, s, 0) == c && Saved(c, s, k + 1) == After(Saved(c, s, k), Changes(s)[k])
  {
    hide LocationOf, SecretOf;
  }

  /** `Load`: the settings, or nothing when there is no Secret; anything else is an error. */
  datatype Loaded = Current(settings: Settings) | Missing | Broken

  function Load(c: Cluster, checks: Checks): Loaded {
    if CONFIGURATION !in c.objects then Missing
    else
      var secret := c.objects[CONFIGURATION];
      if secret.Published? && secret.json.Some?
        && ValidSettings(secret.json.value, checks) then Current(secret.json.value) else Broken
  }

  // ----- what is saved -----

  function OrElse(given: string, stored: string): string {
    if given == "" then stored else given
  }

  /** `mergeStoredStorage`: secrets that the request leaves out stay as they are stored. */
  function Merged(request: Storage, current: Storage): Storage {
    request.(accessKeyID := OrElse(request.accessKeyID, current.accessKeyID),
             secretAccessKey := OrElse(request.secretAccessKey, current.secretAccessKey),
             customCAPEM := OrElse(request.customCAPEM, current.customCAPEM),
             proxyURL := OrElse(request.proxyURL, current.proxyURL))
  }

  /** The settings that `SaveSetup` saves: the stored recovery key is kept, a new one only made when there is
      none. */
  function SetupSettings(c: Cluster, checks: Checks, request: SetupRequest, newKey: string): Option<Settings> {
    var loaded := Load(c, checks);
    if !(1 <= request.retentionCount <= 1000) || loaded.Broken? then None
    else
      var storage := if loaded.Current? then Merged(request.storage, loaded.settings.configuration.storage)
        else request.storage;
      var key := if loaded.Current? then loaded.settings.configuration.recoveryKey else newKey;
      var settings := Settings(Configuration(storage, key), TrimSpace(request.schedule), request.retentionCount, false);
      if ValidSettings(settings, checks) then Some(settings) else None
  }

  /** The settings that `SaveRestore` saves. */
  function RestoreSettings(checks: Checks, configuration: Configuration): Option<Settings> {
    if ValidConfiguration(configuration, checks) then Some(Settings(configuration, "", 30, true)) else None
  }

  /** A call and how many of its writes take effect. */
  datatype Call =
    | Setup(request: SetupRequest, newKey: string, writes: nat)
    | RestoreCall(configuration: Configuration, writes: nat)

  function Wanted(c: Cluster, checks: Checks, call: Call): Option<Settings> {
    match call
    case Setup(request, newKey, _) => SetupSettings(c, checks, request, newKey)
    case RestoreCall(configuration, _) => RestoreSettings(checks, configuration)
  }

  function AfterCall(c: Cluster, checks: Checks, call: Call): Cluster
    requires call.writes <= 5
  {
    var settings := Wanted(c, checks, call);
    if settings == None then c else Saved(c, settings.value, call.writes)
  }

  /** A sequence of calls, each ending after any number of its writes. */
  predicate Calls(states: seq<Cluster>, checks: Checks, calls: seq<Call>) {
    && |states| == |calls| + 1
    && forall i {:trigger calls[i]} :: 0 <= i < |calls| ==>
         calls[i].writes <= 5 && states[i + 1] == AfterCall(states[i], checks, calls[i])
  }

  predicate SetupsOnly(calls: seq<Call>) {
    forall i :: 0 <= i < |calls| ==> calls[i].Setup?
  }

  // ----- agreement -----

  /** Everything that Velero needs has been accepted as `s` wants it. */
  predicate Agrees(c: Cluster, s: Settings) {
    var storage := s.configuration.storage;
    var repository, proxy := Secret("velero-repo-credentials"), Secret("embedded-cluster-dr-proxy");
    && repository in c.objects && c.objects[repository] == Repository(s.configuration.recoveryKey)
    && proxy in c.objects && c.objects[proxy] == Proxy(storage.proxyURL, storage.proxyURL)
    && StorageLocation("default") in c.objects && Locates(c.objects[StorageLocation("default")], storage)
    && c.proxyHash == Some(HashOf(storage.proxyURL))
  }

  /** The settings and the credentials that pods take from the Secret are those of `s`. */
  predicate Visible(c: Cluster, s: Settings) {
    var storage, secret := s.configuration.storage, Secret("embedded-cluster-dr");
    && secret in c.objects && c.objects[secret].Published? && c.objects[secret].json == Some(s)
    && c.objects[secret].accessKeyID == storage.accessKeyID
    && c.objects[secret].secretAccessKey == storage.secretAccessKey
    && c.objects[secret].recoveryKey == s.configuration.recoveryKey
    && c.objects[secret].customCAPEM == storage.customCAPEM && c.objects[secret].proxyURL == storage.proxyURL
  }

  predicate KeyAgrees(c: Cluster, s: Settings) {
    var repository := Secret("velero-repo-credentials");
    repository in c.objects && c.objects[repository] == Repository(s.configuration.recoveryKey)
  }

  // ----- one save -----

  /** The four names are different. */
  lemma Names()
    ensures REPOSITORY != PROXY && REPOSITORY != CONFIGURATION && PROXY != CONFIGURATION
    ensures LOCATION != REPOSITORY && LOCATION != PROXY && LOCATION != CONFIGURATION
  {
    assert |REPOSITORY.name| == 23 && |PROXY.name| == 25 && |CONFIGURATION.name| == 19;
  }

  /** A save that completes brings everything into agreement, whatever was there before. */
  lemma CompletedSaveAgrees(c: Cluster, s: Settings, checks: Checks)
    ensures var t := Saved(c, s, 5);
            Agrees(t, s) && Visible(t, s) && (ValidSettings(s, checks) ==> Load(t, checks) == Current(s))
  {
    hide LocationOf, Locates, ValidSettings;
    Names();
    LocationForm(s.configuration.storage);
  }

  /** Where Velero works as `s` wants, it works below a directory that holds no recovery point of the store with
      these settings. */
  lemma VeleroWorksElsewhere(c: Cluster, s: Settings, id: string)
    requires Agrees(c, s) && Canonical(id)
    ensures var prefix, location := TrimSlash(s.configuration.storage.prefix), c.objects[StorageLocation("default")];
            && location.Location? && location.bucket == s.configuration.storage.bucket
            && !HasPrefix(ManifestKey(prefix, id), location.prefix + "/")
            && !HasPrefix(StateKey(prefix, id), location.prefix + "/")
  {
    hide Canonical, Base, TrimSlash, ManifestKey, StateKey;
    VeleroPrefixDisjoint(s.configuration.storage.prefix, id);
  }
}

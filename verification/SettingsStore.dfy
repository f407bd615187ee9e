/** The settings store: every call of it is one of the calls whose sequences the safety results are about. */
module SettingsStore {
  import opened Wrappers
  import opened Keys
  import opened Settings
  import opened SettingsSafety

  datatype Got = Found(content: Object) | NotFound | Unreachable

  class Kubernetes {
    var objects: map<Ref, Object>
    var proxyHash: Option<ProxyHash>
    var ready: bool

    constructor (objects: map<Ref, Object>, proxyHash: Option<ProxyHash>)
      ensures View() == Cluster(objects, proxyHash)
    {
      this.objects := objects;
      this.proxyHash := proxyHash;
      ready := false;
    }

    ghost function View(): Cluster
      reads this
    {
      Cluster(objects, proxyHash)
    }

    method Get(ref: Ref) returns (got: Got)
      ensures got.Found? ==> ref in objects && objects[ref] == got.content
      ensures got.NotFound? ==> ref !in objects
    {
      var reached: bool := *;
      got := if !reached then Unreachable else if ref in objects then Found(objects[ref]) else NotFound;
    }

    /** A PUT or POST; it may take effect and yet report an error. */
    method Write(ref: Ref, content: Object) returns (ok: bool, ghost effect: bool)
      modifies this`objects
      ensures ok ==> effect
      ensures objects == if effect then old(objects)[ref := content] else old(objects)
    {
      var stored: bool := *;
      if stored {
        objects := objects[ref := content];
      }
      effect := stored;
      var reported: bool := *;
      ok := stored && reported;
    }

    /** Changing the annotation restarts Velero. */
    method AnnotateDeployment(hash: ProxyHash) returns (ok: bool, ghost effect: bool)
      modifies this`proxyHash, this`ready
      ensures ok ==> effect
      ensures proxyHash == if effect then Some(hash) else old(proxyHash)
    {
      var stored: bool := *;
      if stored {
        proxyHash := Some(hash);
        ready := *;
      }
      effect := stored;
      var reported: bool := *;
      ok := stored && reported;
    }

    /** Reads the deployment again, some time later. */
    method PollDeployment() returns (reached: bool)
      modifies this`ready
    {
      ready := *;
      reached := *;
    }
  }

  class Store {
    const cluster: Kubernetes
    const checks: Checks

    constructor (cluster: Kubernetes, checks: Checks)
      ensures this.cluster == cluster && this.checks == checks
    {
      this.cluster := cluster;
      this.checks := checks;
    }

    method Upsert(ref: Ref, content: Object) returns (ok: bool, ghost effect: bool)
      modifies cluster`objects
      ensures ok ==> effect
      ensures cluster.View() == if effect then After(old(cluster.View()), Put(ref, content)) else old(cluster.View())
    {
      var got := cluster.Get(ref);
      if got.Unreachable? {
        return false, false;
      }
      ok, effect := cluster.Write(ref, content);
    }

    /** Changes the annotation if it differs, then waits for the rollout; `patience` is the number of polls
        that the context allows. */
    method RolloutVelero(proxyURL: string, patience: nat) returns (ok: bool, ghost effect: bool)
      modifies cluster`proxyHash, cluster`ready
      ensures ok ==> effect && cluster.ready
      ensures cluster.View() == if effect then After(old(cluster.View()), Annotate(HashOf(proxyURL)))
          else old(cluster.View())
    {
      var reached := cluster.PollDeployment();
      effect := cluster.proxyHash == Some(HashOf(proxyURL));
      if !reached {
        return false, effect;
      }
      if cluster.proxyHash != Some(HashOf(proxyURL)) {
        ok, effect := cluster.AnnotateDeployment(HashOf(proxyURL));
        if !ok {
          return;
        }
      }
      var polls := 0;
      while !cluster.ready && polls < patience
        invariant effect && cluster.proxyHash == Some(HashOf(proxyURL)) && cluster.objects == old(cluster.objects)
      {
        reached := cluster.PollDeployment();
        if !reached {
          return false, effect;
        }
        polls := polls + 1;
      }
      ok := cluster.ready;
    }

    /** `save`: `writes` of the five writes took effect, in order; it stops at the first that reports an error. */
    method Save(s: Settings, patience: nat) returns (ok: bool, ghost writes: nat)
      modifies cluster
      ensures writes <= 5 && (ok ==> writes == 5) && (writes == 5 ==> cluster.ready)
      ensures cluster.View() == Saved(old(cluster.View()), s, writes)
    {
      hide LocationOf, SecretOf, Saved;
      var storage := s.configuration.storage;
      ghost var start := cluster.View();
      ghost var effect;
      SavedStep(start, s, 0);
      SavedStep(start, s, 1);
      SavedStep(start, s, 2);
      ok, effect := Upsert(REPOSITORY, Repository(s.configuration.recoveryKey));
      if !ok {
        return false, if effect then 1 else 0;
      }
      ok, effect := Upsert(PROXY, Proxy(storage.proxyURL, storage.proxyURL));
      if !ok {
        return false, if effect then 2 else 1;
      }
      ok, effect := Upsert(LOCATION, LocationOf(storage));
      if !ok {
        return false, if effect then 3 else 2;
      }
      ok, writes := RolloutAndPublish(s, patience, start);
    }

    method RolloutAndPublish(s: Settings, patience: nat, ghost start: Cluster) returns (ok: bool, ghost writes: nat)
      requires cluster.View() == Saved(start, s, 3)
      modifies cluster
      ensures 3 <= writes <= 5 && (ok ==> writes == 5) && (writes == 5 ==> cluster.ready)
      ensures cluster.View() == Saved(start, s, writes)
    {
      hide LocationOf, SecretOf, Saved;
      ghost var effect;
      SavedStep(start, s, 3);
      SavedStep(start, s, 4);
      ok, effect := RolloutVelero(s.configuration.storage.proxyURL, patience);
      if !ok {
        return false, if effect then 4 else 3;
      }
      ok, effect := Upsert(CONFIGURATION, SecretOf(s));
      writes := if effect then 5 else 4;
    }

    method ReadSettings() returns (loaded: Loaded)
      ensures loaded == Load(cluster.View(), checks) || loaded == Broken
    {
      var got := cluster.Get(CONFIGURATION);
      match got
      case Unreachable => loaded := Broken;
      case NotFound => loaded := Missing;
      case Found(content) =>
        if content.Published? && content.json.Some? && ValidSettings(content.json.value, checks) {
          loaded := Current(content.json.value);
        } else {
          loaded := Broken;
        }
    }

    static method MergeStoredStorage(request: Storage, current: Storage) returns (merged: Storage)
      ensures merged == Merged(request, current) && SecretsKept(current, merged)
    {
      merged := request;
      if merged.accessKeyID == "" {
        merged := merged.(accessKeyID := current.accessKeyID);
      }
      if merged.secretAccessKey == "" {
        merged := merged.(secretAccessKey := current.secretAccessKey);
      }
      if merged.customCAPEM == "" {
        merged := merged.(customCAPEM := current.customCAPEM);
      }
      if merged.proxyURL == "" {
        merged := merged.(proxyURL := current.proxyURL);
      }
    }

    /** `SaveSetup`; `newKey` is the key that would be generated. */
    method SaveSetup(request: SetupRequest, newKey: string, patience: nat)
      returns (saved: Option<Settings>, generated: bool, ghost writes: nat)
      requires newKey != ""
      modifies cluster
      ensures writes <= 5
      ensures cluster.View() == AfterCall(old(cluster.View()), checks, Setup(request, newKey, writes))
      ensures saved.Some? ==>
                && writes == 5 && saved == SetupSettings(old(cluster.View()), checks, request, newKey)
                && (generated <==> CONFIGURATION !in old(cluster.objects))
    {
      hide ValidSettings, Saved, SecretOf, LocationOf, TrimSpace;
      saved, generated, writes := None, false, 0;
      if request.retentionCount < 1 || request.retentionCount > 1000 {
        return;
      }
      var recoveryKey := "";
      var storage := request.storage;
      var loaded := ReadSettings();
      if loaded.Broken? {
        SavedNothing(request, newKey);
        return;
      }
      if loaded.Current? {
        recoveryKey := loaded.settings.configuration.recoveryKey;
        LoadedHasKey();
        storage := MergeStoredStorage(storage, loaded.settings.configuration.storage);
      }
      if recoveryKey == "" {
        recoveryKey := newKey;
        generated := true;
      }
      var settings := Settings(Configuration(storage, recoveryKey), TrimSpace(request.schedule),
        request.retentionCount, false);
      if !ValidSettings(settings, checks) {
        return None, false, 0;
      }
      var ok;
      ok, writes := Save(settings, patience);
      saved := if ok then Some(settings) else None;
    }

    lemma SavedNothing(request: SetupRequest, newKey: string)
      ensures AfterCall(cluster.View(), checks, Setup(request, newKey, 0)) == cluster.View()
    {
      hide SetupSettings;
    }

    lemma LoadedHasKey()
      ensures var loaded := Load(cluster.View(), checks);
              loaded.Current? ==> loaded.settings.configuration.recoveryKey != "" && CONFIGURATION in cluster.objects
    {
    }

    /** `SaveRestore` */
    method SaveRestore(configuration: Configuration, patience: nat) returns (saved: Option<Settings>, ghost writes: nat)
      modifies cluster
      ensures writes <= 5
      ensures cluster.View() == AfterCall(old(cluster.View()), checks, RestoreCall(configuration, writes))
      ensures saved.Some? ==> writes == 5 && saved == RestoreSettings(checks, configuration)
    {
      hide Saved, ValidConfiguration;
      saved, writes := None, 0;
      if !ValidConfiguration(configuration, checks) {
        return;
      }
      var settings := Settings(configuration, "", 30, true);
      var ok;
      ok, writes := Save(settings, patience);
      saved := if ok then Some(settings) else None;
    }

    /** `BackupSettings`: nothing on an error, a retention count of zero when there is no Secret. */
    method ReadBackupSettings() returns (settings: Option<(string, int, bool)>)
      ensures settings.Some? ==> settings == BackupSettings(cluster.View(), checks)
    {
      var loaded := ReadSettings();
      match loaded
      case Current(s) => settings := Some((s.schedule, s.retentionCount, s.schedulePaused));
      case Missing => settings := Some(("", 0, false));
      case Broken => settings := None;
    }
  }
}

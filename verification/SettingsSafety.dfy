/** What is visible, and what agrees with it, over any sequence of saves that may stop after any write. */
module SettingsSafety {
  import opened Wrappers
  import opened Text
  import opened Keys
  import opened Settings

  /** Whatever stands in the configuration Secret was put there by a save. */
  predicate Orderly(c: Cluster, checks: Checks) {
    CONFIGURATION in c.objects ==> Load(c, checks).Current? && Visible(c, Load(c, checks).settings)
  }

  /** The recovery key of the visible settings is the repository password. */
  predicate KeyHolds(c: Cluster, checks: Checks) {
    Orderly(c, checks) && (CONFIGURATION in c.objects ==> KeyAgrees(c, Load(c, checks).settings))
  }

  lemma WantedIsValid(c: Cluster, checks: Checks, call: Call)
    requires Wanted(c, checks, call).Some?
    ensures ValidSettings(Wanted(c, checks, call).value, checks)
    ensures Wanted(c, checks, call).value.schedulePaused == call.RestoreCall?
  {
    hide ValidConfiguration, Merged, TrimSpace;
  }

  /** What a save leaves visible: the settings before it until its last write. */
  lemma VisibleAfter(c: Cluster, checks: Checks, s: Settings, k: nat)
    requires k <= 5 && ValidSettings(s, checks)
    ensures k < 5 ==> Load(Saved(c, s, k), checks) == Load(c, checks)
    ensures k < 5 ==> forall v :: Visible(Saved(c, s, k), v) <==> Visible(c, v)
    ensures k < 5 ==> (CONFIGURATION in Saved(c, s, k).objects <==> CONFIGURATION in c.objects)
    ensures k == 5 ==> Load(Saved(c, s, k), checks) == Current(s) && Visible(Saved(c, s, k), s)
    ensures k == 5 ==> CONFIGURATION in Saved(c, s, k).objects
  {
    hide ValidSettings, LocationOf;
    Names();
  }

  lemma KeyAfter(c: Cluster, s: Settings, k: nat, v: Settings)
    requires k <= 5
    ensures KeyAgrees(Saved(c, s, k), v) <==>
            if k == 0 then KeyAgrees(c, v) else v.configuration.recoveryKey == s.configuration.recoveryKey
  {
    hide LocationOf, SecretOf;
    Names();
  }

  lemma OrderlyStep(c: Cluster, checks: Checks, call: Call)
    requires Orderly(c, checks) && call.writes <= 5
    ensures Orderly(AfterCall(c, checks, call), checks)
  {
    hide Saved, SetupSettings, RestoreSettings, Load, ValidSettings, SecretOf;
    var wanted := Wanted(c, checks, call);
    if wanted.Some? {
      WantedIsValid(c, checks, call);
      VisibleAfter(c, checks, wanted.value, call.writes);
    }
  }

  lemma CallAt(states: seq<Cluster>, checks: Checks, calls: seq<Call>, i: nat)
    requires Calls(states, checks, calls) && i < |calls|
    ensures |states| == |calls| + 1 && calls[i].writes <= 5 && states[i + 1] == AfterCall(states[i], checks, calls[i])
  {
  }

  /** The call at `i` published `s`, after Velero's dependencies had all been accepted, and nothing was
      published since. */
  ghost predicate PublishedAt(states: seq<Cluster>, checks: Checks, calls: seq<Call>, s: Settings, i: nat, j: nat)
    requires Calls(states, checks, calls) && j < |states|
  {
    && i < j && calls[i].writes == 5 && Wanted(states[i], checks, calls[i]) == Some(s)
    && Agrees(Saved(states[i], s, 4), s)
    && s.schedulePaused == calls[i].RestoreCall?
    && forall m :: i < m <= j ==> Load(states[m], checks) == Current(s)
  }

  lemma {:induction false} PublisherOf(states: seq<Cluster>, checks: Checks, calls: seq<Call>, j: nat)
    returns (s: Settings, i: nat)
    requires Calls(states, checks, calls) && j < |states|
    requires CONFIGURATION !in states[0].objects && CONFIGURATION in states[j].objects
    ensures Visible(states[j], s) && ValidSettings(s, checks) && PublishedAt(states, checks, calls, s, i, j)
  {
    hide Agrees, Load, ValidSettings, SecretOf, Wanted, AfterCall, PublishedAt, Visible;
    CallAt(states, checks, calls, j - 1);
    var wanted := Wanted(states[j - 1], checks, calls[j - 1]);
    if calls[j - 1].writes == 5 && wanted.Some? {
      PublishedNow(states, checks, calls, j - 1);
      s, i := wanted.value, j - 1;
    } else {
      StillVisible(states[j - 1], checks, calls[j - 1]);
      s, i := PublisherOf(states, checks, calls, j - 1);
      StillPublished(states, checks, calls, s, i, j - 1);
    }
  }

  /** Saves of any kind, each stopping anywhere: what is visible is always nothing at all or one complete
      value, valid, exactly what some save wanted, and everything Velero needs had been accepted for it when it
      became visible. A restored value is paused, a set-up one is not. */
  lemma VisibleWasAccepted(states: seq<Cluster>, checks: Checks, calls: seq<Call>, j: nat)
    requires Calls(states, checks, calls) && j < |states| && CONFIGURATION !in states[0].objects
    ensures CONFIGURATION !in states[j].objects ||
            (exists s, i :: Visible(states[j], s) && ValidSettings(s, checks)
              && PublishedAt(states, checks, calls, s, i, j))
  {
    hide Calls, ValidSettings, Visible, PublishedAt;
    if CONFIGURATION in states[j].objects {
      var s, i := PublisherOf(states, checks, calls, j);
    }
  }

  lemma PublishedNow(states: seq<Cluster>, checks: Checks, calls: seq<Call>, i: nat)
    requires Calls(states, checks, calls) && i < |calls| && calls[i].writes == 5
        && Wanted(states[i], checks, calls[i]).Some?
    ensures var s := Wanted(states[i], checks, calls[i]).value;
            Visible(states[i + 1], s) && ValidSettings(s, checks) && PublishedAt(states, checks, calls, s, i, i + 1)
  {
    hide Saved, Agrees, Load, ValidSettings, SecretOf, Wanted;
    CallAt(states, checks, calls, i);
    WantedIsValid(states[i], checks, calls[i]);
    VisibleAfter(states[i], checks, Wanted(states[i], checks, calls[i]).value, 5);
    AcceptedFirst(states[i], Wanted(states[i], checks, calls[i]).value);
  }

  lemma StillVisible(c: Cluster, checks: Checks, call: Call)
    requires call.writes <= 5 && (call.writes == 5 ==> Wanted(c, checks, call) == None)
    ensures var t := AfterCall(c, checks, call);
            && Load(t, checks) == Load(c, checks) && (CONFIGURATION in t.objects <==> CONFIGURATION in c.objects)
            && forall s :: Visible(t, s) <==> Visible(c, s)
  {
    hide Saved, Load, ValidSettings, SecretOf, Wanted, Visible;
    var wanted := Wanted(c, checks, call);
    if wanted.Some? {
      WantedIsValid(c, checks, call);
      VisibleAfter(c, checks, wanted.value, call.writes);
    }
  }

  lemma StillPublished(states: seq<Cluster>, checks: Checks, calls: seq<Call>, s: Settings, i: nat, j: nat)
    requires Calls(states, checks, calls) && j + 1 < |states| && PublishedAt(states, checks, calls, s, i, j)
    requires Load(states[j + 1], checks) == Load(states[j], checks)
    ensures PublishedAt(states, checks, calls, s, i, j + 1)
  {
    hide Saved, Agrees, Load, Wanted, Calls;
  }

  lemma AcceptedFirst(c: Cluster, s: Settings)
    ensures Agrees(Saved(c, s, 4), s)
  {
    hide LocationOf, Locates, SecretOf;
    Names();
    LocationForm(s.configuration.storage);
  }

  // ----- the recovery key -----

  lemma SetupKeepsKey(c: Cluster, checks: Checks, call: Call)
    requires call.Setup? && Load(c, checks).Current? && Wanted(c, checks, call).Some?
    ensures Wanted(c, checks, call).value.configuration.recoveryKey
        == Load(c, checks).settings.configuration.recoveryKey
  {
    hide ValidSettings, Load, Merged, TrimSpace;
  }

  lemma KeyStep(c: Cluster, checks: Checks, call: Call)
    requires KeyHolds(c, checks) && call.Setup? && call.writes <= 5
    ensures KeyHolds(AfterCall(c, checks, call), checks)
    ensures CONFIGURATION in c.objects ==>
              CONFIGURATION in AfterCall(c, checks, call).objects &&
              Load(AfterCall(c, checks, call), checks).settings.configuration.recoveryKey
                == Load(c, checks).settings.configuration.recoveryKey
  {
    hide Saved, SetupSettings, Load, ValidSettings, SecretOf, KeyAgrees, Visible;
    OrderlyStep(c, checks, call);
    var wanted := Wanted(c, checks, call);
    if wanted.Some? {
      var s := wanted.value;
      WantedIsValid(c, checks, call);
      VisibleAfter(c, checks, s, call.writes);
      if CONFIGURATION in c.objects {
        SetupKeepsKey(c, checks, call);
        KeyAfter(c, s, call.writes, Load(c, checks).settings);
      }
      KeyAfter(c, s, call.writes, s);
    }
  }

  /** Set-up calls alone, each stopping anywhere, never change the recovery key once it is visible, and it
      always is the repository password. */
  lemma {:induction false} KeyNeverChanges(states: seq<Cluster>, checks: Checks, calls: seq<Call>, i: nat, j: nat)
    requires Calls(states, checks, calls) && SetupsOnly(calls) && i <= j < |states| && KeyHolds(states[0], checks)
    ensures KeyHolds(states[i], checks) && KeyHolds(states[j], checks)
    ensures CONFIGURATION in states[i].objects ==>
              CONFIGURATION in states[j].objects &&
              Load(states[j], checks).settings.configuration.recoveryKey
                == Load(states[i], checks).settings.configuration.recoveryKey
  {
    if j > 0 {
      hide KeyHolds, AfterCall, Load;
      CallAt(states, checks, calls, j - 1);
      KeyNeverChanges(states, checks, calls, if i < j then i else j - 1, j - 1);
      KeyStep(states[j - 1], checks, calls[j - 1]);
    }
  }

  /** A restore keeps the agreement of key and password exactly when it does nothing, completes, or brings
      the visible key again. */
  lemma RestoreKeepsKeyExactly(c: Cluster, checks: Checks, call: Call)
    requires KeyHolds(c, checks) && CONFIGURATION in c.objects && call.RestoreCall? && call.writes <= 5
    ensures KeyHolds(AfterCall(c, checks, call), checks) <==>
            (|| !ValidConfiguration(call.configuration, checks) || call.writes == 0 || call.writes == 5
             || call.configuration.recoveryKey == Load(c, checks).settings.configuration.recoveryKey)
  {
    hide Saved, Load, ValidConfiguration, ValidSettings, SecretOf, KeyAgrees, Visible;
    OrderlyStep(c, checks, call);
    var wanted := Wanted(c, checks, call);
    if wanted.Some? {
      WantedIsValid(c, checks, call);
      VisibleAfter(c, checks, wanted.value, call.writes);
      KeyAfter(c, wanted.value, call.writes, Load(c, checks).settings);
      KeyAfter(c, wanted.value, call.writes, wanted.value);
    }
  }

  /** Wherever a restore call with this configuration stops, key and password agree. */
  ghost predicate AlwaysKeepsKey(c: Cluster, checks: Checks, configuration: Configuration) {
    forall writes: nat | writes <= 5 :: KeyHolds(AfterCall(c, checks, RestoreCall(configuration, writes)), checks)
  }

  /** A restore call is harmless to the key, wherever it stops, exactly when it is refused or brings the visible
      key again. */
  lemma RestoreIsHarmlessExactly(c: Cluster, checks: Checks, configuration: Configuration)
    requires KeyHolds(c, checks) && CONFIGURATION in c.objects
    ensures AlwaysKeepsKey(c, checks, configuration) <==>
            (|| !ValidConfiguration(configuration, checks)
             || configuration.recoveryKey == Load(c, checks).settings.configuration.recoveryKey)
  {
    hide AfterCall, ValidConfiguration, Load, Visible, KeyAgrees;
    forall writes: nat | writes <= 5
      ensures KeyHolds(AfterCall(c, checks, RestoreCall(configuration, writes)), checks) <==>
              (|| !ValidConfiguration(configuration, checks) || writes == 0 || writes == 5
               || configuration.recoveryKey == Load(c, checks).settings.configuration.recoveryKey)
    {
      RestoreKeepsKeyExactly(c, checks, RestoreCall(configuration, writes));
    }
    assert KeyHolds(AfterCall(c, checks, RestoreCall(configuration, 1)), checks) ==>
        !ValidConfiguration(configuration, checks)
        || configuration.recoveryKey == Load(c, checks).settings.configuration.recoveryKey;
  }

  /** After an incomplete restore the next set-up that writes anything repairs the password. */
  lemma SetupRepairsKey(c: Cluster, checks: Checks, call: Call)
    requires Orderly(c, checks) && CONFIGURATION in c.objects && call.Setup? && 1 <= call.writes <= 5
    requires Wanted(c, checks, call).Some?
    ensures KeyHolds(AfterCall(c, checks, call), checks)
  {
    hide Saved, SetupSettings, Load, ValidSettings, SecretOf, KeyAgrees, Visible;
    OrderlyStep(c, checks, call);
    var s := Wanted(c, checks, call).value;
    WantedIsValid(c, checks, call);
    VisibleAfter(c, checks, s, call.writes);
    SetupKeepsKey(c, checks, call);
    KeyAfter(c, s, call.writes, Load(c, checks).settings);
    KeyAfter(c, s, call.writes, s);
  }

  // ----- the other agreements -----

  /** The same bucket, accessed in the same way, and the same directory in it. */
  predicate SameLocation(a: Storage, b: Storage) {
    && a.bucket == b.bucket && Base(TrimSlash(a.prefix)) == Base(TrimSlash(b.prefix))
    && a.region == b.region && a.forcePathStyle == b.forcePathStyle && a.endpoint == b.endpoint
    && a.customCAPEM == b.customCAPEM
  }

  lemma SamePlaces(a: Storage, b: Storage)
    ensures Locates(LocationOf(a), b) <==> SameLocation(a, b)
    ensures Locates(LocationOf(b), b)
  {
    hide VeleroPrefix, Base, TrimSlash;
    VeleroPrefixForm(a.prefix);
    VeleroPrefixForm(b.prefix);
    var x, y := Base(TrimSlash(a.prefix)), Base(TrimSlash(b.prefix));
    assert (x + "velero")[..|x + "velero"| - 6] == x && (y + "velero")[..|y + "velero"| - 6] == y;
  }

  /** After a save that stops, the visible settings still agree with what Velero has exactly when every write
      that took effect wanted what was there. */
  lemma StoppedSaveAgreesExactly(c: Cluster, checks: Checks, v: Settings, s: Settings, k: nat)
    requires Visible(c, v) && Agrees(c, v) && k < 5
    ensures Visible(Saved(c, s, k), v)
    ensures var a, b := s.configuration, v.configuration;
            Agrees(Saved(c, s, k), v) <==>
            && (k >= 1 ==> a.recoveryKey == b.recoveryKey)
            && (k >= 2 ==> a.storage.proxyURL == b.storage.proxyURL)
            && (k >= 3 ==> SameLocation(a.storage, b.storage))
  {
    hide LocationOf, Locates, SameLocation;
    Names();
    SamePlaces(s.configuration.storage, v.configuration.storage);
  }

  /** A save is harmless to the visible settings, wherever it stops short of its last write, exactly when it
      brings their key, proxy and backup location again. */
  lemma SaveIsHarmlessExactly(c: Cluster, checks: Checks, v: Settings, s: Settings)
    requires Visible(c, v) && Agrees(c, v)
    ensures (forall k: nat | k < 5 :: Agrees(Saved(c, s, k), v)) <==>
            && s.configuration.recoveryKey == v.configuration.recoveryKey
            && s.configuration.storage.proxyURL == v.configuration.storage.proxyURL
            && SameLocation(s.configuration.storage, v.configuration.storage)
  {
    hide Saved, Agrees, Visible, SameLocation;
    forall k: nat | k < 5
      ensures var a, b := s.configuration, v.configuration;
              Agrees(Saved(c, s, k), v) <==>
              && (k >= 1 ==> a.recoveryKey == b.recoveryKey)
              && (k >= 2 ==> a.storage.proxyURL == b.storage.proxyURL)
              && (k >= 3 ==> SameLocation(a.storage, b.storage))
    {
      StoppedSaveAgreesExactly(c, checks, v, s, k);
    }
    assert Agrees(Saved(c, s, 4), v) <==>
      && s.configuration.recoveryKey == v.configuration.recoveryKey
      && s.configuration.storage.proxyURL == v.configuration.storage.proxyURL
      && SameLocation(s.configuration.storage, v.configuration.storage);
  }

  /** Any save that completes, a restore too, restores all agreements, whatever was there before. */
  lemma CompletedCallAgrees(c: Cluster, checks: Checks, call: Call)
    requires call.writes == 5 && Wanted(c, checks, call).Some?
    ensures var t, s := AfterCall(c, checks, call), Wanted(c, checks, call).value;
            Agrees(t, s) && Visible(t, s) && Load(t, checks) == Current(s) && KeyHolds(t, checks)
  {
    hide Saved, SetupSettings, RestoreSettings, LocationOf, ValidSettings, SecretOf;
    WantedIsValid(c, checks, call);
    CompletedSaveAgrees(c, Wanted(c, checks, call).value, checks);
  }

  // ----- what set-up calls keep -----

  predicate Kept(a: string, b: string) {
    a != "" ==> b != ""
  }

  /** Secrets that are left out of a request are kept: a stored custom CA or proxy is never cleared. */
  predicate SecretsKept(a: Storage, b: Storage) {
    Kept(a.accessKeyID, b.accessKeyID) && Kept(a.secretAccessKey, b.secretAccessKey)
    && Kept(a.customCAPEM, b.customCAPEM) && Kept(a.proxyURL, b.proxyURL)
  }

  lemma SecretsStep(c: Cluster, checks: Checks, call: Call)
    requires KeyHolds(c, checks) && CONFIGURATION in c.objects && call.Setup? && call.writes <= 5
    ensures var before, after := Load(c, checks).settings, Load(AfterCall(c, checks, call), checks).settings;
            SecretsKept(before.configuration.storage, after.configuration.storage)
  {
    hide Saved, Load, ValidSettings, SecretOf, KeyAgrees, Visible, TrimSpace;
    var wanted := Wanted(c, checks, call);
    if wanted.Some? {
      WantedIsValid(c, checks, call);
      VisibleAfter(c, checks, wanted.value, call.writes);
    }
    KeyStep(c, checks, call);
  }

  lemma {:induction false} SecretsAreNeverCleared(states: seq<Cluster>, checks: Checks, calls: seq<Call>, i: nat,
      j: nat)
    requires Calls(states, checks, calls) && SetupsOnly(calls) && i <= j < |states| && KeyHolds(states[0], checks)
    requires CONFIGURATION in states[i].objects
    ensures CONFIGURATION in states[j].objects && Load(states[i], checks).Current? && Load(states[j], checks).Current?
    ensures var before, after := Load(states[i], checks).settings, Load(states[j], checks).settings;
            SecretsKept(before.configuration.storage, after.configuration.storage)
    decreases j - i
  {
    KeyNeverChanges(states, checks, calls, i, j);
    if i < j {
      hide AfterCall, Load;
      CallAt(states, checks, calls, j - 1);
      KeyNeverChanges(states, checks, calls, i, j - 1);
      SecretsAreNeverCleared(states, checks, calls, i, j - 1);
      SecretsStep(states[j - 1], checks, calls[j - 1]);
    }
  }

  // ----- backup settings -----

  /** `BackupSettings`: schedule, retention count, paused. */
  function BackupSettings(c: Cluster, checks: Checks): Option<(string, int, bool)> {
    match Load(c, checks)
    case Current(s) => Some((s.schedule, s.retentionCount, s.schedulePaused))
    case Missing => Some(("", 0, false))
    case Broken => None
  }

  /** The retention count is usable exactly when the settings Secret exists. */
  lemma RetentionCountFromSecret(c: Cluster, checks: Checks)
    requires BackupSettings(c, checks).Some?
    ensures BackupSettings(c, checks).value.1 >= 1 <==> CONFIGURATION in c.objects
    ensures BackupSettings(c, checks).value.1 == 0 <==> CONFIGURATION !in c.objects
    ensures BackupSettings(c, checks).value.1 <= 1000
    ensures CONFIGURATION !in c.objects ==> BackupSettings(c, checks) == Some(("", 0, false))
  {
    hide ValidConfiguration;
  }
}

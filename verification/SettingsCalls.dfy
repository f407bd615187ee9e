/** What each call to the settings store makes visible, and exactly which calls are refused. */
module SettingsCalls {
  import opened Wrappers
  import opened Settings
  import opened SettingsSafety

  // ----- what is visible after a completed call -----

  predicate Spaces(s: string) {
    forall i :: 0 <= i < |s| ==> Space(s[i])
  }

  predicate Parts(s: string, a: string, t: string, b: string) {
    s == a + t + b && Spaces(a) && Spaces(b)
  }

  /** `t` is `s` without the spaces around it. */
  ghost predicate Trims(s: string, t: string) {
    (exists a, b :: Parts(s, a, t, b)) && (t != "" ==> !Space(t[0]) && !Space(t[|t| - 1]))
  }

  lemma SpaceInFront(c: char, s: string, t: string)
    requires Space(c) && Trims(s, t)
    ensures Trims([c] + s, t)
  {
    hide Space;
    var a, b :| Parts(s, a, t, b);
    assert [c] + s == ([c] + a) + t + b;
    assert Parts([c] + s, [c] + a, t, b);
  }

  lemma SpaceBehind(s: string, c: char, t: string)
    requires Space(c) && Trims(s, t)
    ensures Trims(s + [c], t)
  {
    hide Space;
    var a, b :| Parts(s, a, t, b);
    assert s + [c] == a + t + (b + [c]);
    assert Parts(s + [c], a, t, b + [c]);
  }

  lemma NothingToTrim(s: string)
    requires s == "" || (!Space(s[0]) && !Space(s[|s| - 1]))
    ensures Trims(s, s)
  {
    hide Space;
    assert s == "" + s + "";
    assert Parts(s, "", s, "");
  }

  lemma {:induction false} TrimSpaceTrims(s: string)
    ensures Trims(s, TrimSpace(s))
    decreases |s|
  {
    hide Space, Trims;
    if s == "" || (!Space(s[0]) && !Space(s[|s| - 1])) {
      NothingToTrim(s);
    } else if Space(s[0]) {
      TrimSpaceTrims(s[1..]);
      SpaceInFront(s[0], s[1..], TrimSpace(s));
      assert s == [s[0]] + s[1..];
    } else {
      var n := |s| - 1;
      TrimSpaceTrims(s[..n]);
      SpaceBehind(s[..n], s[n], TrimSpace(s));
      assert s == s[..n] + [s[n]];
    }
  }

  /** Something is left exactly if not everything is a space. */
  lemma TrimsToNothing(s: string, t: string)
    requires Trims(s, t)
    ensures t == "" <==> Spaces(s)
  {
    hide Space;
    var a, b :| Parts(s, a, t, b);
    if t != "" {
      assert s[|a|] == t[0];
    }
  }

  lemma TrimsUnique(s: string, t: string, u: string)
    requires Trims(s, t) && Trims(s, u)
    ensures t == u
  {
    hide Space;
    TrimsToNothing(s, t);
    TrimsToNothing(s, u);
    if t != "" {
      var a, b :| Parts(s, a, t, b);
      var d, e :| Parts(s, d, u, e);
      SameStart(s, a, t, b, d, u, e);
      SameEnd(s, a, t, b, d, u, e);
      assert t == s[|a|..|s| - |b|] && u == s[|d|..|s| - |e|];
    }
  }

  lemma SameStart(s: string, a: string, t: string, b: string, d: string, u: string, e: string)
    requires Parts(s, a, t, b) && Parts(s, d, u, e) && t != "" && u != "" && !Space(t[0]) && !Space(u[0])
    ensures |a| == |d|
  {
    hide Space;
    forall k | 0 <= k < |a| ensures Space(s[k]) {
      assert s[k] == a[k];
    }
    forall k | 0 <= k < |d| ensures Space(s[k]) {
      assert s[k] == d[k];
    }
    assert s[|a|] == t[0] && s[|d|] == u[0];
  }

  lemma SameEnd(s: string, a: string, t: string, b: string, d: string, u: string, e: string)
    requires Parts(s, a, t, b) && Parts(s, d, u, e) && t != "" && u != ""
    requires !Space(t[|t| - 1]) && !Space(u[|u| - 1])
    ensures |b| == |e|
  {
    hide Space;
    var n := |s|;
    forall k | n - |b| <= k < n ensures Space(s[k]) {
      assert s[k] == b[k - (n - |b|)];
    }
    forall k | n - |e| <= k < n ensures Space(s[k]) {
      assert s[k] == e[k - (n - |e|)];
    }
    assert s[n - |b| - 1] == t[|t| - 1] && s[n - |e| - 1] == u[|u| - 1];
  }

  /** A secret of the new value: the one that is given, or else the one that is stored. */
  predicate Carried(given: string, stored: string, value: string) {
    if given != "" then value == given else value == stored
  }

  /** The settings that a set-up call wants, by field; `stored` is what was visible before, if anything was. */
  ghost predicate SetUp(stored: Option<Settings>, request: SetupRequest, newKey: string, s: Settings) {
    var (r, v) := (request.storage, s.configuration.storage);
    && v.bucket == r.bucket && v.prefix == r.prefix && v.region == r.region && v.endpoint == r.endpoint
    && v.forcePathStyle == r.forcePathStyle
    && Trims(request.schedule, s.schedule)
    && s.retentionCount == request.retentionCount && !s.schedulePaused
    && match stored
       case None =>
         && s.configuration.recoveryKey == newKey
         && v.accessKeyID == r.accessKeyID && v.secretAccessKey == r.secretAccessKey
         && v.customCAPEM == r.customCAPEM && v.proxyURL == r.proxyURL
       case Some(was) =>
         && s.configuration.recoveryKey == was.configuration.recoveryKey
         && Carried(r.accessKeyID, was.configuration.storage.accessKeyID, v.accessKeyID)
         && Carried(r.secretAccessKey, was.configuration.storage.secretAccessKey, v.secretAccessKey)
         && Carried(r.customCAPEM, was.configuration.storage.customCAPEM, v.customCAPEM)
         && Carried(r.proxyURL, was.configuration.storage.proxyURL, v.proxyURL)
  }

  function Before(c: Cluster, checks: Checks): Option<Settings> {
    match Load(c, checks)
    case Current(s) => Some(s)
    case _ => None
  }

  /** A completed set-up makes visible exactly what was asked for, the secrets that were left out as they were
      stored, and backups are scheduled with the given schedule and retention count. */
  lemma SetupMakesVisible(c: Cluster, checks: Checks, call: Call)
    requires call.Setup? && call.writes == 5 && Wanted(c, checks, call).Some?
    ensures var t := AfterCall(c, checks, call);
            && Load(t, checks).Current? && Visible(t, Load(t, checks).settings)
            && var s := Load(t, checks).settings;
               && SetUp(Before(c, checks), call.request, call.newKey, s)
               && BackupSettings(t, checks) == Some((s.schedule, call.request.retentionCount, false))
  {
    hide Saved, ValidSettings, Visible, Agrees, Trims, KeyHolds;
    CompletedCallAgrees(c, checks, call);
    TrimSpaceTrims(call.request.schedule);
    BackupSettingsOf(AfterCall(c, checks, call), checks);
    hide Load;
  }

  /** A completed restore makes its configuration visible, without a schedule, paused, with a count of 30. */
  lemma RestoreMakesVisible(c: Cluster, checks: Checks, call: Call)
    requires call.RestoreCall? && call.writes == 5 && Wanted(c, checks, call).Some?
    ensures var t := AfterCall(c, checks, call);
            && Load(t, checks) == Current(Settings(call.configuration, "", 30, true))
            && Visible(t, Load(t, checks).settings)
            && BackupSettings(t, checks) == Some(("", 30, true))
  {
    hide Saved, ValidSettings, Visible, Agrees, KeyHolds;
    CompletedCallAgrees(c, checks, call);
  }

  lemma BackupSettingsOf(c: Cluster, checks: Checks)
    ensures Load(c, checks).Current? ==>
              var s := Load(c, checks).settings;
              BackupSettings(c, checks) == Some((s.schedule, s.retentionCount, s.schedulePaused))
  {
  }

  // ----- which calls are refused -----

  predicate Valid(s: Settings, checks: Checks) {
    Usable(s.configuration, checks) && (s.schedule == "" || checks.isSchedule(s.schedule))
  }

  predicate OneLine(s: string) {
    forall i :: 0 <= i < |s| ==> s[i] != '\r' && s[i] != '\n'
  }

  /** A configuration that can be saved. */
  predicate Usable(c: Configuration, checks: Checks) {
    var s := c.storage;
    && !Spaces(s.bucket) && OneLine(s.bucket)
    && s.accessKeyID != "" && OneLine(s.accessKeyID) && s.secretAccessKey != "" && OneLine(s.secretAccessKey)
    && |c.recoveryKey| >= 16 && OneLine(c.recoveryKey)
    && (s.endpoint == "" || checks.isEndpoint(s.endpoint)) && (s.proxyURL == "" || checks.isProxy(s.proxyURL))
    && |s.customCAPEM| <= 262144
  }

  lemma UsableExactly(c: Configuration, checks: Checks)
    ensures ValidConfiguration(c, checks) <==> Usable(c, checks)
  {
    hide TrimSpace, Space;
    var s := c.storage;
    TrimSpaceTrims(s.bucket);
    TrimsToNothing(s.bucket, TrimSpace(s.bucket));
    LinesOf(s.bucket);
    LinesOf(c.recoveryKey);
    LinesOf(s.accessKeyID);
    LinesOf(s.secretAccessKey);
    var (a, b) := (s.accessKeyID, s.secretAccessKey);
    assert BreaksLine(a + b) <==> BreaksLine(a) || BreaksLine(b);
  }

  lemma LinesOf(s: string)
    ensures BreaksLine(s) <==> !OneLine(s)
  {
  }

  /** What a load returns: the settings in the Secret if they can be used, nothing if there is no Secret. */
  lemma LoadsExactly(c: Cluster, checks: Checks)
    ensures var secret := Secret("embedded-cluster-dr");
            && (Load(c, checks) == Missing <==> secret !in c.objects)
            && forall s :: Load(c, checks) == Current(s) <==>
                 && secret in c.objects && c.objects[secret].Published? && c.objects[secret].json == Some(s)
                 && Valid(s, checks) && 1 <= s.retentionCount <= 1000
  {
    hide ValidConfiguration, Usable;
    forall s: Settings ensures ValidSettings(s, checks) <==> Valid(s, checks) && 1 <= s.retentionCount <= 1000 {
      UsableExactly(s.configuration, checks);
    }
  }

  /** A restore call is refused exactly if its configuration cannot be used. */
  lemma RestoreRefusedExactly(c: Cluster, checks: Checks, configuration: Configuration, writes: nat)
    requires writes <= 5
    ensures var call := RestoreCall(configuration, writes);
            && (Wanted(c, checks, call) == None <==> !Usable(configuration, checks))
            && (!Usable(configuration, checks) ==> AfterCall(c, checks, call) == c)
  {
    hide ValidConfiguration, Usable;
    UsableExactly(configuration, checks);
  }

  /** A set-up call is refused exactly if its count is out of range, the stored settings cannot be read, or the
      settings that it asks for, with what is stored, cannot be used. */
  lemma SetupRefusedExactly(c: Cluster, checks: Checks, request: SetupRequest, newKey: string, writes: nat)
    requires writes <= 5
    ensures var call := Setup(request, newKey, writes);
            var refused := Wanted(c, checks, call) == None;
            && (refused ==> AfterCall(c, checks, call) == c)
            && (!refused <==>
                  && 1 <= request.retentionCount <= 1000 && !Load(c, checks).Broken?
                  && exists s :: SetUp(Before(c, checks), request, newKey, s) && Valid(s, checks))
  {
    hide ValidConfiguration, Trims, Load, TrimSpace, Saved, Usable;
    TrimSpaceTrims(request.schedule);
    if exists s :: SetUp(Before(c, checks), request, newKey, s) && Valid(s, checks) {
      var s :| SetUp(Before(c, checks), request, newKey, s) && Valid(s, checks);
      TrimsUnique(request.schedule, TrimSpace(request.schedule), s.schedule);
      UsableExactly(s.configuration, checks);
      assert SetupSettings(c, checks, request, newKey).Some? || Load(c, checks).Broken?
        || !(1 <= request.retentionCount <= 1000);
    }
    var wanted := SetupSettings(c, checks, request, newKey);
    if wanted.Some? {
      UsableExactly(wanted.value.configuration, checks);
      assert SetUp(Before(c, checks), request, newKey, wanted.value) && Valid(wanted.value, checks);
    }
  }
}

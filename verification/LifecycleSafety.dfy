/** What every interleaving of attempts keeps: ready points are complete, unclean Velero backups are never
    published, and a restore gets back what was uploaded. */
module LifecycleSafety {
  import opened Wrappers
  import opened Ids
  import opened Keys
  import opened Recovery
  import opened Retention
  import opened Lifecycle

  /** The manifest belongs to `id` and names the resources of `id`. */
  predicate Owned(m: Manifest, id: string) {
    m.recoveryPointID == id && Canonical(id) && m.veleroBackupName == VeleroName(id) && !m.status.Unsupported?
  }

  predicate CleanBackup(w: World, id: string) {
    VeleroName(id) in w.backups && Clean(w.backups[VeleroName(id)])
  }

  predicate PastWaiting(pc: Pc) {
    !pc.Creating? && !pc.Waiting?
  }

  predicate PastUpload(pc: Pc) {
    PastWaiting(pc) && !pc.Uploading?
  }

  predicate WorkList(s: State, ms: seq<Manifest>) {
    forall m :: m in ms ==> Owned(m, m.recoveryPointID) && m.recoveryPointID in s.published
  }

  predicate AttemptSound(s: State, who: Handle)
    requires who in s.active
  {
    var pc := s.active[who].pc;
    && Canonical(who.id)
    && (pc.Retaining? ==> WorkList(s, pc.toMark) && WorkList(s, pc.toDelete))
    && (who.id !in s.published && PastWaiting(pc) ==> CleanBackup(s.world, who.id))
    && (who.id !in s.published && PastUpload(pc) ==> who.id in s.world.archives)
  }

  /** Holds in every run, whatever is retried and whatever attempts share an ID. */
  ghost predicate Sound(s: State) {
    && (forall id :: id in s.world.manifests ==> Owned(s.world.manifests[id], id) && id in s.published)
    && (forall who :: who in s.active ==> AttemptSound(s, who))
    && (forall id :: Canonical(id) && VeleroName(id) in s.world.deletes ==> id in s.published)
  }

  /** A ready point can be restored: its archive is there, and so is an error-free completed Velero backup
      that nobody has asked Velero to delete. */
  predicate Complete(w: World, id: string) {
    id in w.archives && CleanBackup(w, id) && VeleroName(id) !in w.deletes
  }

  predicate NoneReady(w: World, ms: seq<Manifest>) {
    forall m :: m in ms && m.recoveryPointID in w.manifests ==> w.manifests[m.recoveryPointID].status == Deleting
  }

  /** No attempt works for a published ID, and those that share an ID cannot publish it. */
  predicate Separate(s: State) {
    && (forall who :: who in s.active ==> who.id !in s.published)
    && (forall a, b :: a in s.active && b in s.active && a.id == b.id && a != b ==> EndedUncleanly(s.world, a.id))
  }

  ghost predicate Safe(s: State) {
    && Sound(s)
    && Separate(s)
    && (forall who :: who in s.active && s.active[who].pc.Retaining? ==> NoneReady(s.world, s.active[who].pc.toDelete))
    && (forall id :: id in s.world.manifests && s.world.manifests[id].status == Ready ==> Complete(s.world, id))
  }

  lemma NamesDiffer(a: string, b: string)
    requires Canonical(a) && Canonical(b) && a != b
    ensures VeleroName(a) != VeleroName(b)
  {
    KeysDistinct("", a, b);
  }

  lemma SoundStep(s: State, l: Label)
    requires Sound(s) && Enabled(s, l)
    ensures Sound(Apply(s, l))
  {
    var t := Apply(s, l);
    if l.DropBackup? && l.effect {
      var m := s.active[l.who].pc.toDelete[0];
      forall id | Canonical(id) && VeleroName(id) in t.world.deletes ensures id in t.published {
        if id != m.recoveryPointID {
          NamesDiffer(id, m.recoveryPointID);
        }
      }
    }
    forall who | who in t.active ensures AttemptSound(t, who) {
      AttemptSoundStep(s, l, who);
    }
  }

  lemma AttemptSoundStep(s: State, l: Label, who: Handle)
    requires Sound(s) && Enabled(s, l) && who in Apply(s, l).active
    ensures AttemptSound(Apply(s, l), who)
  {
    WorkListsStep(s, l, who);
    ProgressStep(s, l, who);
  }

  lemma WorkListsStep(s: State, l: Label, who: Handle)
    requires Sound(s) && Enabled(s, l) && who in Apply(s, l).active
    ensures var t := Apply(s, l);
            var pc := t.active[who].pc;
            pc.Retaining? ==> WorkList(t, pc.toMark) && WorkList(t, pc.toDelete)
  {
    hide Canonical, VeleroName, Clean;
    assert who in s.active || l.Begin?;
    if l.List? && l.who == who {
      ListedAreStored(s, l.listing);
    }
  }

  lemma ProgressStep(s: State, l: Label, who: Handle)
    requires Sound(s) && Enabled(s, l) && who in Apply(s, l).active
    ensures var t := Apply(s, l);
            var pc := t.active[who].pc;
            && Canonical(who.id)
            && (who.id !in t.published && PastWaiting(pc) ==> CleanBackup(t.world, who.id))
            && (who.id !in t.published && PastUpload(pc) ==> who.id in t.world.archives)
  {
    hide VeleroName;
    assert who in s.active || l.Begin?;
    if l.DropArchive? && l.effect {
      assert s.active[l.who].pc.toDelete[0] in s.active[l.who].pc.toDelete;
    }
  }

  lemma ListedAreStored(s: State, listing: seq<Manifest>)
    requires Sound(s) && Lists(listing, s.world.manifests)
    ensures WorkList(s, listing)
  {
  }

  /** A published ID does not become ready again. */
  lemma StaysUnready(s: State, l: Label, id: string)
    requires Safe(s) && Enabled(s, l) && id in s.published
    requires id in s.world.manifests ==> s.world.manifests[id].status == Deleting
    ensures var w := Apply(s, l).world; id in w.manifests ==> w.manifests[id].status == Deleting
  {
    hide Sound, NoneReady, Complete;
  }

  lemma NoneReadyStep(s: State, l: Label, who: Handle)
    requires Safe(s) && Enabled(s, l) && Fresh(s, l) && Exclusive(s, l)
    requires who in Apply(s, l).active && Apply(s, l).active[who].pc.Retaining?
    ensures NoneReady(Apply(s, l).world, Apply(s, l).active[who].pc.toDelete)
  {
    hide Canonical, VeleroName;
    var t := Apply(s, l);
    if l.List? && l.who == who {
      ListedAreStored(s, l.listing);
    } else if l.SkipRetention? && l.who == who {
    } else {
      assert s.active[who].pc.Retaining?;
      forall m | m in t.active[who].pc.toDelete && m.recoveryPointID in t.world.manifests
        ensures t.world.manifests[m.recoveryPointID].status == Deleting
      {
        if m in s.active[who].pc.toDelete {
          StaysUnready(s, l, m.recoveryPointID);
        }
      }
    }
  }

  lemma CompleteStep(s: State, l: Label, id: string)
    requires Safe(s) && Enabled(s, l) && Fresh(s, l) && Exclusive(s, l)
    requires id in Apply(s, l).world.manifests && Apply(s, l).world.manifests[id].status == Ready
    ensures Complete(Apply(s, l).world, id)
  {
    hide Canonical, VeleroName;
    if l.DropBackup? {
      var m := s.active[l.who].pc.toDelete[0];
      assert m in s.active[l.who].pc.toDelete;
      if id != m.recoveryPointID {
        NamesDiffer(id, m.recoveryPointID);
      }
    } else if l.DropArchive? {
      assert s.active[l.who].pc.toDelete[0] in s.active[l.who].pc.toDelete;
    }
  }

  /** While an ID is unpublished, nothing removes or changes an unclean backup of it. */
  lemma UncleanStays(s: State, l: Label, id: string)
    requires Sound(s) && Enabled(s, l) && Canonical(id) && id !in s.published && EndedUncleanly(s.world, id)
    ensures EndedUncleanly(Apply(s, l).world, id)
  {
    hide VeleroName, Canonical;
  }

  lemma SeparateStep(s: State, l: Label)
    requires Safe(s) && Enabled(s, l) && Fresh(s, l) && Exclusive(s, l)
    ensures Separate(Apply(s, l))
  {
    hide VeleroName, Canonical, NoneReady, Complete;
    var t := Apply(s, l);
    forall who | who in t.active ensures who.id !in t.published {
      assert who in s.active || l.Begin?;
      if l.Publish? && who.id == l.who.id {
        assert AttemptSound(s, l.who);
      }
    }
    forall a, b | a in t.active && b in t.active && a.id == b.id && a != b ensures EndedUncleanly(t.world, a.id) {
      assert a in s.active ==> AttemptSound(s, a);
      assert b in s.active ==> AttemptSound(s, b);
      UncleanBefore(s, l, a, b);
      UncleanStays(s, l, a.id);
    }
  }

  lemma UncleanBefore(s: State, l: Label, a: Handle, b: Handle)
    requires Separate(s) && Enabled(s, l) && Exclusive(s, l) && Fresh(s, l)
    requires a in Apply(s, l).active && b in Apply(s, l).active && a.id == b.id && a != b
    ensures EndedUncleanly(s.world, a.id) && a.id !in s.published && (a in s.active || b in s.active)
  {
    hide EndedUncleanly, VeleroName, Canonical;
  }

  lemma SafeStep(s: State, l: Label)
    requires Safe(s) && Enabled(s, l) && Fresh(s, l) && Exclusive(s, l)
    ensures Safe(Apply(s, l))
  {
    var t := Apply(s, l);
    SoundStep(s, l);
    forall who | who in t.active && t.active[who].pc.Retaining? ensures NoneReady(t.world, t.active[who].pc.toDelete) {
      NoneReadyStep(s, l, who);
    }
    forall id | id in t.world.manifests && t.world.manifests[id].status == Ready ensures Complete(t.world, id) {
      CompleteStep(s, l, id);
    }
    SeparateStep(s, l);
  }

  // ----- over whole runs -----

  lemma InitialIsSafe(s: State)
    requires Initial(s)
    ensures Safe(s) && Inputs(s)
  {
  }

  lemma {:induction false} SoundAlways(states: seq<State>, labels: seq<Label>, i: nat)
    requires Run(states, labels) && Sound(states[0]) && i < |states|
    ensures Sound(states[i])
  {
    if i > 0 {
      SoundAlways(states, labels, i - 1);
      assert Step(states[i - 1], labels[i - 1], states[i - 1 + 1]);
      SoundStep(states[i - 1], labels[i - 1]);
    }
  }

  lemma {:induction false} SafeAlways(states: seq<State>, labels: seq<Label>, i: nat)
    requires Disciplined(states, labels) && Safe(states[0]) && i < |states|
    ensures Safe(states[i])
    ensures forall id :: id in ReadyPoints(states[i].world.manifests) ==>
              var w := states[i].world;
              && id in w.archives && VeleroName(id) !in w.deletes && VeleroName(id) in w.backups
              && w.backups[VeleroName(id)].Completed? && w.backups[VeleroName(id)].errors <= 0
  {
    if i > 0 {
      SafeAlways(states, labels, i - 1);
      assert Step(states[i - 1], labels[i - 1], states[i - 1 + 1]) && Fresh(states[i - 1], labels[i - 1]);
      assert Exclusive(states[i - 1], labels[i - 1]);
      SafeStep(states[i - 1], labels[i - 1]);
    }
  }

  /** In every state that disciplined attempts can reach, however they interleave, fail or stop, each ready
      manifest has its archive and an error-free completed Velero backup. */
  lemma ReadyPointsAreComplete(states: seq<State>, labels: seq<Label>, i: nat, id: string)
    requires Disciplined(states, labels) && Initial(states[0]) && i < |states|
    requires id in ReadyPoints(states[i].world.manifests)
    ensures id in states[i].world.archives && VeleroName(id) in states[i].world.backups
    ensures var phase := states[i].world.backups[VeleroName(id)]; phase.Completed? && phase.errors <= 0
  {
    InitialIsSafe(states[0]);
    SafeAlways(states, labels, i);
  }

  // ----- unclean Velero backups -----

  predicate NotMentioned(ms: seq<Manifest>, id: string) {
    forall m :: m in ms ==> m.recoveryPointID != id
  }

  /** The Velero backup of `id` ended uncleanly and nothing is about to remove it; `id` has no manifest. */
  ghost predicate Doomed(s: State, id: string) {
    && Canonical(id)
    && id !in s.world.manifests
    && EndedUncleanly(s.world, id)
    && VeleroName(id) !in s.world.deletes
    && (forall who :: who in s.active && who.id == id ==> !PastWaiting(s.active[who].pc))
    && (forall a :: a in s.active && s.active[a].pc.Retaining? ==>
          NotMentioned(s.active[a].pc.toMark, id) && NotMentioned(s.active[a].pc.toDelete, id))
  }

  lemma UnpublishedUncleanIsDoomed(s: State, id: string)
    requires Sound(s) && Canonical(id) && id !in s.published && VeleroName(id) in s.world.backups
    requires match s.world.backups[VeleroName(id)]
             case InProgress => false
             case Completed(errors) => errors > 0
             case _ => true
    ensures Doomed(s, id)
  {
  }

  lemma NotMentionedStep(s: State, l: Label, id: string, a: Handle)
    requires Sound(s) && Enabled(s, l) && Doomed(s, id)
    requires a in Apply(s, l).active && Apply(s, l).active[a].pc.Retaining?
    ensures NotMentioned(Apply(s, l).active[a].pc.toMark, id) && NotMentioned(Apply(s, l).active[a].pc.toDelete, id)
  {
    if l.List? && l.who == a {
      forall m | m in l.listing ensures m.recoveryPointID != id {
        assert m.recoveryPointID in s.world.manifests;
      }
    } else if l.Mark? && l.who == a {
      assert s.active[a].pc.toMark[0] in s.active[a].pc.toMark;
    }
  }

  lemma DoomedWorldStep(s: State, l: Label, id: string)
    requires Sound(s) && Enabled(s, l) && Doomed(s, id)
    ensures var w := Apply(s, l).world;
            && id !in w.manifests && VeleroName(id) !in w.deletes
            && VeleroName(id) in w.backups && w.backups[VeleroName(id)] == s.world.backups[VeleroName(id)]
  {
    if l.DropBackup? {
      var m := s.active[l.who].pc.toDelete[0];
      assert m in s.active[l.who].pc.toDelete;
      NamesDiffer(m.recoveryPointID, id);
    } else if l.Mark? {
      assert s.active[l.who].pc.toMark[0] in s.active[l.who].pc.toMark;
    }
  }

  lemma DoomedStep(s: State, l: Label, id: string)
    requires Sound(s) && Enabled(s, l) && Doomed(s, id)
    ensures Doomed(Apply(s, l), id)
  {
    var t := Apply(s, l);
    DoomedWorldStep(s, l, id);
    forall a | a in t.active && t.active[a].pc.Retaining?
      ensures NotMentioned(t.active[a].pc.toMark, id) && NotMentioned(t.active[a].pc.toDelete, id)
    {
      NotMentionedStep(s, l, id, a);
    }
  }

  lemma {:induction false} DoomedAlways(states: seq<State>, labels: seq<Label>, i: nat, j: nat, id: string)
    requires Run(states, labels) && Sound(states[0]) && i <= j < |states|
    requires Doomed(states[i], id)
    ensures Doomed(states[j], id)
    ensures states[j].world.backups[VeleroName(id)] == states[i].world.backups[VeleroName(id)]
  {
    if i < j {
      hide Doomed, Sound, VeleroName, Apply, Enabled;
      DoomedAlways(states, labels, i, j - 1, id);
      SoundAlways(states, labels, j - 1);
      assert Step(states[j - 1], labels[j - 1], states[j - 1 + 1]);
      DoomedStep(states[j - 1], labels[j - 1], id);
      DoomedWorldStep(states[j - 1], labels[j - 1], id);
    }
  }

  /** Once the Velero backup of an unpublished ID has ended Failed, PartiallyFailed, FailedValidation or with
      errors, no number of attempts, disciplined or not, publishes the ID; the backup stays as it ended. */
  lemma UncleanBackupIsNeverPublished(states: seq<State>, labels: seq<Label>, i: nat, j: nat, id: string)
    requires Run(states, labels) && Sound(states[0]) && i <= j < |states|
    requires Canonical(id) && id !in states[i].published && VeleroName(id) in states[i].world.backups
    requires match states[i].world.backups[VeleroName(id)]
             case InProgress => false
             case Completed(errors) => errors > 0
             case _ => true
    ensures id !in states[j].world.manifests && VeleroName(id) in states[j].world.backups
    ensures states[j].world.backups[VeleroName(id)] == states[i].world.backups[VeleroName(id)]
  {
    hide Sound, VeleroName, Canonical;
    SoundAlways(states, labels, i);
    UnpublishedUncleanIsDoomed(states[i], id);
    DoomedAlways(states, labels, i, j, id);
  }

  // ----- bytes -----

  predicate Inputs(s: State) {
    && (forall id :: id in s.world.archives ==>
          id in s.given && s.world.archives[id] == Age(s.given[id].key, s.given[id].archive))
    && (forall who :: who in s.active ==> who.id in s.given && s.active[who].input == s.given[who.id])
  }

  predicate OneInputEach(states: seq<State>, labels: seq<Label>) {
    Run(states, labels) && forall i {:trigger labels[i]} :: 0 <= i < |labels| ==> SameInput(states[i], labels[i])
  }

  predicate GivenStays(s: State, t: State) {
    forall id :: id in s.given ==> id in t.given && t.given[id] == s.given[id]
  }

  lemma InputsStep(s: State, l: Label)
    requires Inputs(s) && Enabled(s, l) && SameInput(s, l)
    ensures Inputs(Apply(s, l)) && GivenStays(s, Apply(s, l))
  {
  }

  lemma {:induction false} InputsAlways(states: seq<State>, labels: seq<Label>, i: nat, j: nat)
    requires OneInputEach(states, labels) && Inputs(states[0]) && i <= j < |states|
    ensures Inputs(states[j])
    ensures GivenStays(states[i], states[j])
  {
    if j > 0 {
      assert Step(states[j - 1], labels[j - 1], states[j - 1 + 1]) && SameInput(states[j - 1], labels[j - 1]);
      InputsAlways(states, labels, if i < j then i else j - 1, j - 1);
      InputsStep(states[j - 1], labels[j - 1]);
    }
  }

  /** If each ID is only ever given one archive and key, whatever a restore fetches for `id` (in state `j`,
      at any time during other attempts' retention) and manages to decrypt is byte for byte the archive that
      `id` was given (by state `i`), and the returned descriptor is that archive's. */
  lemma RestoreReturnsTheUpload(states: seq<State>, labels: seq<Label>, i: nat, j: nat, id: string, key: string)
    requires OneInputEach(states, labels) && Inputs(states[0]) && i <= j < |states|
    requires id in states[i].given && id in states[j].world.archives
    requires Decrypt(states[j].world.archives[id], key).Some?
    ensures Decrypt(states[j].world.archives[id], key) == Some(states[i].given[id].archive)
    ensures key == states[i].given[id].key
  {
    InputsAlways(states, labels, i, j);
  }

  predicate Stores(s: State, id: string, input: Input) {
    id in s.world.archives && s.world.archives[id] == Age(input.key, input.archive)
  }

  predicate AttemptCurrent(s: State, who: Handle)
    requires who in s.active
  {
    && who.id in s.given && s.active[who].input == s.given[who.id]
    && (PastUpload(s.active[who].pc) ==> Stores(s, who.id, s.given[who.id]))
  }

  /** An attempt that can still publish has the input that its ID was given last, and so has a ready point. */
  predicate Current(s: State) {
    && (forall who :: who in s.active && !EndedUncleanly(s.world, who.id) ==> AttemptCurrent(s, who))
    && (forall id :: id in s.world.manifests && s.world.manifests[id].status == Ready ==>
          id in s.given && Stores(s, id, s.given[id]))
  }

  /** An attempt that can still publish is the only one for its ID. */
  lemma OnlyAttempt(s: State, l: Label, who: Handle)
    requires Safe(s) && Enabled(s, l) && who in s.active && !EndedUncleanly(Apply(s, l).world, who.id)
    ensures !EndedUncleanly(s.world, who.id) && who.id !in s.published
    ensures forall other :: other in s.active && other.id == who.id ==> other == who
  {
    hide EndedUncleanly, Apply, Enabled, Complete, NoneReady;
    assert AttemptSound(s, who);
    if EndedUncleanly(s.world, who.id) {
      UncleanStays(s, l, who.id);
    }
  }

  /** Retention takes no archive away from a ready or unpublished point. */
  lemma ArchiveIsKept(s: State, l: Label, id: string)
    requires Safe(s) && Enabled(s, l) && !(l.Upload? && l.who.id == id)
    requires id !in s.published || (id in s.world.manifests && s.world.manifests[id].status == Ready)
    ensures id in s.world.archives ==>
              id in Apply(s, l).world.archives && Apply(s, l).world.archives[id] == s.world.archives[id]
  {
    hide VeleroName, Canonical, Complete, EndedUncleanly;
    if l.DropArchive? {
      var m := s.active[l.who].pc.toDelete[0];
      assert AttemptSound(s, l.who) && m in s.active[l.who].pc.toDelete;
    }
  }

  lemma AttemptCurrentStep(s: State, l: Label, who: Handle)
    requires Safe(s) && Current(s) && Enabled(s, l) && Fresh(s, l) && Exclusive(s, l)
    requires who in Apply(s, l).active && !EndedUncleanly(Apply(s, l).world, who.id)
    ensures AttemptCurrent(Apply(s, l), who)
  {
    hide Safe, EndedUncleanly, VeleroName, Canonical;
    if who in s.active {
      OnlyAttempt(s, l, who);
      if !(l.Upload? && l.who.id == who.id) {
        ArchiveIsKept(s, l, who.id);
      }
    }
  }

  lemma ReadyCurrentStep(s: State, l: Label, id: string)
    requires Safe(s) && Current(s) && Enabled(s, l) && Fresh(s, l) && Exclusive(s, l)
    requires id in Apply(s, l).world.manifests && Apply(s, l).world.manifests[id].status == Ready
    ensures id in Apply(s, l).given && Stores(Apply(s, l), id, Apply(s, l).given[id])
  {
    hide Safe, Current, AttemptCurrent;
    if l.Publish? && l.who.id == id && l.effect {
      PublishedIsCurrent(s, l.who);
    } else {
      WasReady(s, l, id);
      ArchiveIsKept(s, l, id);
    }
  }

  lemma PublishedIsCurrent(s: State, who: Handle)
    requires Safe(s) && Current(s) && who in s.active && IsPublishing(s.active[who].pc)
    ensures who.id in s.given && Stores(s, who.id, s.given[who.id])
  {
    hide Complete, NoneReady, VeleroName, Canonical;
    assert AttemptSound(s, who) && who.id !in s.published;
  }

  /** Only its publication makes a point ready. */
  lemma WasReady(s: State, l: Label, id: string)
    requires Safe(s) && Current(s) && Enabled(s, l) && Fresh(s, l) && !(l.Publish? && l.who.id == id && l.effect)
    requires id in Apply(s, l).world.manifests && Apply(s, l).world.manifests[id].status == Ready
    ensures id in s.world.manifests && s.world.manifests[id].status == Ready && id in s.published
    ensures id in s.given && Stores(s, id, s.given[id])
    ensures id in Apply(s, l).given && Apply(s, l).given[id] == s.given[id] && !(l.Upload? && l.who.id == id)
  {
    hide Safe, Current, Apply, Enabled;
    ReadyBefore(s, l, id);
    ReadyIsCurrent(s, id);
    GivenOnlyByBegin(s, l, id);
  }

  lemma ReadyBefore(s: State, l: Label, id: string)
    requires Enabled(s, l) && !(l.Publish? && l.who.id == id && l.effect)
    requires id in Apply(s, l).world.manifests && Apply(s, l).world.manifests[id].status == Ready
    ensures id in ReadyPoints(s.world.manifests)
  {
    hide VeleroName, Canonical, Lists, Expired;
  }

  lemma GivenOnlyByBegin(s: State, l: Label, id: string)
    requires Safe(s) && Enabled(s, l) && Fresh(s, l) && id in s.published && id in s.given
    ensures id in Apply(s, l).given && Apply(s, l).given[id] == s.given[id] && !(l.Upload? && l.who.id == id)
  {
    hide VeleroName, Canonical, Complete, NoneReady, AttemptSound, EndedUncleanly, Lists, Expired;
  }

  lemma CurrentStep(s: State, l: Label)
    requires Safe(s) && Current(s) && Enabled(s, l) && Fresh(s, l) && Exclusive(s, l)
    ensures Current(Apply(s, l))
  {
    hide Apply, Enabled, Safe, AttemptCurrent, Stores, EndedUncleanly;
    var t := Apply(s, l);
    forall who | who in t.active && !EndedUncleanly(t.world, who.id) ensures AttemptCurrent(t, who) {
      AttemptCurrentStep(s, l, who);
    }
    forall id | id in t.world.manifests && t.world.manifests[id].status == Ready
      ensures id in t.given && Stores(t, id, t.given[id])
    {
      ReadyCurrentStep(s, l, id);
    }
  }

  lemma {:induction false} CurrentAlways(states: seq<State>, labels: seq<Label>, i: nat)
    requires Disciplined(states, labels) && Initial(states[0]) && i < |states|
    ensures Safe(states[i]) && Current(states[i])
  {
    hide Apply, Enabled, Safe, Current;
    InitialIsSafe(states[0]);
    SafeAlways(states, labels, i);
    if i == 0 {
      InitialIsCurrent(states[0]);
    } else {
      CurrentAlways(states, labels, i - 1);
      assert Step(states[i - 1], labels[i - 1], states[i - 1 + 1]) && Fresh(states[i - 1], labels[i - 1]);
      assert Exclusive(states[i - 1], labels[i - 1]);
      CurrentStep(states[i - 1], labels[i - 1]);
    }
  }

  lemma InitialIsCurrent(s: State)
    requires Initial(s)
    ensures Current(s)
  {
  }

  /** Nothing replaces the archive of a published point. */
  lemma PublishedArchiveStep(s: State, l: Label, id: string)
    requires Safe(s) && Enabled(s, l) && id in s.published && id in Apply(s, l).world.archives
    ensures id in Apply(s, l).published
    ensures id in s.world.archives && Apply(s, l).world.archives[id] == s.world.archives[id]
  {
    hide VeleroName, Canonical, Complete, NoneReady, EndedUncleanly, Sound;
  }

  /** Whatever is fetched for a point after it was seen ready is the archive that its ID had been given last by then,
      and only the key given with it opens it. */
  lemma {:induction false} SeenReadyRestores(states: seq<State>, labels: seq<Label>, i: nat, j: nat, id: string)
    requires Disciplined(states, labels) && Initial(states[0]) && i <= j < |states|
    requires id in ReadyPoints(states[i].world.manifests) && id in states[j].world.archives
    ensures id in states[i].given && Stores(states[j], id, states[i].given[id]) && id in states[j].published
  {
    hide Apply, Enabled, Safe, Current, Stores;
    CurrentAlways(states, labels, i);
    ReadyIsCurrent(states[i], id);
    if i < j {
      assert Step(states[j - 1], labels[j - 1], states[j - 1 + 1]);
      CurrentAlways(states, labels, j - 1);
      StillPublished(states, labels, i, j - 1, id);
      PublishedArchiveStep(states[j - 1], labels[j - 1], id);
      SeenReadyRestores(states, labels, i, j - 1, id);
      SameStores(states[j - 1], states[j], id, states[i].given[id]);
    }
  }

  lemma SameStores(s: State, t: State, id: string, input: Input)
    requires Stores(s, id, input) && id in t.world.archives && t.world.archives[id] == s.world.archives[id]
    ensures Stores(t, id, input)
  {
  }

  lemma ReadyIsCurrent(s: State, id: string)
    requires Safe(s) && Current(s) && id in ReadyPoints(s.world.manifests)
    ensures id in s.given && Stores(s, id, s.given[id]) && id in s.published
  {
  }

  lemma {:induction false} StillPublished(states: seq<State>, labels: seq<Label>, i: nat, j: nat, id: string)
    requires Run(states, labels) && i <= j < |states| && id in states[i].published
    ensures id in states[j].published
  {
    if i < j {
      StillPublished(states, labels, i, j - 1, id);
      assert Step(states[j - 1], labels[j - 1], states[j - 1 + 1]);
    }
  }

  /** A ready point always restores the archive that its ID was given last, whatever earlier attempts for it were
      given, and only with the key given then. */
  lemma ReadyPointRestores(states: seq<State>, labels: seq<Label>, i: nat, id: string)
    requires Disciplined(states, labels) && Initial(states[0]) && i < |states|
    requires id in ReadyPoints(states[i].world.manifests)
    ensures id in states[i].given && id in states[i].world.archives
    ensures forall key, plain ::
              Decrypt(states[i].world.archives[id], key) == Some(plain) <==> states[i].given[id] == Input(plain, key)
  {
    CurrentAlways(states, labels, i);
  }
}

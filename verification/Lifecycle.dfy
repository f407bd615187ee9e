/** The recovery-point life cycle as a labelled transition system: any number of backup attempts, one step
    per storage or Velero call, interleaved with Velero itself. A call may fail with or without effect, and
    an attempt may stop between any two calls. */
module Lifecycle {
  import opened Wrappers
  import opened Ids
  import opened Keys
  import opened Recovery
  import opened Retention

  datatype Phase = InProgress | Completed(errors: int) | Failed | PartiallyFailed | FailedValidation

  /** The only ending that a backup accepts. */
  predicate Clean(phase: Phase) {
    phase.Completed? && phase.errors <= 0
  }

  /** Manifests and archives by recovery point ID, Velero backups by name, and the names for which a
      deletion request exists: Velero may remove such a backup at any later time. */
  datatype World = World(
    manifests: map<string, Manifest>,
    archives: map<string, Cipher>,
    backups: map<string, Phase>,
    deletes: set<string>)

  /** The archive and recovery key that an attempt was given. */
  datatype Input = Input(archive: Bytes, key: string)

  datatype Stage = DroppingBackup | DroppingArchive | DroppingManifest

  /** The program counter of an attempt. In `Retaining` the expired manifests still to be marked and the
      deleting ones still to be removed come from the attempt's own listing. */
  datatype Pc =
    | Creating
    | Waiting
    | Uploading
    | Stamping
    | Listing(createdAt: int)
    | Retaining(createdAt: int, toMark: seq<Manifest>, toDelete: seq<Manifest>, stage: Stage)

  datatype Attempt = Attempt(input: Input, pc: Pc)

  /** Which attempt: the recovery point ID it works for, and a number that tells attempts for one ID apart. */
  datatype Handle = Handle(id: string, number: nat)

  /** Several attempts may work for one ID at once. `published` and `given` only record history. */
  datatype State = State(
    world: World,
    active: map<Handle, Attempt>,
    published: set<string>,
    given: map<string, Input>,
    clock: int)

  datatype Label =
    | Tick(now: int)
    | VeleroEnds(name: string, phase: Phase)
    | VeleroDeletes(name: string)
    | Begin(who: Handle, input: Input)
    | Stop(who: Handle)
    | CreateBackup(who: Handle, effect: bool, ok: bool)
    | Observe(who: Handle)
    | Upload(who: Handle, effect: bool, ok: bool)
    | Stamp(who: Handle)
    | SkipRetention(who: Handle)
    | List(who: Handle, listing: seq<Manifest>, retentionCount: int)
    | Mark(who: Handle, effect: bool, ok: bool)
    | DropBackup(who: Handle, effect: bool, ok: bool)
    | DropArchive(who: Handle, effect: bool, ok: bool)
    | DropManifest(who: Handle, effect: bool, ok: bool)
    | Publish(who: Handle, effect: bool, ok: bool)

  predicate IsMarking(pc: Pc) {
    pc.Retaining? && pc.toMark != []
  }

  predicate IsDropping(pc: Pc, stage: Stage) {
    pc.Retaining? && pc.toMark == [] && pc.toDelete != [] && pc.stage == stage
  }

  predicate IsPublishing(pc: Pc) {
    pc.Retaining? && pc.toMark == [] && pc.toDelete == []
  }

  predicate Enabled(s: State, l: Label) {
    var w := s.world;
    match l
    case Tick(now) => s.clock <= now
    case VeleroEnds(name, phase) => name in w.backups && w.backups[name] == InProgress && phase != InProgress
    case VeleroDeletes(name) => name in w.deletes
    case Begin(who, _) => Canonical(who.id) && who !in s.active
    case Stop(who) => who in s.active
    case CreateBackup(who, effect, ok) =>
      who in s.active && s.active[who].pc == Creating && (ok ==> effect || VeleroName(who.id) in w.backups)
    case Observe(who) =>
      who in s.active && s.active[who].pc == Waiting &&
      VeleroName(who.id) in w.backups && w.backups[VeleroName(who.id)] != InProgress
    case Upload(who, effect, ok) => who in s.active && s.active[who].pc == Uploading && (ok ==> effect)
    case Stamp(who) => who in s.active && s.active[who].pc == Stamping && s.clock != ZERO_TIME
    case SkipRetention(who) => who in s.active && s.active[who].pc.Listing?
    case List(who, listing, _) => who in s.active && s.active[who].pc.Listing? && Lists(listing, w.manifests)
    case Mark(who, effect, ok) => who in s.active && IsMarking(s.active[who].pc) && (ok ==> effect)
    case DropBackup(who, effect, ok) =>
      who in s.active && IsDropping(s.active[who].pc, DroppingBackup) &&
      (ok ==> effect || s.active[who].pc.toDelete[0].veleroBackupName in w.deletes)
    case DropArchive(who, effect, ok) =>
      who in s.active && IsDropping(s.active[who].pc, DroppingArchive) && (ok ==> effect)
    case DropManifest(who, effect, ok) =>
      who in s.active && IsDropping(s.active[who].pc, DroppingManifest) && (ok ==> effect)
    case Publish(who, effect, ok) => who in s.active && IsPublishing(s.active[who].pc) && (ok ==> effect)
  }

  /** The attempt goes on to `next`, or ends with an error. */
  function Proceed(s: State, who: Handle, w: World, ok: bool, next: Pc): State
    requires who in s.active
  {
    s.(world := w, active := if ok then s.active[who := s.active[who].(pc := next)] else s.active - {who})
  }

  function Apply(s: State, l: Label): State
    requires Enabled(s, l)
  {
    var w := s.world;
    match l
    case Tick(now) => s.(clock := now)
    case VeleroEnds(name, phase) => s.(world := w.(backups := w.backups[name := phase]))
    case VeleroDeletes(name) => s.(world := w.(backups := w.backups - {name}))
    case Begin(who, input) => s.(active := s.active[who := Attempt(input, Creating)], given := s.given[who.id := input])
    case Stop(who) => s.(active := s.active - {who})
    case CreateBackup(who, effect, ok) =>
      var name := VeleroName(who.id);
      var created := if effect && name !in w.backups then w.(backups := w.backups[name := InProgress]) else w;
      Proceed(s, who, created, ok, Waiting)
    case Observe(who) => Proceed(s, who, w, Clean(w.backups[VeleroName(who.id)]), Uploading)
    case Upload(who, effect, ok) =>
      var input := s.active[who].input;
      var stored := if effect then w.(archives := w.archives[who.id := Age(input.key, input.archive)]) else w;
      Proceed(s, who, stored, ok, Stamping)
    case Stamp(who) => Proceed(s, who, w, true, Listing(s.clock))
    case SkipRetention(who) => Proceed(s, who, w, true, Retaining(s.active[who].pc.createdAt, [], [], DroppingBackup))
    case List(who, listing, r) =>
      if r < 1 then Proceed(s, who, w, false, Creating)
      else
        Proceed(s, who, w, true,
                Retaining(s.active[who].pc.createdAt, Expired(ListedReady(listing), r), ListedDeleting(listing),
                  DroppingBackup))
    case Mark(who, effect, ok) =>
      var pc := s.active[who].pc;
      var m := AsDeleting(pc.toMark[0]);
      var marked := if effect then w.(manifests := w.manifests[m.recoveryPointID := m]) else w;
      Proceed(s, who, marked, ok, pc.(toMark := pc.toMark[1..], toDelete := pc.toDelete + [m]))
    case DropBackup(who, effect, ok) =>
      var pc := s.active[who].pc;
      var requested := if effect then w.(deletes := w.deletes + {pc.toDelete[0].veleroBackupName}) else w;
      Proceed(s, who, requested, ok, pc.(stage := DroppingArchive))
    case DropArchive(who, effect, ok) =>
      var pc := s.active[who].pc;
      var dropped := if effect then w.(archives := w.archives - {pc.toDelete[0].recoveryPointID}) else w;
      Proceed(s, who, dropped, ok, pc.(stage := DroppingManifest))
    case DropManifest(who, effect, ok) =>
      var pc := s.active[who].pc;
      var dropped := if effect then w.(manifests := w.manifests - {pc.toDelete[0].recoveryPointID}) else w;
      Proceed(s, who, dropped, ok, pc.(toDelete := pc.toDelete[1..], stage := DroppingBackup))
    case Publish(who, effect, ok) =>
      var pc := s.active[who].pc;
      var m := NewManifest(who.id, pc.createdAt);
      var stored := if effect then w.(manifests := w.manifests[who.id := m]) else w;
      var t := Proceed(s, who, stored, false, pc);
      if effect then t.(published := t.published + {who.id}) else t
  }

  predicate Step(s: State, l: Label, t: State) {
    Enabled(s, l) && t == Apply(s, l)
  }

  /** A run: one label between any two successive states. */
  predicate Run(states: seq<State>, labels: seq<Label>) {
    && |states| == |labels| + 1
    && forall i {:trigger labels[i]} :: 0 <= i < |labels| ==> Step(states[i], labels[i], states[i + 1])
  }

  /** No ID is attempted again once its ready manifest is written. */
  predicate Fresh(s: State, l: Label) {
    l.Begin? ==> l.who.id !in s.published
  }

  /** The Velero backup of `id` has ended in a way that no attempt accepts. */
  predicate EndedUncleanly(w: World, id: string) {
    VeleroName(id) in w.backups && w.backups[VeleroName(id)] != InProgress && !Clean(w.backups[VeleroName(id)])
  }

  /** No two attempts work for one ID at once, unless neither can get anywhere. */
  predicate Exclusive(s: State, l: Label) {
    l.Begin? ==> EndedUncleanly(s.world, l.who.id) || forall other :: other in s.active ==> other.id != l.who.id
  }

  /** Each ID is only ever given one archive and key. */
  predicate SameInput(s: State, l: Label) {
    l.Begin? && l.who.id in s.given ==> l.input == s.given[l.who.id]
  }

  predicate Disciplined(states: seq<State>, labels: seq<Label>) {
    && Run(states, labels)
    && forall i {:trigger labels[i]} :: 0 <= i < |labels| ==>
         Fresh(states[i], labels[i]) && Exclusive(states[i], labels[i])
  }

  predicate Initial(s: State) {
    s.world == World(map[], map[], map[], {}) && s.active == map[] && s.published == {} && s.given == map[]
  }

  /** One such state. */
  const NOTHING := State(World(map[], map[], map[], {}), map[], {}, map[], 1)
}

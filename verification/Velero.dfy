/** The Velero client: create or adopt by name, then poll to a clean terminal phase. */
module VeleroClient {
  import opened Wrappers
  import opened Lifecycle

  /** What Velero does between two polls. */
  datatype Event = Ended(name: string, phase: Phase) | Removed(name: string)

  predicate Possible(backups: map<string, Phase>, deletes: set<string>, e: Event) {
    match e
    case Ended(name, phase) => name in backups && backups[name] == InProgress && phase != InProgress
    case Removed(name) => name in deletes
  }

  function After(backups: map<string, Phase>, e: Event): map<string, Phase> {
    match e
    case Ended(name, phase) => backups[name := phase]
    case Removed(name) => backups - {name}
  }

  function Replay(backups: map<string, Phase>, events: seq<Event>): map<string, Phase> {
    if events == [] then backups else After(Replay(backups, events[..|events| - 1]), events[|events| - 1])
  }

  predicate AllPossible(backups: map<string, Phase>, deletes: set<string>, events: seq<Event>) {
    events == [] ||
    (AllPossible(backups, deletes, events[..|events| - 1]) &&
     Possible(Replay(backups, events[..|events| - 1]), deletes, events[|events| - 1]))
  }

  lemma ReplayOneMore(backups: map<string, Phase>, deletes: set<string>, events: seq<Event>, e: Event)
    requires AllPossible(backups, deletes, events) && Possible(Replay(backups, events), deletes, e)
    ensures AllPossible(backups, deletes, events + [e])
    ensures Replay(backups, events + [e]) == After(Replay(backups, events), e)
  {
    assert (events + [e])[..|events|] == events;
  }

  /** How the creation call and the polling went. */
  datatype Ending = NotCreated | Observed(phase: Phase) | GaveUp

  class Velero {
    var backups: map<string, Phase>
    var deleteRequests: set<string>
    /** The processed deletion requests, with the number of errors of each. */
    var processed: map<string, nat>

    constructor ()
      ensures backups == map[] && deleteRequests == {} && processed == map[]
    {
      backups, deleteRequests, processed := map[], {}, map[];
    }

    /** A request that has been processed stays as it is. */
    ghost predicate Keeps(before: map<string, nat>)
      reads this
    {
      forall name :: name in before ==> name in processed && processed[name] == before[name]
    }

    /** Velero moves on: it may process deletion requests, and at most one backup changes. */
    method Elapse(ghost start: map<string, Phase>, ghost events: seq<Event>) returns (ghost more: seq<Event>)
      requires AllPossible(start, deleteRequests, events) && backups == Replay(start, events)
      modifies this`backups, this`processed
      ensures AllPossible(start, deleteRequests, more) && backups == Replay(start, more) && Keeps(old(processed))
    {
      more := events;
      var request: string, errors: nat := *, *;
      if request in deleteRequests && request !in processed {
        processed := processed[request := errors];
      }
      var name: string := *;
      var phase: Phase := *;
      var removes: bool := *;
      if removes && name in deleteRequests {
        ReplayOneMore(start, deleteRequests, events, Removed(name));
        more := events + [Removed(name)];
        backups := backups - {name};
      } else if name in backups && backups[name] == InProgress && phase != InProgress {
        ReplayOneMore(start, deleteRequests, events, Ended(name, phase));
        more := events + [Ended(name, phase)];
        backups := backups[name := phase];
      }
    }

    /** Creates or adopts the backup `name` and waits for it; `patience` is the number of polls that the
        context allows. Succeeds only on a completed backup without errors. */
    method Backup(name: string, patience: nat)
      returns (ok: bool, ghost effect: bool, ghost ending: Ending, ghost events: seq<Event>)
      modifies this`backups, this`processed
      ensures var created := if effect && name !in old(backups) then old(backups)[name := InProgress] else old(backups);
              AllPossible(created, deleteRequests, events) && backups == Replay(created, events)
      ensures ending.NotCreated? ==> events == [] && !ok
      ensures !ending.NotCreated? ==> effect || name in old(backups)
      ensures ending.Observed? ==> name in backups && backups[name] == ending.phase && ending.phase != InProgress
      ensures ok <==> ending.Observed? && ending.phase.Completed? && ending.phase.errors <= 0
    {
      events, effect := [], false;
      if name !in backups {
        var stored: bool := *;
        if stored {
          backups := backups[name := InProgress];
        }
        effect := stored;
      }
      var accepted: bool := *;
      if !(accepted && name in backups) {
        return false, effect, NotCreated, [];
      }
      ok, ending, events := Wait(name, patience, backups, []);
    }

    method Wait(name: string, patience: nat, ghost start: map<string, Phase>, ghost before: seq<Event>)
      returns (ok: bool, ghost ending: Ending, ghost events: seq<Event>)
      requires AllPossible(start, deleteRequests, before) && backups == Replay(start, before)
      modifies this`backups, this`processed
      ensures AllPossible(start, deleteRequests, events) && backups == Replay(start, events)
      ensures !ending.NotCreated?
      ensures ending.Observed? ==> name in backups && backups[name] == ending.phase && ending.phase != InProgress
      ensures ok <==> ending.Observed? && ending.phase.Completed? && ending.phase.errors <= 0
    {
      events := before;
      var polls := 0;
      while polls < patience
        invariant AllPossible(start, deleteRequests, events) && backups == Replay(start, events)
      {
        events := Elapse(start, events);
        var reached: bool := *;
        if !reached || name !in backups {
          return false, GaveUp, events;
        }
        match backups[name] {
          case Completed(errors) =>
            return errors <= 0, Observed(backups[name]), events;
          case Failed =>
            return false, Observed(Failed), events;
          case PartiallyFailed =>
            return false, Observed(PartiallyFailed), events;
          case FailedValidation =>
            return false, Observed(FailedValidation), events;
          case InProgress =>
            polls := polls + 1;
        }
      }
      return false, GaveUp, events;
    }

    /** Requests the deletion, or adopts an earlier request, and polls until it is processed; succeeds only if
        that went without errors. */
    method DeleteBackup(name: string, patience: nat) returns (ok: bool, ghost effect: bool, ghost events: seq<Event>)
      modifies this`backups, this`deleteRequests, this`processed
      ensures deleteRequests == if effect then old(deleteRequests) + {name} else old(deleteRequests)
      ensures AllPossible(old(backups), deleteRequests, events) && backups == Replay(old(backups), events)
      ensures ok ==> effect || name in old(deleteRequests)
      ensures ok ==> name in processed && processed[name] == 0
    {
      events, effect := [], false;
      var posted: bool := *;
      if posted {
        effect := true;
        deleteRequests := deleteRequests + {name};
      }
      var accepted: bool := *;
      if !(accepted && name in deleteRequests) {
        return false, effect, events;
      }
      var polls := 0;
      while polls < patience
        invariant deleteRequests == if effect then old(deleteRequests) + {name} else old(deleteRequests)
        invariant name in deleteRequests
        invariant AllPossible(old(backups), deleteRequests, events) && backups == Replay(old(backups), events)
      {
        events := Elapse(old(backups), events);
        var reached: bool := *;
        if !reached {
          return false, effect, events;
        }
        if name in processed {
          return processed[name] == 0, effect, events;
        }
        polls := polls + 1;
      }
      return false, effect, events;
    }
  }
}

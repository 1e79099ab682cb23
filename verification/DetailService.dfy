/** GetDetail itself, statement by statement: read the cache, join or lead the
    single-flight fill, take the lock, read again, load, store, unlock, publish the
    result and leave the table.  Run without interference it is a run of DetailFill. */
module DetailService {
  import opened Common
  import opened DetailFill

  /** What the world does to one request: which reads fail, whether the lock was won in
      time, what the database answers and whether the cache write succeeds. */
  datatype Script = Script(firstBlind: bool, lockWon: bool, secondBlind: bool, loaded: Loaded, stored: bool)

  datatype Answer = Outcome(outcome: Outcome) | Waits(call: nat)

  lemma Extend(s0: Sys, steps: seq<Step>, s: Sys, step: Step, s': Sys)
    requires s == Run(s0, steps) && Enabled(s, step) && s' == After(s, step)
    ensures s' == Run(s0, steps + [step])
  {
    hide Enabled, After;
    assert (steps + [step])[..|steps|] == steps;
  }

  /** What an undisturbed leader answers: the cached entry, else what it loaded. */
  function LeaderOutcome(cache: Option<Entry>, world: Script): (o: DetailFill.Outcome)
    ensures Reads(cache, world) ==> o == if cache.value == Null then NotFound else Found(cache.value.v)
    ensures !Reads(cache, world) ==>
              o == if world.loaded == NoRow then NotFound
                   else if world.loaded == DbError then Failed else Found(world.loaded.v)
  {
    if cache.Some? && !world.secondBlind then OutcomeOf(cache.value)
    else match world.loaded
      case Row(v) => Found(v)
      case NoRow => NotFound
      case DbError => Failed
  }

  /** The second read finds the entry. */
  predicate Reads(cache: Option<Entry>, world: Script) { cache.Some? && !world.secondBlind }

  /** The protocol steps of an undisturbed fill from the lock to the unlock: the lock is won
      or lost as the world says, and nothing is loaded on a hit or stored on an error. */
  function FillSteps(r: nat, cache: Option<Entry>, world: Script): seq<Step> {
    [Lock(r, world.lockWon)] + [Check(r, world.secondBlind)]
    + (if Reads(cache, world) then [] else LoadSteps(r, world)) + [Unlock(r)]
  }

  function LoadSteps(r: nat, world: Script): seq<Step> {
    if world.loaded.DbError? then [Load(r, world.loaded)]
    else [Load(r, world.loaded)] + [Store(r, world.stored)]
  }

  /** What the cache holds after an undisturbed leader. */
  function CacheAfter(cache: Option<Entry>, world: Script): Option<Entry> {
    if (cache.Some? && !world.secondBlind) || world.loaded.DbError? || !world.stored then cache
    else Some(if world.loaded.Row? then Payload(world.loaded.v) else Null)
  }

  class Service {
    const instance: nat
    var cache: Option<Entry>
    var fills: map<nat, nat>
    var calls: map<nat, Call>
    ghost var requests: map<nat, Request>
    ghost var log: Log

    constructor (instance: nat)
      ensures this.instance == instance && State() == START
    {
      this.instance := instance;
      cache, fills, calls, requests, log := None, map[], map[], map[], Log(0, 0, 0, 0);
    }

    ghost function State(): Sys
      reads this
    {
      Sys(cache, fills, calls, requests, log)
    }

    ghost predicate At(r: nat, phase: Phase)
      reads this
    {
      r in requests && requests[r] == Request(instance, phase)
    }

    /** A cache read; an error or an absent entry is a miss. */
    method GetCached(blind: bool) returns (entry: Option<Entry>)
      ensures entry == if blind then None else cache
    {
      entry := if blind then None else cache;
    }

    /** Register a fill, or find the one to wait for. */
    method JoinFills(r: nat, c: nat) returns (waitFor: Option<nat>)
      requires At(r, Missed) && c !in calls
      modifies this`fills, this`calls, this`requests
      ensures State() == After(old(State()), Join(r, c))
      ensures waitFor == if instance in old(fills) then Some(old(fills)[instance]) else None
      ensures At(r, if waitFor.Some? then Following(waitFor.value) else Leading(c))
      ensures if waitFor.Some? then fills == old(fills) else c in calls && instance in fills
    {
      if instance in fills {
        requests := requests[r := Request(instance, Following(fills[instance]))];
        return Some(fills[instance]);
      }
      calls := calls[c := Call(instance, r, None)];
      fills := fills[instance := c];
      requests := requests[r := Request(instance, Leading(c))];
      waitFor := None;
    }

    method LoadAndStore(r: nat, c: nat, locked: bool, world: Script, ghost s0: Sys, ghost before: seq<Step>)
      returns (outcome: DetailFill.Outcome, ghost steps: seq<Step>)
      requires At(r, Loading(c, locked)) && State() == Run(s0, before)
      modifies this`cache, this`requests, this`log
      ensures At(r, Filled(c, locked, outcome)) && State() == Run(s0, steps)
      ensures outcome == LeaderOutcome(None, world) && steps == before + LoadSteps(r, world)
      ensures cache == if world.loaded.DbError? || !world.stored then old(cache)
                       else Some(if world.loaded.Row? then Payload(world.loaded.v) else Null)
    {
      hide Run;
      ghost var s := State();
      if world.loaded.DbError? {
        outcome := Failed;
        requests := requests[r := Request(instance, Filled(c, locked, outcome))];
        Extend(s0, before, s, Load(r, world.loaded), State());
        steps := before + [Load(r, world.loaded)];
        return;
      }
      var entry := if world.loaded.Row? then Payload(world.loaded.v) else Null;
      requests := requests[r := Request(instance, Storing(c, locked, entry))];
      Extend(s0, before, s, Load(r, world.loaded), State());
      s := State();
      if world.stored {
        cache := Some(entry);
        log := if locked then log.(lockedStores := log.lockedStores + 1) else log.(otherStores := log.otherStores + 1);
      }
      outcome := OutcomeOf(entry);
      requests := requests[r := Request(instance, Filled(c, locked, outcome))];
      Extend(s0, before + [Load(r, world.loaded)], s, Store(r, world.stored), State());
      steps := before + [Load(r, world.loaded)] + [Store(r, world.stored)];
      assert steps == before + LoadSteps(r, world);
    }

    /** Under the lock (or without it): read the cache again, and load only on a miss. */
    method CheckAndLoad(r: nat, c: nat, locked: bool, world: Script, ghost s0: Sys, ghost before: seq<Step>)
      returns (outcome: DetailFill.Outcome, ghost steps: seq<Step>)
      requires At(r, Checking(c, locked)) && State() == Run(s0, before)
      modifies this`cache, this`requests, this`log
      ensures At(r, Filled(c, locked, outcome)) && State() == Run(s0, steps)
      ensures outcome == LeaderOutcome(old(cache), world) && cache == CacheAfter(old(cache), world)
      ensures steps == before + [Check(r, world.secondBlind)]
                       + (if Reads(old(cache), world) then [] else LoadSteps(r, world))
    {
      hide Run;
      ghost var s := State();
      steps := before + [Check(r, world.secondBlind)];
      var again := GetCached(world.secondBlind);
      if again.Some? {
        outcome := OutcomeOf(again.value);
        requests := requests[r := Request(instance, Filled(c, locked, outcome))];
        Extend(s0, before, s, Check(r, world.secondBlind), State());
      } else {
        log := log.(misreads := log.misreads + if cache.Some? && locked then 1 else 0);
        requests := requests[r := Request(instance, Loading(c, locked))];
        Extend(s0, before, s, Check(r, world.secondBlind), State());
        outcome, steps := LoadAndStore(r, c, locked, world, s0, steps);
      }
    }

    /** The fill closure: lock (or give up on it), check and load, unlock. */
    method FillOnce(r: nat, c: nat, world: Script, ghost s0: Sys, ghost before: seq<Step>)
      returns (outcome: DetailFill.Outcome, ghost steps: seq<Step>)
      requires At(r, Leading(c)) && State() == Run(s0, before)
      modifies this`cache, this`requests, this`log
      ensures At(r, Closing(c, outcome)) && State() == Run(s0, steps)
      ensures outcome == LeaderOutcome(old(cache), world) && cache == CacheAfter(old(cache), world)
      ensures steps == before + FillSteps(r, old(cache), world)
    {
      hide Run, LeaderOutcome, CacheAfter, LoadSteps;
      ghost var s := State();
      var locked := world.lockWon;
      requests := requests[r := Request(instance, Checking(c, locked))];
      Extend(s0, before, s, Lock(r, locked), State());
      outcome, steps := CheckAndLoad(r, c, locked, world, s0, before + [Lock(r, locked)]);
      s := State();
      requests := requests[r := Request(instance, Closing(c, outcome))];
      Extend(s0, steps, s, Unlock(r), State());
      steps := steps + [Unlock(r)];
      assert steps == before + FillSteps(r, old(cache), world);
    }

    /** Publish the result to the followers, then leave the table. */
    method Finish(r: nat, c: nat, outcome: DetailFill.Outcome, ghost s0: Sys, ghost before: seq<Step>)
      returns (ghost steps: seq<Step>)
      requires At(r, Closing(c, outcome)) && c in calls && State() == Run(s0, before)
      modifies this`fills, this`calls, this`requests
      ensures At(r, Answered(outcome, Some(c))) && State() == Run(s0, steps)
      ensures instance !in fills && c in calls && calls[c].result == Some(outcome)
      ensures steps == before + [Close(r)] + [Clean(r)]
    {
      hide Run;
      ghost var s := State();
      calls := calls[c := calls[c].(result := Some(outcome))];
      requests := requests[r := Request(instance, Cleaning(c, outcome))];
      Extend(s0, before, s, Close(r), State());
      s := State();
      fills := fills - {instance};
      requests := requests[r := Request(instance, Answered(outcome, Some(c)))];
      Extend(s0, before + [Close(r)], s, Clean(r), State());
      steps := before + [Close(r)] + [Clean(r)];
    }

    /** One request, with the identifiers r and c unused so far.  A hit answers from the
        cache and changes nothing; a miss waits for a running fill of this instance, or
        leads one and leaves the table clean. */
    method GetDetail(r: nat, c: nat, world: Script) returns (answer: Answer, ghost steps: seq<Step>)
      requires r !in requests && c !in calls
      modifies this
      ensures State() == Run(old(State()), steps)
      ensures if old(cache).Some? && !world.firstBlind then
                && answer == Outcome(if old(cache).value == Null then NotFound else Found(old(cache).value.v))
                && cache == old(cache) && fills == old(fills)
              else if instance in old(fills) then
                answer == Waits(old(fills)[instance]) && cache == old(cache) && fills == old(fills)
              else
                && answer == Outcome(LeaderOutcome(old(cache), world)) && cache == CacheAfter(old(cache), world)
                && instance !in fills
      ensures steps == [Arrive(r, instance), Read(r, world.firstBlind)]
                       + (if old(cache).Some? && !world.firstBlind then []
                          else if instance in old(fills) then [Join(r, c)]
                          else [Join(r, c)] + FillSteps(r, old(cache), world) + [Close(r), Clean(r)])
    {
      hide Run, FillSteps;
      ghost var s0, s := State(), State();
      requests := requests[r := Request(instance, Arrived)];
      assert s0 == Run(s0, []) by { Nothing(s0); }
      Extend(s0, [], s, Arrive(r, instance), State());
      s := State();
      var first := GetCached(world.firstBlind);
      if first.Some? {
        requests := requests[r := Request(instance, Answered(OutcomeOf(first.value), None))];
        Extend(s0, [] + [Arrive(r, instance)], s, Read(r, world.firstBlind), State());
        return Outcome(OutcomeOf(first.value)), [] + [Arrive(r, instance)] + [Read(r, world.firstBlind)];
      }
      requests := requests[r := Request(instance, Missed)];
      Extend(s0, [] + [Arrive(r, instance)], s, Read(r, world.firstBlind), State());
      steps := [] + [Arrive(r, instance)] + [Read(r, world.firstBlind)];
      answer, steps := DoCacheFill(r, c, world, s0, steps);
    }

    method DoCacheFill(r: nat, c: nat, world: Script, ghost s0: Sys, ghost before: seq<Step>)
      returns (answer: Answer, ghost steps: seq<Step>)
      requires At(r, Missed) && c !in calls && State() == Run(s0, before)
      modifies this
      ensures State() == Run(s0, steps)
      ensures if instance in old(fills) then
                answer == Waits(old(fills)[instance]) && cache == old(cache) && fills == old(fills)
              else
                && answer == Outcome(LeaderOutcome(old(cache), world)) && cache == CacheAfter(old(cache), world)
                && instance !in fills && c in calls && calls[c].result == Some(answer.outcome)
      ensures steps == before + if instance in old(fills) then [Join(r, c)]
                                else [Join(r, c)] + FillSteps(r, old(cache), world) + [Close(r), Clean(r)]
    {
      hide Run, LeaderOutcome, CacheAfter, After, FillSteps;
      ghost var s := State();
      var waitFor := JoinFills(r, c);
      Extend(s0, before, s, Join(r, c), State());
      steps := before + [Join(r, c)];
      if waitFor.Some? {
        return Waits(waitFor.value), steps;
      }
      var outcome;
      outcome, steps := FillOnce(r, c, world, s0, steps);
      steps := Finish(r, c, outcome, s0, steps);
      answer := Outcome(outcome);
    }
  }

  lemma Nothing(s: Sys)
    ensures Run(s, []) == s
  {
  }
}

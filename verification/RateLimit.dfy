/** The fixed-window rate limiter: INCR a counter per identifier, give it a lifetime when it
    is created, admit while the count is within the limit. */
module RateLimit {
  import opened Common
  import opened Text

  /** INCR never leaves less than one. */
  type Positive = n: int | n >= 1 witness 1

  datatype Rule = Rule(name: string, limit: int, window: int)

  /** deadline None is a counter without a lifetime, whose EXPIRE was lost. */
  datatype Counter = Counter(count: Positive, deadline: Option<nat>)

  /** One request: when it arrives and which of its two Redis commands fail. */
  datatype Event = Event(at: nat, incrFails: bool, expireFails: bool)

  /** Passed is a request let through uncounted: the rule is off or Redis is down. */
  datatype Outcome = Passed | Admitted | Rejected

  predicate On(rule: Rule) { rule.limit >= 1 && rule.window > 0 }

  predicate Live(key: Option<Counter>, now: nat) {
    key.Some? && (key.value.deadline.Some? ==> now < key.value.deadline.value)
  }

  function Counted(rule: Rule, key: Option<Counter>, e: Event): Counter
    requires On(rule)
  {
    if Live(key, e.at) then key.value.(count := key.value.count + 1)
    else Counter(1, if e.expireFails then None else Some(e.at + rule.window))
  }

  function Step(rule: Rule, key: Option<Counter>, e: Event): (Option<Counter>, Outcome) {
    if !On(rule) || e.incrFails then (key, Passed)
    else
      var counter := Counted(rule, key, e);
      (Some(counter), if counter.count <= rule.limit then Admitted else Rejected)
  }

  predicate InOrder(events: seq<Event>) {
    forall i, j | 0 <= i < j < |events| :: events[i].at <= events[j].at
  }

  /** How many requests arriving from a to b, both included, the counter admits. */
  function AdmittedIn(rule: Rule, key: Option<Counter>, events: seq<Event>, a: int, b: int): nat
    decreases |events|
  {
    if events == [] then 0
    else
      var (key', outcome) := Step(rule, key, events[0]);
      (if outcome.Admitted? && a <= events[0].at <= b then 1 else 0) + AdmittedIn(rule, key', events[1..], a, b)
  }

  // ---------------------------------------------------------------- arithmetic of windows

  /** ceil(length / window), and 0 for nothing or less. */
  function Windows(length: int, window: int): (n: nat)
    requires window > 0
    decreases if length > 0 then length else 0
  {
    if length <= 0 then 0 else 1 + Windows(length - window, window)
  }

  lemma {:induction false} WindowsIsCeiling(length: int, window: int)
    requires length > 0 && window > 0
    ensures (Windows(length, window) - 1) * window < length <= Windows(length, window) * window
    decreases length
  {
    if length > window {
      var n := Windows(length - window, window);
      WindowsIsCeiling(length - window, window);
      assert (n - 1) * window + window == n * window && (n + 1) * window == n * window + window;
    } else {
      assert Windows(length - window, window) == 0;
    }
  }

  lemma {:induction false} WindowsGrow(x: int, y: int, window: int)
    requires window > 0 && x <= y
    ensures Windows(x, window) <= Windows(y, window)
    decreases if y > 0 then y else 0
  {
    if y > 0 {
      WindowsGrow(x - window, y - window, window);
    }
  }

  lemma OneMoreWindow(x: int, window: int)
    requires window > 0
    ensures Windows(x + 1, window) <= Windows(x, window) + 1
  {
    WindowsGrow(x + 1 - window, x, window);
  }

  lemma Scale(limit: nat, m: nat, n: nat)
    requires m <= n
    ensures limit * m <= limit * n
    ensures limit * (m + 1) == limit * m + limit
  {
  }

  // ---------------------------------------------------------------- the bound

  /** How many requests the counter can still admit from now to b. */
  function Capacity(rule: Rule, key: Option<Counter>, now: int, b: int): nat
    requires On(rule)
  {
    if now < 0 || !Live(key, now) then rule.limit * Windows(b + 1 - now, rule.window)
    else
      (if key.value.count < rule.limit then rule.limit - key.value.count else 0)
      + (if key.value.deadline.Some? then rule.limit * Windows(b + 1 - key.value.deadline.value, rule.window) else 0)
  }

  /** Waiting does not raise the capacity. */
  lemma CapacityShrinks(rule: Rule, key: Option<Counter>, now: nat, later: nat, b: int)
    requires On(rule) && now <= later
    ensures Capacity(rule, key, later, b) <= Capacity(rule, key, now, b)
  {
    if !Live(key, later) {
      if Live(key, now) {
        WindowsGrow(b + 1 - later, b + 1 - key.value.deadline.value, rule.window);
        Scale(rule.limit, Windows(b + 1 - later, rule.window), Windows(b + 1 - key.value.deadline.value, rule.window));
      } else {
        WindowsGrow(b + 1 - later, b + 1 - now, rule.window);
        Scale(rule.limit, Windows(b + 1 - later, rule.window), Windows(b + 1 - now, rule.window));
      }
    }
  }

  /** An admitted request uses up one unit of capacity. */
  lemma StepPays(rule: Rule, key: Option<Counter>, e: Event, b: int)
    requires On(rule) && e.at <= b
    ensures var (key', outcome) := Step(rule, key, e);
      Capacity(rule, key', e.at, b) + (if outcome.Admitted? then 1 else 0) <= Capacity(rule, key, e.at, b)
  {
    if !e.incrFails && !Live(key, e.at) {
      Scale(rule.limit, Windows(b + 1 - e.at - rule.window, rule.window), Windows(b + 1 - e.at, rule.window));
    }
  }

  lemma {:induction false} CapacityBounds(rule: Rule, key: Option<Counter>, events: seq<Event>,
                                          now: nat, a: int, b: int)
    requires On(rule) && InOrder(events) && forall e | e in events :: now <= e.at
    ensures AdmittedIn(rule, key, events, a, b) <= Capacity(rule, key, now, b)
    decreases |events|
  {
    if events != [] {
      var e := events[0];
      var key' := Step(rule, key, e).0;
      hide Capacity, Step, Windows;
      assert forall e' | e' in events[1..] :: e.at <= e'.at;
      CapacityBounds(rule, key', events[1..], e.at, a, b);
      if e.at <= b {
        CapacityShrinks(rule, key, now, e.at, b);
        StepPays(rule, key, e, b);
      } else {
        LateIsNotCounted(rule, key', events[1..], a, b);
      }
    }
  }

  lemma {:induction false} LateIsNotCounted(rule: Rule, key: Option<Counter>, events: seq<Event>, a: int, b: int)
    requires forall e | e in events :: b < e.at
    ensures AdmittedIn(rule, key, events, a, b) == 0
    decreases |events|
  {
    if events != [] {
      assert events[0] in events;
      LateIsNotCounted(rule, Step(rule, key, events[0]).0, events[1..], a, b);
    }
  }

  lemma CapacityAtStart(rule: Rule, key: Option<Counter>, now: nat, a: nat, b: int)
    requires On(rule) && a <= now && a <= b
    ensures Capacity(rule, key, now, b) <= rule.limit * (Windows(b - a, rule.window) + 1)
  {
    var w, n := rule.window, Windows(b - a, rule.window);
    if !Live(key, now) {
      WindowsGrow(b + 1 - now, b + 1 - a, w);
      OneMoreWindow(b - a, w);
      Scale(rule.limit, Windows(b + 1 - now, w), n + 1);
    } else if key.value.deadline.Some? {
      var d := key.value.deadline.value;
      WindowsGrow(b + 1 - d, b - a, w);
      Scale(rule.limit, Windows(b + 1 - d, w), n);
    } else {
      Scale(rule.limit, 0, n);
    }
  }

  /** From any counter, over every arrival sequence and whatever commands fail, a time
      interval of length L (ends included) sees at most Limit * (ceil(L / Window) + 1)
      counted admissions. */
  lemma {:induction false} IntervalBound(rule: Rule, key: Option<Counter>, events: seq<Event>, a: nat, b: nat)
    requires rule.limit >= 1 && rule.window > 0 && InOrder(events) && a <= b
    ensures AdmittedIn(rule, key, events, a, b) <= rule.limit * (Windows(b - a, rule.window) + 1)
    decreases |events|
  {
    hide Capacity, Step, Windows;
    if events == [] {
      Scale(rule.limit, 0, Windows(b - a, rule.window) + 1);
    } else if events[0].at < a {
      IntervalBound(rule, Step(rule, key, events[0]).0, events[1..], a, b);
    } else {
      CapacityBounds(rule, key, events, events[0].at, a, b);
      CapacityAtStart(rule, key, events[0].at, a, b);
    }
  }

  /** In particular no interval as long as the window sees more than 2 * Limit. */
  lemma TwiceTheLimit(rule: Rule, key: Option<Counter>, events: seq<Event>, a: nat)
    requires rule.limit >= 1 && rule.window > 0 && InOrder(events)
    ensures AdmittedIn(rule, key, events, a, a + rule.window) <= 2 * rule.limit
  {
    IntervalBound(rule, key, events, a, a + rule.window);
    assert Windows(rule.window, rule.window) == 1 by {
      assert Windows(0, rule.window) == 0;
    }
  }

  // ---------------------------------------------------------------- the bound is reached

  /** n requests at one instant, nothing failing. */
  function Burst(at: nat, n: nat): seq<Event> {
    if n == 0 then [] else [Event(at, false, false)] + Burst(at, n - 1)
  }

  lemma {:induction false} BurstAdmits(rule: Rule, c: Positive, d: nat, at: nat, n: nat, rest: seq<Event>,
                                       a: int, b: int)
    requires On(rule) && at < d && c + n <= rule.limit && a <= at <= b
    ensures AdmittedIn(rule, Some(Counter(c, Some(d))), Burst(at, n) + rest, a, b)
         == n + AdmittedIn(rule, Some(Counter(c + n, Some(d))), rest, a, b)
    decreases n
  {
    if n == 0 {
      assert Burst(at, n) + rest == rest;
    } else {
      var events := Burst(at, n) + rest;
      assert events[0] == Event(at, false, false) && events[1..] == Burst(at, n - 1) + rest;
      BurstAdmits(rule, c + 1, d, at, n - 1, rest, a, b);
    }
  }

  /** A burst that finds no live counter opens a window and is admitted up to the limit. */
  lemma FreshBurst(rule: Rule, key: Option<Counter>, at: nat, rest: seq<Event>, a: int, b: int)
    requires On(rule) && !Live(key, at) && a <= at <= b
    ensures AdmittedIn(rule, key, Burst(at, rule.limit) + rest, a, b)
         == rule.limit + AdmittedIn(rule, Some(Counter(rule.limit, Some(at + rule.window))), rest, a, b)
  {
    var events := Burst(at, rule.limit) + rest;
    assert events[0] == Event(at, false, false) && events[1..] == Burst(at, rule.limit - 1) + rest;
    BurstAdmits(rule, 1, at + rule.window, at, rule.limit - 1, rest, a, b);
  }

  /** The factor two cannot be improved: a full burst at the start of a window and another
      at its end are both admitted, under every rule. */
  lemma TwiceIsReached(rule: Rule, at: nat)
    requires rule.limit >= 1 && rule.window > 0
    ensures AdmittedIn(rule, None, Burst(at, rule.limit) + Burst(at + rule.window, rule.limit), at, at + rule.window)
         == 2 * rule.limit
  {
    var second := Burst(at + rule.window, rule.limit);
    var a, b := at, at + rule.window;
    FreshBurst(rule, None, at, second, a, b);
    var full := Some(Counter(rule.limit, Some(b)));
    FreshBurst(rule, full, b, [], a, b);
    assert second + [] == second;
  }

  // ---------------------------------------------------------------- one window

  /** The counter after a stretch of requests. */
  function KeyAfter(rule: Rule, key: Option<Counter>, events: seq<Event>): Option<Counter>
    decreases |events|
  {
    if events == [] then key else KeyAfter(rule, Step(rule, key, events[0]).0, events[1..])
  }

  /** Traffic does not prolong a window. */
  lemma {:induction false} WindowIsFixed(rule: Rule, c: Positive, d: nat, events: seq<Event>)
    requires rule.limit >= 1 && rule.window > 0 && forall e | e in events :: e.at < d
    ensures KeyAfter(rule, Some(Counter(c, Some(d))), events).Some?
    ensures KeyAfter(rule, Some(Counter(c, Some(d))), events).value.deadline == Some(d)
    decreases |events|
  {
    if events != [] {
      assert events[0] in events;
      WindowIsFixed(rule, if events[0].incrFails then c else c + 1, d, events[1..]);
    }
  }

  /** A window lasts exactly its length from the request that opened it: whatever happens
      inside it, a request at its end or later is admitted again. */
  lemma WindowEnds(rule: Rule, key: Option<Counter>, first: Event, inside: seq<Event>, next: Event)
    requires rule.limit >= 1 && rule.window > 0
    requires !Live(key, first.at) && !first.incrFails && !first.expireFails
    requires forall e | e in inside :: e.at < first.at + rule.window
    requires next.at >= first.at + rule.window && !next.incrFails
    ensures Step(rule, KeyAfter(rule, Step(rule, key, first).0, inside), next).1 == Admitted
  {
    WindowIsFixed(rule, 1, first.at + rule.window, inside);
  }

  /** Inside a window the limiter admits exactly what is left of the limit, first come
      first served, and rejects the rest. */
  lemma {:induction false} WindowAdmits(rule: Rule, c: Positive, d: nat, events: seq<Event>, a: int, b: int)
    requires rule.limit >= 1 && rule.window > 0
    requires forall e | e in events :: e.at < d && !e.incrFails && a <= e.at <= b
    ensures var left := if c < rule.limit then rule.limit - c else 0;
      AdmittedIn(rule, Some(Counter(c, Some(d))), events, a, b) == if |events| < left then |events| else left
    decreases |events|
  {
    if events != [] {
      assert events[0] in events;
      WindowAdmits(rule, c + 1, d, events[1..], a, b);
    }
  }

  // ---------------------------------------------------------------- a lost EXPIRE

  /** A counter without a lifetime never starts a new window: whatever happens later, it
      admits what is left of the limit and then nothing, ever. */
  lemma {:induction false} LostExpiryLocksOut(rule: Rule, count: Positive, events: seq<Event>, a: int, b: int)
    requires rule.limit >= 1 && rule.window > 0
    ensures AdmittedIn(rule, Some(Counter(count, None)), events, a, b)
         <= if count < rule.limit then rule.limit - count else 0
    decreases |events|
  {
    if events != [] {
      LostExpiryLocksOut(rule, if events[0].incrFails then count else count + 1, events[1..], a, b);
    }
  }

  // ---------------------------------------------------------------- identifiers and keys

  datatype Caller = User(id: nat) | Ip(address: string)

  /** rateLimitIdentifier, given what the request says about its caller. */
  function Identifier(perUser: bool, userId: nat, clientIp: string, remoteHost: string): Caller {
    if perUser && userId > 0 then User(userId)
    else if clientIp != "" then Ip(clientIp)
    else if remoteHost != "" then Ip(remoteHost)
    else Ip("unknown")
  }

  function CallerText(caller: Caller): string {
    match caller
    case User(id) => "user" + [':'] + Decimal(id)
    case Ip(address) => "ip" + [':'] + address
  }

  function Key(name: string, caller: Caller): string {
    "rate_limit:" + name + [':'] + CallerText(caller)
  }

  /** Two rules, or two callers of one rule, never share a counter (rule names have no
      colon). */
  lemma KeysApart(name: string, caller: Caller, name': string, caller': Caller)
    requires ':' !in name && ':' !in name' && Key(name, caller) == Key(name', caller')
    ensures name == name' && caller == caller'
  {
    var head := "rate_limit:";
    var x, y := CallerText(caller), CallerText(caller');
    assert Key(name, caller) == head + (name + [':'] + x);
    assert Key(name', caller') == head + (name' + [':'] + y);
    CancelPrefix(head, name + [':'] + x, name' + [':'] + y);
    SplitFirst(name, name', ':', x, y);
    CallersApart(caller, caller');
  }

  lemma CallersApart(caller: Caller, caller': Caller)
    requires CallerText(caller) == CallerText(caller')
    ensures caller == caller'
  {
    hide Decimal;
    assert CallerText(caller)[0] == if caller.User? then 'u' else 'i';
    assert CallerText(caller')[0] == if caller'.User? then 'u' else 'i';
    if caller.User? {
      CancelPrefix("user" + [':'], Decimal(caller.id), Decimal(caller'.id));
      DecimalInjective(caller.id, caller'.id);
    } else {
      CancelPrefix("ip" + [':'], caller.address, caller'.address);
    }
  }

  /** The address a request without a usable user is counted under. */
  function Address(clientIp: string, remoteHost: string): string {
    if clientIp != "" then clientIp else if remoteHost != "" then remoteHost else "unknown"
  }

  /** Two requests share a counter of a rule exactly when the rule is per user and both come
      from the same signed-in user, or neither counts as a user and the addresses agree. */
  lemma SharedCounter(name: string, perUser: bool, user: nat, ip: string, host: string,
                      user': nat, ip': string, host': string)
    requires ':' !in name
    ensures Key(name, Identifier(perUser, user, ip, host)) == Key(name, Identifier(perUser, user', ip', host')) <==>
      if perUser && (user > 0 || user' > 0) then user == user' else Address(ip, host) == Address(ip', host')
  {
    hide Key;
    if Key(name, Identifier(perUser, user, ip, host)) == Key(name, Identifier(perUser, user', ip', host')) {
      KeysApart(name, Identifier(perUser, user, ip, host), name, Identifier(perUser, user', ip', host'));
    }
  }

  // ---------------------------------------------------------------- the middleware

  /** The counter stored under a key. */
  function Stored(counters: map<string, Counter>, key: string): Option<Counter> {
    if key in counters then Some(counters[key]) else None
  }

  function Put(counters: map<string, Counter>, key: string, counter: Option<Counter>): map<string, Counter> {
    if counter.Some? then counters[key := counter.value] else counters
  }

  function StepAll(rule: Rule, counters: map<string, Counter>, key: string, e: Event): (map<string, Counter>, Outcome) {
    var (counter, outcome) := Step(rule, Stored(counters, key), e);
    (Put(counters, key, counter), outcome)
  }

  /** Requests of all callers, in order of arrival. */
  datatype Request = Request(key: string, event: Event)

  function AdmittedFor(rule: Rule, counters: map<string, Counter>, requests: seq<Request>, key: string,
                       a: int, b: int): nat
    decreases |requests|
  {
    if requests == [] then 0
    else
      var r := requests[0];
      var (counters', outcome) := StepAll(rule, counters, r.key, r.event);
      (if r.key == key && outcome.Admitted? && a <= r.event.at <= b then 1 else 0)
      + AdmittedFor(rule, counters', requests[1..], key, a, b)
  }

  function EventsOf(requests: seq<Request>, key: string): seq<Event> {
    if requests == [] then []
    else (if requests[0].key == key then [requests[0].event] else []) + EventsOf(requests[1..], key)
  }

  /** Callers do not disturb each other: in a mixed run each sees its own counter only. */
  lemma {:induction false} CallersAreIndependent(rule: Rule, counters: map<string, Counter>, requests: seq<Request>,
                                                 key: string, a: int, b: int)
    ensures AdmittedFor(rule, counters, requests, key, a, b)
         == AdmittedIn(rule, Stored(counters, key), EventsOf(requests, key), a, b)
    decreases |requests|
  {
    if requests != [] {
      var r := requests[0];
      var counters' := StepAll(rule, counters, r.key, r.event).0;
      CallersAreIndependent(rule, counters', requests[1..], key, a, b);
      var rest := EventsOf(requests[1..], key);
      if r.key == key {
        assert ([r.event] + rest)[1..] == rest;
      } else {
        assert [] + rest == rest;
      }
    }
  }

  lemma {:induction false} EventsInOrder(requests: seq<Request>, key: string, since: nat)
    requires forall i, j | 0 <= i < j < |requests| :: requests[i].event.at <= requests[j].event.at
    requires forall r | r in requests :: since <= r.event.at
    ensures InOrder(EventsOf(requests, key)) && forall e | e in EventsOf(requests, key) :: since <= e.at
  {
    if requests != [] {
      assert requests[0] in requests;
      EventsInOrder(requests[1..], key, requests[0].event.at);
    }
  }

  /** The interval bound for each caller in a mixed run of all callers. */
  lemma EachCallerIsBounded(rule: Rule, counters: map<string, Counter>, requests: seq<Request>, key: string,
                            a: nat, b: nat)
    requires rule.limit >= 1 && rule.window > 0 && a <= b
    requires forall i, j | 0 <= i < j < |requests| :: requests[i].event.at <= requests[j].event.at
    ensures AdmittedFor(rule, counters, requests, key, a, b) <= rule.limit * (Windows(b - a, rule.window) + 1)
  {
    hide AdmittedFor, AdmittedIn, Windows;
    CallersAreIndependent(rule, counters, requests, key, a, b);
    EventsInOrder(requests, key, 0);
    IntervalBound(rule, Stored(counters, key), EventsOf(requests, key), a, b);
  }

  class Middleware {
    const rule: Rule
    var counters: map<string, Counter>

    constructor (rule: Rule)
      ensures this.rule == rule && counters == map[]
    {
      this.rule := rule;
      counters := map[];
    }

    /** INCR: create at 1 (a dead counter counts as absent), else add one. */
    method Incr(key: string, now: nat) returns (count: Positive)
      modifies this
      ensures count == if Live(Stored(old(counters), key), now) then old(counters)[key].count + 1 else 1
      ensures counters == old(counters)[key := Counter(count,
                            if Live(Stored(old(counters), key), now) then old(counters)[key].deadline else None)]
    {
      if key in counters && !Live(Some(counters[key]), now) {
        counters := counters - {key};
      }
      count := if key in counters then counters[key].count + 1 else 1;
      counters := counters[key := Counter(count, if key in counters then counters[key].deadline else None)];
    }

    method Handle(key: string, e: Event) returns (outcome: Outcome)
      modifies this
      ensures (counters, outcome) == StepAll(rule, old(counters), key, e)
      ensures outcome.Passed? <==> rule.limit < 1 || rule.window <= 0 || e.incrFails
      ensures !outcome.Passed? ==> key in counters && (outcome.Admitted? <==> counters[key].count <= rule.limit)
    {
      if rule.limit < 1 || rule.window <= 0 {
        outcome := Passed;
        assert counters == Put(counters, key, Stored(counters, key));
        return;
      }
      if e.incrFails {
        assert counters == Put(counters, key, Stored(counters, key));
        return Passed;
      }
      var count := Incr(key, e.at);
      if count == 1 && !e.expireFails {
        counters := counters[key := counters[key].(deadline := Some(e.at + rule.window))];
      }
      assert counters == old(counters)[key := Counted(rule, Stored(old(counters), key), e)];
      outcome := if count <= rule.limit then Admitted else Rejected;
    }
  }
}

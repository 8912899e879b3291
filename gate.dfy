/**
 * The run gate of the webhook listener: a lock that keeps at most one
 * refresh running, and a cooldown flag that a finished refresh sets and a
 * timer clears. Wall-clock seconds become natural-number ticks, a thread
 * start becomes a call, and a refresh is split into its start (the lock is
 * taken) and its end (the lock is released), so notifications can arrive
 * while it runs.
 */
module Gate {
  import opened Common
  import Sync

  /**
   * A request to `/webhook`: the `validationToken` query parameter, if any,
   * and the JSON body, None when `request.json()` raises.
   */
  datatype Request = Request(validationToken: Option<string>, body: Option<string>)

  datatype Response =
    | PlainText(content: string, status: nat)   // the echoed validation token
    | Received                                   // `{"status": "received"}`

  /** `if validation_token:` — a missing or empty token is not a handshake. */
  predicate IsHandshake(req: Request)
  {
    req.validationToken.Some? && req.validationToken.value != ""
  }

  /** The answer to a request depends on the request alone. */
  function Respond(req: Request): (resp: Response)
    ensures resp.PlainText? <==> IsHandshake(req)
    ensures resp.PlainText? ==> resp.content == req.validationToken.value && resp.status == 200
  {
    if IsHandshake(req) then PlainText(req.validationToken.value, 200) else Received
  }

  /**
   * The listener's globals and the armed timers. `timers` holds the tick at
   * which each armed timer fires; `started` and `finished` count refreshes.
   */
  datatype GateState = GateState(
    locked: bool, isCooldown: bool, now: nat, startedAt: nat,
    timers: seq<nat>, started: nat, finished: nat)

  const Initial := GateState(false, false, 0, 0, [], 0, 0)

  /** The extra ticks a cooldown lasts beyond the duration of the refresh. */
  const CooldownBuffer: nat := 5

  /** A notification whose body parsed and that arrives outside a cooldown starts a worker thread. */
  predicate Triggers(g: GateState, req: Request)
  {
    !IsHandshake(req) && req.body.Some? && !g.isCooldown
  }

  /** `run_main_with_lock` up to the start of the refresh: skip when locked, else take the lock. */
  function Acquired(g: GateState): GateState
  {
    if g.locked then g else g.(locked := true, startedAt := g.now, started := g.started + 1)
  }

  function AfterNotify(g: GateState, req: Request): GateState
  {
    if Triggers(g, req) then Acquired(g) else g
  }

  /**
   * The rest of `run_main_with_lock`: the lock is released; a refresh that
   * returns arms a cooldown for its duration plus the buffer, one that
   * raises leaves the cooldown alone.
   */
  function AfterFinish(g: GateState, outcome: Sync.PassOutcome): GateState
  {
    if !g.locked then g
    else
      var g1 := g.(locked := false, finished := g.finished + 1);
      if outcome.Aborted? then g1
      else g1.(isCooldown := true, timers := g.timers + [g.now + Duration(g) + CooldownBuffer])
  }

  /** How long the running refresh has taken so far; the clock never runs backwards past its start. */
  function Duration(g: GateState): nat
  {
    if g.startedAt <= g.now then g.now - g.startedAt else 0
  }

  /** `reset_cooldown`. */
  function AfterReset(g: GateState): GateState
  {
    g.(isCooldown := false)
  }

  /** The deadlines that lie after tick `t`, in order. */
  function Pending(timers: seq<nat>, t: nat): (rest: seq<nat>)
    ensures forall i :: 0 <= i < |rest| ==> rest[i] > t
    ensures forall d :: d in rest <==> d in timers && d > t
    ensures |rest| <= |timers|
  {
    if timers == [] then []
    else (if timers[0] > t then [timers[0]] else []) + Pending(timers[1..], t)
  }

  predicate Fires(timers: seq<nat>, t: nat)
  {
    exists i :: 0 <= i < |timers| && timers[i] <= t
  }

  /** The clock advances by `dt` ticks; every timer due by then calls `reset_cooldown`. */
  function AfterTick(g: GateState, dt: nat): GateState
  {
    var t := g.now + dt;
    var g1 := g.(now := t, timers := Pending(g.timers, t));
    if Fires(g.timers, t) then AfterReset(g1) else g1
  }

  datatype Event = Notify(req: Request) | Finish(outcome: Sync.PassOutcome) | Tick(dt: nat)

  function Step(g: GateState, e: Event): GateState
  {
    match e
    case Notify(req) => AfterNotify(g, req)
    case Finish(outcome) => AfterFinish(g, outcome)
    case Tick(dt) => AfterTick(g, dt)
  }

  /** The state after a sequence of events, in order. */
  function Run(g: GateState, events: seq<Event>): GateState
    decreases |events|
  {
    if events == [] then g else Run(Step(g, events[0]), events[1..])
  }

  /**
   * What every reachable state satisfies: a refresh is either running or
   * not, and the started count exceeds the finished count by exactly that;
   * a cooldown is active exactly while its one timer is armed; no timer is
   * armed while a refresh runs; armed timers lie in the future.
   */
  ghost predicate Inv(g: GateState)
  {
    && g.startedAt <= g.now
    && g.started == g.finished + (if g.locked then 1 else 0)
    && |g.timers| <= 1
    && (g.isCooldown <==> |g.timers| == 1)
    && (g.locked ==> g.timers == [] && !g.isCooldown)
    && (forall i :: 0 <= i < |g.timers| ==> g.timers[i] > g.now)
  }

  lemma InitialInv()
    ensures Inv(Initial)
  {
  }

  lemma NotifyKeepsInv(g: GateState, req: Request)
    requires Inv(g)
    ensures Inv(AfterNotify(g, req))
  {
  }

  lemma FinishKeepsInv(g: GateState, outcome: Sync.PassOutcome)
    requires Inv(g)
    ensures Inv(AfterFinish(g, outcome))
  {
  }

  lemma TickKeepsInv(g: GateState, dt: nat)
    requires Inv(g)
    ensures Inv(AfterTick(g, dt))
  {
    var t := g.now + dt;
    if |g.timers| == 1 {
      if g.timers[0] <= t {
        assert Fires(g.timers, t);
        assert Pending(g.timers, t) == [];
      } else {
        assert !Fires(g.timers, t);
        assert Pending(g.timers, t) == g.timers;
      }
    } else {
      assert !Fires(g.timers, t);
    }
  }

  lemma StepKeepsInv(g: GateState, e: Event)
    requires Inv(g)
    ensures Inv(Step(g, e))
  {
    match e
    case Notify(req) => NotifyKeepsInv(g, req);
    case Finish(outcome) => FinishKeepsInv(g, outcome);
    case Tick(dt) => TickKeepsInv(g, dt);
  }

  /**
   * Whatever notifications, completions and clock ticks arrive, at most one
   * refresh is running: every refresh started but the one holding the lock
   * has finished, and none runs during a cooldown.
   */
  lemma {:induction false} AtMostOneRefresh(events: seq<Event>)
    ensures Run(Initial, events).started <= Run(Initial, events).finished + 1
    ensures Run(Initial, events).locked ==> !Run(Initial, events).isCooldown
  {
    InitialInv();
    RunKeepsInv(Initial, events);
  }

  lemma {:induction false} RunKeepsInv(g: GateState, events: seq<Event>)
    requires Inv(g)
    ensures Inv(Run(g, events))
    decreases |events|
  {
    if events != [] {
      StepKeepsInv(g, events[0]);
      RunKeepsInv(Step(g, events[0]), events[1..]);
    }
  }

  /** A validation handshake is echoed and changes nothing. */
  lemma HandshakeEchoed(g: GateState, token: string, body: Option<string>)
    requires token != ""
    ensures Respond(Request(Some(token), body)) == PlainText(token, 200)
    ensures AfterNotify(g, Request(Some(token), body)) == g
  {
  }

  /** Every other request is acknowledged, whether its body parses or not. */
  lemma NotificationAcknowledged(req: Request)
    requires !IsHandshake(req)
    ensures Respond(req) == Received
  {
  }

  /** A body that does not parse starts nothing. */
  lemma UnparsableBodyStartsNothing(g: GateState, req: Request)
    requires req.body.None?
    ensures AfterNotify(g, req) == g
  {
  }

  /** During a cooldown a notification starts no refresh. */
  lemma CooldownBlocksRefresh(g: GateState, req: Request)
    requires g.isCooldown
    ensures AfterNotify(g, req) == g
  {
  }

  /** While a refresh holds the lock, a notification starts no second one. */
  lemma LockBlocksRefresh(g: GateState, req: Request)
    requires g.locked
    ensures AfterNotify(g, req) == g
  {
  }

  /** A parsed notification outside cooldown, with no refresh running, starts exactly one. */
  lemma NotificationStartsRefresh(g: GateState, req: Request)
    requires !IsHandshake(req) && req.body.Some? && !g.isCooldown && !g.locked
    ensures AfterNotify(g, req).locked && AfterNotify(g, req).started == g.started + 1
    ensures AfterNotify(g, req).startedAt == g.now
  {
  }

  /**
   * A refresh that returns releases the lock and arms a cooldown that ends
   * its duration plus the buffer from now.
   */
  lemma FinishArmsCooldown(g: GateState, total: nat)
    requires Inv(g) && g.locked
    ensures !AfterFinish(g, Sync.Completed(total)).locked
    ensures AfterFinish(g, Sync.Completed(total)).isCooldown
    ensures AfterFinish(g, Sync.Completed(total)).timers == [g.now + (g.now - g.startedAt) + CooldownBuffer]
  {
  }

  /** A refresh that raises releases the lock and arms no cooldown. */
  lemma RaisingRefreshArmsNothing(g: GateState)
    requires Inv(g) && g.locked
    ensures !AfterFinish(g, Sync.Aborted).locked
    ensures !AfterFinish(g, Sync.Aborted).isCooldown && AfterFinish(g, Sync.Aborted).timers == []
  {
  }

  /**
   * The cooldown armed by a refresh lasts until its duration plus the buffer
   * has passed, and not a tick longer.
   */
  lemma CooldownLasts(g: GateState, total: nat, dt: nat)
    requires Inv(g) && g.locked
    ensures var f := AfterFinish(g, Sync.Completed(total));
            AfterTick(f, dt).isCooldown <==> dt < (g.now - g.startedAt) + CooldownBuffer
  {
    var f := AfterFinish(g, Sync.Completed(total));
    var t := f.now + dt;
    if f.timers[0] <= t {
      assert Fires(f.timers, t);
    } else {
      assert !Fires(f.timers, t);
    }
  }

  /** `reset_cooldown` clears the cooldown and nothing else, so the next notification may start a refresh. */
  lemma ResetReopens(g: GateState, req: Request)
    requires !IsHandshake(req) && req.body.Some? && !g.locked
    ensures AfterReset(g).locked == g.locked && AfterReset(g).timers == g.timers && AfterReset(g).now == g.now
    ensures AfterNotify(AfterReset(g), req).started == g.started + 1
  {
  }

  /**
   * The gate as written, with its worker threads: `spawned` threads have not
   * yet run the `lock.locked()` test, `blocked` ones passed it and wait in
   * `with lock`. A thread that passes the test while the lock is free takes
   * the lock later, whatever happened in between.
   */
  datatype ThreadedState = ThreadedState(gate: GateState, spawned: nat, blocked: nat)

  datatype ThreadEvent =
    | Arrive(req: Request)                  // `webhook` handles a request
    | Check                                 // a spawned thread runs the `lock.locked()` test
    | Enter                                 // a thread blocked in `with lock` takes the free lock
    | Return(outcome: Sync.PassOutcome)     // the refresh holding the lock returns or raises
    | Elapse(dt: nat)

  const ThreadedInitial := ThreadedState(Initial, 0, 0)

  function ThreadedStep(s: ThreadedState, e: ThreadEvent): ThreadedState
  {
    match e
    case Arrive(req) => if Triggers(s.gate, req) then s.(spawned := s.spawned + 1) else s
    case Check =>
      if s.spawned == 0 then s
      else if s.gate.locked then s.(spawned := s.spawned - 1)
      else s.(spawned := s.spawned - 1, blocked := s.blocked + 1)
    case Enter =>
      if s.blocked == 0 || s.gate.locked then s
      else s.(blocked := s.blocked - 1,
               gate := s.gate.(locked := true, startedAt := s.gate.now, started := s.gate.started + 1))
    case Return(outcome) => s.(gate := AfterFinish(s.gate, outcome))
    case Elapse(dt) => s.(gate := AfterTick(s.gate, dt))
  }

  function ThreadedRun(s: ThreadedState, events: seq<ThreadEvent>): ThreadedState
    decreases |events|
  {
    if events == [] then s else ThreadedRun(ThreadedStep(s, events[0]), events[1..])
  }

  /**
   * Two notifications arrive together; both worker threads find the lock free;
   * the first runs a refresh that returns and arms the cooldown; the second
   * then takes the lock and runs a second refresh during that cooldown.
   */
  lemma {:induction false} SecondRefreshDuringCooldown(req: Request)
    requires !IsHandshake(req) && req.body.Some?
    ensures var s := ThreadedRun(ThreadedInitial, [Arrive(req), Arrive(req), Check, Check, Enter, Return(Sync.Completed(0)), Enter]);
            s.gate.locked && s.gate.isCooldown && s.gate.started == 2 && s.gate.finished == 1
    ensures !Inv(ThreadedRun(ThreadedInitial, [Arrive(req), Arrive(req), Check, Check, Enter, Return(Sync.Completed(0)), Enter]).gate)
  {
    var events := [Arrive(req), Arrive(req), Check, Check, Enter, Return(Sync.Completed(0)), Enter];
    var s1 := ThreadedStep(ThreadedInitial, events[0]);
    assert s1 == ThreadedState(Initial, 1, 0);
    var s2 := ThreadedStep(s1, events[1]);
    assert s2 == ThreadedState(Initial, 2, 0);
    var s3 := ThreadedStep(s2, events[2]);
    var s4 := ThreadedStep(s3, events[3]);
    assert s4 == ThreadedState(Initial, 0, 2);
    var s5 := ThreadedStep(s4, events[4]);
    assert s5.gate.locked && s5.blocked == 1;
    var s6 := ThreadedStep(s5, events[5]);
    assert !s6.gate.locked && s6.gate.isCooldown && s6.blocked == 1;
    var s7 := ThreadedStep(s6, events[6]);
    assert ThreadedRun(s7, []) == s7;
    assert ThreadedRun(s6, events[6..]) == s7;
    assert ThreadedRun(s5, events[5..]) == s7;
    assert ThreadedRun(s4, events[4..]) == s7;
    assert ThreadedRun(s3, events[3..]) == s7;
    assert ThreadedRun(s2, events[2..]) == s7;
    assert ThreadedRun(s1, events[1..]) == s7;
  }

  /** The module-level globals of the listener together with the timers it has armed. */
  class Listener {
    var locked: bool
    var isCooldown: bool
    var now: nat
    var startedAt: nat
    var timers: seq<nat>
    ghost var started: nat
    ghost var finished: nat

    ghost function State(): GateState
      reads this
    {
      GateState(locked, isCooldown, now, startedAt, timers, started, finished)
    }

    ghost predicate Valid()
      reads this
    {
      Inv(State())
    }

    constructor ()
      ensures Valid() && State() == Initial
    {
      locked := false;
      isCooldown := false;
      now := 0;
      startedAt := 0;
      timers := [];
      started := 0;
      finished := 0;
    }

    /** `reset_cooldown`, as the timer calls it. */
    method ResetCooldown()
      modifies this
      ensures State() == AfterReset(old(State()))
    {
      isCooldown := false;
    }

    /** The start of `run_main_with_lock`: the lock check and acquisition, as one step. */
    method RunMainWithLock() returns (startedNow: bool)
      requires Valid() && !isCooldown
      modifies this
      ensures Valid()
      ensures startedNow <==> !old(locked)
      ensures State() == Acquired(old(State()))
    {
      if locked {
        return false;
      }
      locked := true;
      startedAt := now;
      started := started + 1;
      startedNow := true;
    }

    /** `webhook`: echo a handshake, else start a refresh unless cooling down, and acknowledge. */
    method Webhook(req: Request) returns (resp: Response, startedNow: bool)
      requires Valid()
      modifies this
      ensures Valid()
      ensures resp == Respond(req)
      ensures startedNow <==> Triggers(old(State()), req) && !old(locked)
      ensures State() == AfterNotify(old(State()), req)
    {
      if req.validationToken.Some? && req.validationToken.value != "" {
        return PlainText(req.validationToken.value, 200), false;
      }
      startedNow := false;
      if req.body.Some? && !isCooldown {
        startedNow := RunMainWithLock();
      }
      resp := Received;
    }

    /** The end of `run_main_with_lock`, once the refresh has returned or raised. */
    method FinishRun(outcome: Sync.PassOutcome)
      requires Valid() && locked
      modifies this
      ensures Valid()
      ensures State() == AfterFinish(old(State()), outcome)
    {
      FinishKeepsInv(State(), outcome);
      locked := false;
      finished := finished + 1;
      if outcome.Completed? {
        var duration := now - startedAt;
        isCooldown := true;
        timers := timers + [now + duration + CooldownBuffer];
      }
    }

    /** `dt` ticks pass; each timer that comes due calls `reset_cooldown`. */
    method Tick(dt: nat)
      requires Valid()
      modifies this
      ensures Valid()
      ensures State() == AfterTick(old(State()), dt)
    {
      TickKeepsInv(State(), dt);
      var t := now + dt;
      var fired := exists i :: 0 <= i < |timers| && timers[i] <= t;
      now := t;
      timers := Pending(timers, t);
      if fired {
        ResetCooldown();
      }
    }
  }
}

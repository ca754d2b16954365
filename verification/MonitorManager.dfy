/** The monitor operations as the source runs them. Each critical section is one action of the state machine,
    so what the machine guarantees over all runs holds of the manager after every operation. */
module MonitorManager {
  import opened Prelude
  import opened IdleMonitors

  /** How a request for a notification ends. */
  datatype Answer = Granted | Broken | Refused

  /** The first request, the reconnect and the globals it finds, and the second request. */
  datatype Schedule = Schedule(first: Answer, reconnected: bool, notifier: bool, seat: bool, second: Answer)

  datatype RequestError = NotSupported | BrokenPipe | OtherError

  /** A notification can be had: on the first request, or on the second after a broken pipe and a reconnect. */
  predicate Grants(notifier: bool, seat: bool, s: Schedule) {
    && notifier && seat
    && (s.first == Granted || (s.first == Broken && s.reconnected && s.notifier && s.seat && s.second == Granted))
  }

  /** The log has grown by actions of one operation, and reconnects. */
  ghost predicate Grown(before: seq<Action>, after: seq<Action>, op: Op) {
    && |before| <= |after| && after[..|before|] == before
    && forall i :: |before| <= i < |after| ==> after[i] in {Advance(op), Fail(op), Reconnect, Forget}
  }

  lemma GrownStart(log: seq<Action>, op: Op)
    ensures Grown(log, log, op)
  {
  }

  /** Only the last stage of an operation counts. */
  lemma Restaged(ops: map<Op, Pending>, op: Op, p: Pending, q: Pending)
    ensures ops[op := p][op := q] == ops[op := q] && ops[op := p] - {op} == ops - {op}
  {
  }

  lemma GrownBy(before: seq<Action>, log: seq<Action>, a: Action, op: Op)
    requires Grown(before, log, op) && a in {Advance(op), Fail(op), Reconnect, Forget}
    ensures Grown(before, log + [a], op)
  {
    assert (log + [a])[..|before|] == log[..|before|];
  }

  lemma RunTyped(h: seq<Action>)
    requires Run(h).Some?
    ensures Typed(Run(h).value)
  {
    RunKeepsBasic(h);
  }

  lemma FlipsOfRun(h: seq<Action>, m: MonitorRef)
    requires Run(h).Some? && m in Run(h).value.monitors
    ensures var s := Run(h).value; m in s.flips && Alternating(s.flips[m]) && (s.monitors[m].isIdle <==> |s.flips[m]| % 2 == 1)
  {
    RunKeepsBasic(h);
    var s := Run(h).value;
    assert MonitorOk(m, s.monitors[m], s.flips[m], s.owner);
  }

  lemma RequestStep(s: State, op: Op, m: MonitorRef, creating: bool)
    requires Typed(s) && op in s.ops && s.ops[op] == Ready(m, creating)
    ensures var n := s.nextNote;
            Step(s, Advance(op)) == Some(State(s.monitors, s.ops[op := Holding(m, creating, n)], s.live + {n}, s.owner[n := m], n + 1, s.flips))
  {
  }

  /** What a refresh leaves of its monitor. */
  predicate Refreshed(mon: Monitor, was: Monitor, ok: bool) {
    && mon.enabled == was.enabled && mon.listed == was.listed && mon.deleted == was.deleted && (ok ==> !mon.deleted)
    && (!mon.deleted ==> !mon.isIdle && (mon.notification.Some? <==> ok && mon.enabled))
  }

  predicate HasLive(mon: Monitor, live: set<Note>) { mon.notification.Some? ==> mon.notification.value in live }

  class IdleManager {
    // The globals of the current connection; either may be missing.
    var hasNotifier: bool
    var hasSeat: bool

    var monitors: map<MonitorRef, Monitor>
    var nextNote: Note
    ghost var ops: map<Op, Pending>
    ghost var live: set<Note>
    ghost var owner: map<Note, MonitorRef>
    ghost var flips: map<MonitorRef, seq<bool>>
    /** Every critical section so far. */
    ghost var log: seq<Action>

    ghost function Value(): State
      reads this
    {
      State(monitors, ops, live, owner, nextNote, flips)
    }

    /** The manager is where a run of the state machine got to. */
    ghost predicate Valid()
      reads this
    {
      Run(log) == Some(Value())
    }

    constructor ()
      ensures Valid() && log == [] && Value() == INITIAL
    {
      hasNotifier, hasSeat := false, false;
      monitors, nextNote := map[], 0;
      ops, live, owner, flips := map[], {}, map[], map[];
      log := [];
    }

    /** Logs a critical section that has just made the step a from s. */
    ghost method Log(s: State, a: Action)
      requires Run(log) == Some(s) && Typed(s) && Step(s, a) == Some(Value())
      modifies this`log
      ensures log == old(log) + [a] && Valid()
    {
      RunSnoc(log, a);
      log := log + [a];
    }

    // -------------------------------------------------------------------
    // Critical sections
    // -------------------------------------------------------------------

    /** None if the monitor was destroyed; else the notification it had and whether it is enabled. */
    method TakeNotification(ghost op: Op, m: MonitorRef, ghost creating: bool) returns (r: Option<(Option<Note>, bool)>)
      requires Valid() && m in monitors && op in ops && ops[op] == Begin(m, creating)
      modifies this`monitors, this`ops, this`log
      ensures Valid() && log == old(log) + [Advance(op)]
      ensures r == if old(monitors)[m].deleted then None else Some((old(monitors)[m].notification, old(monitors)[m].enabled))
      ensures ops == if r.Some? then old(ops)[op := Detached(m, creating, r.value.0, r.value.1)]
                     else if creating then old(ops)[op := Unlisting(m)] else old(ops) - {op}
      ensures monitors == if r.Some? then old(monitors)[m := old(monitors)[m].(notification := None)] else old(monitors)
    {
      RunTyped(log);
      ghost var s := Value();
      var mon := monitors[m];
      if mon.deleted {
        ops := if creating then ops[op := Unlisting(m)] else ops - {op};
        Log(s, Advance(op));
        return None;
      }
      monitors := monitors[m := mon.(notification := None)];
      ops := ops[op := Detached(m, creating, mon.notification, mon.enabled)];
      Log(s, Advance(op));
      r := Some((mon.notification, mon.enabled));
    }

    method DestroyFormer(ghost op: Op, ghost m: MonitorRef, ghost creating: bool, former: Option<Note>, ghost wanted: bool)
      requires Valid() && op in ops && ops[op] == Detached(m, creating, former, wanted)
      modifies this`live, this`ops, this`log
      ensures Valid() && log == old(log) + [Advance(op)] && ops == old(ops)[op := Cleared(m, creating, wanted)]
      ensures live == old(live) - (if former.Some? then {former.value} else {})
    {
      RunTyped(log);
      ghost var s := Value();
      if former.Some? {
        live := live - {former.value};
      }
      ops := ops[op := Cleared(m, creating, wanted)];
      Log(s, Advance(op));
    }

    method SetMonitorIdle(m: MonitorRef, idle: bool)
      requires m in monitors && m in flips
      modifies this`monitors, this`flips
      ensures Value() == SetIdle(old(Value()), m, idle)
    {
      if monitors[m].deleted || monitors[m].isIdle == idle {
        return;
      }
      monitors := monitors[m := monitors[m].(isIdle := idle)];
      flips := flips[m := flips[m] + [idle]];
    }

    /** The handler of a notification, which may run late. Afterwards a monitor that is not deleted has the state
        reported; a flip is recorded exactly on a change, and the flips still alternate, beginning with idle. */
    method HandleEvent(ghost n: Note, m: MonitorRef, idle: bool)
      requires Valid() && n in owner && owner[n] == m && m in monitors && m in flips
      modifies this`monitors, this`flips, this`log
      ensures Valid() && log == old(log) + [Event(n, idle)] && m in monitors && m in flips
      ensures !monitors[m].deleted ==> monitors[m].isIdle == idle
      ensures Alternating(flips[m]) && (monitors[m].isIdle <==> |flips[m]| % 2 == 1)
      ensures |flips[m]| == |old(flips)[m]| + (if old(monitors)[m].deleted || old(monitors)[m].isIdle == idle then 0 else 1)
    {
      RunTyped(log);
      ghost var s := Value();
      SetMonitorIdle(m, idle);
      Log(s, Event(n, idle));
      FlipsOfRun(log, m);
    }

    method ClearIdle(ghost op: Op, m: MonitorRef, ghost creating: bool, ghost wanted: bool)
      requires Valid() && m in monitors && op in ops && ops[op] == Cleared(m, creating, wanted)
      modifies this`monitors, this`flips, this`ops, this`log
      ensures Valid() && log == old(log) + [Advance(op)]
      ensures ops == if wanted then old(ops)[op := Ready(m, creating)] else old(ops) - {op}
      ensures var mon := old(monitors)[m];
              monitors == if mon.deleted then old(monitors) else old(monitors)[m := mon.(isIdle := false)]
    {
      RunTyped(log);
      ghost var s := Value();
      SetMonitorIdle(m, false);
      ops := if wanted then ops[op := Ready(m, creating)] else ops - {op};
      Log(s, Advance(op));
    }

    /** Asks for a notification; the answer comes from outside. */
    method Request(ghost op: Op, ghost m: MonitorRef, ghost creating: bool, answer: Answer) returns (r: Result<Note, RequestError>)
      requires Valid() && op in ops && ops[op] == Ready(m, creating)
      modifies this`live, this`owner, this`nextNote, this`ops, this`log
      ensures Valid() && log == old(log) + (if r.Ok? then [Advance(op)] else [])
      ensures ops == if r.Ok? then old(ops)[op := Holding(m, creating, r.value)] else old(ops)
      ensures r.Ok? <==> hasNotifier && hasSeat && answer == Granted
      ensures r.Err? ==> (r.error == BrokenPipe <==> hasNotifier && hasSeat && answer == Broken)
      ensures r.Ok? ==> r.value in live
    {
      if !hasNotifier || !hasSeat {
        return Err(NotSupported);
      }
      if answer != Granted {
        return Err(if answer == Broken then BrokenPipe else OtherError);
      }
      var n := NewNotification(op, m, creating);
      r := Ok(n);
    }

    method NewNotification(ghost op: Op, ghost m: MonitorRef, ghost creating: bool) returns (n: Note)
      requires Valid() && op in ops && ops[op] == Ready(m, creating)
      modifies this`live, this`owner, this`nextNote, this`ops, this`log
      ensures Valid() && log == old(log) + [Advance(op)] && ops == old(ops)[op := Holding(m, creating, n)] && n in live
    {
      RunTyped(log);
      ghost var s := Value();
      RequestStep(s, op, m, creating);
      n := nextNote;
      nextNote := n + 1;
      live := live + {n};
      owner := owner[n := m];
      ops := ops[op := Holding(m, creating, n)];
      Log(s, Advance(op));
    }

    /** A new connection takes requests; the old one's objects are gone. */
    ghost method Connected()
      requires Valid()
      modifies this`live, this`log
      ensures Valid() && log == old(log) + [Reconnect] && live == {}
    {
      RunTyped(log);
      ghost var s := Value();
      live := {};
      Log(s, Reconnect);
    }

    /** Every monitor in the table forgets its notification. */
    method InvalidateStaleProxies()
      requires Valid()
      modifies this`monitors, this`log
      ensures Valid() && log == old(log) + [Forget]
      ensures monitors == map m | m in old(monitors) :: Disconnected(old(monitors)[m])
    {
      RunTyped(log);
      ghost var s := Value();
      monitors := map m | m in monitors :: Disconnected(monitors[m]);
      Log(s, Forget);
    }

    /** On success the server is reached anew, and then the monitors forget what they had. */
    method ConnectWayland(ok: bool, notifier: bool, seat: bool)
      requires Valid()
      modifies this`monitors, this`live, this`log, this`hasNotifier, this`hasSeat
      ensures Valid() && log == old(log) + (if ok then [Reconnect] + [Forget] else [])
      ensures hasNotifier == notifier && hasSeat == seat && monitors.Keys == old(monitors.Keys)
      ensures forall m :: m in monitors ==> monitors[m] == if ok then Disconnected(old(monitors)[m]) else old(monitors)[m]
    {
      hasNotifier, hasSeat := notifier, seat;
      if ok {
        Connected();
        InvalidateStaleProxies();
        Assoc(old(log), [Reconnect], [Forget]);
      }
    }

    ghost method GiveUp(op: Op, m: MonitorRef, creating: bool)
      requires Valid() && op in ops && ops[op] == Ready(m, creating)
      modifies this`ops, this`log
      ensures Valid() && log == old(log) + [Fail(op)]
      ensures ops == if creating then old(ops)[op := Unlisting(m)] else old(ops) - {op}
    {
      RunTyped(log);
      var s := Value();
      ops := if creating then ops[op := Unlisting(m)] else ops - {op};
      Log(s, Fail(op));
    }

    /** Installs the new notification, unless the monitor was destroyed meanwhile. */
    method Install(ghost op: Op, m: MonitorRef, ghost creating: bool, n: Note) returns (ok: bool)
      requires Valid() && m in monitors && op in ops && ops[op] == Holding(m, creating, n)
      modifies this`monitors, this`ops, this`log
      ensures Valid() && log == old(log) + [Advance(op)] && ok == !old(monitors)[m].deleted
      ensures monitors == if ok then old(monitors)[m := old(monitors)[m].(notification := Some(n))] else old(monitors)
      ensures ops == if ok then old(ops) - {op} else old(ops)[op := Discarding(m, creating, n)]
    {
      RunTyped(log);
      ghost var s := Value();
      var mon := monitors[m];
      if mon.deleted {
        ops := ops[op := Discarding(m, creating, n)];
        Log(s, Advance(op));
        return false;
      }
      monitors := monitors[m := mon.(notification := Some(n))];
      ops := ops - {op};
      Log(s, Advance(op));
      ok := true;
    }

    method Discard(ghost op: Op, ghost m: MonitorRef, ghost creating: bool, n: Note)
      requires Valid() && op in ops && ops[op] == Discarding(m, creating, n)
      modifies this`live, this`ops, this`log
      ensures Valid() && log == old(log) + [Advance(op)] && live == old(live) - {n}
      ensures ops == if creating then old(ops)[op := Unlisting(m)] else old(ops) - {op}
    {
      RunTyped(log);
      ghost var s := Value();
      live := live - {n};
      ops := if creating then ops[op := Unlisting(m)] else ops - {op};
      Log(s, Advance(op));
    }

    // -------------------------------------------------------------------
    // Operations that nothing interrupts
    // -------------------------------------------------------------------

    /** A refresh is a run of its own actions. When nothing interrupts it, it ends with a live notification
        installed exactly if the monitor is enabled and a request succeeded, and with the idle flag cleared. */
    method RefreshMonitor(ghost op: Op, m: MonitorRef, ghost creating: bool, s: Schedule) returns (ok: bool)
      requires Valid() && m in monitors && op in ops && ops[op] == Begin(m, creating)
      modifies this
      ensures Valid() && Grown(old(log), log, op)
      ensures ok <==> !old(monitors)[m].deleted && (!old(monitors)[m].enabled || old(Grants(hasNotifier, hasSeat, s)))
      ensures ops == if ok || !creating then old(ops) - {op} else old(ops)[op := Unlisting(m)]
      ensures monitors.Keys == old(monitors.Keys) && Refreshed(monitors[m], old(monitors)[m], ok)
      ensures monitors[m].deleted || HasLive(monitors[m], live)
    {
      var enabled := ReleaseFormer(op, m, creating);
      if enabled.None? {
        return false;
      }
      if !enabled.value {
        return true;
      }
      Restaged(old(ops), op, Ready(m, creating), Unlisting(m));
      ok := RenewNotification(op, m, creating, s, old(log));
    }

    /** The second half: a new notification is requested and installed. */
    method RenewNotification(ghost op: Op, m: MonitorRef, ghost creating: bool, s: Schedule, ghost since: seq<Action>) returns (ok: bool)
      requires Valid() && m in monitors && op in ops && ops[op] == Ready(m, creating) && Grown(since, log, op)
      requires monitors[m].notification.None?
      modifies this
      ensures Valid() && Grown(since, log, op) && monitors.Keys == old(monitors.Keys)
      ensures ops == if ok || !creating then old(ops) - {op} else old(ops)[op := Unlisting(m)]
      ensures ok <==> !old(monitors)[m].deleted && old(Grants(hasNotifier, hasSeat, s))
      ensures ok ==> monitors[m].notification.Some? && HasLive(monitors[m], live)
                     && monitors[m] == old(monitors)[m].(notification := monitors[m].notification)
      ensures !ok ==> monitors[m] == old(monitors)[m]
    {
      var n := RequestNotification(op, m, creating, s, since);
      if n.None? {
        GrownBy(since, log, Fail(op), op);
        GiveUp(op, m, creating);
        return false;
      }
      Restaged(old(ops), op, Holding(m, creating, n.value), Unlisting(m));
      ok := InstallOrDiscard(op, m, creating, n.value, since);
    }

    /** The first half: the old notification goes, the idle flag is cleared. None if the monitor was destroyed. */
    method ReleaseFormer(ghost op: Op, m: MonitorRef, ghost creating: bool) returns (enabled: Option<bool>)
      requires Valid() && m in monitors && op in ops && ops[op] == Begin(m, creating)
      modifies this
      ensures Valid() && Grown(old(log), log, op) && monitors.Keys == old(monitors.Keys)
      ensures hasNotifier == old(hasNotifier) && hasSeat == old(hasSeat)
      ensures enabled == if old(monitors)[m].deleted then None else Some(old(monitors)[m].enabled)
      ensures monitors[m] == if enabled.None? then old(monitors)[m] else old(monitors)[m].(notification := None, isIdle := false)
      ensures ops == if enabled == Some(true) then old(ops)[op := Ready(m, creating)]
                     else if enabled.None? && creating then old(ops)[op := Unlisting(m)] else old(ops) - {op}
    {
      ghost var start := ops;
      GrownStart(log, op);
      GrownBy(log, log, Advance(op), op);
      var taken := TakeNotification(op, m, creating);
      if taken.None? {
        return None;
      }
      ClearOut(op, m, creating, taken.value.0, taken.value.1, old(log));
      Restaged(start, op, Detached(m, creating, taken.value.0, taken.value.1), Ready(m, creating));
      enabled := Some(taken.value.1);
    }

    method ClearOut(ghost op: Op, m: MonitorRef, ghost creating: bool, former: Option<Note>, ghost wanted: bool, ghost since: seq<Action>)
      requires Valid() && m in monitors && op in ops && ops[op] == Detached(m, creating, former, wanted) && Grown(since, log, op)
      requires !monitors[m].deleted
      modifies this
      ensures hasNotifier == old(hasNotifier) && hasSeat == old(hasSeat)
      ensures Valid() && Grown(since, log, op) && monitors == old(monitors)[m := old(monitors)[m].(isIdle := false)]
      ensures ops == if wanted then old(ops)[op := Ready(m, creating)] else old(ops) - {op}
    {
      Restaged(ops, op, Cleared(m, creating, wanted), Ready(m, creating));
      GrownBy(since, log, Advance(op), op);
      DestroyFormer(op, m, creating, former, wanted);
      GrownBy(since, log, Advance(op), op);
      ClearIdle(op, m, creating, wanted);
    }

    /** At most two attempts, with a reconnect in between when the first broke the pipe. */
    method RequestNotification(ghost op: Op, m: MonitorRef, ghost creating: bool, s: Schedule, ghost since: seq<Action>) returns (n: Option<Note>)
      requires Valid() && m in monitors && op in ops && ops[op] == Ready(m, creating) && Grown(since, log, op)
      requires monitors[m].notification.None?
      modifies this
      ensures Valid() && Grown(since, log, op) && monitors.Keys == old(monitors.Keys) && monitors[m] == old(monitors)[m]
      ensures ops == if n.Some? then old(ops)[op := Holding(m, creating, n.value)] else old(ops)
      ensures n.Some? <==> old(hasNotifier && hasSeat) && (s.first == Granted
                             || (s.first == Broken && s.reconnected && s.notifier && s.seat && s.second == Granted))
      ensures n.Some? ==> n.value in live
    {
      n := None;
      for attempt := 0 to 2
        invariant Valid() && n.None? && ops == old(ops) && Grown(since, log, op)
        invariant monitors.Keys == old(monitors.Keys) && monitors[m] == old(monitors)[m]
        invariant attempt == 0 ==> hasNotifier == old(hasNotifier) && hasSeat == old(hasSeat)
        invariant attempt > 0 ==> old(hasNotifier && hasSeat) && s.first == Broken && s.reconnected
                                  && hasNotifier == s.notifier && hasSeat == s.seat
        invariant attempt < 2
      {
        ghost var before := log;
        var answer := Request(op, m, creating, if attempt == 0 then s.first else s.second);
        if answer.Ok? {
          GrownBy(since, before, Advance(op), op);
          return Some(answer.value);
        }
        Unit(before);
        if !answer.error.BrokenPipe? || attempt == 1 {
          return None;
        }
        ConnectWayland(s.reconnected, s.notifier, s.seat);
        if !s.reconnected {
          return None;
        }
        GrownBy(since, before, Reconnect, op);
        GrownBy(since, before + [Reconnect], Forget, op);
        Assoc(before, [Reconnect], [Forget]);
      }
    }

    method InstallOrDiscard(ghost op: Op, m: MonitorRef, ghost creating: bool, n: Note, ghost since: seq<Action>) returns (ok: bool)
      requires Valid() && m in monitors && op in ops && ops[op] == Holding(m, creating, n) && Grown(since, log, op) && n in live
      modifies this
      ensures Valid() && Grown(since, log, op) && ok == !old(monitors)[m].deleted
      ensures monitors == if ok then old(monitors)[m := old(monitors)[m].(notification := Some(n))] else old(monitors)
      ensures ops == if ok || !creating then old(ops) - {op} else old(ops)[op := Unlisting(m)]
      ensures live == if ok then old(live) else old(live) - {n}
    {
      GrownBy(since, log, Advance(op), op);
      ok := Install(op, m, creating, n);
      if !ok {
        GrownBy(since, log, Advance(op), op);
        Discard(op, m, creating, n);
      }
    }

    /** A create either ends with a listed monitor, which has a live notification exactly if it is enabled,
        or leaves no entry for it and no notification. */
    method CreateIdleMonitor(ghost op: Op, m: MonitorRef, enabled: bool, s: Schedule) returns (ok: bool)
      requires Valid() && op !in ops && m !in monitors
      modifies this
      ensures Valid() && Grown(old(log) + [CreateMonitor(op, m, enabled)], log, op) && ops == old(ops)
      ensures ok <==> !enabled || old(Grants(hasNotifier, hasSeat, s))
      ensures m in monitors && monitors[m].listed == ok && monitors[m].enabled == enabled && !monitors[m].deleted
      ensures (monitors[m].notification.Some? <==> ok && enabled) && HasLive(monitors[m], live)
    {
      Enlist(op, m, enabled);
      ok := RefreshMonitor(op, m, true, s);
      if !ok {
        GrownBy(old(log) + [CreateMonitor(op, m, enabled)], log, Advance(op), op);
        Unlist(op, m);
      }
    }

    method Enlist(ghost op: Op, m: MonitorRef, enabled: bool)
      requires Valid() && op !in ops && m !in monitors
      modifies this
      ensures Valid() && log == old(log) + [CreateMonitor(op, m, enabled)]
      ensures hasNotifier == old(hasNotifier) && hasSeat == old(hasSeat)
      ensures monitors == old(monitors)[m := Monitor(enabled, false, false, true, None)] && ops == old(ops)[op := Begin(m, true)]
    {
      RunTyped(log);
      ghost var s := Value();
      monitors := monitors[m := Monitor(enabled, false, false, true, None)];
      flips := flips[m := []];
      ops := ops[op := Begin(m, true)];
      Log(s, CreateMonitor(op, m, enabled));
    }

    method Unlist(ghost op: Op, m: MonitorRef)
      requires Valid() && m in monitors && op in ops && ops[op] == Unlisting(m)
      modifies this`monitors, this`ops, this`log
      ensures Valid() && log == old(log) + [Advance(op)] && ops == old(ops) - {op}
      ensures monitors == old(monitors)[m := old(monitors)[m].(listed := false)]
    {
      RunTyped(log);
      ghost var s := Value();
      monitors := monitors[m := monitors[m].(listed := false)];
      ops := ops - {op};
      Log(s, Advance(op));
    }

    method UpdateIdleMonitor(ghost op: Op, m: MonitorRef, enabled: bool, s: Schedule) returns (ok: bool)
      requires Valid() && op !in ops
      modifies this
      ensures Valid() && ops == old(ops)
      ensures m !in old(monitors) || !old(monitors)[m].listed || old(monitors)[m].deleted ==> !ok && Value() == old(Value())
      ensures m in old(monitors) && old(monitors)[m].listed && !old(monitors)[m].deleted ==>
                && Grown(old(log) + [UpdateMonitor(op, m, enabled)], log, op)
                && (ok <==> !enabled || old(Grants(hasNotifier, hasSeat, s)))
                && m in monitors && Refreshed(monitors[m], old(monitors)[m].(enabled := enabled), ok) && HasLive(monitors[m], live)
    {
      if m !in monitors || !monitors[m].listed || monitors[m].deleted {
        return false;
      }
      BeginUpdate(op, m, enabled);
      ok := RefreshMonitor(op, m, false, s);
    }

    method BeginUpdate(ghost op: Op, m: MonitorRef, enabled: bool)
      requires Valid() && op !in ops && m in monitors && monitors[m].listed && !monitors[m].deleted
      modifies this`monitors, this`ops, this`log
      ensures Valid() && log == old(log) + [UpdateMonitor(op, m, enabled)]
      ensures monitors == old(monitors)[m := old(monitors)[m].(enabled := enabled)] && ops == old(ops)[op := Begin(m, false)]
    {
      RunTyped(log);
      ghost var s := Value();
      monitors := monitors[m := monitors[m].(enabled := enabled)];
      ops := ops[op := Begin(m, false)];
      Log(s, UpdateMonitor(op, m, enabled));
    }

    /** After a destroy the monitor is unlisted and deleted, and its notification is gone. */
    method DestroyIdleMonitor(ghost op: Op, m: MonitorRef) returns (ok: bool)
      requires Valid() && op !in ops
      modifies this
      ensures Valid() && ops == old(ops)
      ensures ok == (m in old(monitors) && old(monitors)[m].listed && !old(monitors)[m].deleted)
      ensures !ok ==> Value() == old(Value())
      ensures ok ==> monitors == old(monitors)[m := old(monitors)[m].(deleted := true, listed := false, notification := None)]
      ensures ok ==> live == old(live) - (if old(monitors)[m].notification.Some? then {old(monitors)[m].notification.value} else {})
    {
      if m !in monitors || !monitors[m].listed || monitors[m].deleted {
        return false;
      }
      var former := MarkDeleted(op, m);
      if former.Some? {
        DestroyNotification(op, m, former.value);
      }
      ok := true;
    }

    method MarkDeleted(ghost op: Op, m: MonitorRef) returns (former: Option<Note>)
      requires Valid() && op !in ops && m in monitors && monitors[m].listed && !monitors[m].deleted
      modifies this`monitors, this`ops, this`log
      ensures Valid() && log == old(log) + [DestroyMonitor(op, m)] && former == old(monitors)[m].notification
      ensures monitors == old(monitors)[m := old(monitors)[m].(deleted := true, listed := false, notification := None)]
      ensures ops == if former.Some? then old(ops)[op := Destroying(m, former.value)] else old(ops)
    {
      RunTyped(log);
      ghost var s := Value();
      former := monitors[m].notification;
      monitors := monitors[m := monitors[m].(deleted := true, listed := false, notification := None)];
      ops := if former.Some? then ops[op := Destroying(m, former.value)] else ops;
      Log(s, DestroyMonitor(op, m));
    }

    method DestroyNotification(ghost op: Op, ghost m: MonitorRef, n: Note)
      requires Valid() && op in ops && ops[op] == Destroying(m, n)
      modifies this`live, this`ops, this`log
      ensures Valid() && log == old(log) + [Advance(op)] && live == old(live) - {n} && ops == old(ops) - {op}
    {
      RunTyped(log);
      ghost var s := Value();
      live := live - {n};
      ops := ops - {op};
      Log(s, Advance(op));
    }
  }
}

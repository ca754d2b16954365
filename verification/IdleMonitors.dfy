/** Idle monitors under concurrent create, update, destroy, idle events and reconnects.
    One action is one critical section of the source (or one Wayland request under the socket lock). */
module IdleMonitors {
  import opened Prelude

  type MonitorRef = nat
  type Note = nat
  type Op = nat

  /** One monitor object. listed: the manager's table still maps its id to it. */
  datatype Monitor = Monitor(enabled: bool, isIdle: bool, deleted: bool, listed: bool, notification: Option<Note>)

  /** Where an operation in flight stands. creating: the refresh belongs to CreateIdleMonitor. */
  datatype Pending =
    | Begin(mon: MonitorRef, creating: bool)                            // about to take the old notification
    | Detached(mon: MonitorRef, creating: bool, former: Option<Note>, wanted: bool)  // about to destroy it
    | Cleared(mon: MonitorRef, creating: bool, wanted: bool)            // about to reset the idle flag
    | Ready(mon: MonitorRef, creating: bool)                            // about to request a new notification
    | Holding(mon: MonitorRef, creating: bool, note: Note)              // about to install it
    | Discarding(mon: MonitorRef, creating: bool, note: Note)           // monitor was destroyed meanwhile
    | Unlisting(mon: MonitorRef)                                        // a failed create, about to drop its entry
    | Destroying(mon: MonitorRef, note: Note)                           // DestroyIdleMonitor, about to destroy the notification

  datatype State = State(monitors: map<MonitorRef, Monitor>, ops: map<Op, Pending>, live: set<Note>,
                         owner: map<Note, MonitorRef>, nextNote: Note, flips: map<MonitorRef, seq<bool>>)

  const INITIAL := State(map[], map[], {}, map[], 0, map[])

  datatype Action =
    | CreateMonitor(op: Op, mon: MonitorRef, enabled: bool)
    | UpdateMonitor(op: Op, mon: MonitorRef, enabled: bool)
    | DestroyMonitor(op: Op, mon: MonitorRef)
    | Advance(op: Op)      // the next critical section of the operation, its requests succeeding
    | Fail(op: Op)         // the request of a ready refresh fails, twice or not retryably
    | Event(note: Note, idle: bool)
    | Reconnect
    | Forget

  // ---------------------------------------------------------------------
  // Steps
  // ---------------------------------------------------------------------

  /** setMonitorIdle. */
  function SetIdle(s: State, m: MonitorRef, idle: bool): State
    requires m in s.monitors && m in s.flips
  {
    var mon := s.monitors[m];
    if mon.deleted || mon.isIdle == idle then s
    else s.(monitors := s.monitors[m := mon.(isIdle := idle)], flips := s.flips[m := s.flips[m] + [idle]])
  }

  /** Ends a refresh with an error: a create still has to drop its table entry. */
  function Abort(s: State, op: Op, m: MonitorRef, creating: bool): State {
    s.(ops := if creating then s.ops[op := Unlisting(m)] else s.ops - {op})
  }

  predicate RefreshInFlight(s: State, m: MonitorRef) {
    exists op :: op in s.ops && !s.ops[op].Destroying? && s.ops[op].mon == m
  }

  /** Every note and monitor an operation mentions exists. */
  ghost predicate Typed(s: State) {
    && s.flips.Keys == s.monitors.Keys
    && (forall op :: op in s.ops ==> s.ops[op].mon in s.monitors)
    && (forall n :: n in s.owner ==> n < s.nextNote && s.owner[n] in s.monitors)
  }

  function StepCreate(s: State, op: Op, m: MonitorRef, enabled: bool): Option<State> {
    if op in s.ops || m in s.monitors then None
    else Some(s.(monitors := s.monitors[m := Monitor(enabled, false, false, true, None)],
                 ops := s.ops[op := Begin(m, true)], flips := s.flips[m := []]))
  }

  function StepUpdate(s: State, op: Op, m: MonitorRef, enabled: bool): Option<State> {
    if op in s.ops || m !in s.monitors || !s.monitors[m].listed || s.monitors[m].deleted then None
    else Some(s.(monitors := s.monitors[m := s.monitors[m].(enabled := enabled)], ops := s.ops[op := Begin(m, false)]))
  }

  function StepDestroy(s: State, op: Op, m: MonitorRef): Option<State> {
    if op in s.ops || m !in s.monitors || !s.monitors[m].listed || s.monitors[m].deleted then None
    else
      var mon := s.monitors[m];
      var t := s.(monitors := s.monitors[m := mon.(deleted := true, listed := false, notification := None)]);
      Some(if mon.notification.Some? then t.(ops := s.ops[op := Destroying(m, mon.notification.value)]) else t)
  }

  function StepAdvance(s: State, op: Op): Option<State>
    requires Typed(s)
  {
    if op !in s.ops then None
    else
      match s.ops[op]
      case Begin(m, creating) =>
        var mon := s.monitors[m];
        if mon.deleted then Some(Abort(s, op, m, creating))
        else Some(s.(monitors := s.monitors[m := mon.(notification := None)],
                     ops := s.ops[op := Detached(m, creating, mon.notification, mon.enabled)]))
      case Detached(m, creating, former, wanted) =>
        Some(s.(live := if former.Some? then s.live - {former.value} else s.live, ops := s.ops[op := Cleared(m, creating, wanted)]))
      case Cleared(m, creating, wanted) =>
        var t := SetIdle(s, m, false);
        Some(t.(ops := if wanted then t.ops[op := Ready(m, creating)] else t.ops - {op}))
      case Ready(m, creating) =>
        var n := s.nextNote;
        Some(s.(live := s.live + {n}, owner := s.owner[n := m], nextNote := n + 1, ops := s.ops[op := Holding(m, creating, n)]))
      case Holding(m, creating, n) =>
        var mon := s.monitors[m];
        if mon.deleted then Some(s.(ops := s.ops[op := Discarding(m, creating, n)]))
        else Some(s.(monitors := s.monitors[m := mon.(notification := Some(n))], ops := s.ops - {op}))
      case Discarding(m, creating, n) => Some(Abort(s.(live := s.live - {n}), op, m, creating))
      case Unlisting(m) =>
        Some(s.(monitors := s.monitors[m := s.monitors[m].(listed := false)], ops := s.ops - {op}))
      case Destroying(m, n) => Some(s.(live := s.live - {n}, ops := s.ops - {op}))
  }

  function StepFail(s: State, op: Op): Option<State> {
    if op in s.ops && s.ops[op].Ready? then Some(Abort(s, op, s.ops[op].mon, s.ops[op].creating)) else None
  }

  /** The handler of any notification ever created may run, even late. */
  function StepEvent(s: State, n: Note, idle: bool): Option<State>
    requires Typed(s)
  {
    if n in s.owner then Some(SetIdle(s, s.owner[n], idle)) else None
  }

  /** A new connection takes requests at once; the old one's objects are gone with it. */
  function StepReconnect(s: State): State { s.(live := {}) }

  /** Only then does every monitor in the table forget its notification. */
  function StepForget(s: State): State { s.(monitors := map m | m in s.monitors :: Disconnected(s.monitors[m])) }

  function Disconnected(mon: Monitor): Monitor { if mon.listed then mon.(notification := None) else mon }

  /** None when the action is not possible. */
  function Step(s: State, a: Action): Option<State>
    requires Typed(s)
  {
    match a
    case CreateMonitor(op, m, e) => StepCreate(s, op, m, e)
    case UpdateMonitor(op, m, e) => StepUpdate(s, op, m, e)
    case DestroyMonitor(op, m) => StepDestroy(s, op, m)
    case Advance(op) => StepAdvance(s, op)
    case Fail(op) => StepFail(s, op)
    case Event(n, idle) => StepEvent(s, n, idle)
    case Reconnect => Some(StepReconnect(s))
    case Forget => Some(StepForget(s))
  }

  // ---------------------------------------------------------------------
  // What always holds, however many updates run at once
  // ---------------------------------------------------------------------

  predicate Alternating(f: seq<bool>) { forall i :: 0 <= i < |f| ==> f[i] == (i % 2 == 0) }

  function NoteOf(p: Pending): Option<Note> {
    match p
    case Detached(_, _, former, _) => former
    case Holding(_, _, n) => Some(n)
    case Discarding(_, _, n) => Some(n)
    case Destroying(_, n) => Some(n)
    case _ => None
  }

  /** What is true of one monitor, its flips and the notification it has installed. */
  ghost predicate MonitorOk(m: MonitorRef, mon: Monitor, f: seq<bool>, owner: map<Note, MonitorRef>) {
    && Alternating(f) && (mon.isIdle <==> |f| % 2 == 1)
    && (mon.deleted ==> !mon.listed && mon.notification.None?)
    && (mon.notification.Some? ==> mon.notification.value in owner && owner[mon.notification.value] == m)
  }

  ghost predicate OpOk(p: Pending, owner: map<Note, MonitorRef>) {
    NoteOf(p).Some? ==> NoteOf(p).value in owner && owner[NoteOf(p).value] == p.mon
  }

  /** A notification is in one place at a time. */
  ghost predicate OnePlace(s: State) {
    && (forall o, o' :: o in s.ops && o' in s.ops && o != o' && NoteOf(s.ops[o]).Some? ==> NoteOf(s.ops[o]) != NoteOf(s.ops[o']))
    && (forall o, m :: o in s.ops && m in s.monitors && NoteOf(s.ops[o]).Some? ==> NoteOf(s.ops[o]) != s.monitors[m].notification)
  }

  ghost predicate Basic(s: State) {
    && Typed(s) && s.live <= s.owner.Keys
    && (forall m :: m in s.monitors ==> MonitorOk(m, s.monitors[m], s.flips[m], s.owner))
    && (forall op :: op in s.ops ==> OpOk(s.ops[op], s.owner))
    && OnePlace(s)
  }

  lemma AlternatingExtend(f: seq<bool>, b: bool)
    requires Alternating(f) && b == (|f| % 2 == 0)
    ensures Alternating(f + [b])
  {
  }

  lemma SetIdleKeepsBasic(s: State, m: MonitorRef, idle: bool)
    requires Basic(s) && m in s.monitors
    ensures Basic(SetIdle(s, m, idle))
  {
    var mon, t := s.monitors[m], SetIdle(s, m, idle);
    if !mon.deleted && mon.isIdle != idle {
      AlternatingExtend(s.flips[m], idle);
      assert MonitorOk(m, t.monitors[m], t.flips[m], t.owner);
      assert forall k :: k in s.monitors ==> t.monitors[k].notification == s.monitors[k].notification;
    }
  }

  /** Replacing or removing an operation whose new note, if any, was in no place but there. */
  lemma ReplaceOpKeepsBasic(s: State, op: Op, p: Option<Pending>)
    requires Basic(s) && op in s.ops
    requires p.Some? ==> p.value.mon == s.ops[op].mon && (NoteOf(p.value).None? || NoteOf(p.value) == NoteOf(s.ops[op]))
    ensures Basic(s.(ops := if p.Some? then s.ops[op := p.value] else s.ops - {op}))
  {
    assert OpOk(s.ops[op], s.owner);
    ReplaceOpKeepsPlace(s, op, p);
  }

  lemma ReplaceOpKeepsPlace(s: State, op: Op, p: Option<Pending>)
    requires OnePlace(s) && op in s.ops && (p.Some? ==> NoteOf(p.value).None? || NoteOf(p.value) == NoteOf(s.ops[op]))
    ensures OnePlace(s.(ops := if p.Some? then s.ops[op := p.value] else s.ops - {op}))
  {
  }

  lemma DropLiveKeepsBasic(s: State, n: Note)
    requires Basic(s)
    ensures Basic(s.(live := s.live - {n}))
  {
  }

  lemma BeginKeepsBasic(s: State, op: Op)
    requires Basic(s) && op in s.ops && s.ops[op].Begin? && !s.monitors[s.ops[op].mon].deleted
    ensures Basic(StepAdvance(s, op).value)
  {
    var m, t := s.ops[op].mon, StepAdvance(s, op).value;
    assert MonitorOk(m, s.monitors[m], s.flips[m], s.owner);
    assert MonitorOk(m, t.monitors[m], t.flips[m], t.owner);
    assert forall k :: k in s.monitors && k != m ==> MonitorOk(k, s.monitors[k], s.flips[k], s.owner);
  }

  lemma ReadyKeepsBasic(s: State, op: Op)
    requires Basic(s) && op in s.ops && s.ops[op].Ready?
    ensures Basic(StepAdvance(s, op).value)
  {
    var t := StepAdvance(s, op).value;
    assert s.nextNote !in s.owner;
    forall m | m in t.monitors ensures MonitorOk(m, t.monitors[m], t.flips[m], t.owner) {
      assert MonitorOk(m, s.monitors[m], s.flips[m], s.owner);
    }
    forall o | o in t.ops ensures OpOk(t.ops[o], t.owner) {
      assert OpOk(s.ops[o], s.owner);
    }
  }

  lemma HoldingKeepsBasic(s: State, op: Op)
    requires Basic(s) && op in s.ops && s.ops[op].Holding? && !s.monitors[s.ops[op].mon].deleted
    ensures Basic(StepAdvance(s, op).value)
  {
    var m, t := s.ops[op].mon, StepAdvance(s, op).value;
    assert OpOk(s.ops[op], s.owner) && MonitorOk(m, s.monitors[m], s.flips[m], s.owner);
    assert MonitorOk(m, t.monitors[m], t.flips[m], t.owner);
  }

  lemma UnlistKeepsBasic(s: State, op: Op)
    requires Basic(s) && op in s.ops && s.ops[op].Unlisting?
    ensures Basic(StepAdvance(s, op).value)
  {
    var m, t := s.ops[op].mon, StepAdvance(s, op).value;
    assert MonitorOk(m, s.monitors[m], s.flips[m], s.owner);
    assert MonitorOk(m, t.monitors[m], t.flips[m], t.owner);
  }

  lemma AdvanceKeepsBasic(s: State, op: Op)
    requires Basic(s) && StepAdvance(s, op).Some?
    ensures Basic(StepAdvance(s, op).value)
  {
    match s.ops[op]
    case Begin(m, creating) =>
      if s.monitors[m].deleted {
        ReplaceOpKeepsBasic(s, op, if creating then Some(Unlisting(m)) else None);
      } else {
        BeginKeepsBasic(s, op);
      }
    case Detached(m, creating, former, wanted) =>
      var t := if former.Some? then s.(live := s.live - {former.value}) else s;
      if former.Some? { DropLiveKeepsBasic(s, former.value); }
      ReplaceOpKeepsBasic(t, op, Some(Cleared(m, creating, wanted)));
    case Cleared(m, creating, wanted) =>
      SetIdleKeepsBasic(s, m, false);
      ReplaceOpKeepsBasic(SetIdle(s, m, false), op, if wanted then Some(Ready(m, creating)) else None);
    case Ready(m, creating) => ReadyKeepsBasic(s, op);
    case Holding(m, creating, n) =>
      if s.monitors[m].deleted {
        ReplaceOpKeepsBasic(s, op, Some(Discarding(m, creating, n)));
      } else {
        HoldingKeepsBasic(s, op);
      }
    case Discarding(m, creating, n) =>
      DropLiveKeepsBasic(s, n);
      ReplaceOpKeepsBasic(s.(live := s.live - {n}), op, if creating then Some(Unlisting(m)) else None);
    case Unlisting(m) => UnlistKeepsBasic(s, op);
    case Destroying(m, n) =>
      DropLiveKeepsBasic(s, n);
      ReplaceOpKeepsBasic(s.(live := s.live - {n}), op, None);
  }

  lemma CreateKeepsBasic(s: State, op: Op, m: MonitorRef, enabled: bool)
    requires Basic(s) && StepCreate(s, op, m, enabled).Some?
    ensures Basic(StepCreate(s, op, m, enabled).value)
  {
    var t := StepCreate(s, op, m, enabled).value;
    assert MonitorOk(m, t.monitors[m], t.flips[m], t.owner);
  }

  lemma UpdateKeepsBasic(s: State, op: Op, m: MonitorRef, enabled: bool)
    requires Basic(s) && StepUpdate(s, op, m, enabled).Some?
    ensures Basic(StepUpdate(s, op, m, enabled).value)
  {
    var mid := s.(monitors := s.monitors[m := s.monitors[m].(enabled := enabled)]);
    SwitchKeepsBasic(s, m, enabled);
    AddOpKeepsBasic(mid, op, Begin(m, false));
  }

  lemma SwitchKeepsBasic(s: State, m: MonitorRef, enabled: bool)
    requires Basic(s) && m in s.monitors
    ensures Basic(s.(monitors := s.monitors[m := s.monitors[m].(enabled := enabled)]))
  {
    assert MonitorOk(m, s.monitors[m], s.flips[m], s.owner);
  }

  lemma DestroyKeepsBasic(s: State, op: Op, m: MonitorRef)
    requires Basic(s) && StepDestroy(s, op, m).Some?
    ensures Basic(StepDestroy(s, op, m).value)
  {
    var mon := s.monitors[m];
    assert MonitorOk(m, mon, s.flips[m], s.owner);
    MarkDeletedKeepsBasic(s, m);
    var t := s.(monitors := s.monitors[m := mon.(deleted := true, listed := false, notification := None)]);
    if mon.notification.Some? {
      var n := mon.notification.value;
      assert forall o :: o in t.ops ==> NoteOf(t.ops[o]) != Some(n);
      forall k | k in t.monitors ensures t.monitors[k].notification != Some(n) {
        assert MonitorOk(k, t.monitors[k], t.flips[k], t.owner);
      }
      AddOpKeepsBasic(t, op, Destroying(m, n));
    }
  }

  lemma ForgetKeepsPlace(s: State, m: MonitorRef, mon: Monitor)
    requires OnePlace(s) && m in s.monitors && mon.notification.None?
    ensures OnePlace(s.(monitors := s.monitors[m := mon]))
  {
  }

  lemma MarkDeletedKeepsBasic(s: State, m: MonitorRef)
    requires Basic(s) && m in s.monitors
    ensures Basic(s.(monitors := s.monitors[m := s.monitors[m].(deleted := true, listed := false, notification := None)]))
  {
    ForgetKeepsPlace(s, m, s.monitors[m].(deleted := true, listed := false, notification := None));
    assert MonitorOk(m, s.monitors[m], s.flips[m], s.owner);
  }

  lemma AddOpKeepsBasic(s: State, op: Op, p: Pending)
    requires Basic(s) && op !in s.ops && p.mon in s.monitors && OpOk(p, s.owner)
    requires forall o :: o in s.ops && NoteOf(p).Some? ==> NoteOf(s.ops[o]) != NoteOf(p)
    requires forall k :: k in s.monitors && NoteOf(p).Some? ==> s.monitors[k].notification != NoteOf(p)
    ensures Basic(s.(ops := s.ops[op := p]))
  {
  }

  lemma ForgetKeepsBasic(s: State)
    requires Basic(s)
    ensures Basic(StepForget(s))
  {
    var t := StepForget(s);
    forall m | m in t.monitors ensures MonitorOk(m, t.monitors[m], t.flips[m], t.owner) {
      assert MonitorOk(m, s.monitors[m], s.flips[m], s.owner);
    }
  }

  lemma StepKeepsBasic(s: State, a: Action)
    requires Basic(s) && Step(s, a).Some?
    ensures Basic(Step(s, a).value)
  {
    match a
    case Advance(op) => AdvanceKeepsBasic(s, op);
    case Fail(op) =>
      ReplaceOpKeepsBasic(s, op, if s.ops[op].creating then Some(Unlisting(s.ops[op].mon)) else None);
    case Event(n, idle) => SetIdleKeepsBasic(s, s.owner[n], idle);
    case Reconnect =>
    case Forget => ForgetKeepsBasic(s);
    case CreateMonitor(op, m, e) => CreateKeepsBasic(s, op, m, e);
    case UpdateMonitor(op, m, e) => UpdateKeepsBasic(s, op, m, e);
    case DestroyMonitor(op, m) => DestroyKeepsBasic(s, op, m);
  }

  /** Once a monitor is deleted its idle state never flips again, and it stays deleted. */
  lemma DeletedStaysQuiet(s: State, a: Action, m: MonitorRef)
    requires Basic(s) && Step(s, a).Some? && m in s.monitors && s.monitors[m].deleted
    ensures var t := Step(s, a).value;
            m in t.monitors && t.monitors[m].deleted && t.flips[m] == s.flips[m]
  {
    if a.Advance? {
      AdvanceKeepsQuiet(s, a.op, m);
    }
  }

  lemma AdvanceKeepsQuiet(s: State, op: Op, m: MonitorRef)
    requires Typed(s) && StepAdvance(s, op).Some? && m in s.monitors && s.monitors[m].deleted
    ensures var t := StepAdvance(s, op).value;
            m in t.monitors && t.monitors[m].deleted && t.flips[m] == s.flips[m]
  {
  }

  // ---------------------------------------------------------------------
  // Orphans
  // ---------------------------------------------------------------------

  ghost predicate Installed(s: State, n: Note) {
    exists m :: m in s.monitors && s.monitors[m].listed && s.monitors[m].notification == Some(n)
  }

  ghost predicate Carried(s: State, n: Note) {
    exists op :: op in s.ops && NoteOf(s.ops[op]) == Some(n)
  }

  /** A live notification that nothing will ever destroy: no listed monitor has it installed and no
      operation carries it. */
  ghost predicate Orphan(s: State, n: Note) { n in s.live && !Installed(s, n) && !Carried(s, n) }

  /** The steps that lose track of n: installing over it, installing it on an unlisted monitor, dropping the table
      entry of a monitor that has it installed, and forgetting it although it was made on the new connection. */
  ghost predicate Loses(s: State, a: Action, n: Note)
    requires Typed(s)
  {
    (a.Forget? && Installed(s, n)) || (a.Advance? && a.op in s.ops && AdvanceLoses(s, s.ops[a.op], n))
  }

  predicate AdvanceLoses(s: State, p: Pending, n: Note)
    requires p.mon in s.monitors
  {
    var mon := s.monitors[p.mon];
    || (p.Holding? && !mon.deleted && mon.listed && mon.notification == Some(n))
    || (p.Holding? && !mon.deleted && !mon.listed && n == p.note)
    || (p.Unlisting? && mon.listed && mon.notification == Some(n))
  }

  ghost predicate CarriedElsewhere(s: State, op: Op, n: Note) {
    exists o :: o in s.ops && o != op && NoteOf(s.ops[o]) == Some(n)
  }

  /** A pending update of an unlisted monitor picks its notification up again. */
  ghost predicate Recovers(s: State, a: Action, n: Note)
    requires Typed(s)
  {
    a.Advance? && a.op in s.ops && s.ops[a.op].Begin?
    && !s.monitors[s.ops[a.op].mon].deleted && s.monitors[s.ops[a.op].mon].notification == Some(n)
  }

  ghost predicate OrphanLaw(s: State, a: Action, t: State, n: Note)
    requires Typed(s)
  {
    Orphan(t, n) <==> n in t.live && ((Orphan(s, n) && !Recovers(s, a, n)) || (n in s.live && Loses(s, a, n)))
  }

  /** Where n is, seen from one operation: installed on its owner, carried by op, or carried by another one;
      never in two of these places. */
  lemma Whereabouts(s: State, op: Op, n: Note)
    requires Basic(s) && n in s.owner
    ensures var mon := s.monitors[s.owner[n]];
            && (Installed(s, n) <==> mon.listed && mon.notification == Some(n))
            && (Carried(s, n) <==> (op in s.ops && NoteOf(s.ops[op]) == Some(n)) || CarriedElsewhere(s, op, n))
            && (op in s.ops && NoteOf(s.ops[op]) == Some(n) ==> mon.notification != Some(n) && !CarriedElsewhere(s, op, n)
                                                                && s.ops[op].mon == s.owner[n])
            && (mon.notification == Some(n) ==> !CarriedElsewhere(s, op, n))
  {
    if k :| k in s.monitors && s.monitors[k].listed && s.monitors[k].notification == Some(n) {
      assert MonitorOk(k, s.monitors[k], s.flips[k], s.owner);
    }
    if op in s.ops && NoteOf(s.ops[op]) == Some(n) {
      assert OpOk(s.ops[op], s.owner);
    }
  }

  lemma ElsewhereUnchanged(s: State, t: State, op: Op, n: Note)
    requires forall o :: o != op ==> (o in s.ops <==> o in t.ops) && (o in s.ops ==> s.ops[o] == t.ops[o])
    ensures CarriedElsewhere(s, op, n) <==> CarriedElsewhere(t, op, n)
  {
  }

  /** The whereabouts of n in two states that differ at most at one operation. */
  lemma Compare(s: State, t: State, op: Op, n: Note)
    requires Basic(s) && Basic(t) && n in s.live && n in t.live && t.owner == s.owner
    requires forall o :: o != op ==> (o in s.ops <==> o in t.ops) && (o in s.ops ==> s.ops[o] == t.ops[o])
    ensures var x, y := s.monitors[s.owner[n]], t.monitors[s.owner[n]];
            var a, b := op in s.ops && NoteOf(s.ops[op]) == Some(n), op in t.ops && NoteOf(t.ops[op]) == Some(n);
            && (Orphan(s, n) <==> !(x.listed && x.notification == Some(n)) && !a && !CarriedElsewhere(s, op, n))
            && (Orphan(t, n) <==> !(y.listed && y.notification == Some(n)) && !b && !CarriedElsewhere(s, op, n))
            && (a ==> x.notification != Some(n) && !CarriedElsewhere(s, op, n) && s.ops[op].mon == s.owner[n])
            && (x.notification == Some(n) ==> !CarriedElsewhere(s, op, n))
            && (x.deleted ==> x.notification.None?)
  {
    Whereabouts(s, op, n);
    Whereabouts(t, op, n);
    ElsewhereUnchanged(s, t, op, n);
    var m := s.owner[n];
    assert MonitorOk(m, s.monitors[m], s.flips[m], s.owner);
  }

  /** A step that neither moves n between operations nor changes where it is installed. */
  lemma Untouched(s: State, t: State, op: Op, n: Note)
    requires Basic(s) && Basic(t) && n in s.live && n in t.live && t.owner == s.owner
    requires forall o :: o != op ==> (o in s.ops <==> o in t.ops) && (o in s.ops ==> s.ops[o] == t.ops[o])
    requires op in s.ops ==> NoteOf(s.ops[op]) != Some(n)
    requires op in t.ops ==> NoteOf(t.ops[op]) != Some(n)
    requires var x, y := s.monitors[s.owner[n]], t.monitors[s.owner[n]];
             x.listed && x.notification == Some(n) <==> y.listed && y.notification == Some(n)
    ensures Orphan(t, n) <==> Orphan(s, n)
  {
    Compare(s, t, op, n);
  }

  lemma NotificationOwner(s: State, m: MonitorRef, n: Note)
    requires Basic(s) && m in s.monitors && s.monitors[m].notification == Some(n)
    ensures n in s.owner && s.owner[n] == m
  {
    assert MonitorOk(m, s.monitors[m], s.flips[m], s.owner);
  }

  lemma OrphanBegin(s: State, op: Op, n: Note)
    requires Basic(s) && op in s.ops && s.ops[op].Begin? && n in s.live && n in StepAdvance(s, op).value.live
    ensures OrphanLaw(s, Advance(op), StepAdvance(s, op).value, n)
  {
    AdvanceKeepsBasic(s, op);
    var t, m := StepAdvance(s, op).value, s.ops[op].mon;
    if s.monitors[m].deleted || s.monitors[m].notification != Some(n) {
      Untouched(s, t, op, n);
    } else {
      BeginTakes(s, op, n);
    }
  }

  /** The pending update takes n from its monitor. */
  lemma BeginTakes(s: State, op: Op, n: Note)
    requires Typed(s) && op in s.ops && s.ops[op].Begin? && n in s.live
    requires !s.monitors[s.ops[op].mon].deleted && s.monitors[s.ops[op].mon].notification == Some(n)
    ensures Recovers(s, Advance(op), n) && !Loses(s, Advance(op), n) && !Orphan(StepAdvance(s, op).value, n)
  {
    assert NoteOf(StepAdvance(s, op).value.ops[op]) == Some(n);
  }

  lemma OrphanDetached(s: State, op: Op, n: Note)
    requires Basic(s) && op in s.ops && s.ops[op].Detached? && n in s.live && n in StepAdvance(s, op).value.live
    ensures OrphanLaw(s, Advance(op), StepAdvance(s, op).value, n)
  {
    AdvanceKeepsBasic(s, op);
    Compare(s, StepAdvance(s, op).value, op, n);
  }

  lemma OrphanCleared(s: State, op: Op, n: Note)
    requires Basic(s) && op in s.ops && s.ops[op].Cleared? && n in s.live && n in StepAdvance(s, op).value.live
    ensures OrphanLaw(s, Advance(op), StepAdvance(s, op).value, n)
  {
    AdvanceKeepsBasic(s, op);
    Untouched(s, StepAdvance(s, op).value, op, n);
  }

  lemma OrphanHolding(s: State, op: Op, n: Note)
    requires Basic(s) && op in s.ops && s.ops[op].Holding? && n in s.live && n in StepAdvance(s, op).value.live
    ensures OrphanLaw(s, Advance(op), StepAdvance(s, op).value, n)
  {
    AdvanceKeepsBasic(s, op);
    var t, m := StepAdvance(s, op).value, s.ops[op].mon;
    if s.ops[op].note == n {
      HeldIsOwned(s, op, n);
      if s.monitors[m].deleted {
        assert NoteOf(t.ops[op]) == Some(n);
      } else {
        InstallsHeld(s, op, n);
      }
    } else if s.monitors[m].deleted {
      Untouched(s, t, op, n);
    } else {
      InstallsOver(s, op, n);
    }
  }

  lemma HeldIsOwned(s: State, op: Op, n: Note)
    requires Basic(s) && op in s.ops && NoteOf(s.ops[op]) == Some(n)
    ensures n in s.owner && s.owner[n] == s.ops[op].mon && Carried(s, n) && s.monitors[s.ops[op].mon].notification != Some(n)
  {
    assert OpOk(s.ops[op], s.owner);
  }

  /** Installing n itself loses it only on an unlisted monitor. */
  lemma InstallsHeld(s: State, op: Op, n: Note)
    requires Basic(s) && op in s.ops && s.ops[op].Holding? && s.ops[op].note == n && n in s.live && !s.monitors[s.ops[op].mon].deleted
    requires Basic(StepAdvance(s, op).value) && n in StepAdvance(s, op).value.live
    ensures OrphanLaw(s, Advance(op), StepAdvance(s, op).value, n)
  {
    HeldIsOwned(s, op, n);
    Compare(s, StepAdvance(s, op).value, op, n);
  }

  /** Installing another notification loses n if n was installed there. */
  lemma InstallsOver(s: State, op: Op, n: Note)
    requires Basic(s) && op in s.ops && s.ops[op].Holding? && s.ops[op].note != n && n in s.live && !s.monitors[s.ops[op].mon].deleted
    requires Basic(StepAdvance(s, op).value) && n in StepAdvance(s, op).value.live
    ensures OrphanLaw(s, Advance(op), StepAdvance(s, op).value, n)
  {
    Compare(s, StepAdvance(s, op).value, op, n);
    if s.monitors[s.ops[op].mon].notification == Some(n) {
      NotificationOwner(s, s.ops[op].mon, n);
    }
  }

  lemma OrphanDiscarding(s: State, op: Op, n: Note)
    requires Basic(s) && op in s.ops && s.ops[op].Discarding? && n in s.live && n in StepAdvance(s, op).value.live
    ensures OrphanLaw(s, Advance(op), StepAdvance(s, op).value, n)
  {
    AdvanceKeepsBasic(s, op);
    Compare(s, StepAdvance(s, op).value, op, n);
  }

  lemma OrphanUnlisting(s: State, op: Op, n: Note)
    requires Basic(s) && op in s.ops && s.ops[op].Unlisting? && n in s.live && n in StepAdvance(s, op).value.live
    ensures OrphanLaw(s, Advance(op), StepAdvance(s, op).value, n)
  {
    AdvanceKeepsBasic(s, op);
    Compare(s, StepAdvance(s, op).value, op, n);
    if s.monitors[s.ops[op].mon].notification == Some(n) {
      NotificationOwner(s, s.ops[op].mon, n);
    }
  }

  lemma OrphanDestroying(s: State, op: Op, n: Note)
    requires Basic(s) && op in s.ops && s.ops[op].Destroying? && n in s.live && n in StepAdvance(s, op).value.live
    ensures OrphanLaw(s, Advance(op), StepAdvance(s, op).value, n)
  {
    AdvanceKeepsBasic(s, op);
    Compare(s, StepAdvance(s, op).value, op, n);
  }

  lemma OrphanAdvance(s: State, op: Op, n: Note)
    requires Basic(s) && StepAdvance(s, op).Some? && n in s.live && n in StepAdvance(s, op).value.live
    ensures OrphanLaw(s, Advance(op), StepAdvance(s, op).value, n)
  {
    match s.ops[op]
    case Begin(_, _) => OrphanBegin(s, op, n);
    case Detached(_, _, _, _) => OrphanDetached(s, op, n);
    case Cleared(_, _, _) => OrphanCleared(s, op, n);
    case Ready(_, _) => OrphanReady(s, op, n);
    case Holding(_, _, _) => OrphanHolding(s, op, n);
    case Discarding(_, _, _) => OrphanDiscarding(s, op, n);
    case Unlisting(_) => OrphanUnlisting(s, op, n);
    case Destroying(_, _) => OrphanDestroying(s, op, n);
  }

  lemma OrphanReady(s: State, op: Op, n: Note)
    requires Basic(s) && op in s.ops && s.ops[op].Ready? && n in s.live
    ensures Orphan(StepAdvance(s, op).value, n) <==> Orphan(s, n)
  {
    var t := StepAdvance(s, op).value;
    AdvanceKeepsBasic(s, op);
    Whereabouts(s, op, n);
    Whereabouts(t, op, n);
    ElsewhereUnchanged(s, t, op, n);
  }

  lemma OrphanCreate(s: State, a: Action, n: Note)
    requires Basic(s) && a.CreateMonitor? && Step(s, a).Some? && n in s.live && n in Step(s, a).value.live
    ensures Orphan(Step(s, a).value, n) <==> Orphan(s, n)
  {
    StepKeepsBasic(s, a);
    Untouched(s, Step(s, a).value, a.op, n);
  }

  lemma OrphanUpdate(s: State, a: Action, n: Note)
    requires Basic(s) && a.UpdateMonitor? && Step(s, a).Some? && n in s.live && n in Step(s, a).value.live
    ensures Orphan(Step(s, a).value, n) <==> Orphan(s, n)
  {
    StepKeepsBasic(s, a);
    Untouched(s, Step(s, a).value, a.op, n);
  }

  /** What a destroy changes. */
  ghost predicate Destroyed(s: State, op: Op, m: MonitorRef, t: State)
    requires m in s.monitors
  {
    && t.live == s.live && t.owner == s.owner && m in t.monitors && t.monitors[m].notification.None?
    && (forall k :: k in s.monitors && k != m ==> k in t.monitors && t.monitors[k] == s.monitors[k])
    && (forall o :: o != op ==> (o in s.ops <==> o in t.ops) && (o in s.ops ==> s.ops[o] == t.ops[o]))
    && op !in s.ops && s.monitors[m].listed
    && (op in t.ops <==> s.monitors[m].notification.Some?) && (op in t.ops ==> NoteOf(t.ops[op]) == s.monitors[m].notification)
  }

  lemma DestroyedBy(s: State, a: Action)
    requires Typed(s) && a.DestroyMonitor? && Step(s, a).Some?
    ensures a.mon in s.monitors && Destroyed(s, a.op, a.mon, Step(s, a).value)
  {
  }

  lemma DestroyMovesNote(s: State, op: Op, m: MonitorRef, t: State, n: Note)
    requires Basic(s) && Basic(t) && m in s.monitors && Destroyed(s, op, m, t) && n in s.live && n in t.live
    ensures Orphan(t, n) <==> Orphan(s, n)
  {
    if s.monitors[m].notification == Some(n) {
      assert Installed(s, n);
      assert NoteOf(t.ops[op]) == Some(n);
    } else {
      Untouched(s, t, op, n);
    }
  }

  lemma OrphanDestroy(s: State, a: Action, n: Note)
    requires Basic(s) && a.DestroyMonitor? && Step(s, a).Some? && n in s.live && n in Step(s, a).value.live
    ensures Orphan(Step(s, a).value, n) <==> Orphan(s, n)
  {
    StepKeepsBasic(s, a);
    DestroyedBy(s, a);
    DestroyMovesNote(s, a.op, a.mon, Step(s, a).value, n);
  }

  lemma OrphanFail(s: State, a: Action, n: Note)
    requires Basic(s) && a.Fail? && Step(s, a).Some? && n in s.live && n in Step(s, a).value.live
    ensures Orphan(Step(s, a).value, n) <==> Orphan(s, n)
  {
    StepKeepsBasic(s, a);
    Untouched(s, Step(s, a).value, a.op, n);
  }

  lemma OrphanEvent(s: State, a: Action, n: Note)
    requires Basic(s) && a.Event? && Step(s, a).Some? && n in s.live && n in Step(s, a).value.live
    ensures Orphan(Step(s, a).value, n) <==> Orphan(s, n)
  {
    StepKeepsBasic(s, a);
    Compare(s, Step(s, a).value, 0, n);
  }

  /** Which step makes an orphan of a live notification: exactly the ones that lose it. */
  lemma OrphanedExactlyBy(s: State, a: Action, n: Note)
    requires Basic(s) && Step(s, a).Some?
    ensures OrphanLaw(s, a, Step(s, a).value, n)
  {
    if n in s.live && n in Step(s, a).value.live {
      match a
      case Advance(op) => OrphanAdvance(s, op, n);
      case Event(_, _) => OrphanEvent(s, a, n);
      case CreateMonitor(_, _, _) => OrphanCreate(s, a, n);
      case UpdateMonitor(_, _, _) => OrphanUpdate(s, a, n);
      case DestroyMonitor(_, _) => OrphanDestroy(s, a, n);
      case Fail(_) => OrphanFail(s, a, n);
      case Reconnect =>
      case Forget => OrphanForget(s, n);
    } else if n in Step(s, a).value.live {
      FreshIsCarried(s, a, n);
    }
  }

  lemma OrphanForget(s: State, n: Note)
    requires Basic(s) && n in s.live
    ensures OrphanLaw(s, Forget, StepForget(s), n)
  {
    var t := StepForget(s);
    assert !Installed(t, n);
    assert Carried(t, n) <==> Carried(s, n);
    assert Installed(s, n) ==> !Carried(s, n);
  }

  lemma FreshIsCarried(s: State, a: Action, n: Note)
    requires Basic(s) && Step(s, a).Some? && n !in s.live && n in Step(s, a).value.live
    ensures Carried(Step(s, a).value, n)
  {
    var t := Step(s, a).value;
    assert a.Advance? && t.ops[a.op] == Holding(s.ops[a.op].mon, s.ops[a.op].creating, n);
  }

  // ---------------------------------------------------------------------
  // At most one refresh in flight per monitor
  // ---------------------------------------------------------------------

  /** No listed monitor has a notification of the connection in use. */
  predicate NothingRenewed(s: State) {
    forall m :: m in s.monitors && s.monitors[m].listed && s.monitors[m].notification.Some? ==> s.monitors[m].notification.value !in s.live
  }

  /** The callers' discipline: no update is started on a monitor that is still being refreshed, and no notification is
      installed between a reconnect and the point where the monitors forget theirs. */
  predicate Disciplined(s: State, a: Action) {
    (a.UpdateMonitor? ==> !RefreshInFlight(s, a.mon)) && (a.Forget? ==> NothingRenewed(s))
  }

  ghost predicate RefreshOk(p: Pending, mon: Monitor) {
    !p.Destroying? ==> (mon.deleted || mon.listed) && (!p.Begin? ==> mon.notification.None?)
  }

  ghost predicate Exclusive(s: State)
    requires Typed(s)
  {
    && (forall o, o' :: o in s.ops && o' in s.ops && o != o' && !s.ops[o].Destroying? && !s.ops[o'].Destroying? ==> s.ops[o].mon != s.ops[o'].mon)
    && (forall o :: o in s.ops ==> RefreshOk(s.ops[o], s.monitors[s.ops[o].mon]))
    && (forall m :: m in s.monitors && !s.monitors[m].listed ==> s.monitors[m].notification.None?)
  }

  lemma ExclusiveNeverLoses(s: State, a: Action, n: Note)
    requires Basic(s) && Exclusive(s) && Disciplined(s, a) && n in s.live
    ensures !Loses(s, a, n)
  {
    if a.Advance? && a.op in s.ops {
      assert RefreshOk(s.ops[a.op], s.monitors[s.ops[a.op].mon]);
    }
  }

  /** t differs from s at most at operation op and at its monitor. */
  ghost predicate Local(s: State, op: Op, t: State)
    requires Typed(s) && op in s.ops
  {
    var m := s.ops[op].mon;
    && t.monitors.Keys == s.monitors.Keys
    && (forall k :: k in s.monitors && k != m ==> t.monitors[k] == s.monitors[k])
    && (forall o :: o in t.ops ==> o in s.ops && (o != op ==> t.ops[o] == s.ops[o]))
    && (op in t.ops ==> t.ops[op].mon == m && (t.ops[op].Destroying? <==> s.ops[op].Destroying?))
    && (s.ops[op].Destroying? ==> t.monitors == s.monitors && op !in t.ops)
  }

  lemma AdvanceIsLocal(s: State, op: Op)
    requires Typed(s) && StepAdvance(s, op).Some?
    ensures Local(s, op, StepAdvance(s, op).value)
  {
  }

  /** What an advance does to its own monitor and operation. */
  lemma AdvanceOwn(s: State, op: Op)
    requires Basic(s) && StepAdvance(s, op).Some? && RefreshOk(s.ops[op], s.monitors[s.ops[op].mon])
    ensures var t, m := StepAdvance(s, op).value, s.ops[op].mon;
            && (op in t.ops ==> RefreshOk(t.ops[op], t.monitors[m]))
            && ((!s.monitors[m].listed ==> s.monitors[m].notification.None?) && !t.monitors[m].listed
                ==> t.monitors[m].notification.None?)
  {
    var m := s.ops[op].mon;
    assert MonitorOk(m, s.monitors[m], s.flips[m], s.owner);
  }

  lemma AdvanceKeepsExclusive(s: State, op: Op)
    requires Basic(s) && Exclusive(s) && StepAdvance(s, op).Some?
    ensures Typed(StepAdvance(s, op).value) && Exclusive(StepAdvance(s, op).value)
  {
    AdvanceKeepsBasic(s, op);
    AdvanceIsLocal(s, op);
    assert RefreshOk(s.ops[op], s.monitors[s.ops[op].mon]);
    AdvanceOwn(s, op);
    LocalKeepsExclusive(s, op, StepAdvance(s, op).value);
  }

  lemma LocalKeepsExclusive(s: State, op: Op, t: State)
    requires Typed(s) && Typed(t) && Exclusive(s) && op in s.ops && Local(s, op, t)
    requires op in t.ops ==> RefreshOk(t.ops[op], t.monitors[s.ops[op].mon])
    requires !t.monitors[s.ops[op].mon].listed ==> t.monitors[s.ops[op].mon].notification.None?
    ensures Exclusive(t)
  {
    forall o | o in t.ops ensures RefreshOk(t.ops[o], t.monitors[t.ops[o].mon]) {
      assert o != op ==> RefreshOk(s.ops[o], s.monitors[s.ops[o].mon]);
    }
  }

  lemma CreateKeepsExclusive(s: State, a: Action)
    requires Basic(s) && Exclusive(s) && a.CreateMonitor? && Step(s, a).Some?
    ensures Exclusive(Step(s, a).value)
  {
    var t := Step(s, a).value;
    forall o | o in t.ops ensures RefreshOk(t.ops[o], t.monitors[t.ops[o].mon]) {
      assert o == a.op || RefreshOk(s.ops[o], s.monitors[s.ops[o].mon]);
    }
  }

  lemma UpdateKeepsExclusive(s: State, a: Action)
    requires Basic(s) && Exclusive(s) && a.UpdateMonitor? && Step(s, a).Some? && Disciplined(s, a)
    ensures Exclusive(Step(s, a).value)
  {
    var t := Step(s, a).value;
    forall o | o in t.ops ensures RefreshOk(t.ops[o], t.monitors[t.ops[o].mon]) {
      assert o == a.op || RefreshOk(s.ops[o], s.monitors[s.ops[o].mon]);
    }
  }

  lemma DestroyKeepsExclusive(s: State, a: Action)
    requires Basic(s) && Exclusive(s) && a.DestroyMonitor? && Step(s, a).Some?
    ensures Exclusive(Step(s, a).value)
  {
    var t := Step(s, a).value;
    forall o | o in t.ops ensures RefreshOk(t.ops[o], t.monitors[t.ops[o].mon]) {
      assert o == a.op || RefreshOk(s.ops[o], s.monitors[s.ops[o].mon]);
    }
  }

  lemma OtherKeepsExclusive(s: State, a: Action)
    requires Basic(s) && Exclusive(s) && (a.Fail? || a.Event? || a.Reconnect? || a.Forget?) && Step(s, a).Some?
    ensures Exclusive(Step(s, a).value)
  {
    var t := Step(s, a).value;
    forall o | o in t.ops ensures RefreshOk(t.ops[o], t.monitors[t.ops[o].mon]) {
      assert o in s.ops && RefreshOk(s.ops[o], s.monitors[s.ops[o].mon]);
    }
  }

  lemma StepKeepsExclusive(s: State, a: Action)
    requires Basic(s) && Exclusive(s) && Step(s, a).Some? && Disciplined(s, a)
    ensures Typed(Step(s, a).value) && Exclusive(Step(s, a).value)
  {
    StepKeepsBasic(s, a);
    match a
    case Advance(op) => AdvanceKeepsExclusive(s, op);
    case CreateMonitor(_, _, _) => CreateKeepsExclusive(s, a);
    case UpdateMonitor(_, _, _) => UpdateKeepsExclusive(s, a);
    case DestroyMonitor(_, _) => DestroyKeepsExclusive(s, a);
    case _ => OtherKeepsExclusive(s, a);
  }

  // ---------------------------------------------------------------------
  // Whole runs
  // ---------------------------------------------------------------------

  /** The state after a run, if every action of it was possible. */
  ghost function Run(h: seq<Action>): Option<State>
    decreases |h|
  {
    if h == [] then Some(INITIAL)
    else
      var s := Run(h[..|h| - 1]);
      if s.Some? && Typed(s.value) then Step(s.value, h[|h| - 1]) else None
  }

  /** Every update of the run was started with no refresh in flight on its monitor, and nothing was renewed between a
      reconnect and the forgetting. */
  ghost predicate DisciplinedRun(h: seq<Action>) {
    forall i :: 0 <= i < |h| ==> Run(h[..i]).Some? ==> Disciplined(Run(h[..i]).value, h[i])
  }

  lemma {:induction false} RunKeepsBasic(h: seq<Action>)
    requires Run(h).Some?
    ensures Basic(Run(h).value)
    decreases |h|
  {
    if h != [] {
      RunKeepsBasic(h[..|h| - 1]);
      StepKeepsBasic(Run(h[..|h| - 1]).value, h[|h| - 1]);
    }
  }

  lemma {:induction false} DisciplinedRunsKeepTrack(h: seq<Action>, n: Note)
    requires Run(h).Some? && DisciplinedRun(h)
    ensures Basic(Run(h).value) && Exclusive(Run(h).value) && !Orphan(Run(h).value, n)
    decreases |h|
  {
    RunKeepsBasic(h);
    if h != [] {
      var g, a := h[..|h| - 1], h[|h| - 1];
      assert forall i :: 0 <= i < |g| ==> g[..i] == h[..i] && g[i] == h[i];
      assert Disciplined(Run(h[..|h| - 1]).value, h[|h| - 1]);
      DisciplinedRunsKeepTrack(g, n);
      StepKeepsExclusive(Run(g).value, a);
      if n in Run(g).value.live {
        ExclusiveNeverLoses(Run(g).value, a, n);
      }
      OrphanedExactlyBy(Run(g).value, a, n);
    }
  }

  /** After any disciplined run, once no operation is in flight: a live notification is installed on a monitor
      that is listed and not deleted; so no deleted monitor has one, and no monitor has two. */
  lemma QuiescentRunsLeakNothing(h: seq<Action>, n: Note)
    requires Run(h).Some? && DisciplinedRun(h) && Run(h).value.ops == map[] && n in Run(h).value.live
    ensures var s := Run(h).value;
            n in s.owner && s.owner[n] in s.monitors
            && var mon := s.monitors[s.owner[n]];
               mon.listed && !mon.deleted && mon.notification == Some(n)
  {
    DisciplinedRunsKeepTrack(h, n);
    var s := Run(h).value;
    Whereabouts(s, 0, n);
    assert MonitorOk(s.owner[n], s.monitors[s.owner[n]], s.flips[s.owner[n]], s.owner);
  }

  /** In every run, disciplined or not, the flips of each monitor alternate, beginning with idle, and the
      monitor's flag is the last flip. */
  lemma FlipsAlternate(h: seq<Action>, m: MonitorRef)
    requires Run(h).Some? && m in Run(h).value.monitors
    ensures var s := Run(h).value;
            m in s.flips && Alternating(s.flips[m])
            && (s.monitors[m].isIdle <==> s.flips[m] != [] && s.flips[m][|s.flips[m]| - 1])
  {
    RunKeepsBasic(h);
    var s := Run(h).value;
    assert MonitorOk(m, s.monitors[m], s.flips[m], s.owner);
    LastFlip(s.flips[m]);
  }

  lemma LastFlip(f: seq<bool>)
    requires Alternating(f)
    ensures |f| % 2 == 1 <==> f != [] && f[|f| - 1]
  {
  }

  // ---------------------------------------------------------------------
  // Without the discipline
  // ---------------------------------------------------------------------

  /** The i-th action loses the live notification n, and none after it finds n again. */
  ghost predicate LostForGoodAt(h: seq<Action>, i: int, n: Note) {
    && 0 <= i < |h| && Run(h[..i]).Some? && Typed(Run(h[..i]).value) && n in Run(h[..i]).value.live && Loses(Run(h[..i]).value, h[i], n)
    && forall j :: i < j < |h| ==> !FoundAt(h, j, n)
  }

  ghost predicate FoundAt(h: seq<Action>, j: int, n: Note) {
    0 <= j < |h| && Run(h[..j]).Some? && Typed(Run(h[..j]).value) && Recovers(Run(h[..j]).value, h[j], n)
  }

  /** Some action lost n and none since found it. */
  ghost predicate Lost(h: seq<Action>, n: Note)
    decreases |h|
  {
    h != [] && var m := |h| - 1;
    && Run(h[..m]).Some? && Typed(Run(h[..m]).value)
    && ((n in Run(h[..m]).value.live && Loses(Run(h[..m]).value, h[m], n)) || (Lost(h[..m], n) && !Recovers(Run(h[..m]).value, h[m], n)))
  }

  lemma RunLast(h: seq<Action>)
    requires h != [] && Run(h).Some?
    ensures var g := h[..|h| - 1];
            Run(g).Some? && Basic(Run(g).value) && Typed(Run(g).value) && Run(h) == Step(Run(g).value, h[|h| - 1])
  {
    RunKeepsBasic(h[..|h| - 1]);
  }

  lemma {:induction false} LostMeans(h: seq<Action>, n: Note)
    requires Run(h).Some?
    ensures Lost(h, n) <==> exists i :: LostForGoodAt(h, i, n)
    decreases |h|
  {
    if h != [] {
      var m := |h| - 1;
      RunLast(h);
      LostMeans(h[..m], n);
      LostNow(h, n);
      FoundNow(h, n);
      if i :| LostForGoodAt(h[..m], i, n) {
        LostBefore(h, i, n);
      }
      if i :| LostForGoodAt(h, i, n) && i != m {
        LostBefore(h, i, n);
      }
    }
  }

  lemma LostNow(h: seq<Action>, n: Note)
    requires h != [] && Run(h[..|h| - 1]).Some? && Typed(Run(h[..|h| - 1]).value)
    ensures LostForGoodAt(h, |h| - 1, n) <==> n in Run(h[..|h| - 1]).value.live && Loses(Run(h[..|h| - 1]).value, h[|h| - 1], n)
  {
  }

  lemma FoundNow(h: seq<Action>, n: Note)
    requires h != [] && Run(h[..|h| - 1]).Some? && Typed(Run(h[..|h| - 1]).value)
    ensures FoundAt(h, |h| - 1, n) <==> Recovers(Run(h[..|h| - 1]).value, h[|h| - 1], n)
  {
  }

  lemma LostBefore(h: seq<Action>, i: int, n: Note)
    requires 0 <= i < |h| - 1
    ensures LostForGoodAt(h, i, n) <==> LostForGoodAt(h[..|h| - 1], i, n) && !FoundAt(h, |h| - 1, n)
  {
    var m := |h| - 1;
    var g := h[..m];
    assert h[..i] == g[..i];
    forall j | i < j < m ensures FoundAt(h, j, n) <==> FoundAt(g, j, n) {
      assert h[..j] == g[..j];
    }
  }

  /** Only a new notification enters the live ones. */
  lemma LiveWasLive(s: State, a: Action, n: Note)
    requires Basic(s) && Step(s, a).Some? && n in Step(s, a).value.live && n in s.owner
    ensures n in s.live
  {
  }

  lemma OwnerStays(s: State, a: Action, n: Note)
    requires Basic(s) && Step(s, a).Some? && n in s.owner
    ensures n in Step(s, a).value.owner
  {
  }

  lemma {:induction false} LostWasOwned(h: seq<Action>, n: Note)
    requires Run(h).Some? && Lost(h, n)
    ensures n in Run(h).value.owner
    decreases |h|
  {
    var g, a := h[..|h| - 1], h[|h| - 1];
    RunLast(h);
    if !(n in Run(g).value.live && Loses(Run(g).value, a, n)) {
      LostWasOwned(g, n);
    }
    OwnerStays(Run(g).value, a, n);
  }

  /** In every run, disciplined or not: a live notification is without somebody who will destroy it exactly when some
      action lost it and none found it again. */
  lemma LeakIff(h: seq<Action>, n: Note)
    requires Run(h).Some? && n in Run(h).value.live
    ensures Orphan(Run(h).value, n) <==> exists i :: LostForGoodAt(h, i, n)
  {
    OrphanIsLost(h, n);
    LostMeans(h, n);
  }

  lemma {:induction false} OrphanIsLost(h: seq<Action>, n: Note)
    requires Run(h).Some? && n in Run(h).value.live
    ensures Orphan(Run(h).value, n) <==> Lost(h, n)
    decreases |h|
  {
    if h != [] {
      var g, a := h[..|h| - 1], h[|h| - 1];
      RunLast(h);
      OrphanedExactlyBy(Run(g).value, a, n);
      if n in Run(g).value.live {
        OrphanIsLost(g, n);
      } else if Lost(g, n) {
        LostWasOwned(g, n);
        LiveWasLive(Run(g).value, a, n);
        assert false;
      }
    }
  }

  /** One more action. */
  lemma RunSnoc(h: seq<Action>, a: Action)
    requires Run(h).Some? && Typed(Run(h).value)
    ensures Run(h + [a]) == Step(Run(h).value, a)
  {
    assert (h + [a])[..|h|] == h;
  }

  /** A state with the single monitor 0, listed and never idle, and n live notifications created for it. */
  function One(enabled: bool, installed: Option<Note>, ops: map<Op, Pending>, n: nat): State {
    State(map[0 := Monitor(enabled, false, false, true, installed)], ops,
          if n == 0 then {} else if n == 1 then {0} else {0, 1},
          if n == 0 then map[] else if n == 1 then map[0 := 0] else map[0 := 0, 1 := 0], n, map[0 := []])
  }

  ghost predicate Same(s: State, t: State) {
    s.monitors == t.monitors && s.ops == t.ops && s.live == t.live && s.owner == t.owner && s.nextNote == t.nextNote && s.flips == t.flips
  }

  lemma OneStep(h: seq<Action>, a: Action, s: State, t: State)
    requires Run(h) == Some(s) && Typed(s) && Step(s, a).Some? && Same(Step(s, a).value, t)
    ensures Run(h + [a]) == Some(t)
  {
    RunSnoc(h, a);
  }

  /** From an idle monitor with no notification, a refresh that runs on its own reaches the request. */
  lemma RefreshToReady(h: seq<Action>, op: Op, rest: map<Op, Pending>)
    requires op !in rest && Run(h) == Some(One(true, None, rest[op := Begin(0, false)], 0)) && forall o :: o in rest ==> rest[o].mon == 0
    ensures Run(h + [Advance(op)] + [Advance(op)] + [Advance(op)]) == Some(One(true, None, rest[op := Ready(0, false)], 0))
  {
    var p, q, r := Detached(0, false, None, true), Cleared(0, false, true), Ready(0, false);
    OneStep(h, Advance(op), One(true, None, rest[op := Begin(0, false)], 0), One(true, None, rest[op := p], 0));
    RefreshDestroys(h + [Advance(op)], op, rest, p, q);
    RefreshClears(h + [Advance(op)] + [Advance(op)], op, rest, q, r);
  }

  lemma RefreshDestroys(h: seq<Action>, op: Op, rest: map<Op, Pending>, p: Pending, q: Pending)
    requires op !in rest && Run(h) == Some(One(true, None, rest[op := p], 0)) && forall o :: o in rest ==> rest[o].mon == 0
    requires p == Detached(0, false, None, true) && q == Cleared(0, false, true)
    ensures Run(h + [Advance(op)]) == Some(One(true, None, rest[op := q], 0))
  {
    OneStep(h, Advance(op), One(true, None, rest[op := p], 0), One(true, None, rest[op := q], 0));
  }

  lemma RefreshClears(h: seq<Action>, op: Op, rest: map<Op, Pending>, p: Pending, q: Pending)
    requires op !in rest && Run(h) == Some(One(true, None, rest[op := p], 0)) && forall o :: o in rest ==> rest[o].mon == 0
    requires p == Cleared(0, false, true) && q == Ready(0, false)
    ensures Run(h + [Advance(op)]) == Some(One(true, None, rest[op := q], 0))
  {
    OneStep(h, Advance(op), One(true, None, rest[op := p], 0), One(true, None, rest[op := q], 0));
  }

  /** Creating a disabled monitor leaves it listed, with no notification and nothing in flight. */
  lemma CreateDisabled() returns (h: seq<Action>)
    ensures Run(h) == Some(One(false, None, map[], 0)) && h == [CreateMonitor(0, 0, false), Advance(0), Advance(0), Advance(0)]
  {
    var s := One(false, None, map[0 := Begin(0, true)], 0);
    OneStep([], CreateMonitor(0, 0, false), INITIAL, s);
    h := [] + [CreateMonitor(0, 0, false)];
    var t, u := One(false, None, map[0 := Detached(0, true, None, false)], 0), One(false, None, map[0 := Cleared(0, true, false)], 0);
    OneStep(h, Advance(0), s, t);
    OneStep(h + [Advance(0)], Advance(0), t, u);
    OneStep(h + [Advance(0)] + [Advance(0)], Advance(0), u, One(false, None, map[], 0));
    h := h + [Advance(0)] + [Advance(0)] + [Advance(0)];
  }

  /** Two updates of one monitor started together reach the point where both are about to request. */
  lemma BothReady() returns (h: seq<Action>)
    ensures Run(h) == Some(One(true, None, map[1 := Ready(0, false), 2 := Ready(0, false)], 0))
  {
    h := CreateDisabled();
    var b := Begin(0, false);
    OneStep(h, UpdateMonitor(1, 0, true), One(false, None, map[], 0), One(true, None, map[1 := b], 0));
    h := h + [UpdateMonitor(1, 0, true)];
    OneStep(h, UpdateMonitor(2, 0, true), One(true, None, map[1 := b], 0), One(true, None, map[1 := b, 2 := b], 0));
    h := h + [UpdateMonitor(2, 0, true)];
    assert map[1 := b, 2 := b] == map[2 := b][1 := b];
    RefreshToReady(h, 1, map[2 := b]);
    h := h + [Advance(1)] + [Advance(1)] + [Advance(1)];
    assert map[2 := b][1 := Ready(0, false)] == map[1 := Ready(0, false)][2 := b];
    RefreshToReady(h, 2, map[1 := Ready(0, false)]);
    h := h + [Advance(2)] + [Advance(2)] + [Advance(2)];
  }

  lemma BothRequest(h: seq<Action>) returns (g: seq<Action>)
    requires Run(h) == Some(One(true, None, map[1 := Ready(0, false), 2 := Ready(0, false)], 0))
    ensures Run(g) == Some(One(true, None, map[1 := Holding(0, false, 0), 2 := Holding(0, false, 1)], 2))
  {
    var s := One(true, None, map[1 := Holding(0, false, 0), 2 := Ready(0, false)], 1);
    OneStep(h, Advance(1), One(true, None, map[1 := Ready(0, false), 2 := Ready(0, false)], 0), s);
    OneStep(h + [Advance(1)], Advance(2), s, One(true, None, map[1 := Holding(0, false, 0), 2 := Holding(0, false, 1)], 2));
    g := h + [Advance(1)] + [Advance(2)];
  }

  /** Without the discipline notifications do leak: in some run, when every operation has finished, a
      notification is live that nothing will ever destroy. */
  lemma TwoUpdatesLeak() returns (h: seq<Action>)
    ensures Run(h).Some? && Run(h).value.ops == map[] && Orphan(Run(h).value, 0)
  {
    h := BothReady();
    h := BothRequest(h);
    h := BothInstall(h);
    NobodyKeepsFirst();
  }

  /** One update between a reconnect and the forgetting is enough: the notification it has just made on the new
      connection is forgotten while it lives. */
  lemma ReconnectLeaks()
    ensures var h := [CreateMonitor(0, 0, false), Advance(0), Advance(0), Advance(0), Reconnect, UpdateMonitor(1, 0, true)]
                     + [Advance(1), Advance(1), Advance(1), Advance(1), Advance(1), Forget];
            Run(h).Some? && Run(h).value.ops == map[] && Orphan(Run(h).value, 0)
  {
    var f := UpdateAfterReconnect();
    var h := RefreshInstalls(f);
    ForgetsFirst(h);
    assert h + [Forget] == f + [Advance(1), Advance(1), Advance(1), Advance(1), Advance(1), Forget];
  }

  lemma UpdateAfterReconnect() returns (f: seq<Action>)
    ensures f == [CreateMonitor(0, 0, false), Advance(0), Advance(0), Advance(0), Reconnect, UpdateMonitor(1, 0, true)]
    ensures Run(f) == Some(One(true, None, map[1 := Begin(0, false)], 0))
  {
    var g := CreateDisabled();
    var s := One(false, None, map[], 0);
    OneStep(g, Reconnect, s, s);
    OneStep(g + [Reconnect], UpdateMonitor(1, 0, true), s, One(true, None, map[1 := Begin(0, false)], 0));
    f := g + [Reconnect] + [UpdateMonitor(1, 0, true)];
  }

  lemma ForgetsFirst(h: seq<Action>)
    requires Run(h) == Some(One(true, Some(0), map[], 1))
    ensures Run(h + [Forget]) == Some(One(true, None, map[], 1)) && Orphan(One(true, None, map[], 1), 0)
  {
    OneStep(h, Forget, One(true, Some(0), map[], 1), One(true, None, map[], 1));
  }

  /** The refresh runs on its own to its end. */
  lemma RefreshInstalls(f: seq<Action>) returns (h: seq<Action>)
    requires Run(f) == Some(One(true, None, map[1 := Begin(0, false)], 0))
    ensures h == f + [Advance(1)] + [Advance(1)] + [Advance(1)] + [Advance(1)] + [Advance(1)]
    ensures Run(h) == Some(One(true, Some(0), map[], 1))
  {
    assert map[][1 := Begin(0, false)] == map[1 := Begin(0, false)] && map[][1 := Ready(0, false)] == map[1 := Ready(0, false)];
    RefreshToReady(f, 1, map[]);
    h := f + [Advance(1)] + [Advance(1)] + [Advance(1)];
    ReadyRequests(h);
    HoldingInstalls(h + [Advance(1)]);
    h := h + [Advance(1)] + [Advance(1)];
  }

  lemma ReadyRequests(h: seq<Action>)
    requires Run(h) == Some(One(true, None, map[1 := Ready(0, false)], 0))
    ensures Run(h + [Advance(1)]) == Some(One(true, None, map[1 := Holding(0, false, 0)], 1))
  {
    OneStep(h, Advance(1), One(true, None, map[1 := Ready(0, false)], 0), One(true, None, map[1 := Holding(0, false, 0)], 1));
  }

  lemma HoldingInstalls(h: seq<Action>)
    requires Run(h) == Some(One(true, None, map[1 := Holding(0, false, 0)], 1))
    ensures Run(h + [Advance(1)]) == Some(One(true, Some(0), map[], 1))
  {
    OneStep(h, Advance(1), One(true, None, map[1 := Holding(0, false, 0)], 1), One(true, Some(0), map[], 1));
  }

  lemma BothInstall(h: seq<Action>) returns (g: seq<Action>)
    requires Run(h) == Some(One(true, None, map[1 := Holding(0, false, 0), 2 := Holding(0, false, 1)], 2))
    ensures Run(g) == Some(One(true, Some(1), map[], 2))
  {
    FirstInstalls(h);
    OneStep(h + [Advance(1)], Advance(2), One(true, Some(0), map[2 := Holding(0, false, 1)], 2), One(true, Some(1), map[], 2));
    g := h + [Advance(1)] + [Advance(2)];
  }

  lemma FirstInstalls(h: seq<Action>)
    requires Run(h) == Some(One(true, None, map[1 := Holding(0, false, 0), 2 := Holding(0, false, 1)], 2))
    ensures Run(h + [Advance(1)]) == Some(One(true, Some(0), map[2 := Holding(0, false, 1)], 2))
  {
    var both, second := map[1 := Holding(0, false, 0), 2 := Holding(0, false, 1)], map[2 := Holding(0, false, 1)];
    assert both - {1} == second;
    InstallFirst(both);
    OneStep(h, Advance(1), One(true, None, both, 2), One(true, Some(0), second, 2));
  }

  lemma InstallFirst(ops: map<Op, Pending>)
    requires 1 in ops && ops[1] == Holding(0, false, 0) && forall o :: o in ops ==> ops[o].mon == 0
    ensures Typed(One(true, None, ops, 2)) && StepAdvance(One(true, None, ops, 2), 1).Some?
    ensures Same(StepAdvance(One(true, None, ops, 2), 1).value, One(true, Some(0), ops - {1}, 2))
  {
  }

  lemma NobodyKeepsFirst()
    ensures Orphan(One(true, Some(1), map[], 2), 0)
  {
  }
}

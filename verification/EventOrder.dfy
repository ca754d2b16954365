/** The order in which notifications are offered to a subscription, and in which they reach its connection. */
module EventOrder {
  import opened Prelude
  import opened EventFanout

  // ---------------------------------------------------------------------
  // Offers out of order
  // ---------------------------------------------------------------------

  ghost predicate InOrder(c: Channel) {
    forall i, j :: 0 <= i < j < |c.attempts| && c.attempts[i].msg.Event? && c.attempts[j].msg.Event? ==>
                     c.attempts[i].msg.number < c.attempts[j].msg.number
  }

  /** Broadcast b runs and has yet to be offered to c. */
  predicate Waiting(s: State, b: nat, c: Conn) { b in s.broadcasts && c in s.broadcasts[b] }

  predicate OfferedAfter(c: Channel, b: nat) { exists i :: 0 <= i < |c.attempts| && c.attempts[i].msg.Event? && c.attempts[i].msg.number > b }

  /** A later broadcast was offered to c while b still waits. */
  ghost predicate Passed(s: State, b: nat, c: Conn)
    requires Typed(s)
  {
    Waiting(s, b, c) && OfferedAfter(s.chans[s.clients[c]], b)
  }

  /** Some subscription was offered events out of order, or will be as soon as a running broadcast gets to it. */
  ghost predicate Disordered(s: State)
    requires Typed(s)
  {
    (exists ch :: ch in s.chans && !InOrder(s.chans[ch])) || exists b, c :: Passed(s, b, c)
  }

  /** An offer to a client that an earlier broadcast has yet to be offered to. */
  ghost predicate Overtakes(s: State, a: Action) {
    a.Offer? && exists b: nat :: b < a.number && Waiting(s, b, a.conn)
  }

  lemma OrderPush(c: Channel, msg: Message, d: Channel)
    requires Pushed(c, msg, d)
    ensures msg.Dump? ==> (InOrder(d) <==> InOrder(c))
    ensures msg.Event? && !Offered(c, msg.number) ==> (InOrder(d) <==> InOrder(c) && !OfferedAfter(c, msg.number))
    ensures forall b :: OfferedAfter(d, b) <==> OfferedAfter(c, b) || (msg.Event? && msg.number > b)
  {
    var n := |c.attempts|;
    assert d.attempts[n].msg == msg && forall i :: 0 <= i < n ==> d.attempts[i] == c.attempts[i];
    forall b ensures OfferedAfter(d, b) <==> OfferedAfter(c, b) || (msg.Event? && msg.number > b) {
      if i :| 0 <= i < |c.attempts| && c.attempts[i].msg.Event? && c.attempts[i].msg.number > b {
        assert d.attempts[i].msg.number > b;
      }
    }
  }

  /** t is s after msg was pushed to c: what that does to the order. */
  lemma PushDisorders(s: State, c: Conn, msg: Message, t: State)
    requires Typed(s) && Typed(t) && c in s.clients && OnePush(s, c, msg, t) && ServesOnly(s, c, msg, t)
    requires forall d, e :: d in s.clients && e in s.clients && d != e ==> s.clients[d] != s.clients[e]
    requires msg.Event? ==> Waiting(s, msg.number, c) && !Offered(s.chans[s.clients[c]], msg.number)
    ensures Disordered(t) <==> Disordered(s) || (msg.Event? && exists b: nat :: b < msg.number && Waiting(s, b, c))
  {
    if Disordered(s) {
      DisorderStays(s, c, msg, t);
    }
    if msg.Event? {
      OrderPush(s.chans[s.clients[c]], msg, t.chans[s.clients[c]]);
      if b: nat :| b < msg.number && Waiting(s, b, c) {
        assert Passed(t, b, c);
      }
    }
    if Disordered(t) {
      DisorderComesFrom(s, c, msg, t);
    }
  }

  lemma DisorderComesFrom(s: State, c: Conn, msg: Message, t: State)
    requires Typed(s) && Typed(t) && c in s.clients && OnePush(s, c, msg, t) && ServesOnly(s, c, msg, t) && Disordered(t)
    requires forall d, e :: d in s.clients && e in s.clients && d != e ==> s.clients[d] != s.clients[e]
    requires msg.Event? ==> Waiting(s, msg.number, c) && !Offered(s.chans[s.clients[c]], msg.number)
    ensures Disordered(s) || (msg.Event? && exists b: nat :: b < msg.number && Waiting(s, b, c))
  {
    var ch := s.clients[c];
    OrderPush(s.chans[ch], msg, t.chans[ch]);
    if k :| k in t.chans && !InOrder(t.chans[k]) {
      if InOrder(s.chans[k]) {
        assert Passed(s, msg.number, c);
      }
    } else {
      var b, d :| Passed(t, b, d);
      assert Waiting(s, b, d) && (d != c ==> s.clients[d] != ch);
      if OfferedAfter(s.chans[s.clients[d]], b) {
        assert Passed(s, b, d);
      }
    }
  }

  lemma DisorderStays(s: State, c: Conn, msg: Message, t: State)
    requires Typed(s) && Typed(t) && c in s.clients && OnePush(s, c, msg, t) && ServesOnly(s, c, msg, t) && Disordered(s)
    requires msg.Event? ==> !Offered(s.chans[s.clients[c]], msg.number)
    ensures Disordered(t)
  {
    var ch := s.clients[c];
    OrderPush(s.chans[ch], msg, t.chans[ch]);
    if k :| k in s.chans && !InOrder(s.chans[k]) {
      assert k in t.chans && !InOrder(t.chans[k]);
    } else {
      var b, d :| Passed(s, b, d);
      if d == c && msg == Event(b) {
        assert !InOrder(t.chans[ch]);
      } else {
        assert Waiting(t, b, d);
        assert Passed(t, b, d);
      }
    }
  }

  /** Steps that offer nothing: queues keep their attempts, new queues have none, and a broadcast that starts to
      wait is later than everything offered. */
  ghost predicate OffersNothing(s: State, t: State)
    requires Typed(s) && Typed(t)
  {
    && (forall ch :: ch in s.chans ==> ch in t.chans && t.chans[ch].attempts == s.chans[ch].attempts)
    && (forall ch :: ch in t.chans && ch !in s.chans ==> t.chans[ch].attempts == [])
    && (forall b, c :: Waiting(s, b, c) ==> Waiting(t, b, c) && t.clients[c] == s.clients[c])
    && (forall b, c :: Waiting(t, b, c) && !Waiting(s, b, c) ==> b == s.nextNumber)
  }

  lemma OffersNothingKeepsOrder(s: State, t: State)
    requires Typed(s) && Typed(t) && OnceInv(s) && OffersNothing(s, t)
    ensures Disordered(t) <==> Disordered(s)
  {
    if Disordered(s) {
      if ch :| ch in s.chans && !InOrder(s.chans[ch]) {
        SameAttempts(s.chans[ch], t.chans[ch]);
      } else {
        var b, c :| Passed(s, b, c);
        SameAttempts(s.chans[s.clients[c]], t.chans[t.clients[c]]);
        assert Passed(t, b, c);
      }
    }
    if Disordered(t) {
      if ch :| ch in t.chans && !InOrder(t.chans[ch]) {
        assert ch in s.chans;
        SameAttempts(s.chans[ch], t.chans[ch]);
      } else {
        var b, c :| Passed(t, b, c);
        NewestIsNotPassed(s, t, b, c);
      }
    }
  }

  lemma SameAttempts(c: Channel, d: Channel)
    requires c.attempts == d.attempts
    ensures InOrder(c) <==> InOrder(d)
    ensures forall b :: OfferedAfter(c, b) <==> OfferedAfter(d, b)
  {
  }

  lemma NewestIsNotPassed(s: State, t: State, b: nat, c: Conn)
    requires Typed(s) && Typed(t) && OnceInv(s) && OffersNothing(s, t) && Passed(t, b, c)
    ensures Passed(s, b, c)
  {
    var ch := t.clients[c];
    if ch in s.chans {
      assert EventsOnce(s.chans[ch], s.nextNumber);
      SameAttempts(s.chans[ch], t.chans[ch]);
    }
    assert Waiting(s, b, c);
  }

  lemma SubscribeOffersNothing(s: State, c: Conn)
    requires Typed(s) && StepSubscribe(s, c).Some? && Typed(StepSubscribe(s, c).value)
    requires forall ch :: ch in s.chans ==> ch < s.nextChan
    ensures OffersNothing(s, StepSubscribe(s, c).value)
  {
    var t := StepSubscribe(s, c).value;
    assert forall b, d :: !Waiting(s, b, d) && !Waiting(t, b, d);
    assert t.chans.Keys == s.chans.Keys + {s.nextChan};
  }

  lemma DisconnectOffersNothing(s: State, c: Conn)
    requires Typed(s) && StepDisconnect(s, c).Some? && Typed(StepDisconnect(s, c).value)
    ensures OffersNothing(s, StepDisconnect(s, c).value)
  {
    var t := StepDisconnect(s, c).value;
    assert forall b, d :: !Waiting(s, b, d) && !Waiting(t, b, d);
    assert t.chans.Keys == s.chans.Keys;
  }

  lemma BroadcastOffersNothing(s: State, a: Action)
    requires Typed(s) && Step(s, a).Some? && Typed(Step(s, a).value)
    requires a.BeginBroadcast? || a.EndBroadcast?
    ensures OffersNothing(s, Step(s, a).value)
  {
  }

  lemma WriteOffersNothing(s: State, a: Action)
    requires Typed(s) && Step(s, a).Some? && Typed(Step(s, a).value)
    requires IsWriters(a) || a.Connect? || a.SkipDump?
    ensures OffersNothing(s, Step(s, a).value)
  {
  }

  /** Exactly the overtaking offers put notifications out of order. */
  lemma DisorderedByOvertaking(s: State, a: Action)
    requires Inv(s) && OnceInv(s) && Step(s, a).Some?
    ensures Typed(Step(s, a).value)
    ensures Disordered(Step(s, a).value) <==> Disordered(s) || Overtakes(s, a)
  {
    StepKeepsInv(s, a);
    match a
    case Offer(b, c) =>
      OfferShape(s, b, c);
      OfferIsNew(s, b, c);
      PushDisorders(s, c, Event(b), Step(s, a).value);
    case SendDump(c) =>
      DumpShape(s, c);
      PushDisorders(s, c, Dump, Step(s, a).value);
    case Subscribe(c) =>
      SubscribeOffersNothing(s, c);
      OffersNothingKeepsOrder(s, Step(s, a).value);
    case Disconnect(c) =>
      DisconnectOffersNothing(s, c);
      OffersNothingKeepsOrder(s, Step(s, a).value);
    case BeginBroadcast =>
      BroadcastOffersNothing(s, a);
      OffersNothingKeepsOrder(s, Step(s, a).value);
    case EndBroadcast(_) =>
      BroadcastOffersNothing(s, a);
      OffersNothingKeepsOrder(s, Step(s, a).value);
    case _ =>
      WriteOffersNothing(s, a);
      OffersNothingKeepsOrder(s, Step(s, a).value);
  }

  lemma DumpShape(s: State, c: Conn)
    requires Inv(s) && StepDump(s, c).Some?
    ensures c in s.clients && OnePush(s, c, Dump, StepDump(s, c).value) && ServesOnly(s, c, Dump, StepDump(s, c).value)
  {
    PushIsOnePush(s, c, Dump);
  }

  // ---------------------------------------------------------------------
  // Offers over whole runs
  // ---------------------------------------------------------------------

  /** The i-th action of a run overtakes. */
  ghost predicate OvertakesAt(h: seq<Action>, i: int) {
    0 <= i < |h| && Run(h[..i]).Some? && Overtakes(Run(h[..i]).value, h[i])
  }

  lemma RunTyped(h: seq<Action>)
    requires Run(h).Some?
    ensures Typed(Run(h).value)
  {
    RunKeepsInv(h);
  }

  lemma RunStep(h: seq<Action>)
    requires h != [] && Run(h).Some?
    ensures var g := h[..|h| - 1]; Run(g).Some? && Typed(Run(g).value) && Run(h) == Step(Run(g).value, h[|h| - 1])
  {
    RunTyped(h);
  }

  /** Some action of the run overtakes. */
  ghost predicate Overtaken(h: seq<Action>)
    decreases |h|
  {
    h != [] && var g := h[..|h| - 1];
    Overtaken(g) || (Run(g).Some? && Overtakes(Run(g).value, h[|h| - 1]))
  }

  lemma {:induction false} OvertakenMeans(h: seq<Action>)
    ensures Overtaken(h) <==> exists i :: OvertakesAt(h, i)
    decreases |h|
  {
    if h != [] {
      var n := |h| - 1;
      var g := h[..n];
      OvertakenMeans(g);
      forall i | 0 <= i < n ensures OvertakesAt(h, i) <==> OvertakesAt(g, i) {
        assert h[..i] == g[..i];
      }
      if i :| OvertakesAt(g, i) {
        assert OvertakesAt(h, i);
      }
      assert OvertakesAt(h, n) <==> Run(g).Some? && Overtakes(Run(g).value, h[n]);
    }
  }

  lemma {:induction false} OvertakenDisorders(h: seq<Action>)
    requires Run(h).Some? && Typed(Run(h).value)
    ensures Disordered(Run(h).value) <==> Overtaken(h)
    decreases |h|
  {
    if h == [] {
      assert Run(h) == Some(INITIAL);
    } else {
      var g := h[..|h| - 1];
      RunStep(h);
      OvertakenDisorders(g);
      OvertakingStep(h);
    }
  }

  lemma OvertakingStep(h: seq<Action>)
    requires h != [] && Run(h).Some? && Typed(Run(h).value) && Run(h[..|h| - 1]).Some? && Typed(Run(h[..|h| - 1]).value)
    requires Run(h) == Step(Run(h[..|h| - 1]).value, h[|h| - 1])
    ensures Disordered(Run(h).value) <==> Disordered(Run(h[..|h| - 1]).value) || Overtakes(Run(h[..|h| - 1]).value, h[|h| - 1])
  {
    RunKeepsInv(h[..|h| - 1]);
    DisorderedByOvertaking(Run(h[..|h| - 1]).value, h[|h| - 1]);
  }

  /** In every run: a subscription was or is about to be offered events out of order exactly when some offer overtook. */
  lemma DisorderedIff(h: seq<Action>)
    requires Run(h).Some?
    ensures Typed(Run(h).value)
    ensures Disordered(Run(h).value) <==> exists i :: OvertakesAt(h, i)
  {
    RunTyped(h);
    OvertakenDisorders(h);
    OvertakenMeans(h);
  }

  /** When no broadcast is running: some subscription was offered events out of order exactly when some offer
      of the run overtook. */
  lemma OutOfOrderIff(h: seq<Action>)
    requires Run(h).Some? && Run(h).value.broadcasts == map[]
    ensures (exists ch :: ch in Run(h).value.chans && !InOrder(Run(h).value.chans[ch])) <==> exists i :: OvertakesAt(h, i)
  {
    DisorderedIff(h);
    assert forall b, c :: !Waiting(Run(h).value, b, c);
  }

  /** Every broadcast began when no other was running. */
  ghost predicate SerialRun(h: seq<Action>)
    decreases |h|
  {
    h == [] || (SerialRun(h[..|h| - 1])
                && (h[|h| - 1].BeginBroadcast? && Run(h[..|h| - 1]).Some? ==> Run(h[..|h| - 1]).value.broadcasts == map[]))
  }

  /** Only the newest broadcast can be running. */
  predicate NewestOnly(s: State) { forall b :: b in s.broadcasts ==> b + 1 == s.nextNumber }

  lemma NewestStep(s: State, a: Action)
    requires Typed(s) && Step(s, a).Some? && NewestOnly(s) && (a.BeginBroadcast? ==> s.broadcasts == map[])
    ensures NewestOnly(Step(s, a).value)
  {
  }

  lemma {:induction false} SerialNewestOnly(h: seq<Action>)
    requires Run(h).Some? && SerialRun(h)
    ensures NewestOnly(Run(h).value)
    decreases |h|
  {
    if h != [] {
      var g := h[..|h| - 1];
      RunStep(h);
      SerialNewestOnly(g);
      assert h[..|h| - 1] == g;
      NewestStep(Run(g).value, h[|h| - 1]);
    }
  }

  /** If broadcasts do not overlap, every subscription is offered them in the order in which they began. */
  lemma SerialBroadcastsInOrder(h: seq<Action>)
    requires Run(h).Some? && SerialRun(h)
    ensures forall i :: !OvertakesAt(h, i)
    ensures forall ch :: ch in Run(h).value.chans ==> InOrder(Run(h).value.chans[ch])
  {
    forall i | 0 <= i < |h| && Run(h[..i]).Some? ensures !Overtakes(Run(h[..i]).value, h[i]) {
      SerialPrefixes(h, i);
      SerialNewestOnly(h[..i]);
      NewestDoesNotOvertake(h, i);
    }
    DisorderedIff(h);
  }

  lemma {:induction false} SerialPrefixes(h: seq<Action>, i: nat)
    requires SerialRun(h) && i <= |h|
    ensures SerialRun(h[..i])
    decreases |h|
  {
    if i == |h| {
      assert h[..i] == h;
    } else {
      SerialPrefixes(h[..|h| - 1], i);
      assert h[..|h| - 1][..i] == h[..i];
    }
  }

  lemma {:induction false} PrefixRuns(h: seq<Action>, i: nat)
    requires Run(h).Some? && i <= |h|
    ensures Run(h[..i]).Some?
    decreases |h|
  {
    if i == |h| {
      assert h[..i] == h;
    } else {
      RunStep(h);
      PrefixRuns(h[..|h| - 1], i);
      assert h[..|h| - 1][..i] == h[..i];
    }
  }

  lemma NewestDoesNotOvertake(h: seq<Action>, i: nat)
    requires Run(h).Some? && i < |h| && Run(h[..i]).Some? && NewestOnly(Run(h[..i]).value)
    ensures !Overtakes(Run(h[..i]).value, h[i])
  {
    PrefixRuns(h, i + 1);
    RunStep(h[..i + 1]);
    assert h[..i + 1][..i] == h[..i] && h[..i + 1][i] == h[i];
  }

  // ---------------------------------------------------------------------
  // The read lock does not order broadcasts
  // ---------------------------------------------------------------------

  lemma OneStep(h: seq<Action>, a: Action, s: State)
    requires Run(h) == Some(s) && Typed(s)
    ensures Run(h + [a]) == Step(s, a)
  {
    assert (h + [a])[..|h|] == h;
  }

  /** A run and where it ends. */
  ghost predicate At(h: seq<Action>, s: State) { Run(h) == Some(s) && Typed(s) }

  lemma Continue(h: seq<Action>, s: State, a: Action, t: State)
    requires At(h, s) && Step(s, a) == Some(t)
    ensures At(h + [a], t)
  {
    OneStep(h, a, s);
    RunTyped(h + [a]);
  }

  lemma SerialSnoc(h: seq<Action>, s: State, a: Action)
    requires Run(h) == Some(s) && SerialRun(h) && (a.BeginBroadcast? ==> s.broadcasts == map[])
    ensures SerialRun(h + [a])
  {
    assert (h + [a])[..|h|] == h;
  }

  /** One subscribed client whose dump is queued. */
  lemma OneSubscriber() returns (h: seq<Action>, s: State)
    ensures Run(h) == Some(s) && Typed(s)
    ensures s.clients == map[0 := 0] && s.chans == map[0 := Fresh(0).(queue := [Dump], attempts := [Attempt(Dump, true, 0)])]
    ensures s.broadcasts == map[] && s.nextNumber == 0 && s.sessions == map[0 := Serving] && SerialRun(h)
    ensures h == [Connect(0), Subscribe(0), SendDump(0)]
  {
    h, s := OneSubscribing();
    OneStep(h, SendDump(0), s);
    SerialSnoc(h, s, SendDump(0));
    h, s := h + [SendDump(0)], Step(s, SendDump(0)).value;
    assert s.chans.Keys == {0} && s.chans[0].queue == [Dump] && s.chans[0].attempts == [Attempt(Dump, true, 0)];
  }

  lemma OneSubscribing() returns (h: seq<Action>, s: State)
    ensures Run(h) == Some(s) && Typed(s) && SerialRun(h) && h == [Connect(0), Subscribe(0)]
    ensures s.clients == map[0 := 0] && s.sessions == map[0 := Dumping(0)] && s.chans == map[0 := Fresh(0)]
    ensures s.broadcasts == map[] && s.nextNumber == 0
  {
    h, s := [], INITIAL;
    OneStep(h, Connect(0), s);
    SerialSnoc(h, s, Connect(0));
    h, s := h + [Connect(0)], Step(s, Connect(0)).value;
    assert s.sessions == map[0 := Serving];
    OneStep(h, Subscribe(0), s);
    SerialSnoc(h, s, Subscribe(0));
    h, s := h + [Subscribe(0)], Step(s, Subscribe(0)).value;
    assert s.clients == map[0 := 0] && s.sessions == map[0 := Dumping(0)] && s.chans == map[0 := Fresh(0)];
  }

  /** The same with two broadcasts running at once. */
  lemma TwoBroadcastsRunning() returns (h: seq<Action>, s: State)
    ensures Run(h) == Some(s) && Typed(s)
    ensures s.clients == map[0 := 0] && s.chans == map[0 := Fresh(0).(queue := [Dump], attempts := [Attempt(Dump, true, 0)])]
    ensures s.broadcasts == map[0 := {0}, 1 := {0}]
  {
    h, s := OneSubscriber();
    assert s.clients.Keys == {0};
    OneStep(h, BeginBroadcast, s);
    h, s := h + [BeginBroadcast], Step(s, BeginBroadcast).value;
    assert s.broadcasts == map[0 := {0}];
    OneStep(h, BeginBroadcast, s);
    h, s := h + [BeginBroadcast], Step(s, BeginBroadcast).value;
  }

  /** The read lock does not order broadcasts: some run offers a client broadcast 1 before broadcast 0. */
  lemma OverlappingBroadcastsReorder() returns (h: seq<Action>)
    ensures Run(h).Some? && 0 in Run(h).value.chans && !InOrder(Run(h).value.chans[0])
  {
    var s;
    h, s := TwoBroadcastsRunning();
    OneStep(h, Offer(1, 0), s);
    var t := Step(s, Offer(1, 0)).value;
    assert t.chans[0].attempts == [Attempt(Dump, true, 0), Attempt(Event(1), true, 1)];
    assert t.clients == s.clients && t.broadcasts == s.broadcasts[1 := s.broadcasts[1] - {0}];
    assert Typed(t) && 0 in t.broadcasts && 0 in t.broadcasts[0];
    OneStep(h + [Offer(1, 0)], Offer(0, 0), t);
    var u := Step(t, Offer(0, 0)).value;
    assert u.chans[0].attempts[1].msg == Event(1) && u.chans[0].attempts[2].msg == Event(0);
    h := h + [Offer(1, 0)] + [Offer(0, 0)];
  }
}

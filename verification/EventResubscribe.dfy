/** When a connection may subscribe again without being sent notifications out of order. */
module EventResubscribe {
  import opened Prelude
  import opened EventFanout
  import opened EventOrder
  import opened EventStreams

  /** Some event is still to be sent: the writer holds it, or it is queued and the writer has not stopped. */
  predicate Pending(c: Channel) { (c.hand.Some? && c.hand.value.Event?) || (c.failed.None? && HasEvent(c.queue)) }

  /** A connection subscribes again although its old subscription still has an event to send. */
  predicate Undrained(s: State, a: Action)
    requires forall c :: c in s.clients ==> s.clients[c] in s.chans
  {
    a.Subscribe? && a.conn in s.clients && Pending(s.chans[s.clients[a.conn]])
  }

  ghost predicate UndrainedAt(h: seq<Action>, i: int) {
    0 <= i < |h| && Run(h[..i]).Some? && Typed(Run(h[..i]).value) && Undrained(Run(h[..i]).value, h[i])
  }

  /** Replaced subscriptions have no event left to send. */
  predicate DrainedPair(s: State, ch: Chan, k: Chan) { Siblings(s, ch, k) && ch < k ==> !Pending(s.chans[ch]) }
  ghost predicate Drained(s: State) { forall ch: Chan, k: Chan :: DrainedPair(s, ch, k) }

  // ---------------------------------------------------------------------
  // Drained queues stay drained
  // ---------------------------------------------------------------------

  /** No replaced subscription gains an event, and no new one appears. */
  ghost predicate NoNewPending(s: State, t: State) {
    && t.chans.Keys == s.chans.Keys
    && forall ch :: ch in s.chans ==> t.chans[ch].conn == s.chans[ch].conn && (Pending(t.chans[ch]) ==> Pending(s.chans[ch]))
  }

  lemma NoNewPendingKeepsDrained(s: State, t: State)
    requires Drained(s) && NoNewPending(s, t)
    ensures Drained(t)
  {
    forall ch: Chan, k: Chan ensures DrainedPair(t, ch, k) {
      assert DrainedPair(s, ch, k);
    }
  }

  lemma WriterAddsNothing(c: Channel, ok: bool)
    ensures c.queue != [] && c.failed.None? && Pending(Received(c)) ==> Pending(c)
    ensures c.hand.Some? && Pending(Emptied(c, ok)) ==> Pending(c)
  {
    if c.queue != [] {
      assert forall i :: 0 <= i < |c.queue[1..]| ==> c.queue[1..][i] == c.queue[i + 1];
      assert c.queue[0].Event? ==> HasEvent(c.queue);
    }
  }

  lemma WriterKeepsDrained(s: State, a: Action)
    requires Typed(s) && Drained(s) && IsWriters(a) && Step(s, a).Some?
    ensures Drained(Step(s, a).value)
  {
    WriterAddsNothing(s.chans[a.chan], a.Write?);
    NoNewPendingKeepsDrained(s, Step(s, a).value);
  }

  lemma PushKeepsDrained(s: State, c: Conn, msg: Message)
    requires Typed(s) && Lineage(s) && Drained(s) && c in s.clients
    ensures Drained(Push(s, s.clients[c], msg))
  {
    var n, t := s.clients[c], Push(s, s.clients[c], msg);
    forall ch: Chan, k: Chan ensures DrainedPair(t, ch, k) {
      assert DrainedPair(s, ch, k);
      if Siblings(t, ch, k) {
        PushKeepsConn(s, n, msg, ch);
        PushKeepsConn(s, n, msg, k);
        assert ch == n ==> k <= n;
      }
    }
  }

  /** Two states of one subscription with the same messages still to be sent. */
  predicate SameBacklog(c: Channel, d: Channel) { d.conn == c.conn && d.queue == c.queue && d.hand == c.hand && d.failed == c.failed }

  lemma SameQueuesKeepDrained(s: State, t: State)
    requires Drained(s) && t.chans.Keys == s.chans.Keys && forall ch :: ch in s.chans ==> SameBacklog(s.chans[ch], t.chans[ch])
    ensures Drained(t)
  {
    NoNewPendingKeepsDrained(s, t);
  }

  lemma SubscribeKeepsDrained(s: State, c: Conn)
    requires Inv(s) && Lineage(s) && Drained(s) && StepSubscribe(s, c).Some? && !Undrained(s, Subscribe(c))
    ensures Drained(StepSubscribe(s, c).value)
  {
    SubscribeShape(s, c);
    var t := StepSubscribe(s, c).value;
    forall ch: Chan, k: Chan ensures DrainedPair(t, ch, k) {
      if Siblings(t, ch, k) && ch < k {
        ReplacedIsDrained(s, c, t, ch, k);
        OldQueueStays(s, c, ch);
      }
    }
  }

  lemma ReplacedIsDrained(s: State, c: Conn, t: State, ch: Chan, k: Chan)
    requires Typed(s) && Lineage(s) && Drained(s) && NewSubscription(s, c, t) && !Undrained(s, Subscribe(c))
    requires Siblings(t, ch, k) && ch < k
    ensures ch in s.chans && !Pending(s.chans[ch])
  {
    assert ch in s.chans && DrainedPair(s, ch, k);
    if k == s.nextChan {
      assert s.chans[ch].conn == c && c in s.clients;
      assert DrainedPair(s, ch, s.clients[c]);
    }
  }

  lemma OldQueueStays(s: State, c: Conn, ch: Chan)
    requires TableOk(s) && StepSubscribe(s, c).Some? && ch in s.chans
    ensures ch in StepSubscribe(s, c).value.chans && SameBacklog(s.chans[ch], StepSubscribe(s, c).value.chans[ch])
  {
  }

  lemma DisconnectKeepsDrained(s: State, c: Conn)
    requires TableOk(s) && Drained(s) && StepDisconnect(s, c).Some?
    ensures Drained(StepDisconnect(s, c).value)
  {
    SameQueuesKeepDrained(s, StepDisconnect(s, c).value);
  }

  lemma OfferKeepsDrained(s: State, b: nat, c: Conn)
    requires Typed(s) && Lineage(s) && Drained(s) && StepOffer(s, b, c).Some?
    ensures Drained(StepOffer(s, b, c).value)
  {
    PushKeepsDrained(s, c, Event(b));
    SameQueuesKeepDrained(Push(s, s.clients[c], Event(b)), StepOffer(s, b, c).value);
  }

  lemma DumpKeepsDrained(s: State, c: Conn)
    requires TableOk(s) && Lineage(s) && Drained(s) && StepDump(s, c).Some?
    ensures Drained(StepDump(s, c).value)
  {
    PushKeepsDrained(s, c, Dump);
    SameQueuesKeepDrained(Push(s, s.clients[c], Dump), StepDump(s, c).value);
  }

  lemma OtherKeepsDrained(s: State, a: Action)
    requires Typed(s) && Drained(s) && Step(s, a).Some?
    requires a.Connect? || a.SkipDump? || a.BeginBroadcast? || a.EndBroadcast?
    ensures Drained(Step(s, a).value)
  {
    SameQueuesKeepDrained(s, Step(s, a).value);
  }

  lemma StepKeepsDrained(s: State, a: Action)
    requires Inv(s) && Lineage(s) && Drained(s) && Step(s, a).Some? && !Undrained(s, a)
    ensures Drained(Step(s, a).value)
  {
    match a
    case Subscribe(c) => SubscribeKeepsDrained(s, c);
    case Disconnect(c) => DisconnectKeepsDrained(s, c);
    case Offer(b, c) => OfferKeepsDrained(s, b, c);
    case SendDump(c) => DumpKeepsDrained(s, c);
    case _ =>
      if IsWriters(a) {
        WriterKeepsDrained(s, a);
      } else {
        OtherKeepsDrained(s, a);
      }
  }

  lemma {:induction false} RunIsDrained(h: seq<Action>)
    requires Run(h).Some? && forall i :: !UndrainedAt(h, i)
    ensures Drained(Run(h).value)
    decreases |h|
  {
    if h == [] {
      assert Run(h) == Some(INITIAL);
    } else {
      var n := |h| - 1;
      RunStep(h);
      NeverUndrainedBefore(h, n);
      RunIsDrained(h[..n]);
      RunKeepsInv(h[..n]);
      RunKeepsStreamInv(h[..n]);
      assert !UndrainedAt(h, n);
      StepKeepsDrained(Run(h[..n]).value, h[n]);
    }
  }

  lemma NeverUndrainedBefore(h: seq<Action>, n: nat)
    requires n <= |h| && forall i :: !UndrainedAt(h, i)
    ensures forall i :: !UndrainedAt(h[..n], i)
  {
    forall i ensures !UndrainedAt(h[..n], i) {
      if 0 <= i < n {
        assert h[..n][..i] == h[..i] && !UndrainedAt(h, i);
      }
    }
  }

  lemma NeverOvertakenBefore(h: seq<Action>, n: nat)
    requires n <= |h| && forall i :: !OvertakesAt(h, i)
    ensures forall i :: !OvertakesAt(h[..n], i)
  {
    forall i ensures !OvertakesAt(h[..n], i) {
      if 0 <= i < n {
        assert h[..n][..i] == h[..i] && !OvertakesAt(h, i);
      }
    }
  }

  // ---------------------------------------------------------------------
  // The discipline under which streams are in order
  // ---------------------------------------------------------------------

  lemma {:induction false} AcceptedOrder(log: seq<Attempt>, i: nat, j: nat)
    requires i < j < |Accepted(log)|
    ensures exists p, q :: 0 <= p < q < |log| && log[p].msg == Accepted(log)[i] && log[q].msg == Accepted(log)[j]
    decreases |log|
  {
    var n := |log| - 1;
    var g := log[..n];
    if j < |Accepted(g)| {
      AcceptedOrder(g, i, j);
      var p, q :| 0 <= p < q < |g| && g[p].msg == Accepted(g)[i] && g[q].msg == Accepted(g)[j];
      assert log[p].msg == Accepted(log)[i] && log[q].msg == Accepted(log)[j];
    } else {
      AcceptedMember(g, Accepted(g)[i]);
      var p :| 0 <= p < |g| && g[p].msg == Accepted(g)[i];
      assert log[p].msg == Accepted(log)[i] && log[n].msg == Accepted(log)[j];
    }
  }

  /** A queue that has sent a later event than the one its writer holds was offered events out of order. */
  lemma OvertakenQueue(c: Channel)
    requires ChannelOk(c) && c.hand.Some? && c.hand.value.Event? && LaterIn(c.written, c.hand.value.number)
    ensures !InOrder(c)
  {
    var i :| 0 <= i < |c.written| && c.written[i].Event? && c.written[i].number > c.hand.value.number;
    var log := Accepted(c.attempts);
    assert log == c.written + [c.hand.value] + [] + c.queue;
    assert log[i] == c.written[i] && log[|c.written|] == c.hand.value;
    AcceptedOrder(c.attempts, i, |c.written|);
  }

  lemma NoLateSend(h: seq<Action>, i: int, c: Conn)
    requires Run(h).Some? && (forall k :: !OvertakesAt(h, k)) && forall k :: !UndrainedAt(h, k)
    ensures !SendsLateAt(h, i, c)
  {
    if SendsLateAt(h, i, c) {
      var s, ch := Run(h[..i]).value, h[i].chan;
      NeverUndrainedBefore(h, i);
      NeverOvertakenBefore(h, i);
      RunIsDrained(h[..i]);
      DisorderedIff(h[..i]);
      RunKeepsInv(h[..i]);
      NotLate(s, ch);
      assert false;
    }
  }

  lemma SupersededIsPending(s: State, ch: Chan)
    requires HoldsEvent(s, ch) && Superseded(s, ch)
    ensures !Drained(s)
  {
    var k :| k in s.chans && ch < k && Siblings(s, ch, k) && HasEvent(s.chans[k].written);
    assert !DrainedPair(s, ch, k);
  }

  lemma NotLate(s: State, ch: Chan)
    requires Inv(s) && Drained(s) && !Disordered(s) && HoldsEvent(s, ch)
    ensures !LaterIn(s.chans[ch].written, s.chans[ch].hand.value.number) && !Superseded(s, ch)
  {
    if LaterIn(s.chans[ch].written, s.chans[ch].hand.value.number) {
      OvertakenQueue(s.chans[ch]);
      assert false;
    }
    if Superseded(s, ch) {
      SupersededIsPending(s, ch);
      assert false;
    }
  }

  /** If no offer overtakes and nobody subscribes again while an event is in the old queue or in its writer's hand,
      every connection is sent its events in order. */
  lemma StreamsInOrder(h: seq<Action>, c: Conn)
    requires Run(h).Some? && (forall i :: !OvertakesAt(h, i)) && forall i :: !UndrainedAt(h, i)
    ensures StreamInOrder(Stream(Run(h).value, c))
  {
    StreamOutOfOrderIff(h, c);
    forall i ensures !SendsLateAt(h, i, c) {
      NoLateSend(h, i, c);
    }
  }

  // ---------------------------------------------------------------------
  // Without the discipline
  // ---------------------------------------------------------------------

  /** What a subscription still has to send, in order. */
  function Backlog(c: Channel): seq<Message> { AsSeq(c.hand) + c.queue }

  /** Nothing but the writers acts. */
  predicate WritersOnly(g: seq<Action>) { forall i :: 0 <= i < |g| ==> IsWriters(g[i]) }

  /** From s to t the writer of ch has sent the first k messages of its backlog. */
  predicate HasSent(s: State, ch: Chan, k: nat, t: State)
    requires ch in s.chans && k <= |Backlog(s.chans[ch])|
  {
    && ch in t.chans && t.chans[ch].conn == s.chans[ch].conn && t.chans[ch].failed.None?
    && Backlog(t.chans[ch]) == Backlog(s.chans[ch])[k..]
    && Stream(t, s.chans[ch].conn) == Stream(s, s.chans[ch].conn) + Backlog(s.chans[ch])[..k]
  }

  lemma WriteHand(h: seq<Action>, s: State, ch: Chan) returns (t: State)
    requires At(h, s) && ch in s.chans && s.chans[ch].hand.Some? && s.chans[ch].failed.None?
    ensures At(h + [Write(ch)], t) && HasSent(s, ch, 1, t)
  {
    t := StepWrite(s, ch, true).value;
    Continue(h, s, Write(ch), t);
    assert Backlog(t.chans[ch]) == s.chans[ch].queue == Backlog(s.chans[ch])[1..];
    assert Backlog(s.chans[ch])[..1] == [s.chans[ch].hand.value];
  }

  lemma TakeFirst(h: seq<Action>, s: State, ch: Chan) returns (t: State)
    requires At(h, s) && ch in s.chans && s.chans[ch].hand.None? && s.chans[ch].failed.None? && s.chans[ch].queue != []
    ensures At(h + [Take(ch)], t) && t.chans == s.chans[ch := Received(s.chans[ch])] && t.streams == s.streams
    ensures Backlog(t.chans[ch]) == Backlog(s.chans[ch])
  {
    t := StepTake(s, ch).value;
    Continue(h, s, Take(ch), t);
    assert [s.chans[ch].queue[0]] + s.chans[ch].queue[1..] == s.chans[ch].queue;
  }

  lemma WriterSendsOne(h: seq<Action>, s: State, ch: Chan) returns (g: seq<Action>, t: State)
    requires At(h, s) && ch in s.chans && s.chans[ch].failed.None? && Backlog(s.chans[ch]) != []
    ensures WritersOnly(g) && At(h + g, t) && HasSent(s, ch, 1, t)
  {
    if s.chans[ch].hand.Some? {
      t := WriteHand(h, s, ch);
      g := [Write(ch)];
    } else {
      var m := TakeFirst(h, s, ch);
      t := WriteHand(h + [Take(ch)], m, ch);
      g := [Take(ch), Write(ch)];
      assert h + [Take(ch)] + [Write(ch)] == h + g;
    }
  }

  lemma SentAndOne(s: State, ch: Chan, k: nat, m: State, t: State)
    requires ch in s.chans && k < |Backlog(s.chans[ch])| && HasSent(s, ch, k, m) && HasSent(m, ch, 1, t)
    ensures HasSent(s, ch, k + 1, t)
  {
    var q := Backlog(s.chans[ch]);
    assert q[k..][1..] == q[k + 1..] && q[..k + 1] == q[..k] + q[k..][..1];
  }

  /** The writer of ch, run alone, sends the first k messages of its backlog. */
  lemma {:induction false} WriterRuns(h: seq<Action>, s: State, ch: Chan, k: nat) returns (g: seq<Action>, t: State)
    requires At(h, s) && ch in s.chans && s.chans[ch].failed.None? && k <= |Backlog(s.chans[ch])|
    ensures WritersOnly(g) && At(h + g, t) && HasSent(s, ch, k, t)
  {
    if k == 0 {
      Unit(h);
      Unit(Stream(s, s.chans[ch].conn));
      g, t := [], s;
    } else {
      var g', m := WriterRuns(h, s, ch, k - 1);
      var f;
      f, t := WriterSendsOne(h + g', m, ch);
      SentAndOne(s, ch, k - 1, m, t);
      Assoc(h, g', f);
      g := g' + f;
    }
  }

  /** What is left of a subscription that was replaced. */
  predicate Kept(s: State, ch: Chan, c: Conn, t: State) {
    ch in s.chans && ch in t.chans && t.chans[ch].conn == c && SameBacklog(s.chans[ch], t.chans[ch])
  }

  lemma Resubscribe(h: seq<Action>, s: State, c: Conn) returns (t: State)
    requires At(h, s) && Step(s, Subscribe(c)).Some? && c in s.clients && s.chans[s.clients[c]].conn == c
    ensures Step(s, Subscribe(c)) == Some(t) && At(h + [Subscribe(c)], t) && t.nextNumber == s.nextNumber
    ensures Kept(s, s.clients[c], c, t) && Stream(t, c) == Stream(s, c)
    ensures s.clients[c] != s.nextChan && t.clients == s.clients[c := s.nextChan] && t.chans[s.nextChan] == Fresh(c)
  {
    RunKeepsInv(h);
    t := Step(s, Subscribe(c)).value;
    SubscribeShape(s, c);
    OldQueueStays(s, c, s.clients[c]);
    Continue(h, s, Subscribe(c), t);
    SubscribeKeepsNumber(s, c);
  }

  /** After a re-subscription a broadcast begins. */
  lemma SubscribeAndBegin(h: seq<Action>, s: State, c: Conn) returns (t: State)
    requires At(h, s) && Step(s, Subscribe(c)).Some? && c in s.clients && s.chans[s.clients[c]].conn == c
    ensures At(h + [Subscribe(c)] + [BeginBroadcast], t)
    ensures Kept(s, s.clients[c], c, t) && Stream(t, c) == Stream(s, c)
    ensures s.clients[c] != s.nextChan && c in t.clients && t.clients[c] == s.nextChan && t.chans[s.nextChan] == Fresh(c) && Waiting(t, s.nextNumber, c)
  {
    var s1 := Resubscribe(h, s, c);
    t := Step(s1, BeginBroadcast).value;
    Continue(h + [Subscribe(c)], s1, BeginBroadcast, t);
  }

  lemma SubscribeKeepsNumber(s: State, c: Conn)
    requires Typed(s) && StepSubscribe(s, c).Some?
    ensures StepSubscribe(s, c).value.nextNumber == s.nextNumber
  {
  }

  /** The broadcast is offered to the new queue and sent at once. */
  lemma OfferAndWrite(h: seq<Action>, s: State, c: Conn, b: nat, old': Chan) returns (t: State)
    requires At(h, s) && c in s.clients && Waiting(s, b, c) && s.chans[s.clients[c]] == Fresh(c) && old' in s.chans && old' != s.clients[c]
    ensures At(h + [Offer(b, c)] + [Take(s.clients[c])] + [Write(s.clients[c])], t)
    ensures old' in t.chans && t.chans[old'] == s.chans[old'] && Stream(t, c) == Stream(s, c) + [Event(b)]
  {
    var n := s.clients[c];
    var s1 := Step(s, Offer(b, c)).value;
    OfferToFresh(s, b, c);
    Continue(h, s, Offer(b, c), s1);
    var s2 := TakeFirst(h + [Offer(b, c)], s1, n);
    t := WriteLeaves(h + [Offer(b, c)] + [Take(n)], s2, n, old');
  }

  /** Both together. */
  lemma NewQueueSends(h: seq<Action>, s: State, c: Conn) returns (g: seq<Action>, t: State)
    requires At(h, s) && Step(s, Subscribe(c)).Some? && c in s.clients && s.chans[s.clients[c]].conn == c
    ensures g == [Subscribe(c), BeginBroadcast, Offer(s.nextNumber, c), Take(s.nextChan), Write(s.nextChan)]
    ensures At(h + g, t) && Kept(s, s.clients[c], c, t)
    ensures Stream(t, c) == Stream(s, c) + [Event(s.nextNumber)]
  {
    var m := SubscribeAndBegin(h, s, c);
    t := OfferAndWrite(h + [Subscribe(c)] + [BeginBroadcast], m, c, s.nextNumber, s.clients[c]);
    g := [Subscribe(c), BeginBroadcast, Offer(s.nextNumber, c), Take(s.nextChan), Write(s.nextChan)];
    assert h + g == h + [Subscribe(c)] + [BeginBroadcast] + [Offer(s.nextNumber, c)] + [Take(s.nextChan)] + [Write(s.nextChan)];
  }

  lemma OfferToFresh(s: State, b: nat, c: Conn)
    requires Typed(s) && Waiting(s, b, c) && s.chans[s.clients[c]] == Fresh(c)
    ensures StepOffer(s, b, c).Some?
    ensures var t := StepOffer(s, b, c).value;
            t.chans == s.chans[s.clients[c] := Fresh(c).(queue := [Event(b)], attempts := [Attempt(Event(b), true, 0)])]
            && t.streams == s.streams && t.clients == s.clients
  {
    assert [] + [Event(b)] == [Event(b)] && [] + [Attempt(Event(b), true, 0)] == [Attempt(Event(b), true, 0)];
  }

  lemma WriteLeaves(h: seq<Action>, s: State, ch: Chan, k: Chan) returns (t: State)
    requires At(h, s) && ch in s.chans && s.chans[ch].hand.Some? && k in s.chans && k != ch
    ensures At(h + [Write(ch)], t) && k in t.chans && t.chans[k] == s.chans[k]
    ensures Stream(t, s.chans[ch].conn) == Stream(s, s.chans[ch].conn) + [s.chans[ch].hand.value]
  {
    t := StepWrite(s, ch, true).value;
    Continue(h, s, Write(ch), t);
  }

  /** Subscribing again while an event is still to be sent can end in a stream out of order, with one more broadcast. */
  lemma UndrainedReorders(h: seq<Action>, s: State, c: Conn) returns (more: seq<Action>)
    requires At(h, s) && Step(s, Subscribe(c)).Some? && Undrained(s, Subscribe(c))
    ensures |more| > 1 && more[0] == Subscribe(c) && Run(h + more).Some?
    ensures NoResubscribe(more) && OneBroadcast(more)
    ensures !StreamInOrder(Stream(Run(h + more).value, c))
  {
    var ch := s.clients[c];
    var q := Backlog(s.chans[ch]);
    var i := PendingEvent(h, s, c);
    var g, t := NewQueueSends(h, s, c);
    var f, u := WriterRuns(h + g, t, ch, i + 1);
    more := g + f;
    Assoc(h, g, f);
    WritersAreQuiet(g, f);
    OutOfOrder(Stream(s, c), Event(s.nextNumber), q, i);
  }

  lemma WritersAreQuiet(g: seq<Action>, f: seq<Action>)
    requires |g| == 5 && g[0].Subscribe? && g[1].BeginBroadcast? && g[2].Offer? && g[3].Take? && g[4].Write? && WritersOnly(f)
    ensures NoResubscribe(g + f) && OneBroadcast(g + f)
  {
    forall i | 1 <= i < |g + f| ensures !(g + f)[i].Subscribe? && ((g + f)[i].BeginBroadcast? ==> i == 1) {
      assert i >= 5 ==> (g + f)[i] == f[i - 5];
    }
  }

  lemma PendingEvent(h: seq<Action>, s: State, c: Conn) returns (i: nat)
    requires At(h, s) && Undrained(s, Subscribe(c))
    ensures var d := s.chans[s.clients[c]];
            d.conn == c && d.failed.None? && i < |Backlog(d)| && Backlog(d)[i].Event? && Backlog(d)[i].number < s.nextNumber
  {
    RunKeepsInv(h);
    RunKeepsStreamInv(h);
    i := PendingIndex(s.chans[s.clients[c]]);
    OldEventIsEarlier(s, s.clients[c], Backlog(s.chans[s.clients[c]])[i]);
  }

  lemma PendingIndex(d: Channel) returns (i: nat)
    requires ChannelOk(d) && Pending(d)
    ensures d.failed.None? && i < |Backlog(d)| && Backlog(d)[i].Event?
  {
    if d.hand.Some? && d.hand.value.Event? {
      i := 0;
    } else {
      var j :| 0 <= j < |d.queue| && d.queue[j].Event?;
      i := |AsSeq(d.hand)| + j;
      assert Backlog(d)[i] == d.queue[j];
    }
  }

  lemma OldEventIsEarlier(s: State, ch: Chan, m: Message)
    requires Inv(s) && OnceInv(s) && ch in s.chans && m in Backlog(s.chans[ch]) && m.Event?
    ensures m.number < s.nextNumber
  {
    HandledWasOffered(s.chans[ch], m);
    assert EventsOnce(s.chans[ch], s.nextNumber);
  }

  lemma OutOfOrder(a: seq<Message>, m: Message, q: seq<Message>, i: nat)
    requires i < |q| && m.Event? && q[i].Event? && q[i].number < m.number
    ensures !StreamInOrder(a + [m] + q[..i + 1])
  {
    var ms := a + [m] + q[..i + 1];
    assert ms[|a|] == m && ms[|ms| - 1] == q[i];
  }

  /** From here on nobody subscribes again. */
  predicate NoResubscribe(more: seq<Action>) { forall i :: 1 <= i < |more| ==> !more[i].Subscribe? }

  /** In a run whose broadcasts do not overlap and whose re-subscriptions were all drained: one more subscription
      can lead to a stream out of order, without overlapping broadcasts or further subscriptions, exactly when an
      event is still in the old queue or in its writer's hand. */
  lemma ResubscribeIff(h: seq<Action>, c: Conn)
    requires Run(h).Some? && Typed(Run(h).value) && SerialRun(h) && (forall i :: !UndrainedAt(h, i))
    requires Step(Run(h).value, Subscribe(c)).Some?
    ensures Undrained(Run(h).value, Subscribe(c)) <==> exists more :: Reorders(h, c, more)
  {
    if Undrained(Run(h).value, Subscribe(c)) {
      var more := UndrainedReorders(h, Run(h).value, c);
      SerialContinues(h, c, more);
      assert Reorders(h, c, more);
    } else {
      forall more ensures !Reorders(h, c, more) {
        DrainedNeverReorders(h, c, more);
      }
    }
  }

  lemma DrainedNeverReorders(h: seq<Action>, c: Conn, more: seq<Action>)
    requires Run(h).Some? && Typed(Run(h).value) && (forall i :: !UndrainedAt(h, i)) && !Undrained(Run(h).value, Subscribe(c))
    ensures !Reorders(h, c, more)
  {
    if more != [] && more[0] == Subscribe(c) && NoResubscribe(more) && Run(h + more).Some? && SerialRun(h + more) {
      DrainedContinues(h, c, more);
      SerialBroadcastsInOrder(h + more);
      StreamsInOrder(h + more, c);
    }
  }

  ghost predicate Reorders(h: seq<Action>, c: Conn, more: seq<Action>) {
    && more != [] && more[0] == Subscribe(c) && NoResubscribe(more) && Run(h + more).Some? && SerialRun(h + more)
    && !StreamInOrder(Stream(Run(h + more).value, c))
  }

  /** Only the second action may begin a broadcast. */
  predicate OneBroadcast(more: seq<Action>) { forall i :: 1 <= i < |more| && more[i].BeginBroadcast? ==> i == 1 }

  lemma {:induction false} SerialContinues(h: seq<Action>, c: Conn, more: seq<Action>)
    requires Run(h).Some? && Typed(Run(h).value) && SerialRun(h) && Step(Run(h).value, Subscribe(c)).Some?
    requires more != [] && more[0] == Subscribe(c) && OneBroadcast(more)
    ensures SerialRun(h + more)
    decreases |more|
  {
    var n := |more| - 1;
    var g := h + more;
    assert g[..|g| - 1] == h + more[..n] && g[|g| - 1] == more[n];
    if n == 0 {
      assert h + more[..0] == h;
    } else {
      SerialContinues(h, c, more[..n]);
      if n == 1 {
        SubscribeIsQuiet(h, c);
        assert more[..1] == [Subscribe(c)];
      }
    }
  }

  lemma SubscribeIsQuiet(h: seq<Action>, c: Conn)
    requires Run(h).Some? && Typed(Run(h).value) && Step(Run(h).value, Subscribe(c)).Some?
    ensures Run(h + [Subscribe(c)]).Some? && Run(h + [Subscribe(c)]).value.broadcasts == map[]
  {
    OneStep(h, Subscribe(c), Run(h).value);
  }

  lemma DrainedContinues(h: seq<Action>, c: Conn, more: seq<Action>)
    requires Run(h).Some? && (forall i :: !UndrainedAt(h, i)) && !(Typed(Run(h).value) && Undrained(Run(h).value, Subscribe(c)))
    requires more != [] && more[0] == Subscribe(c) && NoResubscribe(more)
    ensures forall i :: !UndrainedAt(h + more, i)
  {
    forall i ensures !UndrainedAt(h + more, i) {
      DrainedAtEach(h, c, more, i);
    }
  }

  lemma DrainedAtEach(h: seq<Action>, c: Conn, more: seq<Action>, i: int)
    requires Run(h).Some? && !UndrainedAt(h, i) && !(Typed(Run(h).value) && Undrained(Run(h).value, Subscribe(c)))
    requires more != [] && more[0] == Subscribe(c) && NoResubscribe(more)
    ensures !UndrainedAt(h + more, i)
  {
    if i < 0 || i >= |h + more| {
    } else if i < |h| {
      EarlierIsDrained(h, more, i);
    } else if i == |h| {
      NowIsDrained(h, more, c);
    } else {
      LaterIsDrained(h, more, i);
    }
  }

  lemma NowIsDrained(h: seq<Action>, more: seq<Action>, c: Conn)
    requires Run(h).Some? && !(Typed(Run(h).value) && Undrained(Run(h).value, Subscribe(c))) && more != [] && more[0] == Subscribe(c)
    ensures !UndrainedAt(h + more, |h|)
  {
    assert (h + more)[..|h|] == h && (h + more)[|h|] == Subscribe(c);
  }

  lemma EarlierIsDrained(h: seq<Action>, more: seq<Action>, i: int)
    requires 0 <= i < |h| && !UndrainedAt(h, i)
    ensures !UndrainedAt(h + more, i)
  {
    assert (h + more)[..i] == h[..i] && (h + more)[i] == h[i];
  }

  lemma LaterIsDrained(h: seq<Action>, more: seq<Action>, i: int)
    requires NoResubscribe(more) && |h| < i < |h + more|
    ensures !UndrainedAt(h + more, i)
  {
    assert (h + more)[i] == more[i - |h|];
  }

  /** A connection that subscribes twice is sent broadcast 1 before broadcast 0, although they did not overlap. */
  lemma ResubscribingReorders() returns (h: seq<Action>)
    ensures Run(h).Some? && SerialRun(h) && !StreamInOrder(Stream(Run(h).value, 0))
  {
    var g, s := OneEventQueued();
    var more := UndrainedReorders(g, s, 0);
    SerialContinues(g, 0, more);
    h := g + more;
  }

  /** An empty queue is not enough: the same happens when the connection subscribes again, for the first time, after
      the old writer has received its last event and before it writes it. */
  lemma EmptyQueueReorders() returns (h: seq<Action>, more: seq<Action>)
    ensures Run(h).Some? && SerialRun(h) && (forall i :: !UndrainedAt(h, i)) && Reorders(h, 0, more)
    ensures 0 in Run(h).value.clients && Run(h).value.clients[0] in Run(h).value.chans
    ensures Run(h).value.chans[Run(h).value.clients[0]].queue == []
  {
    var s;
    h, s := OneEventQueued();
    SubscribedOnce(h);
    h, s := LastEventTaken(h, s);
    more := UndrainedReorders(h, s, 0);
    SerialContinues(h, 0, more);
  }

  /** The writer of the one client writes the dump and receives the event. */
  lemma LastEventTaken(g: seq<Action>, r: State) returns (h: seq<Action>, s: State)
    requires At(g, r) && SerialRun(g) && (forall i :: !UndrainedAt(g, i)) && Step(r, Subscribe(0)).Some?
    requires 0 in r.clients && r.clients[0] in r.chans
    requires var c := r.chans[r.clients[0]]; c.queue == [Dump, Event(0)] && c.hand.None? && c.failed.None?
    ensures At(h, s) && SerialRun(h) && (forall i :: !UndrainedAt(h, i)) && Step(s, Subscribe(0)).Some?
    ensures Undrained(s, Subscribe(0)) && 0 in s.clients && s.chans[s.clients[0]].queue == []
  {
    var ch := r.clients[0];
    assert [Dump, Event(0)][1..] == [Event(0)] && [Event(0)][1..] == [];
    h, s := WriterTakes(g, r, ch);
    h, s := WriterActs(h, s, Write(ch));
    assert s.chans[ch].queue == [Event(0)] && s.chans[ch].hand.None? && s.chans[ch].failed.None?;
    h, s := WriterTakes(h, s, ch);
  }

  lemma WriterTakes(g: seq<Action>, r: State, ch: Chan) returns (h: seq<Action>, s: State)
    requires At(g, r) && SerialRun(g) && (forall i :: !UndrainedAt(g, i)) && Step(r, Subscribe(0)).Some?
    requires ch in r.chans && r.chans[ch].queue != [] && r.chans[ch].hand.None? && r.chans[ch].failed.None?
    ensures At(h, s) && SerialRun(h) && (forall i :: !UndrainedAt(h, i))
    ensures s.clients == r.clients && Step(s, Subscribe(0)).Some? && s.chans == r.chans[ch := Received(r.chans[ch])]
  {
    h, s := WriterActs(g, r, Take(ch));
  }

  lemma WriterActs(g: seq<Action>, r: State, a: Action) returns (h: seq<Action>, s: State)
    requires At(g, r) && SerialRun(g) && (forall i :: !UndrainedAt(g, i)) && Step(r, Subscribe(0)).Some?
    requires IsWriters(a) && Step(r, a).Some?
    ensures h == g + [a] && At(h, s) && Step(r, a) == Some(s) && SerialRun(h) && (forall i :: !UndrainedAt(h, i))
    ensures s.clients == r.clients && Step(s, Subscribe(0)).Some?
  {
    h, s := g + [a], Step(r, a).value;
    Continue(g, r, a, s);
    SerialSnoc(g, r, a);
    forall i ensures !UndrainedAt(h, i) {
      if 0 <= i < |g| {
        EarlierIsDrained(g, [a], i);
      }
    }
  }

  /** One subscribed client and one finished broadcast, nothing of it sent yet. */
  lemma OneEventQueued() returns (h: seq<Action>, s: State)
    ensures At(h, s) && SerialRun(h) && OneSubscribe(h)
    ensures Step(s, Subscribe(0)).Some? && Undrained(s, Subscribe(0))
    ensures 0 in s.clients && s.chans[s.clients[0]].queue == [Dump, Event(0)] && s.chans[s.clients[0]].hand.None?
    ensures s.chans[s.clients[0]].failed.None?
  {
    h, s := OneSubscriber();
    var t := Step(s, BeginBroadcast).value;
    Continue(h, s, BeginBroadcast, t);
    SerialSnoc(h, s, BeginBroadcast);
    assert s.clients.Keys == {0};
    assert t.broadcasts == map[0 := {0}];
    h, s := OfferAndEnd(h + [BeginBroadcast], t);
  }

  /** The only subscription is the second action. */
  predicate OneSubscribe(h: seq<Action>) { |h| > 1 && h[0].Connect? && forall i :: 0 <= i < |h| && h[i].Subscribe? ==> i == 1 }

  lemma SubscribedOnce(h: seq<Action>)
    requires Run(h).Some? && OneSubscribe(h)
    ensures forall i :: !UndrainedAt(h, i)
  {
    forall i ensures !UndrainedAt(h, i) {
      if i == 1 {
        assert h[..1] == [h[0]] && [h[0]][..0] == [];
        assert Run([]) == Some(INITIAL);
      }
    }
  }

  lemma OfferAndEnd(h: seq<Action>, s: State) returns (g: seq<Action>, u: State)
    requires At(h, s) && SerialRun(h) && OneSubscribe(h)
    requires s.clients == map[0 := 0] && s.broadcasts == map[0 := {0}] && s.sessions == map[0 := Serving]
    requires s.chans == map[0 := Fresh(0).(queue := [Dump], attempts := [Attempt(Dump, true, 0)])]
    ensures At(g, u) && SerialRun(g) && OneSubscribe(g) && Step(u, Subscribe(0)).Some? && Undrained(u, Subscribe(0))
    ensures u.clients == map[0 := 0] && u.chans[0].queue == [Dump, Event(0)] && u.chans[0].hand.None? && u.chans[0].failed.None?
  {
    var t := OfferZero(h, s);
    u := Step(t, EndBroadcast(0)).value;
    Continue(h + [Offer(0, 0)], t, EndBroadcast(0), u);
    SerialSnoc(h + [Offer(0, 0)], t, EndBroadcast(0));
    assert u.broadcasts == map[] && u.chans[0].queue[1].Event?;
    g := h + [Offer(0, 0)] + [EndBroadcast(0)];
  }

  lemma OfferZero(h: seq<Action>, s: State) returns (t: State)
    requires At(h, s) && SerialRun(h) && s.clients == map[0 := 0] && s.broadcasts == map[0 := {0}]
    requires s.chans == map[0 := Fresh(0).(queue := [Dump], attempts := [Attempt(Dump, true, 0)])]
    ensures At(h + [Offer(0, 0)], t) && SerialRun(h + [Offer(0, 0)])
    ensures t.clients == s.clients && t.sessions == s.sessions && t.broadcasts == map[0 := {}] && 0 in t.chans
    ensures t.chans[0].queue == [Dump, Event(0)] && t.chans[0].hand.None? && t.chans[0].failed.None?
  {
    t := Step(s, Offer(0, 0)).value;
    Continue(h, s, Offer(0, 0), t);
    SerialSnoc(h, s, Offer(0, 0));
    assert {0} - {0} == {};
  }
}

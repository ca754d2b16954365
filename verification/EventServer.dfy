/** The server's fan-out as its goroutines run it, one critical section after another. */
module EventServer {
  import opened Prelude
  import opened EventFanout

  // ---------------------------------------------------------------------
  // A broadcast that runs alone
  // ---------------------------------------------------------------------

  function Exec(s: State, actions: seq<Action>): Option<State>
    decreases |actions|
  {
    if actions == [] then Some(s)
    else if !TypedNow(s) || Step(s, actions[0]).None? then None
    else Exec(Step(s, actions[0]).value, actions[1..])
  }

  /** Typed, in a form that can be evaluated. */
  predicate TypedNow(s: State)
    ensures TypedNow(s) <==> Typed(s)
  {
    && (forall c :: c in s.clients ==> s.clients[c] in s.chans)
    && (forall c :: c in s.sessions && s.sessions[c].Dumping? ==> s.sessions[c].chan in s.chans)
    && (forall b :: b in s.broadcasts ==> forall c :: c in s.broadcasts[b] ==> c in s.clients)
  }

  function Offers(b: nat, order: seq<Conn>): seq<Action> {
    seq(|order|, i requires 0 <= i < |order| => Offer(b, order[i]))
  }

  predicate ServedChan(clients: map<Conn, Chan>, served: set<Conn>, ch: Chan) {
    exists c :: c in served && c in clients && clients[c] == ch
  }

  /** The queues once msg has been offered to some of the clients, in whatever order. */
  function AfterOffers(chans: map<Chan, Channel>, clients: map<Conn, Chan>, served: set<Conn>, msg: Message): map<Chan, Channel> {
    map ch | ch in chans :: if ServedChan(clients, served, ch) then Enqueue(chans[ch], msg) else chans[ch]
  }

  /** Every client has an open queue of its own. */
  ghost predicate OpenClients(chans: map<Chan, Channel>, clients: map<Conn, Chan>) {
    && (forall c :: c in clients ==> clients[c] in chans && !chans[clients[c]].closed)
    && (forall c, d :: c in clients && d in clients && c != d ==> clients[c] != clients[d])
  }

  lemma ServeNext(chans: map<Chan, Channel>, clients: map<Conn, Chan>, served: set<Conn>, c: Conn, msg: Message)
    requires OpenClients(chans, clients) && served <= clients.Keys && c in clients && c !in served
    ensures var before, ch := AfterOffers(chans, clients, served, msg), clients[c];
            before[ch] == chans[ch] && AfterOffers(chans, clients, served + {c}, msg) == before[ch := Enqueue(chans[ch], msg)]
  {
    var ch := clients[c];
    assert !ServedChan(clients, served, ch);
    forall k | k in chans
      ensures ServedChan(clients, served + {c}, k) <==> ServedChan(clients, served, k) || k == ch
    {
      if k == ch {
        assert c in served + {c};
      }
      if ServedChan(clients, served, k) {
        var d :| d in served && d in clients && clients[d] == k;
        assert d in served + {c};
      }
    }
  }

  lemma NobodyServed(chans: map<Chan, Channel>, clients: map<Conn, Chan>, msg: Message)
    ensures AfterOffers(chans, clients, {}, msg) == chans
  {
  }

  /** A broadcast under way: served have been offered message b. */
  function Midway(s: State, b: nat, served: set<Conn>): State {
    s.(chans := AfterOffers(s.chans, s.clients, served, Event(b)),
       broadcasts := s.broadcasts[b := s.clients.Keys - served], nextNumber := b + 1)
  }

  lemma OfferStep(t: State, b: nat, c: Conn)
    requires Typed(t) && b in t.broadcasts && c in t.broadcasts[b] && !t.chans[t.clients[c]].closed
    ensures Step(t, Offer(b, c)) == Some(t.(chans := t.chans[t.clients[c] := Enqueue(t.chans[t.clients[c]], Event(b))],
                                            broadcasts := t.broadcasts[b := t.broadcasts[b] - {c}]))
  {
  }

  lemma ServedMore(all: set<Conn>, served: set<Conn>, c: Conn, b: nat, bs: map<nat, set<Conn>>)
    ensures bs[b := all - served][b := all - served - {c}] == bs[b := all - (served + {c})]
  {
    assert all - served - {c} == all - (served + {c});
  }

  lemma MidwayTyped(s: State, b: nat, served: set<Conn>)
    requires Typed(s)
    ensures Typed(Midway(s, b, served))
  {
  }

  lemma OfferMidway(s: State, b: nat, served: set<Conn>, c: Conn)
    requires OpenClients(s.chans, s.clients) && Typed(Midway(s, b, served)) && served <= s.clients.Keys && c in s.clients && c !in served
    ensures Step(Midway(s, b, served), Offer(b, c)) == Some(Midway(s, b, served + {c}))
  {
    var t, all := Midway(s, b, served), s.clients.Keys;
    ServeNext(s.chans, s.clients, served, c, Event(b));
    OfferStep(t, b, c);
    ServedMore(all, served, c, b, s.broadcasts);
  }

  /** What a broadcast that began in s ends in. */
  function Ended(s: State, b: nat): State {
    s.(chans := AfterOffers(s.chans, s.clients, s.clients.Keys, Event(b)), broadcasts := s.broadcasts - {b}, nextNumber := b + 1)
  }

  lemma ExecCons(s: State, a: Action, rest: seq<Action>)
    requires Typed(s) && Step(s, a).Some?
    ensures Exec(s, [a] + rest) == Exec(Step(s, a).value, rest)
  {
    assert ([a] + rest)[1..] == rest;
  }

  lemma {:induction false} OffersMidway(s: State, b: nat, served: set<Conn>, order: seq<Conn>)
    requires Typed(s) && OpenClients(s.chans, s.clients) && served <= s.clients.Keys
    requires NoDup(order) && SetOf(order) == s.clients.Keys - served
    ensures Exec(Midway(s, b, served), Offers(b, order) + [EndBroadcast(b)]) == Some(Ended(s, b))
    decreases |order|
  {
    var t := Midway(s, b, served);
    MidwayTyped(s, b, served);
    if order == [] {
      assert SetOf(order) == {};
      assert forall c :: c in s.clients ==> c !in s.clients.Keys - served;
      assert served == s.clients.Keys;
      EndMidway(s, b);
      ExecCons(t, EndBroadcast(b), []);
      assert Offers(b, order) + [EndBroadcast(b)] == [EndBroadcast(b)] + [];
    } else {
      var c, rest := order[0], order[1..];
      assert c in SetOf(order);
      OfferMidway(s, b, served, c);
      RestOf(order, served, s.clients.Keys);
      OffersMidway(s, b, served + {c}, rest);
      ExecCons(t, Offer(b, c), Offers(b, rest) + [EndBroadcast(b)]);
      OffersCons(b, order);
    }
  }

  lemma OffersCons(b: nat, order: seq<Conn>)
    requires order != []
    ensures Offers(b, order) + [EndBroadcast(b)] == [Offer(b, order[0])] + (Offers(b, order[1..]) + [EndBroadcast(b)])
  {
  }

  lemma RestOf(order: seq<Conn>, served: set<Conn>, all: set<Conn>)
    requires order != [] && NoDup(order) && SetOf(order) == all - served && served <= all
    ensures NoDup(order[1..]) && SetOf(order[1..]) == all - (served + {order[0]})
  {
    var c, rest := order[0], order[1..];
    assert forall i :: 0 <= i < |rest| ==> rest[i] == order[i + 1];
    forall x ensures x in SetOf(rest) <==> x in all - (served + {c}) {
      if x in SetOf(rest) {
        assert x in SetOf(order);
      }
      if x in all - (served + {c}) {
        assert x in SetOf(order);
      }
    }
  }

  lemma EndMidway(s: State, b: nat)
    requires Typed(Midway(s, b, s.clients.Keys))
    ensures Step(Midway(s, b, s.clients.Keys), EndBroadcast(b)) == Some(Ended(s, b))
  {
    assert s.clients.Keys - s.clients.Keys == {};
    assert s.broadcasts[b := s.clients.Keys - s.clients.Keys] - {b} == s.broadcasts - {b};
  }

  /** The whole effect of one broadcast: each client's queue gets the message or drops it. */
  function Broadcast(s: State): State {
    s.(chans := AfterOffers(s.chans, s.clients, s.clients.Keys, Event(s.nextNumber)), nextNumber := s.nextNumber + 1)
  }

  lemma TableIsOpen(s: State)
    requires Inv(s)
    ensures Typed(s) && OpenClients(s.chans, s.clients)
  {
  }

  lemma BeginMidway(s: State)
    requires Typed(s)
    ensures Step(s, BeginBroadcast) == Some(Midway(s, s.nextNumber, {}))
  {
    NobodyServed(s.chans, s.clients, Event(s.nextNumber));
    assert s.clients.Keys - {} == s.clients.Keys;
  }

  lemma EndedIsBroadcast(s: State)
    requires s.nextNumber !in s.broadcasts
    ensures Ended(s, s.nextNumber) == Broadcast(s)
  {
    assert s.broadcasts - {s.nextNumber} == s.broadcasts;
  }

  /** In whatever order a broadcast that runs alone ranges over the clients, its atomic steps have that effect. */
  lemma SoloBroadcast(s: State, order: seq<Conn>)
    requires Inv(s) && s.nextNumber !in s.broadcasts && NoDup(order) && SetOf(order) == s.clients.Keys
    ensures Exec(s, [BeginBroadcast] + (Offers(s.nextNumber, order) + [EndBroadcast(s.nextNumber)])) == Some(Broadcast(s))
  {
    var b := s.nextNumber;
    TableIsOpen(s);
    BeginMidway(s);
    OffersMidway(s, b, {}, order);
    EndedIsBroadcast(s);
    ExecCons(s, BeginBroadcast, Offers(b, order) + [EndBroadcast(b)]);
  }

  // ---------------------------------------------------------------------
  // The server
  // ---------------------------------------------------------------------

  class Server {
    var clients: map<Conn, Chan>
    var chans: map<Chan, Channel>
    var sessions: map<Conn, Session>
    var nextChan: Chan
    ghost var broadcasts: map<nat, set<Conn>>
    /** The number given to the next message, which stands for its text. */
    var nextNumber: nat
    ghost var panicked: bool
    /** What each connection has been sent. */
    ghost var streams: map<Conn, seq<Message>>

    ghost function Value(): State
      reads this
    {
      State(clients, chans, sessions, broadcasts, nextChan, nextNumber, panicked, streams)
    }

    constructor ()
      ensures Value() == INITIAL && Inv(Value())
    {
      clients, chans, sessions, nextChan := map[], map[], map[], 0;
      broadcasts, nextNumber, panicked, streams := map[], 0, false, map[];
    }

    method CloseChan(ch: Chan)
      requires ch in chans
      modifies this`chans, this`panicked
      ensures Value() == Close(old(Value()), ch)
    {
      if chans[ch].closed {
        panicked := true;
      } else {
        chans := chans[ch := chans[ch].(closed := true)];
      }
    }

    /** Subscribing under the write lock: an earlier queue of the connection is closed and replaced. */
    method Subscribe(c: Conn)
      requires Inv(Value()) && c in sessions && sessions[c].Serving? && broadcasts == map[]
      modifies this
      ensures Some(Value()) == Step(old(Value()), Action.Subscribe(c)) && Inv(Value())
    {
      StepKeepsInv(Value(), Action.Subscribe(c));
      if c in clients {
        CloseChan(clients[c]);
      }
      chans := chans[nextChan := Fresh(c)];
      clients := clients[c := nextChan];
      sessions := sessions[c := Dumping(nextChan)];
      nextChan := nextChan + 1;
    }

    /** The cleanup of a connection under the write lock. */
    method Disconnect(c: Conn)
      requires Inv(Value()) && c in sessions && sessions[c].Serving? && broadcasts == map[]
      modifies this
      ensures Some(Value()) == Step(old(Value()), Action.Disconnect(c)) && Inv(Value())
    {
      StepKeepsInv(Value(), Action.Disconnect(c));
      if c in clients {
        CloseChan(clients[c]);
      }
      clients := clients - {c};
      sessions := sessions - {c};
    }

    /** A send that does not wait: a full queue drops the message, a closed one would panic. */
    method Send(ch: Chan, msg: Message)
      requires ch in chans
      modifies this`chans, this`panicked
      ensures if old(chans)[ch].closed then panicked && chans == old(chans)
              else panicked == old(panicked) && chans == old(chans)[ch := Enqueue(old(chans)[ch], msg)]
    {
      var c := chans[ch];
      if c.closed {
        panicked := true;
      } else {
        chans := chans[ch := Enqueue(c, msg)];
      }
    }

    method BroadcastEvent()
      requires Inv(Value())
      modifies this
      ensures Value() == Broadcast(old(Value()))
    {
      OfferAll(Event(nextNumber));
      nextNumber := nextNumber + 1;
    }

    /** The loop over the clients, which come in an arbitrary order. */
    method OfferAll(msg: Message)
      requires OpenClients(chans, clients)
      modifies this`chans, this`panicked
      ensures chans == AfterOffers(old(chans), clients, clients.Keys, msg) && panicked == old(panicked)
    {
      ghost var before := chans;
      ghost var served: set<Conn> := {};
      var pending := clients.Keys;
      NobodyServed(before, clients, msg);
      while pending != {}
        invariant pending <= clients.Keys && served == clients.Keys - pending
        invariant panicked == old(panicked) && chans == AfterOffers(before, clients, served, msg)
        decreases |pending|
      {
        var c :| c in pending;
        ServeNext(before, clients, served, c, msg);
        pending := pending - {c};
        served := served + {c};
        Send(clients[c], msg);
      }
      assert served == clients.Keys;
    }

    /** A subscription's writer receives the first message of its queue. */
    method Receive(ch: Chan)
      requires Inv(Value()) && ch in chans && chans[ch].queue != [] && chans[ch].hand.None? && chans[ch].failed.None?
      modifies this`chans
      ensures Some(Value()) == Step(old(Value()), Take(ch)) && Inv(Value())
    {
      StepKeepsInv(Value(), Take(ch));
      TakeOut(ch);
    }

    method TakeOut(ch: Chan)
      requires ch in chans && chans[ch].queue != [] && chans[ch].hand.None? && chans[ch].failed.None?
      modifies this`chans
      ensures Some(Value()) == StepTake(old(Value()), ch)
    {
      var c := chans[ch];
      chans := chans[ch := c.(hand := Some(c.queue[0]), queue := c.queue[1..])];
    }

    /** It writes what it has received; whether the connection takes the message comes from outside. */
    method WriteOut(ch: Chan, ok: bool)
      requires Inv(Value()) && ch in chans && chans[ch].hand.Some?
      modifies this`chans, this`streams
      ensures Some(Value()) == Step(old(Value()), if ok then Write(ch) else WriteFails(ch)) && Inv(Value())
    {
      StepKeepsInv(Value(), if ok then Write(ch) else WriteFails(ch));
      WriteHand(ch, ok);
    }

    method WriteHand(ch: Chan, ok: bool)
      requires ch in chans && chans[ch].hand.Some?
      modifies this`chans, this`streams
      ensures Some(Value()) == StepWrite(old(Value()), ch, ok)
    {
      var c := chans[ch];
      if ok {
        streams := streams[c.conn := Stream(Value(), c.conn) + [c.hand.value]];
        chans := chans[ch := c.(hand := None, written := c.written + [c.hand.value])];
      } else {
        chans := chans[ch := c.(hand := None, failed := c.hand)];
      }
    }

    method WriteNext(ch: Chan, ok: bool)
      requires ch in chans && chans[ch].queue != [] && chans[ch].hand.None? && chans[ch].failed.None?
      modifies this`chans, this`streams
      ensures chans == old(chans)[ch := Emptied(Received(old(chans)[ch]), ok)]
      ensures var c := old(chans)[ch]; Stream(Value(), c.conn) == old(Stream(Value(), c.conn)) + if ok then [c.queue[0]] else []
    {
      TakeOut(ch);
      WriteHand(ch, ok);
    }

    /** A writer that nothing interrupts, from its start, on a connection that takes so many messages: it sends that many
        of the queued ones, in order, or all of them if there are no more; the next one fails, the writer stops, and the
        rest stays queued. */
    method WriteLoop(ch: Chan, takes: nat)
      requires ch in chans && chans[ch].hand.None? && chans[ch].failed.None?
      modifies this`chans, this`streams
      ensures chans.Keys == old(chans.Keys) && forall k :: k in chans && k != ch ==> chans[k] == old(chans)[k]
      ensures var c, d := old(chans)[ch], chans[ch];
              var n := if takes < |c.queue| then takes else |c.queue|;
              && d.conn == c.conn && d.hand.None? && d.written == c.written + c.queue[..n]
              && Stream(Value(), c.conn) == old(Stream(Value(), c.conn)) + c.queue[..n]
              && (if n < |c.queue| then d.failed == Some(c.queue[n]) && d.queue == c.queue[n + 1..] else d.failed.None? && d.queue == [])
    {
      ghost var c0 := chans[ch];
      ghost var before := Stream(Value(), c0.conn);
      ghost var n: nat := 0;
      Unit(c0.written);
      Unit(before);
      var left: nat := takes;
      while chans[ch].queue != [] && chans[ch].failed.None?
        invariant chans.Keys == old(chans.Keys) && forall k :: k in chans && k != ch ==> chans[k] == old(chans)[k]
        invariant n <= |c0.queue| && chans[ch].hand.None? && Sent(c0, chans[ch], before, Stream(Value(), c0.conn), n)
        invariant if chans[ch].failed.None? then left + n == takes else n == takes
        decreases |chans[ch].queue|
      {
        ghost var c, now := chans[ch], Stream(Value(), c0.conn);
        WriteNext(ch, left > 0);
        SentMore(c0, c, before, now, n, left > 0);
        if left > 0 {
          n := n + 1;
          left := left - 1;
        }
      }
    }
  }

  /** d is what c has become after sending the first n messages of its queue on a stream that was before, is now. */
  predicate Sent(c: Channel, d: Channel, before: seq<Message>, now: seq<Message>, n: nat)
    requires n <= |c.queue|
  {
    && now == before + c.queue[..n] && d.written == c.written + c.queue[..n] && d.conn == c.conn
    && (if d.failed.None? then d.queue == c.queue[n..] else n < |c.queue| && d.failed.value == c.queue[n] && d.queue == c.queue[n + 1..])
  }

  lemma SentMore(c: Channel, d: Channel, before: seq<Message>, now: seq<Message>, n: nat, ok: bool)
    requires n <= |c.queue| && Sent(c, d, before, now, n) && d.failed.None? && d.queue != []
    ensures n < |c.queue|
    ensures Sent(c, Emptied(Received(d), ok), before, now + (if ok then [d.queue[0]] else []), if ok then n + 1 else n)
  {
    assert d.queue[0] == c.queue[n] && d.queue[1..] == c.queue[n + 1..];
    assert c.queue[..n + 1] == c.queue[..n] + [c.queue[n]];
    Assoc(before, c.queue[..n], [c.queue[n]]);
    Assoc(c.written, c.queue[..n], [c.queue[n]]);
    Unit(now);
  }
}

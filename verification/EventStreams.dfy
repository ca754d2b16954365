/** The order in which notifications reach a connection, whose old and new subscriptions share one stream. */
module EventStreams {
  import opened Prelude
  import opened EventFanout
  import opened EventOrder

  ghost predicate StreamInOrder(ms: seq<Message>) {
    forall i, j :: 0 <= i < j < |ms| && ms[i].Event? && ms[j].Event? ==> ms[i].number <= ms[j].number
  }

  predicate LaterIn(ms: seq<Message>, b: nat) { exists i :: 0 <= i < |ms| && ms[i].Event? && ms[i].number > b }
  predicate HasEvent(ms: seq<Message>) { exists i :: 0 <= i < |ms| && ms[i].Event? }

  /** The writer of this subscription holds an event. */
  predicate HoldsEvent(s: State, ch: Chan) { ch in s.chans && s.chans[ch].hand.Some? && s.chans[ch].hand.value.Event? }

  /** The next write of this subscription sends an event after a later one. */
  predicate Late(s: State, ch: Chan) {
    HoldsEvent(s, ch) && LaterIn(Stream(s, s.chans[ch].conn), s.chans[ch].hand.value.number)
  }

  lemma StreamSnoc(ms: seq<Message>, m: Message)
    ensures StreamInOrder(ms + [m]) <==> StreamInOrder(ms) && (m.Event? ==> !LaterIn(ms, m.number))
  {
    var n := ms + [m];
    assert n[|ms|] == m && forall i :: 0 <= i < |ms| ==> n[i] == ms[i];
    if m.Event? && LaterIn(ms, m.number) {
      var i :| 0 <= i < |ms| && ms[i].Event? && ms[i].number > m.number;
      assert n[i].number > n[|ms|].number;
    }
  }

  /** Exactly the late writes put a stream out of order. */
  lemma StreamStep(s: State, a: Action, c: Conn)
    requires Typed(s) && Step(s, a).Some?
    ensures StreamInOrder(Stream(Step(s, a).value, c)) <==>
              StreamInOrder(Stream(s, c)) && !(a.Write? && s.chans[a.chan].conn == c && Late(s, a.chan))
  {
    if a.Write? && s.chans[a.chan].conn == c {
      StreamSnoc(Stream(s, c), s.chans[a.chan].hand.value);
    }
  }

  ghost predicate LateAt(h: seq<Action>, i: int, c: Conn) {
    0 <= i < |h| && Run(h[..i]).Some? && h[i].Write? && Late(Run(h[..i]).value, h[i].chan)
    && Run(h[..i]).value.chans[h[i].chan].conn == c
  }

  ghost predicate LateIn(h: seq<Action>, c: Conn)
    decreases |h|
  {
    h != [] && var n := |h| - 1;
    LateIn(h[..n], c) || (Run(h[..n]).Some? && h[n].Write? && Late(Run(h[..n]).value, h[n].chan)
                          && Run(h[..n]).value.chans[h[n].chan].conn == c)
  }

  lemma {:induction false} LateInMeans(h: seq<Action>, c: Conn)
    ensures LateIn(h, c) <==> exists i :: LateAt(h, i, c)
    decreases |h|
  {
    if h != [] {
      var n := |h| - 1;
      var g := h[..n];
      LateInMeans(g, c);
      forall i | 0 <= i < n ensures LateAt(h, i, c) <==> LateAt(g, i, c) {
        assert h[..i] == g[..i];
      }
      if i :| LateAt(g, i, c) {
        assert LateAt(h, i, c);
      }
      if LateIn(h, c) && !LateIn(g, c) {
        assert LateAt(h, n, c);
      }
    }
  }

  lemma {:induction false} StreamOfRun(h: seq<Action>, c: Conn)
    requires Run(h).Some?
    ensures StreamInOrder(Stream(Run(h).value, c)) <==> !LateIn(h, c)
    decreases |h|
  {
    if h == [] {
      assert Run(h) == Some(INITIAL);
    } else {
      RunStep(h);
      StreamOfRun(h[..|h| - 1], c);
      StreamStep(Run(h[..|h| - 1]).value, h[|h| - 1], c);
    }
  }

  // ---------------------------------------------------------------------
  // Subscriptions of one connection
  // ---------------------------------------------------------------------

  ghost predicate Below(c: Channel, b: nat) {
    forall i :: 0 <= i < |c.attempts| && c.attempts[i].msg.Event? ==> c.attempts[i].msg.number < b
  }

  ghost predicate Earlier(c: Channel, d: Channel) {
    forall i, j :: 0 <= i < |c.attempts| && 0 <= j < |d.attempts| && c.attempts[i].msg.Event? && d.attempts[j].msg.Event? ==>
                     c.attempts[i].msg.number < d.attempts[j].msg.number
  }

  predicate Siblings(s: State, ch: Chan, k: Chan) { ch in s.chans && k in s.chans && s.chans[ch].conn == s.chans[k].conn }

  /** The newest subscription of a connection is the one in the table. */
  ghost predicate Lineage(s: State)
    requires Typed(s)
  {
    && (forall c :: c in s.clients ==> s.chans[s.clients[c]].conn == c)
    && (forall ch :: ch in s.chans && s.chans[ch].conn in s.clients ==> ch <= s.clients[s.chans[ch].conn])
    && (forall ch :: ch in s.chans ==> s.chans[ch].conn in s.streams)
    && (forall ch :: ch in s.chans && s.chans[ch].conn in s.sessions ==> s.chans[ch].conn in s.clients)
    && (forall c :: c in s.sessions ==> c in s.streams)
  }

  ghost predicate OldBelow(s: State, b: nat, ch: Chan)
    requires Typed(s) && ch in s.chans
  {
    Waiting(s, b, s.chans[ch].conn) && ch != s.clients[s.chans[ch].conn] ==> Below(s.chans[ch], b)
  }

  /** An older subscription was offered only earlier events than a newer one, or than a broadcast still waiting. */
  ghost predicate Succession(s: State)
    requires Typed(s)
  {
    && (forall ch, k :: Siblings(s, ch, k) && ch < k ==> Earlier(s.chans[ch], s.chans[k]))
    && (forall b: nat, ch :: ch in s.chans ==> OldBelow(s, b, ch))
  }

  predicate WrittenBy(s: State, ch: Chan, c: Conn, m: Message) { ch in s.chans && s.chans[ch].conn == c && m in s.chans[ch].written }

  /** A stream holds what its subscriptions wrote. */
  ghost predicate Traffic(s: State) {
    && (forall ch, m :: ch in s.chans && m in s.chans[ch].written ==> m in Stream(s, s.chans[ch].conn))
    && (forall c, m: Message :: m in Stream(s, c) ==> exists ch: Chan :: WrittenBy(s, ch, c, m))
  }

  ghost predicate StreamInv(s: State)
    requires Typed(s)
  {
    Lineage(s) && Succession(s) && Traffic(s)
  }

  // Lineage

  predicate SameFamily(s: State, t: State) {
    && t.clients == s.clients && t.sessions.Keys == s.sessions.Keys && t.streams.Keys >= s.streams.Keys
    && t.chans.Keys == s.chans.Keys && forall ch :: ch in s.chans ==> t.chans[ch].conn == s.chans[ch].conn
  }

  lemma SameFamilyKeepsLineage(s: State, t: State)
    requires Typed(s) && Typed(t) && Lineage(s) && SameFamily(s, t)
    ensures Lineage(t)
  {
  }

  lemma PushKeepsFamily(s: State, a: Action)
    requires Typed(s) && Step(s, a).Some? && (a.Offer? || a.SendDump?)
    ensures SameFamily(s, Step(s, a).value)
  {
  }

  lemma OtherKeepsFamily(s: State, a: Action)
    requires Typed(s) && Step(s, a).Some?
    requires a.SkipDump? || a.BeginBroadcast? || a.EndBroadcast? || IsWriters(a)
    ensures SameFamily(s, Step(s, a).value)
  {
  }

  lemma ConnectKeepsLineage(s: State, c: Conn)
    requires Typed(s) && Lineage(s) && Step(s, Connect(c)).Some? && Typed(Step(s, Connect(c)).value)
    ensures Lineage(Step(s, Connect(c)).value)
  {
  }

  /** What a subscription changes in the table. */
  predicate NewSubscription(s: State, c: Conn, t: State) {
    && c in s.sessions && s.nextChan !in s.chans && t.clients == s.clients[c := s.nextChan]
    && t.sessions.Keys == s.sessions.Keys && t.streams == s.streams
    && t.chans.Keys == s.chans.Keys + {s.nextChan} && t.chans[s.nextChan] == Fresh(c)
    && forall ch :: ch in s.chans ==> ch < s.nextChan && t.chans[ch].conn == s.chans[ch].conn
                                      && t.chans[ch].attempts == s.chans[ch].attempts && t.chans[ch].written == s.chans[ch].written
  }

  lemma SubscribeShape(s: State, c: Conn)
    requires TableOk(s) && StepSubscribe(s, c).Some?
    ensures NewSubscription(s, c, StepSubscribe(s, c).value)
  {
  }

  lemma SubscribeKeepsLineage(s: State, c: Conn, t: State)
    requires Typed(s) && Typed(t) && Lineage(s) && NewSubscription(s, c, t)
    ensures Lineage(t)
  {
    NewestInTable(s, c, t);
    forall ch | ch in t.chans ensures t.chans[ch].conn in t.streams && (t.chans[ch].conn in t.sessions ==> t.chans[ch].conn in t.clients) {
      assert ch in s.chans ==> t.chans[ch].conn == s.chans[ch].conn;
    }
  }

  lemma NewestInTable(s: State, c: Conn, t: State)
    requires Typed(s) && Typed(t) && Lineage(s) && NewSubscription(s, c, t)
    ensures forall ch :: ch in t.chans && t.chans[ch].conn in t.clients ==> ch <= t.clients[t.chans[ch].conn]
  {
    forall ch | ch in t.chans && t.chans[ch].conn in t.clients ensures ch <= t.clients[t.chans[ch].conn] {
      assert ch in s.chans ==> t.chans[ch].conn == s.chans[ch].conn;
    }
  }

  lemma DisconnectKeepsLineage(s: State, c: Conn)
    requires TableOk(s) && Lineage(s) && StepDisconnect(s, c).Some? && Typed(StepDisconnect(s, c).value)
    ensures Lineage(StepDisconnect(s, c).value)
  {
  }

  lemma StepKeepsLineage(s: State, a: Action)
    requires Inv(s) && Lineage(s) && Step(s, a).Some?
    ensures Typed(Step(s, a).value) && Lineage(Step(s, a).value)
  {
    StepKeepsInv(s, a);
    match a
    case Connect(c) => ConnectKeepsLineage(s, c);
    case Subscribe(c) =>
      SubscribeShape(s, c);
      SubscribeKeepsLineage(s, c, Step(s, a).value);
    case Disconnect(c) => DisconnectKeepsLineage(s, c);
    case _ =>
      if a.Offer? || a.SendDump? {
        PushKeepsFamily(s, a);
      } else {
        OtherKeepsFamily(s, a);
      }
      SameFamilyKeepsLineage(s, Step(s, a).value);
  }

  // Succession

  /** Steps that offer nothing: old queues keep their attempts and connection, new queues are the newest and
      empty, and only the next broadcast may start to wait. */
  ghost predicate NothingOffered(s: State, t: State)
    requires Typed(s) && Typed(t)
  {
    && (forall ch :: ch in s.chans ==> ch in t.chans && t.chans[ch].attempts == s.chans[ch].attempts && t.chans[ch].conn == s.chans[ch].conn)
    && (forall ch :: ch in t.chans && ch !in s.chans ==> t.chans[ch].attempts == [])
    && (forall b, c :: Waiting(t, b, c) ==> (Waiting(s, b, c) && t.clients[c] == s.clients[c]) || b == s.nextNumber)
  }

  lemma NothingOfferedKeepsSuccession(s: State, t: State)
    requires Typed(s) && Typed(t) && OnceInv(s) && Succession(s) && NothingOffered(s, t)
    ensures Succession(t)
  {
    forall ch, k | Siblings(t, ch, k) && ch < k ensures Earlier(t.chans[ch], t.chans[k]) {
      if ch in s.chans && k in s.chans {
        assert Siblings(s, ch, k) && Earlier(s.chans[ch], s.chans[k]);
      }
    }
    forall b: nat, ch | ch in t.chans ensures OldBelow(t, b, ch) {
      if ch in s.chans {
        assert OldBelow(s, b, ch) && EventsOnce(s.chans[ch], s.nextNumber);
      }
    }
  }

  lemma SubscribeOffered(s: State, c: Conn)
    requires TableOk(s) && StepSubscribe(s, c).Some? && Typed(StepSubscribe(s, c).value)
    ensures NothingOffered(s, StepSubscribe(s, c).value)
  {
    var t := StepSubscribe(s, c).value;
    assert forall b, d :: !Waiting(t, b, d);
  }

  lemma DisconnectOffered(s: State, c: Conn)
    requires TableOk(s) && StepDisconnect(s, c).Some? && Typed(StepDisconnect(s, c).value)
    ensures NothingOffered(s, StepDisconnect(s, c).value)
  {
    var t := StepDisconnect(s, c).value;
    assert forall b, d :: !Waiting(t, b, d);
  }

  lemma OtherOffered(s: State, a: Action)
    requires Typed(s) && Step(s, a).Some? && Typed(Step(s, a).value)
    requires a.BeginBroadcast? || a.EndBroadcast? || a.Connect? || a.SkipDump?
    ensures NothingOffered(s, Step(s, a).value)
  {
  }

  lemma WriterOffers(s: State, a: Action)
    requires Typed(s) && IsWriters(a) && Step(s, a).Some? && Typed(Step(s, a).value)
    ensures NothingOffered(s, Step(s, a).value)
  {
  }

  lemma PushEarlier(c: Channel, d: Channel, msg: Message, e: Channel)
    requires Earlier(c, d) && Pushed(d, msg, e) && (msg.Event? ==> Below(c, msg.number))
    ensures Earlier(c, e)
  {
    assert forall i :: 0 <= i < |d.attempts| ==> e.attempts[i] == d.attempts[i];
  }

  lemma PushKeepsSuccession(s: State, c: Conn, msg: Message, t: State)
    requires Typed(s) && Typed(t) && Lineage(s) && Succession(s) && c in s.clients && OnePush(s, c, msg, t) && ServesOnly(s, c, msg, t)
    requires msg.Event? ==> Waiting(s, msg.number, c)
    requires forall k :: k in s.chans ==> t.chans[k].conn == s.chans[k].conn
    ensures Succession(t)
  {
    var n := s.clients[c];
    forall ch, k | Siblings(t, ch, k) && ch < k ensures Earlier(t.chans[ch], t.chans[k]) {
      assert Siblings(s, ch, k) && Earlier(s.chans[ch], s.chans[k]);
      assert ch != n;
      if k == n {
        assert msg.Event? ==> OldBelow(s, msg.number, ch);
        PushEarlier(s.chans[ch], s.chans[k], msg, t.chans[k]);
      }
    }
    forall b: nat, ch | ch in t.chans ensures OldBelow(t, b, ch) {
      assert OldBelow(s, b, ch);
      assert ch == n ==> s.chans[ch].conn == c;
    }
  }

  lemma PushKeepsConn(s: State, ch: Chan, msg: Message, k: Chan)
    requires ch in s.chans && k in s.chans
    ensures k in Push(s, ch, msg).chans && Push(s, ch, msg).chans[k].conn == s.chans[k].conn
  {
  }

  lemma OfferKeepsSuccession(s: State, b: nat, c: Conn)
    requires Inv(s) && Lineage(s) && Succession(s) && StepOffer(s, b, c).Some? && Typed(StepOffer(s, b, c).value)
    ensures Succession(StepOffer(s, b, c).value)
  {
    var t := StepOffer(s, b, c).value;
    OfferShape(s, b, c);
    forall k | k in s.chans ensures t.chans[k].conn == s.chans[k].conn { PushKeepsConn(s, s.clients[c], Event(b), k); }
    PushKeepsSuccession(s, c, Event(b), t);
  }

  lemma DumpKeepsSuccession(s: State, c: Conn)
    requires Inv(s) && Lineage(s) && Succession(s) && StepDump(s, c).Some? && Typed(StepDump(s, c).value)
    ensures Succession(StepDump(s, c).value)
  {
    var t := StepDump(s, c).value;
    DumpShape(s, c);
    forall k | k in s.chans ensures t.chans[k].conn == s.chans[k].conn { PushKeepsConn(s, s.clients[c], Dump, k); }
    PushKeepsSuccession(s, c, Dump, t);
  }

  lemma StepKeepsSuccession(s: State, a: Action)
    requires Inv(s) && OnceInv(s) && Lineage(s) && Succession(s) && Step(s, a).Some?
    ensures Typed(Step(s, a).value) && Succession(Step(s, a).value)
  {
    StepKeepsInv(s, a);
    var t := Step(s, a).value;
    match a
    case Offer(b, c) => OfferKeepsSuccession(s, b, c);
    case SendDump(c) => DumpKeepsSuccession(s, c);
    case Subscribe(c) =>
      SubscribeOffered(s, c);
      NothingOfferedKeepsSuccession(s, t);
    case Disconnect(c) =>
      DisconnectOffered(s, c);
      NothingOfferedKeepsSuccession(s, t);
    case _ =>
      if IsWriters(a) {
        WriterOffers(s, a);
      } else {
        OtherOffered(s, a);
      }
      NothingOfferedKeepsSuccession(s, t);
  }

  // Traffic

  /** Steps that write nothing. */
  ghost predicate NothingWritten(s: State, t: State) {
    && (forall ch :: ch in s.chans ==> ch in t.chans && t.chans[ch].written == s.chans[ch].written && t.chans[ch].conn == s.chans[ch].conn)
    && (forall ch :: ch in t.chans && ch !in s.chans ==> t.chans[ch].written == [])
    && (forall c :: Stream(t, c) == Stream(s, c))
  }

  lemma NothingWrittenKeepsTraffic(s: State, t: State)
    requires Traffic(s) && NothingWritten(s, t)
    ensures Traffic(t)
  {
    forall c, m: Message | m in Stream(t, c) ensures exists ch: Chan :: WrittenBy(t, ch, c, m) {
      var ch: Chan :| WrittenBy(s, ch, c, m);
      assert WrittenBy(t, ch, c, m);
    }
  }

  lemma PushWritesNothing(s: State, ch: Chan, msg: Message)
    requires ch in s.chans
    ensures NothingWritten(s, Push(s, ch, msg))
  {
  }

  lemma OfferWritesNothing(s: State, a: Action)
    requires Typed(s) && Step(s, a).Some? && a.Offer?
    ensures NothingWritten(s, Step(s, a).value)
  {
    PushWritesNothing(s, s.clients[a.conn], Event(a.number));
  }

  lemma DumpWritesNothing(s: State, a: Action)
    requires Typed(s) && Step(s, a).Some? && a.SendDump?
    ensures NothingWritten(s, Step(s, a).value)
  {
    PushWritesNothing(s, s.sessions[a.conn].chan, Dump);
  }

  lemma SubscribeWritesNothing(s: State, c: Conn)
    requires TableOk(s) && StepSubscribe(s, c).Some?
    ensures NothingWritten(s, StepSubscribe(s, c).value)
  {
    SubscribeShape(s, c);
  }

  lemma DisconnectWritesNothing(s: State, c: Conn)
    requires Typed(s) && StepDisconnect(s, c).Some?
    ensures NothingWritten(s, StepDisconnect(s, c).value)
  {
  }

  lemma OtherWritesNothing(s: State, a: Action)
    requires Typed(s) && Step(s, a).Some?
    requires a.Connect? || a.SkipDump? || a.BeginBroadcast? || a.EndBroadcast? || a.Take? || a.WriteFails?
    ensures NothingWritten(s, Step(s, a).value)
  {
  }

  lemma StepWritesNothing(s: State, a: Action)
    requires TableOk(s) && Step(s, a).Some? && !a.Write?
    ensures NothingWritten(s, Step(s, a).value)
  {
    match a
    case Subscribe(c) => SubscribeWritesNothing(s, c);
    case Offer(_, _) => OfferWritesNothing(s, a);
    case SendDump(_) => DumpWritesNothing(s, a);
    case Disconnect(c) => DisconnectWritesNothing(s, c);
    case _ => OtherWritesNothing(s, a);
  }

  lemma WriteKeepsTraffic(s: State, ch: Chan)
    requires Traffic(s) && StepWrite(s, ch, true).Some?
    ensures Traffic(StepWrite(s, ch, true).value)
  {
    var t, d, x := StepWrite(s, ch, true).value, s.chans[ch], s.chans[ch].hand.value;
    assert t.chans[ch].written == d.written + [x] && Stream(t, d.conn) == Stream(s, d.conn) + [x];
    forall k, m | k in t.chans && m in t.chans[k].written ensures m in Stream(t, t.chans[k].conn) {
      assert m in s.chans[k].written || (k == ch && m == x);
    }
    forall c, m: Message | m in Stream(t, c) ensures exists k: Chan :: WrittenBy(t, k, c, m) {
      if m in Stream(s, c) {
        var k: Chan :| WrittenBy(s, k, c, m);
        assert WrittenBy(t, k, c, m);
      } else {
        assert WrittenBy(t, ch, c, m);
      }
    }
  }

  lemma StepKeepsTraffic(s: State, a: Action)
    requires TableOk(s) && Traffic(s) && Step(s, a).Some?
    ensures Traffic(Step(s, a).value)
  {
    if a.Write? {
      WriteKeepsTraffic(s, a.chan);
    } else {
      StepWritesNothing(s, a);
      NothingWrittenKeepsTraffic(s, Step(s, a).value);
    }
  }

  lemma StepKeepsStreamInv(s: State, a: Action)
    requires Inv(s) && OnceInv(s) && StreamInv(s) && Step(s, a).Some?
    ensures Typed(Step(s, a).value) && StreamInv(Step(s, a).value)
  {
    StepKeepsLineage(s, a);
    StepKeepsSuccession(s, a);
    StepKeepsTraffic(s, a);
  }

  lemma {:induction false} RunKeepsStreamInv(h: seq<Action>)
    requires Run(h).Some?
    ensures Typed(Run(h).value) && StreamInv(Run(h).value)
    decreases |h|
  {
    if h == [] {
      assert Run(h) == Some(INITIAL);
    } else {
      RunStep(h);
      RunKeepsStreamInv(h[..|h| - 1]);
      RunKeepsInv(h[..|h| - 1]);
      StepKeepsStreamInv(Run(h[..|h| - 1]).value, h[|h| - 1]);
    }
  }

  // ---------------------------------------------------------------------
  // The two causes of a late write
  // ---------------------------------------------------------------------

  /** A newer subscription of the same connection has already sent an event. */
  predicate Superseded(s: State, ch: Chan) {
    ch in s.chans && exists k :: k in s.chans && ch < k && Siblings(s, ch, k) && HasEvent(s.chans[k].written)
  }

  predicate WasOffered(c: Channel, m: Message) { exists i :: 0 <= i < |c.attempts| && c.attempts[i].msg == m }

  lemma {:induction false} AcceptedMember(log: seq<Attempt>, m: Message)
    requires m in Accepted(log)
    ensures exists i :: 0 <= i < |log| && log[i].msg == m
    decreases |log|
  {
    if log != [] {
      var n := |log| - 1;
      if m in Accepted(log[..n]) {
        AcceptedMember(log[..n], m);
        var i :| 0 <= i < n && log[..n][i].msg == m;
        assert log[i].msg == m;
      } else {
        assert log[n].msg == m;
      }
    }
  }

  lemma HandledWasOffered(c: Channel, m: Message)
    requires ChannelOk(c) && (m in c.written || c.hand == Some(m) || m in c.queue)
    ensures WasOffered(c, m)
  {
    assert m in Taken(c) + c.queue;
    AcceptedMember(c.attempts, m);
  }

  lemma EarlierMessages(c: Channel, d: Channel, m: Message, n: Message)
    requires Earlier(c, d) && WasOffered(c, m) && WasOffered(d, n) && m.Event? && n.Event?
    ensures m.number < n.number
  {
    var i :| 0 <= i < |c.attempts| && c.attempts[i].msg == m;
    var j :| 0 <= j < |d.attempts| && d.attempts[j].msg == n;
  }

  /** A write of an event comes late for one of two reasons, and for no other: its own queue has already sent a
      later event, or a newer subscription of the connection has already sent some event. */
  lemma LateIff(s: State, ch: Chan)
    requires Inv(s) && StreamInv(s) && HoldsEvent(s, ch)
    ensures Late(s, ch) <==> LaterIn(s.chans[ch].written, s.chans[ch].hand.value.number) || Superseded(s, ch)
  {
    var d := s.chans[ch];
    var m := d.hand.value;
    HandledWasOffered(d, m);
    if Late(s, ch) {
      LateHasCause(s, ch);
    }
    if LaterIn(d.written, m.number) {
      var i :| 0 <= i < |d.written| && d.written[i].Event? && d.written[i].number > m.number;
      InStream(s, ch, d.written[i], m.number);
    } else if Superseded(s, ch) {
      var k :| k in s.chans && ch < k && Siblings(s, ch, k) && HasEvent(s.chans[k].written);
      var i :| 0 <= i < |s.chans[k].written| && s.chans[k].written[i].Event?;
      HandledWasOffered(s.chans[k], s.chans[k].written[i]);
      EarlierMessages(d, s.chans[k], m, s.chans[k].written[i]);
      InStream(s, k, s.chans[k].written[i], m.number);
    }
  }

  lemma InStream(s: State, k: Chan, m: Message, b: nat)
    requires Traffic(s) && k in s.chans && m in s.chans[k].written && m.Event? && m.number > b
    ensures LaterIn(Stream(s, s.chans[k].conn), b)
  {
    var ms := Stream(s, s.chans[k].conn);
    assert m in ms;
    var j :| 0 <= j < |ms| && ms[j] == m;
  }

  lemma LateHasCause(s: State, ch: Chan)
    requires Inv(s) && StreamInv(s) && Late(s, ch)
    ensures LaterIn(s.chans[ch].written, s.chans[ch].hand.value.number) || Superseded(s, ch)
  {
    var k, i := LaterWriter(s, ch);
    if k < ch {
      NotFromOlder(s, k, ch, s.chans[k].written[i]);
    } else if k > ch {
      assert Siblings(s, ch, k);
    }
  }

  /** The subscription that sent the later event. */
  lemma LaterWriter(s: State, ch: Chan) returns (k: Chan, i: nat)
    requires Traffic(s) && Late(s, ch)
    ensures Siblings(s, ch, k) && Siblings(s, k, ch) && i < |s.chans[k].written|
    ensures s.chans[k].written[i].Event? && s.chans[k].written[i].number > s.chans[ch].hand.value.number
  {
    var c := s.chans[ch].conn;
    var ms := Stream(s, c);
    var j :| 0 <= j < |ms| && ms[j].Event? && ms[j].number > s.chans[ch].hand.value.number;
    var m := ms[j];
    assert m in Stream(s, c);
    k :| WrittenBy(s, k, c, m);
    i :| 0 <= i < |s.chans[k].written| && s.chans[k].written[i] == m;
  }

  lemma NotFromOlder(s: State, k: Chan, ch: Chan, m: Message)
    requires Inv(s) && Typed(s) && Succession(s) && Siblings(s, k, ch) && k < ch && m in s.chans[k].written && m.Event?
    requires HoldsEvent(s, ch)
    ensures m.number < s.chans[ch].hand.value.number
  {
    HandledWasOffered(s.chans[k], m);
    HandledWasOffered(s.chans[ch], s.chans[ch].hand.value);
    EarlierMessages(s.chans[k], s.chans[ch], m, s.chans[ch].hand.value);
  }

  /** The i-th action sends an event to c after a later one of the same queue, or after an event of a newer
      subscription. */
  ghost predicate SendsLateAt(h: seq<Action>, i: int, c: Conn) {
    && 0 <= i < |h| && h[i].Write? && Run(h[..i]).Some? && HoldsEvent(Run(h[..i]).value, h[i].chan)
    && var s := Run(h[..i]).value; var d := s.chans[h[i].chan];
       d.conn == c && (LaterIn(d.written, d.hand.value.number) || Superseded(s, h[i].chan))
  }

  /** In every run, a connection is sent events out of order exactly when some write was overtaken in its own
      queue, or came from an old subscription after the new one had begun to send. */
  lemma StreamOutOfOrderIff(h: seq<Action>, c: Conn)
    requires Run(h).Some?
    ensures !StreamInOrder(Stream(Run(h).value, c)) <==> exists i :: SendsLateAt(h, i, c)
  {
    StreamOfRun(h, c);
    LateInMeans(h, c);
    forall i ensures LateAt(h, i, c) <==> SendsLateAt(h, i, c) {
      if 0 <= i < |h| && h[i].Write? && Run(h[..i]).Some? {
        LateAtIff(h, i, c);
      }
    }
  }

  lemma LateAtIff(h: seq<Action>, i: int, c: Conn)
    requires 0 <= i < |h| && h[i].Write? && Run(h[..i]).Some?
    ensures LateAt(h, i, c) <==> SendsLateAt(h, i, c)
  {
    RunKeepsInv(h[..i]);
    RunKeepsStreamInv(h[..i]);
    var s := Run(h[..i]).value;
    if HoldsEvent(s, h[i].chan) {
      LateIff(s, h[i].chan);
    }
  }
}

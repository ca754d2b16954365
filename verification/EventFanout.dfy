/** Fan-out of notifications to subscribed connections: bounded queues, one writer per subscription, and
    a read-write lock around the table of subscriptions. One action is one atomic step of one goroutine. */
module EventFanout {
  import opened Prelude

  const QUEUE_SIZE: nat := 256

  type Conn = nat
  type Chan = nat

  /** A broadcast, numbered by the order in which broadcasts took the read lock, or a state dump. */
  datatype Message = Event(number: nat) | Dump

  /** One try at sending: accepted tells whether it was queued, backlog how long the queue was. */
  datatype Attempt = Attempt(msg: Message, accepted: bool, backlog: nat)

  /** One subscription: the connection it writes to, its queue, and what became of the messages put into it.
      hand is what its writer has received from the queue and not yet written; failed holds the message whose write
      failed, after which the writer stops. */
  datatype Channel = Channel(conn: Conn, queue: seq<Message>, hand: Option<Message>, closed: bool, written: seq<Message>,
                             failed: Option<Message>, attempts: seq<Attempt>)

  function Fresh(c: Conn): Channel { Channel(c, [], None, false, [], None, []) }

  /** What a connection's goroutine is doing: serving requests, or about to send the dump of a new subscription. */
  datatype Session = Serving | Dumping(chan: Chan)

  /** streams: what each connection has been sent, in order; an old and a new subscription of one connection
      write to the same stream. */
  datatype State = State(clients: map<Conn, Chan>, chans: map<Chan, Channel>, sessions: map<Conn, Session>,
                         broadcasts: map<nat, set<Conn>>, nextChan: Chan, nextNumber: nat, panicked: bool,
                         streams: map<Conn, seq<Message>>)

  const INITIAL := State(map[], map[], map[], map[], 0, 0, false, map[])

  datatype Action =
    | Connect(conn: Conn)
    | Subscribe(conn: Conn)
    | SendDump(conn: Conn)
    | SkipDump(conn: Conn)
    | Disconnect(conn: Conn)
    | BeginBroadcast
    | Offer(number: nat, conn: Conn)
    | EndBroadcast(number: nat)
    | Take(chan: Chan)
    | Write(chan: Chan)
    | WriteFails(chan: Chan)

  // ---------------------------------------------------------------------
  // Steps
  // ---------------------------------------------------------------------

  /** One message put into an open queue, or dropped because it is full. */
  function Enqueue(c: Channel, msg: Message): Channel {
    var ok := |c.queue| < QUEUE_SIZE;
    c.(queue := if ok then c.queue + [msg] else c.queue, attempts := c.attempts + [Attempt(msg, ok, |c.queue|)])
  }

  /** Sending on a closed channel panics. */
  function Push(s: State, ch: Chan, msg: Message): State
    requires ch in s.chans
  {
    if s.chans[ch].closed then s.(panicked := true) else s.(chans := s.chans[ch := Enqueue(s.chans[ch], msg)])
  }

  /** Closing a closed channel panics. */
  function Close(s: State, ch: Chan): State
    requires ch in s.chans
  {
    if s.chans[ch].closed then s.(panicked := true) else s.(chans := s.chans[ch := s.chans[ch].(closed := true)])
  }

  ghost predicate Typed(s: State) {
    && (forall c :: c in s.clients ==> s.clients[c] in s.chans)
    && (forall c :: c in s.sessions && s.sessions[c].Dumping? ==> s.sessions[c].chan in s.chans)
    && (forall b, c :: b in s.broadcasts && c in s.broadcasts[b] ==> c in s.clients)
  }

  function StepSubscribe(s: State, c: Conn): Option<State>
    requires Typed(s)
  {
    if c !in s.sessions || !s.sessions[c].Serving? || s.broadcasts != map[] then None
    else
      var t := if c in s.clients then Close(s, s.clients[c]) else s;
      Some(t.(chans := t.chans[s.nextChan := Fresh(c)], clients := t.clients[c := s.nextChan],
              sessions := t.sessions[c := Dumping(s.nextChan)], nextChan := s.nextChan + 1))
  }

  /** The dump is sent outside the lock, and waits while the queue is full. */
  function StepDump(s: State, c: Conn): Option<State>
    requires Typed(s)
  {
    if c !in s.sessions || !s.sessions[c].Dumping? then None
    else
      var ch := s.sessions[c].chan;
      if !s.chans[ch].closed && |s.chans[ch].queue| >= QUEUE_SIZE then None
      else Some(Push(s, ch, Dump).(sessions := s.sessions[c := Serving]))
  }

  function StepDisconnect(s: State, c: Conn): Option<State>
    requires Typed(s)
  {
    if c !in s.sessions || !s.sessions[c].Serving? || s.broadcasts != map[] then None
    else
      var t := if c in s.clients then Close(s, s.clients[c]) else s;
      Some(t.(clients := t.clients - {c}, sessions := t.sessions - {c}))
  }

  function StepOffer(s: State, b: nat, c: Conn): Option<State>
    requires Typed(s)
  {
    if b !in s.broadcasts || c !in s.broadcasts[b] then None
    else Some(Push(s, s.clients[c], Event(b)).(broadcasts := s.broadcasts[b := s.broadcasts[b] - {c}]))
  }

  /** The writer receives the first message of its queue, which makes room there. */
  function StepTake(s: State, ch: Chan): Option<State> {
    if ch !in s.chans || s.chans[ch].queue == [] || s.chans[ch].hand.Some? || s.chans[ch].failed.Some? then None
    else Some(s.(chans := s.chans[ch := Received(s.chans[ch])]))
  }

  function Received(c: Channel): Channel
    requires c.queue != []
  {
    c.(queue := c.queue[1..], hand := Some(c.queue[0]))
  }

  /** The writer sends what it has received on the connection, or fails and stops. */
  function StepWrite(s: State, ch: Chan, ok: bool): Option<State> {
    if ch !in s.chans || s.chans[ch].hand.None? then None
    else
      var c := s.chans[ch];
      Some(s.(chans := s.chans[ch := Emptied(c, ok)],
              streams := if ok then s.streams[c.conn := Stream(s, c.conn) + [c.hand.value]] else s.streams))
  }

  function Stream(s: State, c: Conn): seq<Message> { if c in s.streams then s.streams[c] else [] }

  function Emptied(c: Channel, ok: bool): Channel
    requires c.hand.Some?
  {
    var d := c.(hand := None);
    if ok then d.(written := c.written + [c.hand.value]) else d.(failed := c.hand)
  }

  /** None when the action is not possible, for instance because a lock is held or a send has to wait. */
  function Step(s: State, a: Action): Option<State>
    requires Typed(s)
  {
    match a
    case Connect(c) =>
      if c in s.streams || c in s.sessions || c in s.clients then None
      else Some(s.(sessions := s.sessions[c := Serving], streams := s.streams[c := []]))
    case Subscribe(c) => StepSubscribe(s, c)
    case SendDump(c) => StepDump(s, c)
    case SkipDump(c) =>
      if c in s.sessions && s.sessions[c].Dumping? then Some(s.(sessions := s.sessions[c := Serving])) else None
    case Disconnect(c) => StepDisconnect(s, c)
    case BeginBroadcast =>
      Some(s.(broadcasts := s.broadcasts[s.nextNumber := s.clients.Keys], nextNumber := s.nextNumber + 1))
    case Offer(b, c) => StepOffer(s, b, c)
    case EndBroadcast(b) =>
      if b in s.broadcasts && s.broadcasts[b] == {} then Some(s.(broadcasts := s.broadcasts - {b})) else None
    case Take(ch) => StepTake(s, ch)
    case Write(ch) => StepWrite(s, ch, true)
    case WriteFails(ch) => StepWrite(s, ch, false)
  }

  // ---------------------------------------------------------------------
  // One subscription
  // ---------------------------------------------------------------------

  function Accepted(log: seq<Attempt>): seq<Message>
    decreases |log|
  {
    if log == [] then []
    else Accepted(log[..|log| - 1]) + (if log[|log| - 1].accepted then [log[|log| - 1].msg] else [])
  }

  function Messages(log: seq<Attempt>): seq<Message> {
    seq(|log|, i requires 0 <= i < |log| => log[i].msg)
  }

  function AsSeq(m: Option<Message>): seq<Message> { if m.Some? then [m.value] else [] }

  /** What the writer has received so far. */
  function Taken(c: Channel): seq<Message> { c.written + AsSeq(c.hand) + AsSeq(c.failed) }

  predicate AttemptOk(a: Attempt) { a.backlog <= QUEUE_SIZE && (a.accepted <==> a.backlog < QUEUE_SIZE) }

  /** Nothing accepted is lost or reordered on its way through the queue; the queue is bounded; an attempt
      is turned away only by a full queue; a writer that has stopped holds nothing. */
  ghost predicate ChannelOk(c: Channel) {
    && (c.hand.None? || c.failed.None?)
    && Taken(c) + c.queue == Accepted(c.attempts)
    && |c.queue| <= QUEUE_SIZE
    && forall i :: 0 <= i < |c.attempts| ==> AttemptOk(c.attempts[i])
  }

  lemma AcceptedSnoc(log: seq<Attempt>, a: Attempt)
    ensures Accepted(log + [a]) == Accepted(log) + (if a.accepted then [a.msg] else [])
  {
    assert (log + [a])[..|log|] == log;
  }

  lemma PushKeepsChannelOk(c: Channel, msg: Message)
    requires ChannelOk(c)
    ensures ChannelOk(Enqueue(c, msg))
  {
    AcceptedSnoc(c.attempts, Attempt(msg, |c.queue| < QUEUE_SIZE, |c.queue|));
    assert Taken(c) + (c.queue + [msg]) == Taken(c) + c.queue + [msg];
    assert Taken(c) + c.queue + [] == Taken(c) + c.queue;
  }

  lemma ReceivedIsTaken(c: Channel)
    requires c.queue != [] && c.hand.None? && c.failed.None?
    ensures Taken(Received(c)) + Received(c).queue == Taken(c) + c.queue
  {
    assert c.queue == [c.queue[0]] + c.queue[1..];
    Assoc(c.written, [c.queue[0]], c.queue[1..]);
    Unit(c.written);
    Unit(c.written + [c.queue[0]]);
  }

  lemma EmptiedIsTaken(c: Channel, ok: bool)
    requires c.hand.Some? && c.failed.None?
    ensures Taken(Emptied(c, ok)) == Taken(c)
  {
    Unit(c.written);
    Unit(c.written + [c.hand.value]);
  }

  lemma WriterKeepsChannelOk(c: Channel, ok: bool)
    requires ChannelOk(c)
    ensures c.queue != [] && c.hand.None? && c.failed.None? ==> ChannelOk(Received(c))
    ensures c.hand.Some? ==> ChannelOk(Emptied(c, ok))
  {
    if c.queue != [] && c.hand.None? && c.failed.None? {
      ReceivedIsTaken(c);
    }
    if c.hand.Some? {
      EmptiedIsTaken(c, ok);
    }
  }

  /** a can be had from b by leaving elements out. */
  predicate Subsequence<T(==)>(a: seq<T>, b: seq<T>)
    decreases |b|
  {
    if a == [] then true
    else if b == [] then false
    else if a[|a| - 1] == b[|b| - 1] && Subsequence(a[..|a| - 1], b[..|b| - 1]) then true
    else Subsequence(a, b[..|b| - 1])
  }

  lemma {:induction false} AcceptedIsSubsequence(log: seq<Attempt>)
    ensures Subsequence(Accepted(log), Messages(log))
    decreases |log|
  {
    if log != [] {
      var g := log[..|log| - 1];
      AcceptedIsSubsequence(g);
      assert Messages(log)[..|log| - 1] == Messages(g);
      if log[|log| - 1].accepted {
        assert Accepted(log)[..|Accepted(log)| - 1] == Accepted(g);
      } else {
        assert Accepted(log) == Accepted(g);
      }
    }
  }

  lemma {:induction false} SubsequenceSelf<T>(a: seq<T>)
    ensures Subsequence(a, a)
    decreases |a|
  {
    if a != [] {
      SubsequenceSelf(a[..|a| - 1]);
    }
  }

  lemma {:induction false} SubsequenceSkip<T>(x: seq<T>, m: seq<T>, y: seq<T>)
    ensures Subsequence(x + y, x + m + y)
    decreases |y|, |m|
  {
    if y != [] {
      SubsequenceSkip(x, m, y[..|y| - 1]);
      assert (x + y)[..|x + y| - 1] == x + y[..|y| - 1];
      assert (x + m + y)[..|x + m + y| - 1] == x + m + y[..|y| - 1];
    } else if m != [] {
      SubsequenceSkip(x, m[..|m| - 1], []);
      assert x + [] == x && x + m + [] == x + m && (x + m)[..|x + m| - 1] == x + m[..|m| - 1];
      assert x + m[..|m| - 1] + [] == x + m[..|m| - 1];
    } else {
      assert x + [] == x && x + [] + [] == x;
      SubsequenceSelf(x);
    }
  }

  lemma {:induction false} SubsequenceTransitive<T>(a: seq<T>, b: seq<T>, c: seq<T>)
    requires Subsequence(a, b) && Subsequence(b, c)
    ensures Subsequence(a, c)
    decreases |a| + |b| + |c|
  {
    if a != [] {
      var c', b' := c[..|c| - 1], b[..|b| - 1];
      if b[|b| - 1] == c[|c| - 1] && Subsequence(b', c') {
        if a[|a| - 1] == b[|b| - 1] && Subsequence(a[..|a| - 1], b') {
          SubsequenceTransitive(a[..|a| - 1], b', c');
        } else {
          SubsequenceTransitive(a, b', c');
        }
      } else {
        SubsequenceTransitive(a, b, c');
      }
    }
  }

  /** What was written, what the writer holds and what is still queued are, in order, among the messages that
      were offered. */
  lemma DeliveredIsSubsequence(c: Channel)
    requires ChannelOk(c)
    ensures Subsequence(c.written + AsSeq(c.hand) + c.queue, Messages(c.attempts))
  {
    AcceptedIsSubsequence(c.attempts);
    SubsequenceSkip(c.written + AsSeq(c.hand), AsSeq(c.failed), c.queue);
    SubsequenceTransitive(c.written + AsSeq(c.hand) + c.queue, Accepted(c.attempts), Messages(c.attempts));
  }

  // ---------------------------------------------------------------------
  // The invariant
  // ---------------------------------------------------------------------

  ghost predicate TableOk(s: State) {
    && Typed(s)
    && (forall c :: c in s.clients ==> !s.chans[s.clients[c]].closed && c in s.sessions)
    && (forall c, d :: c in s.clients && d in s.clients && c != d ==> s.clients[c] != s.clients[d])
    && (forall c :: c in s.sessions && s.sessions[c].Dumping? ==> c in s.clients && s.clients[c] == s.sessions[c].chan)
    && (forall ch :: ch in s.chans ==> ch < s.nextChan)
    && !s.panicked
  }

  ghost predicate Inv(s: State) {
    TableOk(s) && forall ch :: ch in s.chans ==> ChannelOk(s.chans[ch])
  }

  lemma PushKeepsInv(s: State, c: Conn, msg: Message)
    requires Inv(s) && c in s.clients
    ensures Inv(Push(s, s.clients[c], msg))
  {
    PushKeepsChannelOk(s.chans[s.clients[c]], msg);
  }

  lemma WriteKeepsInv(s: State, ch: Chan, ok: bool)
    requires Inv(s) && StepWrite(s, ch, ok).Some?
    ensures Inv(StepWrite(s, ch, ok).value)
  {
    WriterKeepsChannelOk(s.chans[ch], ok);
  }

  lemma TakeKeepsInv(s: State, ch: Chan)
    requires Inv(s) && StepTake(s, ch).Some?
    ensures Inv(StepTake(s, ch).value)
  {
    WriterKeepsChannelOk(s.chans[ch], true);
  }

  lemma SubscribeKeepsInv(s: State, c: Conn)
    requires Inv(s) && StepSubscribe(s, c).Some?
    ensures Inv(StepSubscribe(s, c).value)
  {
    assert ChannelOk(Fresh(c));
    SubscribeKeepsTable(s, c);
  }

  lemma SubscribeKeepsTable(s: State, c: Conn)
    requires TableOk(s) && StepSubscribe(s, c).Some?
    ensures TableOk(StepSubscribe(s, c).value)
  {
  }

  lemma DisconnectKeepsInv(s: State, c: Conn)
    requires Inv(s) && StepDisconnect(s, c).Some?
    ensures Inv(StepDisconnect(s, c).value)
  {
    DisconnectKeepsTable(s, c);
  }

  lemma DisconnectKeepsTable(s: State, c: Conn)
    requires TableOk(s) && StepDisconnect(s, c).Some?
    ensures TableOk(StepDisconnect(s, c).value)
  {
  }

  lemma DumpKeepsInv(s: State, c: Conn)
    requires Inv(s) && StepDump(s, c).Some?
    ensures Inv(StepDump(s, c).value)
  {
    PushKeepsInv(s, c, Dump);
    SessionServesKeepsInv(Push(s, s.clients[c], Dump), c);
  }

  lemma ConnectKeepsInv(s: State, c: Conn)
    requires Inv(s) && Step(s, Connect(c)).Some?
    ensures Inv(Step(s, Connect(c)).value)
  {
  }

  lemma SessionServesKeepsInv(s: State, c: Conn)
    requires Inv(s)
    ensures Inv(s.(sessions := s.sessions[c := Serving]))
  {
  }

  lemma OfferKeepsInv(s: State, b: nat, c: Conn)
    requires Inv(s) && StepOffer(s, b, c).Some?
    ensures Inv(StepOffer(s, b, c).value)
  {
    PushKeepsInv(s, c, Event(b));
    PushKeepsTable(s, s.clients[c], Event(b));
    FewerToServe(s, b, c);
    BroadcastsKeepInv(Push(s, s.clients[c], Event(b)), s.broadcasts[b := s.broadcasts[b] - {c}]);
  }

  lemma PushKeepsTable(s: State, ch: Chan, msg: Message)
    requires ch in s.chans
    ensures var t := Push(s, ch, msg); t.clients == s.clients && t.broadcasts == s.broadcasts
  {
  }

  lemma FewerToServe(s: State, b: nat, c: Conn)
    requires Typed(s) && b in s.broadcasts
    ensures var bs := s.broadcasts[b := s.broadcasts[b] - {c}]; forall x, d :: x in bs && d in bs[x] ==> d in s.clients
  {
  }

  lemma BroadcastsKeepInv(s: State, bs: map<nat, set<Conn>>)
    requires Inv(s) && forall b, c :: b in bs && c in bs[b] ==> c in s.clients
    ensures Inv(s.(broadcasts := bs))
  {
  }

  lemma StepKeepsInv(s: State, a: Action)
    requires Inv(s) && Step(s, a).Some?
    ensures Inv(Step(s, a).value)
  {
    match a
    case Connect(c) => ConnectKeepsInv(s, c);
    case Subscribe(c) => SubscribeKeepsInv(s, c);
    case SkipDump(c) => SessionServesKeepsInv(s, c);
    case SendDump(c) => DumpKeepsInv(s, c);
    case Disconnect(c) => DisconnectKeepsInv(s, c);
    case BeginBroadcast => BroadcastsKeepInv(s, s.broadcasts[s.nextNumber := s.clients.Keys]);
    case Offer(b, c) => OfferKeepsInv(s, b, c);
    case EndBroadcast(b) => BroadcastsKeepInv(s, s.broadcasts - {b});
    case Take(ch) => TakeKeepsInv(s, ch);
    case Write(ch) => WriteKeepsInv(s, ch, true);
    case WriteFails(ch) => WriteKeepsInv(s, ch, false);
  }

  // ---------------------------------------------------------------------
  // Every client is offered every broadcast once
  // ---------------------------------------------------------------------

  predicate Offered(c: Channel, b: nat) { exists i :: 0 <= i < |c.attempts| && c.attempts[i].msg == Event(b) }

  /** The events offered to one subscription are pairwise different and numbered below next. */
  ghost predicate EventsOnce(c: Channel, next: nat) {
    && (forall i, j :: 0 <= i < j < |c.attempts| && c.attempts[i].msg.Event? ==> c.attempts[i].msg != c.attempts[j].msg)
    && (forall i :: 0 <= i < |c.attempts| && c.attempts[i].msg.Event? ==> c.attempts[i].msg.number < next)
  }

  /** A running broadcast still has exactly those clients to serve that it has not been offered to. */
  ghost predicate ProgressOk(s: State, b: nat, c: Conn)
    requires Typed(s) && b in s.broadcasts && c in s.clients
  {
    c in s.broadcasts[b] <==> !Offered(s.chans[s.clients[c]], b)
  }

  ghost predicate OnceInv(s: State)
    requires Typed(s)
  {
    && (forall ch :: ch in s.chans ==> EventsOnce(s.chans[ch], s.nextNumber))
    && (forall b :: b in s.broadcasts ==> b < s.nextNumber)
    && (forall b, c :: b in s.broadcasts && c in s.clients ==> ProgressOk(s, b, c))
  }

  /** d is c with one more attempt, for msg. */
  predicate Pushed(c: Channel, msg: Message, d: Channel) {
    |d.attempts| == |c.attempts| + 1 && d.attempts[..|c.attempts|] == c.attempts && d.attempts[|c.attempts|].msg == msg
  }

  lemma OfferedPush(c: Channel, msg: Message, b: nat, d: Channel)
    requires Pushed(c, msg, d)
    ensures Offered(d, b) <==> Offered(c, b) || msg == Event(b)
  {
    assert forall i :: 0 <= i < |c.attempts| ==> d.attempts[i] == c.attempts[i];
    if Offered(c, b) {
      var i :| 0 <= i < |c.attempts| && c.attempts[i].msg == Event(b);
      assert d.attempts[i].msg == Event(b);
    }
  }

  lemma PushKeepsEventsOnce(c: Channel, msg: Message, next: nat, d: Channel)
    requires Pushed(c, msg, d)
    requires EventsOnce(c, next) && (msg.Event? ==> msg.number < next && !Offered(c, msg.number))
    ensures EventsOnce(d, next)
  {
    assert forall i :: 0 <= i < |c.attempts| ==> d.attempts[i] == c.attempts[i];
  }

  /** What a push changes: one channel. */
  ghost predicate OnePush(s: State, c: Conn, msg: Message, t: State)
    requires Typed(s) && c in s.clients
  {
    var ch := s.clients[c];
    && t.clients == s.clients && t.chans.Keys == s.chans.Keys && t.nextNumber == s.nextNumber
    && Pushed(s.chans[ch], msg, t.chans[ch]) && forall k :: k in s.chans && k != ch ==> t.chans[k] == s.chans[k]
  }

  lemma PushIsOnePush(s: State, c: Conn, msg: Message)
    requires Inv(s) && c in s.clients
    ensures OnePush(s, c, msg, Push(s, s.clients[c], msg))
  {
  }

  lemma PushProgress(s: State, c: Conn, msg: Message, t: State, b: nat, d: Conn)
    requires Inv(s) && Inv(t) && c in s.clients && OnePush(s, c, msg, t)
    requires b in s.broadcasts && b in t.broadcasts && d in s.clients && ProgressOk(s, b, d)
    requires d in t.broadcasts[b] <==> d in s.broadcasts[b] && !(d == c && msg == Event(b))
    ensures ProgressOk(t, b, d)
  {
    if d == c {
      OfferedPush(s.chans[s.clients[c]], msg, b, t.chans[s.clients[c]]);
    } else {
      assert s.clients[d] != s.clients[c];
    }
  }

  /** What a push of msg to c does to the clients still to be served: c is served msg. */
  ghost predicate ServesOnly(s: State, c: Conn, msg: Message, t: State) {
    t.broadcasts.Keys == s.broadcasts.Keys
    && forall b, d :: b in s.broadcasts ==> (d in t.broadcasts[b] <==> d in s.broadcasts[b] && !(d == c && msg == Event(b)))
  }

  lemma PushKeepsEvents(s: State, c: Conn, msg: Message, t: State)
    requires Typed(s) && (forall ch :: ch in s.chans ==> EventsOnce(s.chans[ch], s.nextNumber)) && c in s.clients && OnePush(s, c, msg, t)
    requires msg.Event? ==> msg.number < s.nextNumber && !Offered(s.chans[s.clients[c]], msg.number)
    ensures forall ch :: ch in t.chans ==> EventsOnce(t.chans[ch], t.nextNumber)
  {
    var ch := s.clients[c];
    PushKeepsEventsOnce(s.chans[ch], msg, s.nextNumber, t.chans[ch]);
  }

  lemma PushKeepsOnce(s: State, c: Conn, msg: Message, t: State)
    requires Inv(s) && OnceInv(s) && Inv(t) && c in s.clients && OnePush(s, c, msg, t) && ServesOnly(s, c, msg, t)
    requires msg.Event? ==> msg.number < s.nextNumber && !Offered(s.chans[s.clients[c]], msg.number)
    ensures OnceInv(t)
  {
    PushKeepsEvents(s, c, msg, t);
    forall b, d | b in t.broadcasts && d in t.clients ensures ProgressOk(t, b, d) {
      PushProgress(s, c, msg, t, b, d);
    }
  }

  lemma OfferShape(s: State, b: nat, c: Conn)
    requires Inv(s) && StepOffer(s, b, c).Some?
    ensures var t := StepOffer(s, b, c).value;
            c in s.clients && OnePush(s, c, Event(b), t) && ServesOnly(s, c, Event(b), t)
  {
    PushIsOnePush(s, c, Event(b));
  }

  lemma OfferIsNew(s: State, b: nat, c: Conn)
    requires Inv(s) && OnceInv(s) && StepOffer(s, b, c).Some?
    ensures c in s.clients && b < s.nextNumber && !Offered(s.chans[s.clients[c]], b)
  {
    assert ProgressOk(s, b, c);
  }

  lemma OfferKeepsOnce(s: State, b: nat, c: Conn)
    requires Inv(s) && OnceInv(s) && StepOffer(s, b, c).Some?
    ensures Typed(StepOffer(s, b, c).value) && OnceInv(StepOffer(s, b, c).value)
  {
    OfferKeepsInv(s, b, c);
    OfferShape(s, b, c);
    OfferIsNew(s, b, c);
    PushKeepsOnce(s, c, Event(b), StepOffer(s, b, c).value);
  }

  lemma DumpKeepsOnce(s: State, c: Conn)
    requires Inv(s) && OnceInv(s) && StepDump(s, c).Some?
    ensures Typed(StepDump(s, c).value) && OnceInv(StepDump(s, c).value)
  {
    DumpKeepsInv(s, c);
    PushIsOnePush(s, c, Dump);
    PushKeepsOnce(s, c, Dump, StepDump(s, c).value);
  }

  predicate IsWriters(a: Action) { a.Take? || a.Write? || a.WriteFails? }

  lemma WriterIsSilent(s: State, a: Action, k: Chan)
    requires Typed(s) && IsWriters(a) && Step(s, a).Some? && k in s.chans
    ensures var t := Step(s, a).value;
            t.chans.Keys == s.chans.Keys && t.chans[k].attempts == s.chans[k].attempts
            && t.clients == s.clients && t.broadcasts == s.broadcasts && t.nextNumber == s.nextNumber
  {
  }

  lemma WriterKeepsOnce(s: State, a: Action)
    requires Inv(s) && OnceInv(s) && IsWriters(a) && Step(s, a).Some?
    ensures Typed(Step(s, a).value) && OnceInv(Step(s, a).value)
  {
    StepKeepsInv(s, a);
    var t := Step(s, a).value;
    WriterIsSilent(s, a, a.chan);
    forall k | k in t.chans ensures EventsOnce(t.chans[k], t.nextNumber) {
      WriterIsSilent(s, a, k);
      assert EventsOnce(s.chans[k], s.nextNumber);
    }
    forall b, c | b in t.broadcasts && c in t.clients ensures ProgressOk(t, b, c) {
      WriterIsSilent(s, a, s.clients[c]);
      assert ProgressOk(s, b, c);
    }
  }

  lemma BeginKeepsOnce(s: State)
    requires Inv(s) && OnceInv(s)
    ensures Typed(Step(s, BeginBroadcast).value) && OnceInv(Step(s, BeginBroadcast).value)
  {
    StepKeepsInv(s, BeginBroadcast);
    var t := Step(s, BeginBroadcast).value;
    forall ch | ch in t.chans ensures EventsOnce(t.chans[ch], t.nextNumber) {
      assert EventsOnce(s.chans[ch], s.nextNumber);
    }
    forall b, c | b in t.broadcasts && c in t.clients ensures ProgressOk(t, b, c) {
      if b == s.nextNumber {
        assert EventsOnce(s.chans[s.clients[c]], s.nextNumber);
      } else {
        assert ProgressOk(s, b, c);
      }
    }
  }

  lemma TableKeepsOnce(s: State, a: Action)
    requires Inv(s) && OnceInv(s) && Step(s, a).Some?
    requires a.Connect? || a.Subscribe? || a.SkipDump? || a.Disconnect? || a.EndBroadcast?
    ensures Typed(Step(s, a).value) && OnceInv(Step(s, a).value)
  {
    StepKeepsInv(s, a);
    var t := Step(s, a).value;
    TableKeepsEvents(s, a);
    forall b, c | b in t.broadcasts && c in t.clients ensures ProgressOk(t, b, c) {
      assert ProgressOk(s, b, c);
    }
  }

  lemma TableKeepsEvents(s: State, a: Action)
    requires Typed(s) && Step(s, a).Some? && forall ch :: ch in s.chans ==> ch < s.nextChan && EventsOnce(s.chans[ch], s.nextNumber)
    requires a.Connect? || a.Subscribe? || a.SkipDump? || a.Disconnect? || a.EndBroadcast?
    ensures var t := Step(s, a).value; forall ch :: ch in t.chans ==> EventsOnce(t.chans[ch], t.nextNumber)
  {
    var t := Step(s, a).value;
    forall ch | ch in t.chans ensures EventsOnce(t.chans[ch], t.nextNumber) {
      assert ch in s.chans ==> EventsOnce(s.chans[ch], s.nextNumber) && t.chans[ch].attempts == s.chans[ch].attempts;
    }
  }

  lemma StepKeepsOnce(s: State, a: Action)
    requires Inv(s) && OnceInv(s) && Step(s, a).Some?
    ensures Typed(Step(s, a).value) && OnceInv(Step(s, a).value)
  {
    match a
    case SendDump(c) => DumpKeepsOnce(s, c);
    case BeginBroadcast => BeginKeepsOnce(s);
    case Offer(b, c) => OfferKeepsOnce(s, b, c);
    case _ =>
      if IsWriters(a) {
        WriterKeepsOnce(s, a);
      } else {
        TableKeepsOnce(s, a);
      }
  }

  // ---------------------------------------------------------------------
  // Whole runs
  // ---------------------------------------------------------------------

  ghost function Run(h: seq<Action>): Option<State>
    decreases |h|
  {
    if h == [] then Some(INITIAL)
    else
      var s := Run(h[..|h| - 1]);
      if s.Some? && Typed(s.value) then Step(s.value, h[|h| - 1]) else None
  }

  lemma {:induction false} RunKeepsInv(h: seq<Action>)
    requires Run(h).Some?
    ensures Inv(Run(h).value) && OnceInv(Run(h).value)
    decreases |h|
  {
    if h != [] {
      RunKeepsInv(h[..|h| - 1]);
      StepKeepsInv(Run(h[..|h| - 1]).value, h[|h| - 1]);
      StepKeepsOnce(Run(h[..|h| - 1]).value, h[|h| - 1]);
    }
  }

  /** Over every run: nothing is sent on or closed after a close; on every subscription what was written,
      what its writer holds and what is queued is an in-order subsequence of what was offered, at most 256 messages are queued,
      and an offer was turned away exactly if it found 256 queued. */
  lemma RunsAreSafe(h: seq<Action>, ch: Chan)
    requires Run(h).Some? && ch in Run(h).value.chans
    ensures var s := Run(h).value; var c := s.chans[ch];
            && !s.panicked
            && Subsequence(c.written + AsSeq(c.hand) + c.queue, Messages(c.attempts)) && |c.queue| <= 256
            && forall i :: 0 <= i < |c.attempts| ==> (!c.attempts[i].accepted <==> c.attempts[i].backlog == 256)
  {
    RunKeepsInv(h);
    DeliveredIsSubsequence(Run(h).value.chans[ch]);
    assert forall i :: 0 <= i < |Run(h).value.chans[ch].attempts| ==> AttemptOk(Run(h).value.chans[ch].attempts[i]);
  }

  /** An open queue is the one in the table for its connection. */
  predicate OpenListed(s: State, ch: Chan) {
    ch in s.chans && !s.chans[ch].closed ==> s.chans[ch].conn in s.clients && s.clients[s.chans[ch].conn] == ch
  }

  ghost predicate AllOpenListed(s: State) { forall ch: Chan :: OpenListed(s, ch) }

  lemma PushKeepsListed(s: State, c: Conn, msg: Message)
    requires TableOk(s) && AllOpenListed(s) && c in s.clients
    ensures AllOpenListed(Push(s, s.clients[c], msg))
  {
    var t := Push(s, s.clients[c], msg);
    forall ch: Chan ensures OpenListed(t, ch) {
      assert OpenListed(s, ch);
    }
  }

  lemma SubscribeKeepsListed(s: State, c: Conn)
    requires TableOk(s) && AllOpenListed(s) && StepSubscribe(s, c).Some?
    ensures AllOpenListed(StepSubscribe(s, c).value)
  {
    var t := StepSubscribe(s, c).value;
    forall ch: Chan ensures OpenListed(t, ch) {
      assert OpenListed(s, ch);
    }
  }

  lemma DisconnectKeepsListed(s: State, c: Conn)
    requires TableOk(s) && AllOpenListed(s) && StepDisconnect(s, c).Some?
    ensures AllOpenListed(StepDisconnect(s, c).value)
  {
    var t := StepDisconnect(s, c).value;
    forall ch: Chan ensures OpenListed(t, ch) {
      assert OpenListed(s, ch);
    }
  }

  lemma OtherKeepsListed(s: State, a: Action)
    requires TableOk(s) && AllOpenListed(s) && Step(s, a).Some?
    requires !a.Subscribe? && !a.Disconnect? && !a.Offer? && !a.SendDump?
    ensures AllOpenListed(Step(s, a).value)
  {
    var t := Step(s, a).value;
    forall ch: Chan ensures OpenListed(t, ch) {
      assert OpenListed(s, ch);
    }
  }

  lemma SameTableKeepsListed(s: State, t: State)
    requires AllOpenListed(s) && t.chans == s.chans && t.clients == s.clients
    ensures AllOpenListed(t)
  {
    forall ch: Chan ensures OpenListed(t, ch) {
      assert OpenListed(s, ch);
    }
  }

  lemma StepKeepsListed(s: State, a: Action)
    requires Inv(s) && AllOpenListed(s) && Step(s, a).Some?
    ensures AllOpenListed(Step(s, a).value)
  {
    match a
    case Subscribe(c) => SubscribeKeepsListed(s, c);
    case Disconnect(c) => DisconnectKeepsListed(s, c);
    case Offer(b, c) =>
      PushKeepsListed(s, c, Event(b));
      SameTableKeepsListed(Push(s, s.clients[c], Event(b)), StepOffer(s, b, c).value);
    case SendDump(c) =>
      PushKeepsListed(s, c, Dump);
      SameTableKeepsListed(Push(s, s.clients[c], Dump), StepDump(s, c).value);
    case _ => OtherKeepsListed(s, a);
  }

  lemma {:induction false} RunKeepsListed(h: seq<Action>)
    requires Run(h).Some?
    ensures AllOpenListed(Run(h).value)
    decreases |h|
  {
    if h != [] {
      RunKeepsListed(h[..|h| - 1]);
      RunKeepsInv(h[..|h| - 1]);
      StepKeepsListed(Run(h[..|h| - 1]).value, h[|h| - 1]);
    }
  }

  /** In every run a queue is open exactly while some subscribed connection uses it: a second subscription and a
      disconnect each close the queue that they take out of use. */
  lemma OpenIffListed(h: seq<Action>, ch: Chan)
    requires Run(h).Some? && ch in Run(h).value.chans
    ensures !Run(h).value.chans[ch].closed <==> exists c :: c in Run(h).value.clients && Run(h).value.clients[c] == ch
  {
    RunKeepsInv(h);
    RunKeepsListed(h);
    assert OpenListed(Run(h).value, ch);
  }

  /** When a broadcast can end, every client of the moment has been offered it, and exactly once. */
  lemma EndedBroadcastReachedEveryone(h: seq<Action>, b: nat, c: Conn)
    requires Run(h).Some? && Typed(Run(h).value) && Step(Run(h).value, EndBroadcast(b)).Some? && c in Run(h).value.clients
    ensures var ch := Run(h).value.chans[Run(h).value.clients[c]];
            Offered(ch, b) && forall i, j :: (0 <= i < j < |ch.attempts| && ch.attempts[i].msg == Event(b)) ==> ch.attempts[j].msg != Event(b)
  {
    RunKeepsInv(h);
    EndingReachedEveryone(Run(h).value, b, c);
  }

  lemma EndingReachedEveryone(s: State, b: nat, c: Conn)
    requires Typed(s) && OnceInv(s) && Step(s, EndBroadcast(b)).Some? && c in s.clients
    ensures var ch := s.chans[s.clients[c]];
            Offered(ch, b) && forall i, j :: (0 <= i < j < |ch.attempts| && ch.attempts[i].msg == Event(b)) ==> ch.attempts[j].msg != Event(b)
  {
    assert ProgressOk(s, b, c) && EventsOnce(s.chans[s.clients[c]], s.nextNumber);
  }

  lemma PushToClient(s: State, c: Conn, msg: Message, ch: Chan)
    requires TableOk(s) && c in s.clients && ch in s.chans && s.chans[ch].closed
    ensures var t := Push(s, s.clients[c], msg); ch in t.chans && t.chans[ch] == s.chans[ch]
  {
  }

  /** A closed subscription is never offered anything again. */
  lemma ClosedStaysClosed(s: State, a: Action, ch: Chan)
    requires Inv(s) && Step(s, a).Some? && ch in s.chans && s.chans[ch].closed
    ensures var t := Step(s, a).value;
            ch in t.chans && t.chans[ch].closed && t.chans[ch].attempts == s.chans[ch].attempts
  {
    match a
    case Offer(b, c) => PushToClient(s, c, Event(b), ch);
    case SendDump(c) => PushToClient(s, c, Dump, ch);
    case _ =>
      if IsWriters(a) {
        WriterKeepsClosed(s, a, ch);
      } else {
        TableKeepsClosed(s, a, ch);
      }
  }

  lemma WriterKeepsClosed(s: State, a: Action, ch: Chan)
    requires Typed(s) && IsWriters(a) && Step(s, a).Some? && ch in s.chans && s.chans[ch].closed
    ensures var t := Step(s, a).value; ch in t.chans && t.chans[ch].closed && t.chans[ch].attempts == s.chans[ch].attempts
  {
  }

  lemma TableKeepsClosed(s: State, a: Action, ch: Chan)
    requires TableOk(s) && Step(s, a).Some? && ch in s.chans && s.chans[ch].closed
    requires !IsWriters(a) && !a.Offer? && !a.SendDump?
    ensures ch in Step(s, a).value.chans && Step(s, a).value.chans[ch] == s.chans[ch]
  {
  }
}

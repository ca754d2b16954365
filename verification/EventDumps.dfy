/** The state dump that follows a subscription: it waits for room in the queue, possibly for ever. */
module EventDumps {
  import opened Prelude
  import opened EventFanout
  import opened EventOrder

  /** The dump of c waits on a full queue whose writer has stopped. */
  predicate Stuck(s: State, c: Conn) {
    && c in s.sessions && s.sessions[c].Dumping? && s.sessions[c].chan in s.chans
    && var d := s.chans[s.sessions[c].chan];
       !d.closed && |d.queue| >= QUEUE_SIZE && d.failed.Some?
  }

  predicate Dumps(s: State, c: Conn) { c in s.sessions && s.sessions[c].Dumping? }

  lemma TableKeepsStuck(s: State, a: Action, c: Conn)
    requires TableOk(s) && Stuck(s, c) && Step(s, a).Some? && (a.Subscribe? || a.Disconnect? || a.Connect?)
    ensures Stuck(Step(s, a).value, c)
  {
  }

  lemma PushKeepsStuck(s: State, a: Action, c: Conn)
    requires TableOk(s) && Stuck(s, c) && Step(s, a).Some? && (a.Offer? || a.SendDump?)
    ensures Stuck(Step(s, a).value, c)
  {
  }

  /** Nothing that anybody does moves a stuck dump, unless its text cannot be made in the first place. */
  lemma StepKeepsStuck(s: State, a: Action, c: Conn)
    requires TableOk(s) && Stuck(s, c) && Step(s, a).Some? && a != SkipDump(c)
    ensures Stuck(Step(s, a).value, c)
  {
    if a.Subscribe? || a.Disconnect? || a.Connect? {
      TableKeepsStuck(s, a, c);
    } else if a.Offer? || a.SendDump? {
      PushKeepsStuck(s, a, c);
    }
  }

  lemma {:induction false} StuckForever(h: seq<Action>, more: seq<Action>, c: Conn)
    requires Run(h).Some? && Stuck(Run(h).value, c) && Run(h + more).Some? && SkipDump(c) !in more
    ensures Stuck(Run(h + more).value, c)
    decreases |more|
  {
    if more == [] {
      assert h + more == h;
    } else {
      var n := |more| - 1;
      assert (h + more)[..|h + more| - 1] == h + more[..n] && (h + more)[|h + more| - 1] == more[n];
      RunStep(h + more);
      StuckForever(h, more[..n], c);
      RunKeepsInv(h + more[..n]);
      StepKeepsStuck(Run(h + more[..n]).value, more[n], c);
    }
  }

  /** The goroutine of a connection that is about to send its dump can ever go on, and so be cleaned up, exactly
      when its dump is not stuck: the queue has room, or a writer that still works. */
  lemma DumpGoesOnIff(h: seq<Action>, c: Conn)
    requires Run(h).Some? && Dumps(Run(h).value, c)
    ensures !Stuck(Run(h).value, c)
            <==> exists more :: SkipDump(c) !in more && Run(h + more).Some? && !Dumps(Run(h + more).value, c)
  {
    if Stuck(Run(h).value, c) {
      forall more | SkipDump(c) !in more && Run(h + more).Some? ensures Dumps(Run(h + more).value, c) {
        StuckForever(h, more, c);
      }
    } else {
      var more := FreeDumpGoesOn(h, Run(h).value, c);
    }
  }

  lemma FreeDumpGoesOn(h: seq<Action>, s: State, c: Conn) returns (more: seq<Action>)
    requires Run(h) == Some(s) && Dumps(s, c) && !Stuck(s, c)
    ensures SkipDump(c) !in more && Run(h + more).Some? && !Dumps(Run(h + more).value, c)
  {
    var ch := DumpQueue(h, s, c);
    if |s.chans[ch].queue| < QUEUE_SIZE {
      SendsNow(h, s, c);
      more := [SendDump(c)];
    } else {
      var g, t := EmptiesHand(h, s, c, ch);
      var u := MakesRoom(h + g, t, c, ch);
      SendsNow(h + g + [Take(ch)], u, c);
      more := g + [Take(ch), SendDump(c)];
      assert h + g + [Take(ch)] + [SendDump(c)] == h + more;
    }
  }

  /** A writer that holds a message can write it. */
  lemma EmptiesHand(h: seq<Action>, s: State, c: Conn, ch: Chan) returns (g: seq<Action>, t: State)
    requires At(h, s) && c in s.sessions && s.sessions[c] == Dumping(ch) && ch in s.chans && s.chans[ch].failed.None?
    ensures SkipDump(c) !in g && At(h + g, t) && c in t.sessions && t.sessions[c] == Dumping(ch)
    ensures ch in t.chans && t.chans[ch].hand.None? && t.chans[ch].failed.None? && t.chans[ch].queue == s.chans[ch].queue
  {
    g, t := [], s;
    assert h + [] == h;
    if s.chans[ch].hand.Some? {
      g, t := [Write(ch)], StepWrite(s, ch, true).value;
      Continue(h, s, Write(ch), t);
    }
  }

  lemma DumpQueue(h: seq<Action>, s: State, c: Conn) returns (ch: Chan)
    requires Run(h) == Some(s) && Dumps(s, c)
    ensures At(h, s) && s.sessions[c] == Dumping(ch) && ch in s.chans && !s.chans[ch].closed && |s.chans[ch].queue| <= QUEUE_SIZE
  {
    RunKeepsInv(h);
    ch := s.sessions[c].chan;
    assert ChannelOk(s.chans[ch]);
  }

  lemma MakesRoom(h: seq<Action>, s: State, c: Conn, ch: Chan) returns (t: State)
    requires At(h, s) && c in s.sessions && s.sessions[c] == Dumping(ch) && ch in s.chans
    requires s.chans[ch].failed.None? && s.chans[ch].hand.None? && |s.chans[ch].queue| == QUEUE_SIZE
    ensures At(h + [Take(ch)], t) && Dumps(t, c) && t.sessions[c].chan == ch && ch in t.chans && |t.chans[ch].queue| < QUEUE_SIZE
  {
    t := StepTake(s, ch).value;
    Continue(h, s, Take(ch), t);
  }

  lemma SendsNow(h: seq<Action>, s: State, c: Conn)
    requires At(h, s) && Dumps(s, c) && |s.chans[s.sessions[c].chan].queue| < QUEUE_SIZE
    ensures Run(h + [SendDump(c)]).Some? && !Dumps(Run(h + [SendDump(c)]).value, c)
  {
    RunKeepsInv(h);
    Continue(h, s, SendDump(c), Step(s, SendDump(c)).value);
  }
}

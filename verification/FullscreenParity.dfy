/** How niri's layout messages are turned into fullscreen transitions. */
module FullscreenParity {
  import opened Prelude

  datatype Size = Size(width: int, height: int)
  type WindowId = nat
  type Sizes = map<WindowId, Size>
  type Outputs = map<string, Size>

  predicate MatchesAny(size: Size, outputs: Outputs) { exists o :: o in outputs && outputs[o] == size }

  /** A size matches when it is the whole size of some output. */
  lemma MatchesIff(width: int, height: int, outputs: Outputs)
    ensures MatchesAny(Size(width, height), outputs) <==> exists o :: o in outputs && outputs[o].width == width && outputs[o].height == height
  {
    if o :| o in outputs && outputs[o].width == width && outputs[o].height == height {
      assert outputs[o] == Size(width, height);
    }
  }

  // ---------------------------------------------------------------------
  // The events as functions of the remembered sizes
  // ---------------------------------------------------------------------

  /** Layout: a size from a layout message. Remember: a size from a window dump. Forget: a window closed. */
  datatype Event = Layout(id: WindowId, size: Size) | Remember(id: WindowId, size: Size) | Forget(id: WindowId)

  function After(sizes: Sizes, e: Event): Sizes {
    if e.Forget? then sizes - {e.id} else sizes[e.id := e.size]
  }

  /** A layout size crosses the size of an output: the only changes that are reported. */
  predicate Reports(sizes: Sizes, e: Event, outputs: Outputs) {
    && e.Layout? && e.id in sizes && sizes[e.id] != e.size && outputs != map[]
    && MatchesAny(sizes[e.id], outputs) != MatchesAny(e.size, outputs)
  }

  function AfterAll(sizes: Sizes, run: seq<Event>): Sizes
    decreases |run|
  {
    if run == [] then sizes else AfterAll(After(sizes, run[0]), run[1..])
  }

  /** The transitions reported for w over a run. */
  function Reported(sizes: Sizes, run: seq<Event>, w: WindowId, outputs: Outputs): nat
    decreases |run|
  {
    if run == [] then 0
    else (if run[0].id == w && Reports(sizes, run[0], outputs) then 1 else 0) + Reported(After(sizes, run[0]), run[1..], w, outputs)
  }

  predicate CrossesSilently(sizes: Sizes, e: Event, w: WindowId, outputs: Outputs) {
    e.Remember? && e.id == w && w in sizes && MatchesAny(sizes[w], outputs) != MatchesAny(e.size, outputs)
  }

  /** The times a dump overwrote w's size across an output size, which nobody is told about. */
  function Silent(sizes: Sizes, run: seq<Event>, w: WindowId, outputs: Outputs): nat
    decreases |run|
  {
    if run == [] then 0
    else (if CrossesSilently(sizes, run[0], w, outputs) then 1 else 0) + Silent(After(sizes, run[0]), run[1..], w, outputs)
  }

  predicate IsFullscreen(sizes: Sizes, w: WindowId, outputs: Outputs) { w in sizes && MatchesAny(sizes[w], outputs) }

  predicate Odd(n: nat) { n % 2 == 1 }

  lemma EventParity(sizes: Sizes, e: Event, w: WindowId, outputs: Outputs)
    requires w in sizes && e != Forget(w)
    ensures w in After(sizes, e)
    ensures IsFullscreen(After(sizes, e), w, outputs)
            == (IsFullscreen(sizes, w, outputs) != ((e.id == w && Reports(sizes, e, outputs)) || CrossesSilently(sizes, e, w, outputs)))
  {
    if outputs == map[] {
      assert forall s: Size :: !MatchesAny(s, outputs);
    }
  }

  /** Over every run in which a known window stays open, its status has flipped exactly as often, up to
      parity, as transitions were reported for it or slipped by in a dump. */
  lemma {:induction false} StatusParity(sizes: Sizes, run: seq<Event>, w: WindowId, outputs: Outputs)
    requires w in sizes && Forget(w) !in run
    ensures w in AfterAll(sizes, run)
    ensures IsFullscreen(AfterAll(sizes, run), w, outputs)
            == (IsFullscreen(sizes, w, outputs) != Odd(Reported(sizes, run, w, outputs) + Silent(sizes, run, w, outputs)))
    decreases |run|
  {
    if run != [] {
      EventParity(sizes, run[0], w, outputs);
      StatusParity(After(sizes, run[0]), run[1..], w, outputs);
    }
  }

  /** The reports alone tell the status exactly when the dumps flipped it an even number of times. */
  lemma ReportsTellStatusIff(sizes: Sizes, run: seq<Event>, w: WindowId, outputs: Outputs)
    requires w in sizes && Forget(w) !in run
    ensures IsFullscreen(AfterAll(sizes, run), w, outputs) == (IsFullscreen(sizes, w, outputs) != Odd(Reported(sizes, run, w, outputs)))
            <==> !Odd(Silent(sizes, run, w, outputs))
  {
    StatusParity(sizes, run, w, outputs);
  }

  /** Only layout messages: nothing slips by. */
  lemma {:induction false} LayoutsAreNeverSilent(sizes: Sizes, run: seq<Event>, w: WindowId, outputs: Outputs)
    requires forall i :: 0 <= i < |run| ==> run[i].Layout?
    ensures Silent(sizes, run, w, outputs) == 0
    decreases |run|
  {
    if run != [] {
      LayoutsAreNeverSilent(After(sizes, run[0]), run[1..], w, outputs);
    }
  }

  // ---------------------------------------------------------------------
  // One message carries many changes but names one window
  // ---------------------------------------------------------------------

  /** One entry of a layout message: entries that do not decode or carry no window size are passed over. */
  datatype Change = Malformed | NoSize | Resized(id: WindowId, size: Size)

  function Layouts(changes: seq<Change>): seq<Event> {
    if changes == [] then []
    else (if changes[0].Resized? then [Layout(changes[0].id, changes[0].size)] else []) + Layouts(changes[1..])
  }

  /** The window that the event of a message names: the last one reported. */
  function Named(sizes: Sizes, run: seq<Event>, outputs: Outputs): Option<WindowId>
    decreases |run|
  {
    if run == [] then None
    else
      var rest := Named(After(sizes, run[0]), run[1..], outputs);
      if rest.Some? then rest else if Reports(sizes, run[0], outputs) then Some(run[0].id) else None
  }

  predicate IsLayouts(run: seq<Event>) { forall i :: 0 <= i < |run| ==> run[i].Layout? }

  /** The event tells the truth about w: it names w exactly when w's status changed. */
  predicate Truthful(sizes: Sizes, message: seq<Event>, w: WindowId, outputs: Outputs) {
    (Named(sizes, message, outputs) == Some(w)) <==>
      (IsFullscreen(AfterAll(sizes, message), w, outputs) != IsFullscreen(sizes, w, outputs))
  }

  lemma {:induction false} NamedIsReported(sizes: Sizes, run: seq<Event>, outputs: Outputs)
    requires Named(sizes, run, outputs).Some?
    ensures Reported(sizes, run, Named(sizes, run, outputs).value, outputs) > 0
    decreases |run|
  {
    if Named(After(sizes, run[0]), run[1..], outputs).Some? {
      NamedIsReported(After(sizes, run[0]), run[1..], outputs);
    }
  }

  lemma {:induction false} ReportedGetsNamed(sizes: Sizes, run: seq<Event>, w: WindowId, outputs: Outputs)
    requires Reported(sizes, run, w, outputs) > 0
    ensures Named(sizes, run, outputs).Some?
    decreases |run|
  {
    if !(run[0].id == w && Reports(sizes, run[0], outputs)) {
      ReportedGetsNamed(After(sizes, run[0]), run[1..], w, outputs);
    }
  }

  /** The i-th entry of a message takes a known window across an output size. */
  predicate CrossesAt(sizes: Sizes, run: seq<Event>, i: nat, outputs: Outputs)
    requires i < |run|
  {
    Reports(AfterAll(sizes, run[..i]), run[i], outputs)
  }

  /** The last entry that crosses. */
  predicate LastCrossing(sizes: Sizes, run: seq<Event>, i: nat, outputs: Outputs) {
    i < |run| && CrossesAt(sizes, run, i, outputs) && forall j :: i < j < |run| ==> !CrossesAt(sizes, run, j, outputs)
  }

  /** The last size that a message gives w. */
  function LastSize(run: seq<Event>, w: WindowId): Option<Size>
    decreases |run|
  {
    if run == [] then None
    else if run[|run| - 1].Layout? && run[|run| - 1].id == w then Some(run[|run| - 1].size)
    else LastSize(run[..|run| - 1], w)
  }

  /** w ends on the other side: its last size in the message matches an output and its old one does not, or conversely. */
  predicate EndsElsewhere(sizes: Sizes, run: seq<Event>, w: WindowId, outputs: Outputs)
    requires w in sizes
  {
    MatchesAny(LastSize(run, w).GetOr(sizes[w]), outputs) != MatchesAny(sizes[w], outputs)
  }

  lemma {:induction false} AfterAllSnoc(sizes: Sizes, run: seq<Event>, e: Event)
    ensures AfterAll(sizes, run + [e]) == After(AfterAll(sizes, run), e)
    decreases |run|
  {
    if run == [] {
      assert run + [e] == [e] && [e][1..] == [];
    } else {
      assert (run + [e])[1..] == run[1..] + [e];
      AfterAllSnoc(After(sizes, run[0]), run[1..], e);
    }
  }

  lemma {:induction false} FinalSize(sizes: Sizes, run: seq<Event>, w: WindowId)
    requires IsLayouts(run) && w in sizes
    ensures w in AfterAll(sizes, run) && AfterAll(sizes, run)[w] == LastSize(run, w).GetOr(sizes[w])
    decreases |run|
  {
    if run != [] {
      var init, e := run[..|run| - 1], run[|run| - 1];
      assert run == init + [e];
      FinalSize(sizes, init, w);
      AfterAllSnoc(sizes, init, e);
    }
  }

  lemma CrossesCons(sizes: Sizes, e: Event, rest: seq<Event>, i: nat, outputs: Outputs)
    requires i < |rest|
    ensures CrossesAt(sizes, [e] + rest, i + 1, outputs) <==> CrossesAt(After(sizes, e), rest, i, outputs)
  {
    assert ([e] + rest)[..i + 1] == [e] + rest[..i];
    AfterCons(sizes, e, rest[..i]);
  }

  /** The window that the event names is the one of the last crossing entry. */
  lemma {:induction false} NamedIsLastCrosser(sizes: Sizes, run: seq<Event>, outputs: Outputs)
    ensures Named(sizes, run, outputs).None? ==> forall i :: 0 <= i < |run| ==> !CrossesAt(sizes, run, i, outputs)
    ensures Named(sizes, run, outputs).Some? ==>
              exists i: nat :: LastCrossing(sizes, run, i, outputs) && run[i].id == Named(sizes, run, outputs).value
    decreases |run|
  {
    if run != [] {
      var e, rest, next := run[0], run[1..], After(sizes, run[0]);
      assert run == [e] + rest;
      NamedIsLastCrosser(next, rest, outputs);
      forall j | 0 <= j < |rest| ensures CrossesAt(sizes, run, j + 1, outputs) <==> CrossesAt(next, rest, j, outputs) {
        CrossesCons(sizes, e, rest, j, outputs);
      }
      FirstCrossing(sizes, run, outputs);
      if Named(next, rest, outputs).Some? {
        var i: nat :| LastCrossing(next, rest, i, outputs) && rest[i].id == Named(next, rest, outputs).value;
        LastCrossingCons(sizes, run, i, outputs);
      } else {
        forall j | 1 <= j < |run| ensures !CrossesAt(sizes, run, j, outputs) {
          assert CrossesAt(sizes, run, j - 1 + 1, outputs) <==> CrossesAt(next, rest, j - 1, outputs);
        }
        assert Reports(sizes, e, outputs) ==> LastCrossing(sizes, run, 0, outputs);
      }
    }
  }

  lemma FirstCrossing(sizes: Sizes, run: seq<Event>, outputs: Outputs)
    requires run != []
    ensures CrossesAt(sizes, run, 0, outputs) <==> Reports(sizes, run[0], outputs)
  {
    assert run[..0] == [];
  }

  lemma LastCrossingCons(sizes: Sizes, run: seq<Event>, i: nat, outputs: Outputs)
    requires run != [] && LastCrossing(After(sizes, run[0]), run[1..], i, outputs)
    ensures LastCrossing(sizes, run, i + 1, outputs)
  {
    var e, rest := run[0], run[1..];
    assert run == [e] + rest;
    CrossesCons(sizes, e, rest, i, outputs);
    forall j | i + 1 < j < |run| ensures !CrossesAt(sizes, run, j, outputs) {
      CrossesCons(sizes, e, rest, j - 1, outputs);
    }
  }

  lemma OneLastCrossing(sizes: Sizes, run: seq<Event>, i: nat, j: nat, outputs: Outputs)
    requires LastCrossing(sizes, run, i, outputs) && LastCrossing(sizes, run, j, outputs)
    ensures i == j
  {
  }

  /** A known window changes its status over a message exactly when it ends elsewhere. */
  lemma TruthfulWhen(sizes: Sizes, message: seq<Event>, w: WindowId, outputs: Outputs)
    requires IsLayouts(message) && w in sizes
    ensures Truthful(sizes, message, w, outputs)
            <==> (Named(sizes, message, outputs) == Some(w) <==> EndsElsewhere(sizes, message, w, outputs))
  {
    FinalSize(sizes, message, w);
  }

  /** The event of a message is truthful about every known window exactly when no entry crosses, or the window of
      the last crossing entry is the only known one that the message leaves on the other side. */
  lemma MessageTruthfulIff(sizes: Sizes, message: seq<Event>, outputs: Outputs)
    requires IsLayouts(message)
    ensures (forall w :: w in sizes ==> Truthful(sizes, message, w, outputs)) <==>
              || (forall i :: 0 <= i < |message| ==> !CrossesAt(sizes, message, i, outputs))
              || (exists i: nat :: LastCrossing(sizes, message, i, outputs)
                                   && OnlyMover(sizes, message, message[i].id, outputs))
  {
    NamedIsLastCrosser(sizes, message, outputs);
    forall w | w in sizes
      ensures Truthful(sizes, message, w, outputs)
              <==> (Named(sizes, message, outputs) == Some(w) <==> EndsElsewhere(sizes, message, w, outputs))
    {
      TruthfulWhen(sizes, message, w, outputs);
    }
    if Named(sizes, message, outputs).None? {
      forall w | w in sizes ensures !EndsElsewhere(sizes, message, w, outputs) {
        NobodyMoves(sizes, message, w, outputs);
      }
    } else {
      var i: nat :| LastCrossing(sizes, message, i, outputs) && message[i].id == Named(sizes, message, outputs).value;
      forall j: nat | LastCrossing(sizes, message, j, outputs) ensures j == i {
        OneLastCrossing(sizes, message, i, j, outputs);
      }
    }
  }

  predicate OnlyMover(sizes: Sizes, message: seq<Event>, v: WindowId, outputs: Outputs) {
    forall w :: w in sizes ==> (EndsElsewhere(sizes, message, w, outputs) <==> w == v)
  }

  lemma NobodyMoves(sizes: Sizes, message: seq<Event>, w: WindowId, outputs: Outputs)
    requires IsLayouts(message) && w in sizes && Named(sizes, message, outputs).None?
    ensures !EndsElsewhere(sizes, message, w, outputs)
  {
    FinalSize(sizes, message, w);
    LayoutsAreNeverSilent(sizes, message, w, outputs);
    StatusParity(sizes, message, w, outputs);
    if Reported(sizes, message, w, outputs) > 0 {
      ReportedGetsNamed(sizes, message, w, outputs);
    }
  }

  /** A window that crosses an output size at most once, and then as the only one, is told about truthfully. */
  lemma SingleCrossingIsTruthful(sizes: Sizes, message: seq<Event>, w: WindowId, outputs: Outputs)
    requires IsLayouts(message) && w in sizes && Reported(sizes, message, w, outputs) <= 1
    requires forall v :: v != w && Reported(sizes, message, w, outputs) == 1 ==> Reported(sizes, message, v, outputs) == 0
    ensures Truthful(sizes, message, w, outputs)
  {
    LayoutsAreNeverSilent(sizes, message, w, outputs);
    StatusParity(sizes, message, w, outputs);
    if Named(sizes, message, outputs).Some? {
      NamedIsReported(sizes, message, outputs);
    }
    if Reported(sizes, message, w, outputs) > 0 {
      ReportedGetsNamed(sizes, message, w, outputs);
    }
  }

  /** One message swaps which of two windows is fullscreen; the event names only the second. */
  lemma SwapHidesOneWindow(full: Size, small: Size)
    requires full != small
    ensures var outputs: Outputs := map["DP-1" := full];
            var sizes: Sizes := map[1 := full, 2 := small];
            var message := Layouts([Resized(1, small), Resized(2, full)]);
            && Named(sizes, message, outputs) == Some(2)
            && IsFullscreen(sizes, 1, outputs) && !IsFullscreen(AfterAll(sizes, message), 1, outputs)
            && !Truthful(sizes, message, 1, outputs)
  {
    var outputs: Outputs := map["DP-1" := full];
    var sizes: Sizes := map[1 := full, 2 := small];
    var a, b := Layout(1, small), Layout(2, full);
    var c1, c2 := Resized(1, small), Resized(2, full);
    assert [c1, c2][1..] == [c2] && [c2][1..] == [];
    assert Layouts([c2]) == [b] + Layouts([]) == [b];
    assert Layouts([c1, c2]) == [a] + Layouts([c2]) == [a, b];
    assert [a, b][1..] == [b] && [b][1..] == [];
    assert outputs["DP-1"] == full;
    var mid := After(sizes, a);
    var end := After(mid, b);
    assert AfterAll(sizes, [a, b]) == AfterAll(mid, [b]) == AfterAll(end, []) == end;
    assert Named(end, [], outputs) == None;
    assert Named(mid, [b], outputs) == Some(2);
  }

  /** A closed window is unknown: its next layout, whatever its size, is never reported, and only the one after
      that is compared with anything. */
  lemma ForgottenIsNotReported(sizes: Sizes, w: WindowId, between: seq<Event>, size: Size, outputs: Outputs)
    requires forall i :: 0 <= i < |between| ==> between[i].id != w
    ensures !Reports(AfterAll(After(sizes, Forget(w)), between), Layout(w, size), outputs)
  {
    StaysUnknown(After(sizes, Forget(w)), w, between);
  }

  lemma {:induction false} StaysUnknown(sizes: Sizes, w: WindowId, run: seq<Event>)
    requires w !in sizes && forall i :: 0 <= i < |run| ==> run[i].id != w
    ensures w !in AfterAll(sizes, run)
    decreases |run|
  {
    if run != [] {
      StaysUnknown(After(sizes, run[0]), w, run[1..]);
    }
  }

  // ---------------------------------------------------------------------
  // The client as the source runs it
  // ---------------------------------------------------------------------

  class Niri {
    var fsSizes: Sizes

    constructor ()
      ensures fsSizes == map[]
    {
      fsSizes := map[];
    }

    static method SizeMatchesAnyOutput(size: Size, outputs: Outputs) returns (r: bool)
      ensures r == MatchesAny(size, outputs)
    {
      var names := outputs.Keys;
      while names != {}
        invariant names <= outputs.Keys
        invariant forall o :: o in outputs && o !in names ==> outputs[o] != size
        decreases |names|
      {
        var o :| o in names;
        if outputs[o] == size {
          return true;
        }
        names := names - {o};
      }
      r := false;
    }

    method DetectFullscreenTransition(id: WindowId, size: Size, outputs: Outputs) returns (r: bool)
      modifies this
      ensures fsSizes == After(old(fsSizes), Layout(id, size))
      ensures r == Reports(old(fsSizes), Layout(id, size), outputs)
    {
      var known := id in fsSizes;
      var prev := if known then fsSizes[id] else Size(0, 0);
      fsSizes := fsSizes[id := size];
      if !known || prev == size || outputs == map[] {
        return false;
      }
      var was := SizeMatchesAnyOutput(prev, outputs);
      var now := SizeMatchesAnyOutput(size, outputs);
      r := was != now;
    }

    method RememberWindowSizes(windows: seq<(WindowId, Option<Size>)>)
      modifies this
      ensures fsSizes == AfterAll(old(fsSizes), Dump(windows))
    {
      for i := 0 to |windows|
        invariant AfterAll(fsSizes, Dump(windows[i..])) == AfterAll(old(fsSizes), Dump(windows))
      {
        assert windows[i..][0] == windows[i] && windows[i..][1..] == windows[i + 1..];
        if windows[i].1.Some? {
          AfterCons(fsSizes, Remember(windows[i].0, windows[i].1.value), Dump(windows[i + 1..]));
          fsSizes := fsSizes[windows[i].0 := windows[i].1.value];
        } else {
          assert [] + Dump(windows[i + 1..]) == Dump(windows[i + 1..]);
        }
      }
    }

    method ForgetWindowSize(id: WindowId)
      modifies this
      ensures fsSizes == After(old(fsSizes), Forget(id))
    {
      fsSizes := fsSizes - {id};
    }

    /** One layout message: every change is applied, and the event names the last window reported. */
    method HandleLayoutsChanged(changes: seq<Change>, outputs: Outputs) returns (event: Option<WindowId>)
      modifies this
      ensures fsSizes == AfterAll(old(fsSizes), Layouts(changes))
      ensures event == Named(old(fsSizes), Layouts(changes), outputs)
    {
      event := None;
      for i := 0 to |changes|
        invariant AfterAll(fsSizes, Layouts(changes[i..])) == AfterAll(old(fsSizes), Layouts(changes))
        invariant Named(old(fsSizes), Layouts(changes), outputs)
                  == var rest := Named(fsSizes, Layouts(changes[i..]), outputs); if rest.Some? then rest else event
      {
        assert changes[i..][0] == changes[i] && changes[i..][1..] == changes[i + 1..];
        if changes[i].Resized? {
          var e := Layout(changes[i].id, changes[i].size);
          AfterCons(fsSizes, e, Layouts(changes[i + 1..]));
          NamedCons(fsSizes, e, Layouts(changes[i + 1..]), outputs);
          var crossed := DetectFullscreenTransition(changes[i].id, changes[i].size, outputs);
          if crossed {
            event := Some(changes[i].id);
          }
        } else {
          assert [] + Layouts(changes[i + 1..]) == Layouts(changes[i + 1..]);
        }
      }
    }
  }

  /** A dump: windows without a layout size are passed over. */
  function Dump(windows: seq<(WindowId, Option<Size>)>): seq<Event> {
    if windows == [] then []
    else (if windows[0].1.Some? then [Remember(windows[0].0, windows[0].1.value)] else []) + Dump(windows[1..])
  }

  lemma AfterCons(sizes: Sizes, e: Event, rest: seq<Event>)
    ensures AfterAll(sizes, [e] + rest) == AfterAll(After(sizes, e), rest)
  {
    assert ([e] + rest)[1..] == rest;
  }

  lemma NamedCons(sizes: Sizes, e: Event, rest: seq<Event>, outputs: Outputs)
    ensures Named(sizes, [e] + rest, outputs)
            == var later := Named(After(sizes, e), rest, outputs); if later.Some? then later else if Reports(sizes, e, outputs) then Some(e.id) else None
  {
    assert ([e] + rest)[1..] == rest;
  }

  lemma {:induction false} LayoutsSnoc(changes: seq<Change>, c: Change)
    ensures Layouts(changes + [c]) == Layouts(changes) + (if c.Resized? then [Layout(c.id, c.size)] else [])
  {
    if changes == [] {
      assert [] + [c] == [c] && [c][1..] == [];
    } else {
      assert (changes + [c])[0] == changes[0] && (changes + [c])[1..] == changes[1..] + [c];
      LayoutsSnoc(changes[1..], c);
      Assoc(if changes[0].Resized? then [Layout(changes[0].id, changes[0].size)] else [], Layouts(changes[1..]),
            if c.Resized? then [Layout(c.id, c.size)] else []);
    }
  }

  /** The layouts of a message are its entries that carry a size, in their order. */
  lemma {:induction false} LayoutsInOrder(changes: seq<Change>) returns (at: seq<int>)
    ensures Selects(changes, (c: Change) => if c.Resized? then Some(Layout(c.id, c.size)) else None, Layouts(changes), at)
    decreases |changes|
  {
    at := [];
    if changes != [] {
      var n, f := |changes| - 1, (c: Change) => if c.Resized? then Some(Layout(c.id, c.size)) else None;
      var before := LayoutsInOrder(changes[..n]);
      LayoutsSnoc(changes[..n], changes[n]);
      SelectsSnoc(changes[..n], f, Layouts(changes[..n]), before, changes[n]);
      assert changes[..n] + [changes[n]] == changes;
      Unit(Layouts(changes[..n]));
      at := before + if changes[n].Resized? then [n] else [];
    }
  }

  lemma {:induction false} DumpSnoc(windows: seq<(WindowId, Option<Size>)>, w: (WindowId, Option<Size>))
    ensures Dump(windows + [w]) == Dump(windows) + (if w.1.Some? then [Remember(w.0, w.1.value)] else [])
  {
    if windows == [] {
      assert [] + [w] == [w] && [w][1..] == [];
    } else {
      assert (windows + [w])[0] == windows[0] && (windows + [w])[1..] == windows[1..] + [w];
      DumpSnoc(windows[1..], w);
      Assoc(if windows[0].1.Some? then [Remember(windows[0].0, windows[0].1.value)] else [], Dump(windows[1..]),
            if w.1.Some? then [Remember(w.0, w.1.value)] else []);
    }
  }

  /** What a dump makes the client remember: the size of every window that carries one, in their order. */
  lemma {:induction false} DumpInOrder(windows: seq<(WindowId, Option<Size>)>) returns (at: seq<int>)
    ensures Selects(windows, (w: (WindowId, Option<Size>)) => if w.1.Some? then Some(Remember(w.0, w.1.value)) else None, Dump(windows), at)
    decreases |windows|
  {
    at := [];
    if windows != [] {
      var n, f := |windows| - 1, (w: (WindowId, Option<Size>)) => if w.1.Some? then Some(Remember(w.0, w.1.value)) else None;
      var before := DumpInOrder(windows[..n]);
      DumpSnoc(windows[..n], windows[n]);
      SelectsSnoc(windows[..n], f, Dump(windows[..n]), before, windows[n]);
      assert windows[..n] + [windows[n]] == windows;
      Unit(Dump(windows[..n]));
      at := before + if windows[n].1.Some? then [n] else [];
    }
  }
}

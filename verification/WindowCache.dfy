/** The window cache, and the compositor events that keep it up to date. */
module WindowCache {
  import opened Prelude

  datatype Window = Window(id: string, title: string, appId: string, workspaceId: string, focused: bool,
                           floating: bool, fullscreen: bool, hidden: bool, metadata: Option<map<string, string>>)

  /** A targeted change of one cached window. */
  datatype Edit = Title(title: string) | Workspace(workspaceId: string, monitorId: string) | Fullscreen(on: bool) | Floating(on: bool)

  function Edited(w: Window, e: Edit): Window {
    match e
    case Title(t) => w.(title := t)
    case Workspace(ws, m) =>
      if m == "" then w.(workspaceId := ws)
      else w.(workspaceId := ws, metadata := Some(w.metadata.GetOr(map[])["monitor_id" := m]))
    case Fullscreen(on) => w.(fullscreen := on)
    case Floating(on) => w.(floating := on)
  }

  // ---------------------------------------------------------------------
  // Cache operations on the list
  // ---------------------------------------------------------------------

  function Remove(ws: seq<Window>, id: string): seq<Window> {
    if ws == [] then [] else (if ws[0].id != id then [ws[0]] else []) + Remove(ws[1..], id)
  }

  /** Edits the first window with that id. */
  function EditFirst(ws: seq<Window>, id: string, e: Edit): seq<Window> {
    if ws == [] then []
    else if ws[0].id == id then [Edited(ws[0], e)] + ws[1..]
    else [ws[0]] + EditFirst(ws[1..], id, e)
  }

  function MarkFocused(ws: seq<Window>, id: string): seq<Window> {
    seq(|ws|, i requires 0 <= i < |ws| => ws[i].(focused := ws[i].id == id))
  }

  predicate Has(ws: seq<Window>, id: string) { exists i :: 0 <= i < |ws| && ws[i].id == id }

  predicate UniqueIds(ws: seq<Window>) { forall i, j :: 0 <= i < j < |ws| ==> ws[i].id != ws[j].id }

  predicate OneFocus(ws: seq<Window>) { forall i, j :: 0 <= i < j < |ws| ==> !(ws[i].focused && ws[j].focused) }

  // ---------------------------------------------------------------------
  // The map it stands for
  // ---------------------------------------------------------------------

  function AsMap(ws: seq<Window>): map<string, Window> {
    if ws == [] then map[] else AsMap(ws[1..])[ws[0].id := ws[0]]
  }

  lemma {:induction false} AsMapKeys(ws: seq<Window>, id: string)
    ensures id in AsMap(ws) <==> Has(ws, id)
  {
    if ws != [] {
      AsMapKeys(ws[1..], id);
      if Has(ws[1..], id) {
        var i :| 0 <= i < |ws[1..]| && ws[1..][i].id == id;
        assert ws[i + 1].id == id;
      }
      if Has(ws, id) && ws[0].id != id {
        var i :| 0 <= i < |ws| && ws[i].id == id;
        assert ws[1..][i - 1].id == id;
      }
    }
  }

  lemma TailUnique(ws: seq<Window>)
    requires ws != [] && UniqueIds(ws)
    ensures UniqueIds(ws[1..]) && !Has(ws[1..], ws[0].id)
  {
    assert forall i, j :: 0 <= i < j < |ws[1..]| ==> ws[1..][i] == ws[i + 1] && ws[1..][j] == ws[j + 1];
    assert forall i :: 0 <= i < |ws[1..]| ==> ws[1..][i] == ws[i + 1] && ws[0].id != ws[i + 1].id;
  }

  lemma HasCons(w: Window, rest: seq<Window>, k: string)
    ensures Has([w] + rest, k) <==> w.id == k || Has(rest, k)
  {
    var s := [w] + rest;
    if Has(rest, k) {
      var i :| 0 <= i < |rest| && rest[i].id == k;
      assert s[i + 1].id == k;
    }
    if w.id == k {
      assert s[0].id == k;
    }
    if Has(s, k) && w.id != k {
      var i :| 0 <= i < |s| && s[i].id == k;
      assert rest[i - 1].id == k;
    }
  }

  lemma {:induction false} HasRemove(ws: seq<Window>, id: string, k: string)
    ensures Has(Remove(ws, id), k) <==> Has(ws, k) && k != id
  {
    if ws != [] {
      HasRemove(ws[1..], id, k);
      assert ws == [ws[0]] + ws[1..] && [] + Remove(ws[1..], id) == Remove(ws[1..], id);
      HasCons(ws[0], ws[1..], k);
      HasCons(ws[0], Remove(ws[1..], id), k);
    }
  }

  /** Under unique ids, removing is removing from the map. */
  lemma {:induction false} RemoveIsMapRemove(ws: seq<Window>, id: string)
    requires UniqueIds(ws)
    ensures AsMap(Remove(ws, id)) == AsMap(ws) - {id} && UniqueIds(Remove(ws, id))
  {
    if ws != [] {
      var rest := Remove(ws[1..], id);
      TailUnique(ws);
      RemoveIsMapRemove(ws[1..], id);
      if ws[0].id != id {
        HasRemove(ws[1..], id, ws[0].id);
        ConsUnique(ws[0], rest);
        assert ([ws[0]] + rest)[1..] == rest;
      } else {
        AsMapKeys(ws[1..], id);
        assert [] + rest == rest;
      }
    }
  }

  lemma ConsUnique(w: Window, rest: seq<Window>)
    requires UniqueIds(rest) && !Has(rest, w.id)
    ensures UniqueIds([w] + rest)
  {
    var s := [w] + rest;
    forall i, j | 0 <= i < j < |s| ensures s[i].id != s[j].id {
      assert s[j] == rest[j - 1];
      assert i > 0 ==> s[i] == rest[i - 1];
    }
  }

  /** Under unique ids, editing the first match is editing the map entry, if there is one. */
  lemma {:induction false} EditIsMapEdit(ws: seq<Window>, id: string, e: Edit)
    requires UniqueIds(ws)
    ensures AsMap(EditFirst(ws, id, e)) == if id in AsMap(ws) then AsMap(ws)[id := Edited(AsMap(ws)[id], e)] else AsMap(ws)
  {
    if ws != [] {
      TailUnique(ws);
      AsMapKeys(ws[1..], ws[0].id);
      if ws[0].id == id {
        assert ([Edited(ws[0], e)] + ws[1..])[1..] == ws[1..];
      } else {
        EditIsMapEdit(ws[1..], id, e);
        var rest := EditFirst(ws[1..], id, e);
        assert ([ws[0]] + rest)[1..] == rest;
      }
    }
  }

  lemma {:induction false} EditFound(ws: seq<Window>, id: string, e: Edit, i: nat)
    requires i < |ws| && ws[i].id == id && forall j :: 0 <= j < i ==> ws[j].id != id
    ensures EditFirst(ws, id, e) == ws[i := Edited(ws[i], e)]
    decreases i
  {
    if i > 0 {
      EditFound(ws[1..], id, e, i - 1);
      assert [ws[0]] + ws[1..][i - 1 := Edited(ws[i], e)] == ws[i := Edited(ws[i], e)];
    }
  }

  lemma {:induction false} EditNone(ws: seq<Window>, id: string, e: Edit)
    requires forall j :: 0 <= j < |ws| ==> ws[j].id != id
    ensures EditFirst(ws, id, e) == ws
  {
    if ws != [] {
      EditNone(ws[1..], id, e);
      assert [ws[0]] + ws[1..] == ws;
    }
  }

  /** An edit keeps the ids and the focus flags of the whole list. */
  lemma {:induction false} EditKeepsShape(ws: seq<Window>, id: string, e: Edit)
    ensures var v := EditFirst(ws, id, e);
            |v| == |ws| && forall i :: 0 <= i < |ws| ==> v[i].id == ws[i].id && v[i].focused == ws[i].focused
  {
    if ws != [] && ws[0].id != id {
      EditKeepsShape(ws[1..], id, e);
    }
  }

  /** Under unique ids, marking focus sets every entry's flag to whether its key is the id. */
  lemma {:induction false} MarkIsMapMark(ws: seq<Window>, id: string)
    requires UniqueIds(ws)
    ensures AsMap(MarkFocused(ws, id)) == map k | k in AsMap(ws) :: AsMap(ws)[k].(focused := k == id)
    ensures UniqueIds(MarkFocused(ws, id)) && OneFocus(MarkFocused(ws, id))
  {
    if ws != [] {
      TailUnique(ws);
      AsMapKeys(ws[1..], ws[0].id);
      MarkIsMapMark(ws[1..], id);
      assert MarkFocused(ws, id)[1..] == MarkFocused(ws[1..], id);
      AsMapIds(ws);
    }
  }

  lemma {:induction false} AsMapIds(ws: seq<Window>)
    ensures forall k :: k in AsMap(ws) ==> AsMap(ws)[k].id == k
  {
    if ws != [] {
      AsMapIds(ws[1..]);
    }
  }

  lemma {:induction false} SnocMap(ws: seq<Window>, w: Window)
    ensures AsMap(ws + [w]) == if Has(ws, w.id) then AsMap(ws) else AsMap(ws)[w.id := w]
  {
    if ws == [] {
      assert ([] + [w])[1..] == [];
    } else {
      SnocMap(ws[1..], w);
      assert (ws + [w])[1..] == ws[1..] + [w] && (ws + [w])[0] == ws[0];
      AsMapKeys(ws, w.id);
      AsMapKeys(ws[1..], w.id);
    }
  }

  lemma SnocUnique(ws: seq<Window>, w: Window)
    requires UniqueIds(ws)
    ensures UniqueIds(ws + [w]) <==> !Has(ws, w.id)
  {
    var v := ws + [w];
    assert v[|ws|] == w && forall i :: 0 <= i < |ws| ==> v[i] == ws[i];
    if Has(ws, w.id) {
      var i :| 0 <= i < |ws| && ws[i].id == w.id;
      assert v[i].id == v[|ws|].id;
    }
  }

  /** Appending a window is adding it to the map; ids stay unique exactly when it was not cached. */
  lemma AddIsMapAdd(ws: seq<Window>, w: Window)
    requires UniqueIds(ws)
    ensures AsMap(ws + [w]) == if Has(ws, w.id) then AsMap(ws) else AsMap(ws)[w.id := w]
    ensures UniqueIds(ws + [w]) <==> !Has(ws, w.id)
  {
    SnocMap(ws, w);
    SnocUnique(ws, w);
  }

  // ---------------------------------------------------------------------
  // Events
  // ---------------------------------------------------------------------

  /** What the compositor answers when the cache is refreshed: None is an error. */
  datatype Dump = Dump(windows: Option<seq<Window>>, active: Option<string>)

  datatype Event =
    | Refresh(dump: Dump)        // created, workspace, moved, monitor, reload, fullscreen, focused monitor and unknown events
    | Closed(id: Option<string>)
    | Focused(address: Option<string>, window: Option<Window>)
    | TitleChanged(target: string, title: Option<string>, window: Option<Window>)
    | FloatingChanged(target: string, floating: bool)
    | Overview

  function Refreshed(ws: seq<Window>, d: Dump): seq<Window> {
    var v := d.windows.GetOr(ws);
    if d.active.Some? && d.active.value != "" then MarkFocused(v, d.active.value) else v
  }

  function AddIfMissing(ws: seq<Window>, w: Option<Window>): seq<Window> {
    if w.Some? && w.value.id != "" && !Has(ws, w.value.id) then ws + [w.value] else ws
  }

  function Handle(ws: seq<Window>, e: Event): seq<Window> {
    match e
    case Refresh(d) => Refreshed(ws, d)
    case Closed(id) => if id.Some? then Remove(ws, id.value) else ws
    case Focused(a, w) => AddIfMissing(if a.Some? then MarkFocused(ws, a.value) else ws, w)
    case TitleChanged(id, t, w) => AddIfMissing(if id != "" && t.Some? then EditFirst(ws, id, Title(t.value)) else ws, w)
    case FloatingChanged(a, f) => EditFirst(ws, a, Floating(f))
    case Overview => ws
  }

  /** What the Hyprland and niri clients send: dumps with unique ids and, unless the active window is known,
      at most one focused window; a focused window comes in a focus event that names its address. */
  predicate WellFormed(e: Event) {
    match e
    case Refresh(d) => d.windows.Some? ==> (UniqueIds(d.windows.value) &&
                         (d.active.None? || d.active.value == "" ==> OneFocus(d.windows.value)))
    case Focused(a, w) => w.Some? && w.value.focused ==> a == Some(w.value.id)
    case TitleChanged(_, _, w) => w.Some? ==> !w.value.focused
    case _ => true
  }

  predicate Sound(ws: seq<Window>) { UniqueIds(ws) && OneFocus(ws) }

  lemma AddIfMissingSound(ws: seq<Window>, w: Option<Window>)
    requires Sound(ws)
    ensures UniqueIds(AddIfMissing(ws, w))
    ensures OneFocus(AddIfMissing(ws, w)) <==>
            !(w.Some? && w.value.id != "" && !Has(ws, w.value.id) && w.value.focused && exists i :: 0 <= i < |ws| && ws[i].focused)
  {
    if w.Some? && w.value.id != "" && !Has(ws, w.value.id) {
      AddIsMapAdd(ws, w.value);
      var v := ws + [w.value];
      if w.value.focused && exists i :: 0 <= i < |ws| && ws[i].focused {
        var i :| 0 <= i < |ws| && ws[i].focused;
        assert v[i].focused && v[|ws|].focused;
      } else {
        forall i, j | 0 <= i < j < |v| ensures !(v[i].focused && v[j].focused) {
          assert v[i] == ws[i];
        }
      }
    }
  }

  lemma {:induction false} RemoveKeepsOneFocus(ws: seq<Window>, id: string)
    requires OneFocus(ws)
    ensures OneFocus(Remove(ws, id)) && ((forall i :: 0 <= i < |ws| ==> !ws[i].focused) ==> forall i :: 0 <= i < |Remove(ws, id)| ==> !Remove(ws, id)[i].focused)
  {
    if ws != [] {
      var t := ws[1..];
      assert forall i :: 0 <= i < |t| ==> t[i] == ws[i + 1];
      RemoveKeepsOneFocus(t, id);
      if ws[0].focused {
        forall i | 0 <= i < |t| ensures !t[i].focused { assert !(ws[0].focused && ws[i + 1].focused); }
      }
    }
  }

  lemma HandleKeepsSound(ws: seq<Window>, e: Event)
    requires Sound(ws) && WellFormed(e)
    ensures Sound(Handle(ws, e))
  {
    match e
    case Refresh(d) =>
      if d.active.Some? && d.active.value != "" { MarkIsMapMark(d.windows.GetOr(ws), d.active.value); }
    case Closed(id) =>
      if id.Some? { RemoveIsMapRemove(ws, id.value); RemoveKeepsOneFocus(ws, id.value); }
    case Focused(a, w) =>
      if a.Some? { MarkIsMapMark(ws, a.value); }
      var v := if a.Some? then MarkFocused(ws, a.value) else ws;
      AddIfMissingSound(v, w);
    case TitleChanged(id, t, w) =>
      if t.Some? { EditKeepsShape(ws, id, Title(t.value)); }
      AddIfMissingSound(if id != "" && t.Some? then EditFirst(ws, id, Title(t.value)) else ws, w);
    case FloatingChanged(a, f) => EditKeepsShape(ws, a, Floating(f));
    case Overview =>
  }

  function Run(ws: seq<Window>, h: seq<Event>): seq<Window>
    decreases |h|
  {
    if h == [] then ws else Handle(Run(ws, h[..|h| - 1]), h[|h| - 1])
  }

  /** Over every run of well-formed events the cached ids are unique and at most one window is focused. */
  lemma {:induction false} RunsStaySound(ws: seq<Window>, h: seq<Event>)
    requires Sound(ws) && forall i :: 0 <= i < |h| ==> WellFormed(h[i])
    ensures Sound(Run(ws, h))
    decreases |h|
  {
    if h != [] {
      RunsStaySound(ws, h[..|h| - 1]);
      HandleKeepsSound(Run(ws, h[..|h| - 1]), h[|h| - 1]);
    }
  }

  // ---------------------------------------------------------------------
  // What each event does to the map
  // ---------------------------------------------------------------------

  /** Under unique ids the map has every window of the list under its id. */
  lemma {:induction false} AsMapAt(ws: seq<Window>, i: nat)
    requires UniqueIds(ws) && i < |ws|
    ensures ws[i].id in AsMap(ws) && AsMap(ws)[ws[i].id] == ws[i]
  {
    if i > 0 {
      TailUnique(ws);
      AsMapAt(ws[1..], i - 1);
      assert ws[0].id != ws[i].id;
    }
  }

  /** A window that is not tracked yet and has an id is added. */
  lemma AddIfMissingMap(ws: seq<Window>, w: Option<Window>)
    requires UniqueIds(ws)
    ensures AsMap(AddIfMissing(ws, w)) ==
            if w.Some? && w.value.id != "" && w.value.id !in AsMap(ws) then AsMap(ws)[w.value.id := w.value] else AsMap(ws)
  {
    if w.Some? {
      AsMapKeys(ws, w.value.id);
      AddIsMapAdd(ws, w.value);
    }
  }

  /** A closed window leaves the cache, every other one stays as it is; an event without an id changes nothing. */
  lemma ClosedLeaves(ws: seq<Window>, id: Option<string>)
    requires UniqueIds(ws)
    ensures AsMap(Handle(ws, Closed(id))) == if id.Some? then AsMap(ws) - {id.value} else AsMap(ws)
  {
    if id.Some? {
      RemoveIsMapRemove(ws, id.value);
    }
  }

  /** A focus event with an address marks exactly the addressed window, if it is cached; then a window that is not
      tracked yet is added. */
  lemma FocusedMarks(ws: seq<Window>, a: Option<string>, w: Option<Window>)
    requires UniqueIds(ws)
    ensures var m := if a.Some? then map k | k in AsMap(ws) :: AsMap(ws)[k].(focused := k == a.value) else AsMap(ws);
            AsMap(Handle(ws, Focused(a, w))) == if w.Some? && w.value.id != "" && w.value.id !in m then m[w.value.id := w.value] else m
  {
    if a.Some? {
      MarkIsMapMark(ws, a.value);
    }
    AddIfMissingMap(if a.Some? then MarkFocused(ws, a.value) else ws, w);
  }

  /** A title event changes the title of the window it names, if it is cached, and nothing else of it; then a window
      that is not tracked yet is added. */
  lemma TitleChanges(ws: seq<Window>, id: string, title: Option<string>, w: Option<Window>)
    requires UniqueIds(ws)
    ensures var m := if id != "" && title.Some? && id in AsMap(ws) then AsMap(ws)[id := AsMap(ws)[id].(title := title.value)] else AsMap(ws);
            AsMap(Handle(ws, TitleChanged(id, title, w))) == if w.Some? && w.value.id != "" && w.value.id !in m then m[w.value.id := w.value] else m
  {
    var v := if id != "" && title.Some? then EditFirst(ws, id, Title(title.value)) else ws;
    if id != "" && title.Some? {
      EditIsMapEdit(ws, id, Title(title.value));
      EditKeepsShape(ws, id, Title(title.value));
    }
    AddIfMissingMap(v, w);
  }

  /** A floating event changes that flag of the window it names, if it is cached, and nothing else. */
  lemma FloatingChanges(ws: seq<Window>, id: string, on: bool)
    requires UniqueIds(ws)
    ensures AsMap(Handle(ws, FloatingChanged(id, on))) ==
            if id in AsMap(ws) then AsMap(ws)[id := AsMap(ws)[id].(floating := on)] else AsMap(ws)
  {
    EditIsMapEdit(ws, id, Floating(on));
  }

  /** A refresh takes over the compositor's windows, if it answers, and marks exactly the active one, if it is known. */
  lemma RefreshTakesOver(ws: seq<Window>, d: Dump)
    requires UniqueIds(ws) && (d.windows.Some? ==> UniqueIds(d.windows.value))
    ensures var m := if d.windows.Some? then AsMap(d.windows.value) else AsMap(ws);
            AsMap(Handle(ws, Refresh(d))) ==
            if d.active.Some? && d.active.value != "" then map k | k in m :: m[k].(focused := k == d.active.value) else m
  {
    if d.active.Some? && d.active.value != "" {
      MarkIsMapMark(d.windows.GetOr(ws), d.active.value);
    }
  }

  lemma OverviewChangesNothing(ws: seq<Window>)
    ensures Handle(ws, Overview) == ws
  {
  }

  /** The targeted changes of one window, field by field; moving it to a monitor adds the monitor to its metadata. */
  lemma EditChanges(w: Window, title: string, ws: string, m: string, on: bool)
    ensures Edited(w, Title(title)) == w.(title := title) && Edited(w, Fullscreen(on)) == w.(fullscreen := on)
    ensures Edited(w, Floating(on)) == w.(floating := on) && Edited(w, Workspace(ws, "")) == w.(workspaceId := ws)
    ensures m != "" ==> var v := Edited(w, Workspace(ws, m));
                        && v == w.(workspaceId := ws, metadata := v.metadata) && v.metadata.Some? && "monitor_id" in v.metadata.value
                        && v.metadata.value["monitor_id"] == m
                        && v.metadata.value - {"monitor_id"} == w.metadata.GetOr(map[]) - {"monitor_id"}
  {
  }

  /** The event brings the window with that id: in a dump, or to be tracked. */
  predicate Announces(e: Event, id: string) {
    match e
    case Refresh(d) => d.windows.Some? && Has(d.windows.value, id)
    case Focused(_, w) => w.Some? && w.value.id == id
    case TitleChanged(_, _, w) => w.Some? && w.value.id == id
    case _ => false
  }

  /** The keys of the cache after an event. */
  lemma HandleKeys(ws: seq<Window>, e: Event, id: string)
    requires Sound(ws) && WellFormed(e)
    ensures id in AsMap(Handle(ws, e)) ==> id in AsMap(ws) || Announces(e, id)
    ensures e == Closed(Some(id)) ==> id !in AsMap(Handle(ws, e))
  {
    match e
    case Refresh(d) =>
      RefreshTakesOver(ws, d);
      if d.windows.Some? { AsMapKeys(d.windows.value, id); }
    case Closed(c) => ClosedLeaves(ws, c);
    case Focused(a, w) => FocusedMarks(ws, a, w);
    case TitleChanged(n, t, w) => TitleChanges(ws, n, t, w);
    case FloatingChanged(a, f) => FloatingChanges(ws, a, f);
    case Overview =>
  }

  /** Over every run: a window that was closed and not announced again since is not in the cache. */
  lemma {:induction false} ClosedStaysAway(ws: seq<Window>, h: seq<Event>, i: nat, id: string)
    requires Sound(ws) && (forall j :: 0 <= j < |h| ==> WellFormed(h[j])) && i < |h| && h[i] == Closed(Some(id))
    requires forall j :: i < j < |h| ==> !Announces(h[j], id)
    ensures !Has(Run(ws, h), id)
    decreases |h|
  {
    var n := |h| - 1;
    RunsStaySound(ws, h[..n]);
    HandleKeys(Run(ws, h[..n]), h[n], id);
    AsMapKeys(Run(ws, h), id);
    if i < n {
      ClosedStaysAway(ws, h[..n], i, id);
      AsMapKeys(Run(ws, h[..n]), id);
    }
  }

  /** A focus event, however formed, keeps ids unique; it keeps at most one window focused exactly unless it
      adds a focused window while another one is still marked. */
  lemma FocusEventSoundIff(ws: seq<Window>, a: Option<string>, w: Option<Window>)
    requires Sound(ws)
    ensures var v := if a.Some? then MarkFocused(ws, a.value) else ws;
            Sound(Handle(ws, Focused(a, w))) <==>
            !(w.Some? && w.value.id != "" && !Has(v, w.value.id) && w.value.focused && exists i :: 0 <= i < |v| && v[i].focused)
  {
    if a.Some? { MarkIsMapMark(ws, a.value); }
    AddIfMissingSound(if a.Some? then MarkFocused(ws, a.value) else ws, w);
  }

  /** A focus event without an address, as Mango sends it, leaves two windows focused. */
  lemma AddresslessFocusBreaksCache(ws: seq<Window>, w: Window)
    requires Sound(ws) && |ws| == 1 && ws[0].focused && w.focused && w.id != "" && w.id != ws[0].id
    ensures Handle(ws, Focused(None, Some(w))) == ws + [w] && !Sound(ws + [w])
  {
    FocusEventSoundIff(ws, None, Some(w));
    assert ws[0].focused;
  }

  // ---------------------------------------------------------------------
  // The cache as the source runs it
  // ---------------------------------------------------------------------

  class StateCache {
    var windows: seq<Window>

    constructor ()
      ensures windows == []
    {
      windows := [];
    }

    method AddWindow(w: Window)
      modifies this
      ensures windows == old(windows) + [w]
    {
      windows := windows + [w];
    }

    method RemoveWindow(id: string)
      modifies this
      ensures windows == Remove(old(windows), id)
    {
      var kept: seq<Window> := [];
      for i := 0 to |windows|
        invariant windows == old(windows) && kept + Remove(windows[i..], id) == Remove(windows, id)
      {
        assert windows[i..][1..] == windows[i + 1..];
        if windows[i].id != id {
          kept := kept + [windows[i]];
        }
      }
      windows := kept;
    }

    /** The common loop of the targeted updates: the first match is changed in place, then the loop stops. */
    method UpdateWindow(id: string, e: Edit)
      modifies this
      ensures windows == EditFirst(old(windows), id, e)
    {
      for i := 0 to |windows|
        invariant windows == old(windows) && forall j :: 0 <= j < i ==> windows[j].id != id
      {
        if windows[i].id == id {
          EditFound(windows, id, e, i);
          windows := windows[i := Edited(windows[i], e)];
          return;
        }
      }
      EditNone(windows, id, e);
    }

    method MarkWindowFocused(id: string)
      modifies this
      ensures windows == MarkFocused(old(windows), id)
    {
      for i := 0 to |windows|
        invariant |windows| == |old(windows)|
        invariant forall j :: 0 <= j < i ==> windows[j] == MarkFocused(old(windows), id)[j]
        invariant forall j :: i <= j < |windows| ==> windows[j] == old(windows)[j]
      {
        windows := windows[i := windows[i].(focused := windows[i].id == id)];
      }
    }

    method Contains(id: string) returns (found: bool)
      ensures found <==> Has(windows, id)
    {
      found := false;
      for i := 0 to |windows|
        invariant !found && forall j :: 0 <= j < i ==> windows[j].id != id
      {
        if windows[i].id == id {
          return true;
        }
      }
    }

    method InitCache(d: Dump)
      modifies this
      ensures windows == Refreshed(old(windows), d)
    {
      if d.windows.Some? {
        windows := d.windows.value;
      }
      if d.active.Some? && d.active.value != "" {
        MarkWindowFocused(d.active.value);
      }
    }

    method HandleEvent(e: Event)
      modifies this
      ensures windows == Handle(old(windows), e)
    {
      match e {
        case Refresh(d) => InitCache(d);
        case Closed(id) =>
          if id.Some? { RemoveWindow(id.value); }
        case Focused(a, w) =>
          if a.Some? { MarkWindowFocused(a.value); }
          TrackWindow(w);
        case TitleChanged(id, t, w) =>
          if id != "" && t.Some? { UpdateWindow(id, Title(t.value)); }
          TrackWindow(w);
        case FloatingChanged(a, f) => UpdateWindow(a, Floating(f));
        case Overview =>
      }
    }

    method TrackWindow(w: Option<Window>)
      modifies this
      ensures windows == AddIfMissing(old(windows), w)
    {
      if w.Some? && w.value.id != "" {
        var found := Contains(w.value.id);
        if !found {
          AddWindow(w.value);
        }
      }
    }
  }
}

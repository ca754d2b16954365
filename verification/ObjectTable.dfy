/** The client's object table on one Wayland connection: id allocation, destruction, delete_id and dispatch. */
module ObjectTable {
  import opened Prelude

  const ID_SPACE: nat := 0x1_0000_0000

  /** A proxy object, identified apart from its protocol id. */
  type Handle = nat

  datatype Proxy = Proxy(id: nat, zombie: bool)

  /** A message whose sender was looked up and found alive, and whose handler is about to run. */
  datatype Delivery = Delivery(sender: nat, proxy: Handle)

  /** objects: the table. proxies: every proxy ever registered. numbered: those that Register numbered, in
      order. destroyed: those whose Destroy was called. pending: what each dispatching goroutine is about to
      hand over. handled: which proxy's handler ran for which sender id. */
  datatype Table = Table(currentID: nat, objects: map<nat, Handle>, proxies: map<Handle, Proxy>, numbered: seq<Handle>,
                         destroyed: set<Handle>, pending: map<Worker, Delivery>, handled: seq<Delivery>)

  const EMPTY := Table(0, map[], map[], [], {}, map[], [])

  /** A goroutine that dispatches messages. */
  type Worker = nat

  datatype Action =
    | Register(handle: Handle)
    | RegisterWithID(handle: Handle, id: nat)
    | MarkZombie(handle: Handle)          // Destroy of the core objects
    | Unregister(handle: Handle)          // Destroy of the extension objects
    | DeleteID(id: nat)
    | Look(worker: Worker, sender: nat)   // a message arrives: its sender is looked up and tested for being a zombie
    | Handle(worker: Worker)              // the handler found by the look-up runs

  /** Registering needs a proxy that is not registered yet, destroying one that is; a goroutine handles what it
      looked up before it looks anything else up. */
  predicate Possible(t: Table, a: Action) {
    match a
    case Register(h) => h !in t.proxies
    case RegisterWithID(h, id) => h !in t.proxies && id < ID_SPACE
    case MarkZombie(h) => h in t.proxies
    case Unregister(h) => h in t.proxies
    case DeleteID(_) => true
    case Look(w, _) => w !in t.pending
    case Handle(w) => w in t.pending
  }

  predicate Delivers(t: Table, sender: nat) {
    sender in t.objects && t.objects[sender] in t.proxies && !t.proxies[t.objects[sender]].zombie
  }

  function Step(t: Table, a: Action): Table
    requires Possible(t, a)
  {
    match a
    case Register(h) =>
      var id := (t.currentID + 1) % ID_SPACE;
      t.(currentID := id, objects := t.objects[id := h], proxies := t.proxies[h := Proxy(id, false)], numbered := t.numbered + [h])
    case RegisterWithID(h, id) => t.(objects := t.objects[id := h], proxies := t.proxies[h := Proxy(id, false)])
    case MarkZombie(h) => t.(proxies := t.proxies[h := t.proxies[h].(zombie := true)], destroyed := t.destroyed + {h})
    case Unregister(h) => t.(objects := t.objects - {t.proxies[h].id}, destroyed := t.destroyed + {h})
    case DeleteID(id) => t.(objects := t.objects - {id})
    case Look(w, s) => if Delivers(t, s) then t.(pending := t.pending[w := Delivery(s, t.objects[s])]) else t
    case Handle(w) => t.(pending := t.pending - {w}, handled := t.handled + [t.pending[w]])
  }

  // ---------------------------------------------------------------------
  // Invariant
  // ---------------------------------------------------------------------

  /** A destroyed proxy is a zombie or has left the table for good. */
  predicate Silenced(t: Table, h: Handle) {
    h in t.proxies && (t.proxies[h].zombie || t.proxies[h].id !in t.objects || t.objects[t.proxies[h].id] != h)
  }

  ghost predicate Inv(t: Table) {
    && t.currentID == |t.numbered| % ID_SPACE
    && (forall id :: id in t.objects ==> t.objects[id] in t.proxies && t.proxies[t.objects[id]].id == id)
    && (forall h :: h in t.destroyed ==> Silenced(t, h))
    && (forall i :: 0 <= i < |t.numbered| ==> t.numbered[i] in t.proxies && t.proxies[t.numbered[i]].id == (i + 1) % ID_SPACE)
    && NoDup(t.numbered)
    && (forall w :: w in t.pending ==> t.pending[w].proxy in t.proxies && t.proxies[t.pending[w].proxy].id == t.pending[w].sender)
  }

  lemma NextId(n: nat)
    ensures (n % ID_SPACE + 1) % ID_SPACE == (n + 1) % ID_SPACE
  {
  }

  lemma RegisterKeepsInv(t: Table, h: Handle)
    requires Inv(t) && h !in t.proxies
    ensures Inv(Step(t, Register(h)))
  {
    NextId(|t.numbered|);
    var u := Step(t, Register(h));
    forall g | g in u.destroyed ensures Silenced(u, g) {
      assert Silenced(t, g);
    }
    NoDupConcat(t.numbered, [h]);
  }

  lemma StepKeepsInv(t: Table, a: Action)
    requires Inv(t) && Possible(t, a)
    ensures Inv(Step(t, a))
  {
    var u := Step(t, a);
    if a.Register? {
      RegisterKeepsInv(t, a.handle);
    } else {
      forall g | g in u.destroyed ensures Silenced(u, g) {
        assert g in t.destroyed ==> Silenced(t, g);
      }
    }
  }

  // ---------------------------------------------------------------------
  // Runs
  // ---------------------------------------------------------------------

  ghost function Run(h: seq<Action>): Option<Table>
    decreases |h|
  {
    if h == [] then Some(EMPTY)
    else
      var t := Run(h[..|h| - 1]);
      if t.Some? && Possible(t.value, h[|h| - 1]) then Some(Step(t.value, h[|h| - 1])) else None
  }

  lemma {:induction false} RunKeepsInv(h: seq<Action>)
    requires Run(h).Some?
    ensures Inv(Run(h).value)
    decreases |h|
  {
    if h != [] {
      RunKeepsInv(h[..|h| - 1]);
      StepKeepsInv(Run(h[..|h| - 1]).value, h[|h| - 1]);
    }
  }

  /** The ids that Register gave out in a run are pairwise different exactly while there were at most 2^32
      registrations. */
  lemma IdsDistinctIff(h: seq<Action>)
    requires Run(h).Some?
    ensures var t := Run(h).value;
            && (forall i :: 0 <= i < |t.numbered| ==> t.numbered[i] in t.proxies)
            && ((forall i, j :: 0 <= i < j < |t.numbered| ==> t.proxies[t.numbered[i]].id != t.proxies[t.numbered[j]].id)
                <==> |t.numbered| <= 0x1_0000_0000)
  {
    RunKeepsInv(h);
    NumbersDistinct(Run(h).value);
  }

  lemma NumbersDistinct(t: Table)
    requires Inv(t)
    ensures (forall i, j :: 0 <= i < j < |t.numbered| ==> t.proxies[t.numbered[i]].id != t.proxies[t.numbered[j]].id)
            <==> |t.numbered| <= ID_SPACE
  {
    if |t.numbered| > ID_SPACE {
      assert t.proxies[t.numbered[0]].id == 1 % ID_SPACE;
      assert t.proxies[t.numbered[ID_SPACE]].id == (ID_SPACE + 1) % ID_SPACE;
    }
  }

  /** A look-up that succeeds finds the proxy registered under the sender's id, and that proxy has not been
      destroyed, whether or not some delete_id has arrived. */
  lemma LookFindsLiveOwner(h: seq<Action>, sender: nat)
    requires Run(h).Some? && Delivers(Run(h).value, sender)
    ensures var t := Run(h).value; var p := t.objects[sender];
            p in t.proxies && t.proxies[p].id == sender && p !in t.destroyed
  {
    RunKeepsInv(h);
    var t := Run(h).value;
    assert t.objects[sender] in t.destroyed ==> Silenced(t, t.objects[sender]);
  }

  // ---------------------------------------------------------------------
  // Exactly who can be found
  // ---------------------------------------------------------------------

  /** The action registers a proxy under this id. */
  predicate Numbers(t: Table, a: Action, id: nat) {
    (a.Register? && (t.currentID + 1) % ID_SPACE == id) || (a.RegisterWithID? && a.id == id)
  }

  /** The action ends p's time under this id: the id is given to another proxy, deleted, or unregistered, or p becomes
      a zombie. */
  predicate Ends(t: Table, a: Action, id: nat, p: Handle) {
    || Numbers(t, a, id) || a == DeleteID(id) || a == MarkZombie(p)
    || (a.Unregister? && a.handle in t.proxies && t.proxies[a.handle].id == id)
  }

  /** The j-th action leaves p under this id. */
  ghost predicate Spares(h: seq<Action>, j: int, id: nat, p: Handle) {
    0 <= j < |h| && Run(h[..j]).Some? && !Ends(Run(h[..j]).value, h[j], id, p)
  }

  ghost predicate NumbersAt(h: seq<Action>, i: int, id: nat) {
    0 <= i < |h| && Run(h[..i]).Some? && Numbers(Run(h[..i]).value, h[i], id)
  }

  /** The i-th action registered a proxy under this id, and nothing has ended its time since. */
  ghost predicate HoldsSince(h: seq<Action>, i: int, id: nat) {
    NumbersAt(h, i, id) && forall j :: i < j < |h| ==> Spares(h, j, id, h[i].handle)
  }

  lemma DeliversStep(t: Table, a: Action, id: nat)
    requires Inv(t) && Possible(t, a)
    ensures var u := Step(t, a);
            && (Delivers(u, id) <==> Numbers(t, a, id) || (Delivers(t, id) && !Ends(t, a, id, t.objects[id])))
            && (Numbers(t, a, id) ==> u.objects[id] == a.handle)
            && (!Numbers(t, a, id) && Delivers(u, id) ==> u.objects[id] == t.objects[id])
  {
  }

  lemma PrefixOfPrefix(h: seq<Action>, i: int, n: int)
    requires 0 <= i <= n <= |h|
    ensures h[..n][..i] == h[..i] && (i < n ==> h[..n][i] == h[i])
  {
  }

  lemma SparesBefore(h: seq<Action>, j: int, n: int, id: nat, p: Handle)
    requires 0 <= j < n <= |h|
    ensures Spares(h[..n], j, id, p) <==> Spares(h, j, id, p)
    ensures NumbersAt(h[..n], j, id) <==> NumbersAt(h, j, id)
  {
    PrefixOfPrefix(h, j, n);
  }

  lemma HoldsStep(h: seq<Action>, i: int, id: nat)
    requires h != [] && Run(h[..|h| - 1]).Some? && 0 <= i < |h| - 1
    ensures var n := |h| - 1;
            HoldsSince(h, i, id) <==> HoldsSince(h[..n], i, id) && !Ends(Run(h[..n]).value, h[n], id, h[i].handle)
  {
    var n := |h| - 1;
    PrefixOfPrefix(h, i, n);
    SparesBefore(h, i, n, id, 0);
    if NumbersAt(h, i, id) {
      var p := h[i].handle;
      forall j | i < j < n ensures Spares(h[..n], j, id, p) <==> Spares(h, j, id, p) {
        SparesBefore(h, j, n, id, p);
      }
      assert Spares(h, n, id, p) <==> !Ends(Run(h[..n]).value, h[n], id, p);
    }
  }

  lemma HolderStays(t: Table, a: Action, id: nat, p: Handle)
    requires Inv(t) && Possible(t, a)
    requires (Numbers(t, a, id) && a.handle == p) || (Delivers(t, id) && t.objects[id] == p && !Ends(t, a, id, p))
    ensures Delivers(Step(t, a), id) && Step(t, a).objects[id] == p
  {
    DeliversStep(t, a, id);
  }

  lemma RunStep(h: seq<Action>)
    requires h != [] && Run(h).Some?
    ensures var n := |h| - 1;
            && Run(h[..n]).Some? && Inv(Run(h[..n]).value) && Possible(Run(h[..n]).value, h[n])
            && Run(h) == Some(Step(Run(h[..n]).value, h[n]))
  {
    RunKeepsInv(h[..|h| - 1]);
  }

  /** How a hold looks one action earlier. */
  lemma HoldBefore(h: seq<Action>, i: int, id: nat)
    requires h != [] && Run(h[..|h| - 1]).Some? && HoldsSince(h, i, id)
    ensures var n := |h| - 1;
            0 <= i <= n && if i == n then Numbers(Run(h[..n]).value, h[n], id)
                           else HoldsSince(h[..n], i, id) && h[..n][i] == h[i] && !Ends(Run(h[..n]).value, h[n], id, h[i].handle)
  {
    if i < |h| - 1 {
      HoldsStep(h, i, id);
    }
  }

  /** p is who a message to id finds. */
  predicate Finds(t: Table, id: nat, p: Handle) { Delivers(t, id) && t.objects[id] == p }

  lemma {:induction false} HolderDelivers(h: seq<Action>, i: int, id: nat, p: Handle)
    requires Run(h).Some? && HoldsSince(h, i, id) && h[i].handle == p
    ensures Finds(Run(h).value, id, p)
    decreases |h|
  {
    var n := |h| - 1;
    RunStep(h);
    HoldBefore(h, i, id);
    if i < n {
      HolderDelivers(h[..n], i, id, p);
    }
    HolderStays(Run(h[..n]).value, h[n], id, p);
  }

  lemma {:induction false} HolderIsFound(h: seq<Action>, id: nat) returns (i: int)
    requires Run(h).Some? && Delivers(Run(h).value, id)
    ensures HoldsSince(h, i, id)
    decreases |h|
  {
    var n := |h| - 1;
    assert h != [];
    RunStep(h);
    var t := Run(h[..n]).value;
    DeliversStep(t, h[n], id);
    if Numbers(t, h[n], id) {
      i := n;
    } else {
      i := HolderIsFound(h[..n], id);
      HolderDelivers(h[..n], i, id, h[..n][i].handle);
      HoldsStep(h, i, id);
    }
  }

  /** In every run, a message to an id finds a proxy exactly when some proxy was registered under the id and since then
      the id was neither given away nor deleted nor unregistered and that proxy has not become a zombie. */
  lemma DeliversIff(h: seq<Action>, id: nat)
    requires Run(h).Some?
    ensures Delivers(Run(h).value, id) <==> exists i :: HoldsSince(h, i, id)
  {
    if Delivers(Run(h).value, id) {
      var i := HolderIsFound(h, id);
    }
    if i :| HoldsSince(h, i, id) {
      HolderDelivers(h, i, id, h[i].handle);
    }
  }

  predicate Destroys(a: Action, p: Handle) { a == MarkZombie(p) || a == Unregister(p) }

  /** h[i] is the look-up whose delivery the worker still has in hand. */
  ghost predicate LookedUpAt(h: seq<Action>, w: Worker, i: int) {
    && 0 <= i < |h| && h[i].Look? && h[i].worker == w && Run(h[..i]).Some?
    && Delivers(Run(h[..i]).value, h[i].sender)
    && Run(h).Some? && w in Run(h).value.pending
    && Run(h).value.pending[w] == Delivery(h[i].sender, Run(h[..i]).value.objects[h[i].sender])
  }

  lemma RunPrefix(h: seq<Action>)
    requires h != [] && Run(h).Some?
    ensures var t := Run(h[..|h| - 1]);
            t.Some? && Possible(t.value, h[|h| - 1]) && Run(h) == Some(Step(t.value, h[|h| - 1]))
  {
  }

  /** Every delivery in hand comes from a look-up of the same goroutine, which came before the handler will. */
  lemma {:induction false} PendingWasLookedUp(h: seq<Action>, w: Worker) returns (i: int)
    requires Run(h).Some? && w in Run(h).value.pending
    ensures LookedUpAt(h, w, i)
    decreases |h|
  {
    if h == [] {
      assert false;
    }
    RunPrefix(h);
    var g, a := h[..|h| - 1], h[|h| - 1];
    if a.Look? && a.worker == w {
      i := |h| - 1;
    } else {
      i := PendingWasLookedUp(g, w);
      assert h[..i] == g[..i];
    }
  }

  /** p is destroyed after h exactly if it was after the first k actions or one of the later ones destroys it. */
  lemma {:induction false} DestroyedWhen(h: seq<Action>, k: nat, p: Handle)
    requires Run(h).Some? && k <= |h|
    ensures Run(h[..k]).Some?
    ensures p in Run(h).value.destroyed <==> p in Run(h[..k]).value.destroyed || exists j :: k <= j < |h| && Destroys(h[j], p)
    decreases |h|
  {
    if k == |h| {
      assert h[..k] == h;
    } else {
      var g, a := h[..|h| - 1], h[|h| - 1];
      RunPrefix(h);
      DestroyedWhen(g, k, p);
      assert g[..k] == h[..k];
      assert p in Run(h).value.destroyed <==> p in Run(g).value.destroyed || Destroys(a, p);
      assert forall j :: 0 <= j < |g| ==> g[j] == h[j];
    }
  }

  /** A handler is about to run for a proxy that has been destroyed exactly when the destruction came between the
      look-up and the handler. */
  lemma HandledAfterDestroyIff(h: seq<Action>, w: Worker, i: int)
    requires Run(h).Some? && w in Run(h).value.pending && LookedUpAt(h, w, i)
    ensures var p := Run(h).value.pending[w].proxy;
            p in Run(h).value.destroyed <==> exists j :: i < j < |h| && Destroys(h[j], p)
  {
    var p := Run(h).value.pending[w].proxy;
    DestroyedWhen(h, i, p);
    LookFindsLiveOwner(h[..i], h[i].sender);
    assert !Destroys(h[i], p);
  }

  predicate InHand(t: Table, p: Handle) { exists w :: w in t.pending && t.pending[w].proxy == p }

  /** The handlers that ran since t never were p's. */
  predicate NotHandledSince(t: Table, u: Table, p: Handle) {
    |t.handled| <= |u.handled| && forall i :: |t.handled| <= i < |u.handled| ==> u.handled[i].proxy != p
  }

  /** Once a proxy is destroyed and no delivery to it is in hand, its handler never runs again, in any
      continuation, before or after delete_id. */
  lemma {:induction false} DestroyedNeverHandles(h: seq<Action>, more: seq<Action>, p: Handle)
    requires Run(h).Some? && Run(h + more).Some? && p in Run(h).value.destroyed && !InHand(Run(h).value, p)
    ensures var t, u := Run(h).value, Run(h + more).value;
            p in u.destroyed && !InHand(u, p) && NotHandledSince(t, u, p)
    decreases |more|
  {
    if more == [] {
      assert h + more == h;
    } else {
      var init, a := more[..|more| - 1], more[|more| - 1];
      assert (h + more)[..|h + more| - 1] == h + init && (h + more)[|h + more| - 1] == a;
      RunPrefix(h + more);
      DestroyedNeverHandles(h, init, p);
      RunKeepsInv(h + init);
      var u := Run(h + init).value;
      assert Silenced(u, p);
      StaysOutOfHand(u, a, p);
    }
  }

  lemma StaysOutOfHand(u: Table, a: Action, p: Handle)
    requires Possible(u, a) && Inv(u) && Silenced(u, p) && p in u.destroyed && !InHand(u, p)
    ensures var v := Step(u, a);
            p in v.destroyed && !InHand(v, p) && |u.handled| <= |v.handled| && v.handled[..|u.handled|] == u.handled
            && forall i :: |u.handled| <= i < |v.handled| ==> v.handled[i].proxy != p
  {
    var v := Step(u, a);
    forall w | w in v.pending ensures v.pending[w].proxy != p {
      if w in u.pending {
        assert u.pending[w].proxy != p;
      }
    }
  }

  /** The handler of a destroyed proxy can still run exactly when some goroutine has a delivery to it in hand. */
  lemma HandlesAgainIff(h: seq<Action>, p: Handle)
    requires Run(h).Some? && p in Run(h).value.destroyed
    ensures InHand(Run(h).value, p)
            <==> exists more :: Run(h + more).Some? && !NotHandledSince(Run(h).value, Run(h + more).value, p)
  {
    var t := Run(h).value;
    if w :| w in t.pending && t.pending[w].proxy == p {
      assert (h + [Handle(w)])[..|h|] == h;
      var u := Run(h + [Handle(w)]).value;
      assert u.handled[|t.handled|].proxy == p;
    } else {
      forall more | Run(h + more).Some? ensures NotHandledSince(t, Run(h + more).value, p) {
        DestroyedNeverHandles(h, more, p);
      }
    }
  }

  /** The zombie test does not stop it: here a proxy is destroyed and then handles the message looked up before. */
  lemma DestroyedProxyHandles()
    ensures var h := [Register(7), Look(0, 1), MarkZombie(7)];
            && Run(h).Some? && 7 in Run(h).value.destroyed && Run(h + [Handle(0)]).Some?
            && Run(h + [Handle(0)]).value.handled == [Delivery(1, 7)]
  {
    var h := [Register(7), Look(0, 1), MarkZombie(7)];
    assert h[..1] == [h[0]] && h[..1][..0] == [] && h[..2][..1] == h[..1] && h[..3][..2] == h[..2] && h[..3] == h;
    var a := Step(EMPTY, h[0]);
    assert Run(h[..1]) == Some(a);
    var b := Step(a, h[1]);
    assert Run(h[..2]) == Some(b);
    var c := Step(b, h[2]);
    assert Run(h) == Some(c);
    assert (h + [Handle(0)])[..3] == h;
  }

  /** The proxy registered last shares its id with no earlier one, up to 2^32 registrations. */
  lemma FreshId(h: seq<Action>, p: Handle)
    requires Run(h).Some? && Run(h).value.numbered != [] && |Run(h).value.numbered| <= ID_SPACE
    requires Run(h).value.numbered[|Run(h).value.numbered| - 1] == p
    ensures var t := Run(h).value;
            p in t.proxies && forall i :: 0 <= i < |t.numbered| - 1 ==> t.numbered[i] in t.proxies && t.proxies[t.numbered[i]].id != t.proxies[p].id
  {
    IdsDistinctIff(h);
  }

  // ---------------------------------------------------------------------
  // The context as the source runs it
  // ---------------------------------------------------------------------

  class Context {
    var currentID: nat
    var objects: map<nat, Handle>
    var proxies: map<Handle, Proxy>
    ghost var numbered: seq<Handle>
    ghost var destroyed: set<Handle>
    ghost var pending: map<Worker, Delivery>
    ghost var handled: seq<Delivery>
    /** Every action so far. */
    ghost var log: seq<Action>

    ghost function State(): Table
      reads this
    {
      Table(currentID, objects, proxies, numbered, destroyed, pending, handled)
    }

    /** The context is where a run of the state machine got to. */
    ghost predicate Valid()
      reads this
    {
      Run(log) == Some(State())
    }

    constructor ()
      ensures Valid() && log == []
    {
      currentID, objects, proxies := 0, map[], map[];
      numbered, destroyed, pending, handled, log := [], {}, map[], [], [];
    }

    /** Logs the action that has just taken t to the current state. */
    ghost method Log(t: Table, a: Action)
      requires Run(log) == Some(t) && Possible(t, a) && Step(t, a) == State()
      modifies this`log
      ensures log == old(log) + [a] && Valid()
    {
      assert (log + [a])[..|log|] == log;
      log := log + [a];
    }

    /** Allocates the next id: no live proxy that Register numbered has it, up to 2^32 registrations. */
    method Register(p: Handle)
      requires Valid() && p !in proxies
      modifies this
      ensures Valid() && log == old(log) + [Action.Register(p)]
      ensures p in proxies && !proxies[p].zombie && proxies[p].id in objects && objects[proxies[p].id] == p
      ensures |numbered| <= ID_SPACE ==>
                forall i :: 0 <= i < |old(numbered)| ==> old(numbered)[i] in proxies && proxies[old(numbered)[i]].id != proxies[p].id
    {
      ghost var t := State();
      currentID := (currentID + 1) % ID_SPACE;
      var id := currentID;
      proxies := proxies[p := Proxy(id, false)];
      objects := objects[id := p];
      numbered := numbered + [p];
      Log(t, Action.Register(p));
      if |numbered| <= ID_SPACE {
        FreshId(log, p);
        assert forall i :: 0 <= i < |old(numbered)| ==> numbered[i] == old(numbered)[i];
      }
    }

    method RegisterWithID(p: Handle, id: nat)
      requires Valid() && p !in proxies && id < ID_SPACE
      modifies this
      ensures Valid() && log == old(log) + [Action.RegisterWithID(p, id)]
    {
      ghost var t := State();
      proxies := proxies[p := Proxy(id, false)];
      objects := objects[id := p];
      Log(t, Action.RegisterWithID(p, id));
    }

    /** After a destruction of either kind no look-up finds the proxy. */
    method MarkZombie(p: Handle)
      requires Valid() && p in proxies
      modifies this
      ensures Valid() && log == old(log) + [Action.MarkZombie(p)]
      ensures forall s :: Delivers(State(), s) ==> objects[s] != p
    {
      ghost var t := State();
      proxies := proxies[p := proxies[p].(zombie := true)];
      destroyed := destroyed + {p};
      Log(t, Action.MarkZombie(p));
    }

    method Unregister(p: Handle)
      requires Valid() && p in proxies
      modifies this
      ensures Valid() && log == old(log) + [Action.Unregister(p)]
      ensures forall s :: Delivers(State(), s) ==> objects[s] != p
    {
      ghost var t := State();
      RunKeepsInv(log);
      objects := objects - {proxies[p].id};
      destroyed := destroyed + {p};
      forall s | Delivers(State(), s) ensures objects[s] != p {
        assert t.proxies[t.objects[s]].id == s;
      }
      Log(t, Action.Unregister(p));
    }

    /** delete_id: no later message with that sender id is delivered until the id is registered again. */
    method DeleteID(id: nat)
      requires Valid()
      modifies this
      ensures Valid() && log == old(log) + [Action.DeleteID(id)]
      ensures !Delivers(State(), id) && forall s :: s != id ==> (Delivers(State(), s) <==> Delivers(old(State()), s))
    {
      ghost var t := State();
      objects := objects - {id};
      Log(t, Action.DeleteID(id));
    }

    /** The look-up and the zombie test for one message: unknown senders and zombies are silently dropped. */
    method LookUp(ghost w: Worker, sender: nat) returns (found: Option<Handle>)
      requires Valid() && w !in pending
      modifies this`pending, this`log
      ensures Valid() && log == old(log) + [Look(w, sender)]
      ensures found.Some? <==> w in pending
      ensures found.Some? ==> pending[w] == Delivery(sender, found.value) && found.value !in destroyed
                              && found.value in proxies && proxies[found.value].id == sender
      ensures found.Some? <==> Delivers(State(), sender)
    {
      ghost var t := State();
      RunKeepsInv(log);
      if sender !in objects {
        Log(t, Look(w, sender));
        return None;
      }
      var proxy := objects[sender];
      if proxies[proxy].zombie {
        Log(t, Look(w, sender));
        return None;
      }
      LookFindsLiveOwner(log, sender);
      pending := pending[w := Delivery(sender, proxy)];
      Log(t, Look(w, sender));
      found := Some(proxy);
    }

    /** The handler found by the look-up runs. */
    ghost method RunHandler(w: Worker)
      requires Valid() && w in pending
      modifies this`pending, this`handled, this`log
      ensures Valid() && log == old(log) + [Handle(w)] && handled == old(handled) + [old(pending)[w]] && pending == old(pending) - {w}
    {
      var t := State();
      handled := handled + [pending[w]];
      pending := pending - {w};
      Log(t, Handle(w));
    }

    /** The dispatch of one message that nothing interrupts: only a proxy that is not destroyed handles it. */
    method Dispatch(ghost w: Worker, sender: nat) returns (ran: Option<Handle>)
      requires Valid() && w !in pending
      modifies this`pending, this`handled, this`log
      ensures Valid() && pending == old(pending)
      ensures ran.Some? ==> ran.value !in destroyed && ran.value in proxies && proxies[ran.value].id == sender
                            && handled == old(handled) + [Delivery(sender, ran.value)]
      ensures ran.None? ==> handled == old(handled)
    {
      ran := LookUp(w, sender);
      if ran.Some? {
        RunHandler(w);
      }
    }
  }
}

/** Idle inhibitors and the Wayland objects they own, over every schedule of failing requests,
    configure timeouts and one reconnect-and-retry. */
module IdleInhibitors {
  import opened Prelude

  /** A client-side handle: a Wayland object or a file descriptor. Handles are numbered in creation order. */
  type Handle = nat

  const ID_SPACE: nat := 0x1_0000_0000

  /** The surface an inhibitor is attached to, and what maps it as a visible layer surface. */
  datatype Parts = Parts(surface: Option<Handle>, layerSurf: Option<Handle>, region: Option<Handle>,
                         pool: Option<Handle>, buffer: Option<Handle>)

  const NO_PARTS := Parts(None, None, None, None, None)

  datatype Inhibitor = Inhibitor(enabled: bool, inhibitor: Option<Handle>, parts: Parts)

  datatype InhibitError = NotSupported | RequestFailed | BrokenPipe | ReconnectFailed | NotFound

  // ---------------------------------------------------------------------
  // What comes from outside
  // ---------------------------------------------------------------------

  /** How the request for the inhibitor object ends. */
  datatype Answer = Granted | Broken | Refused

  /** What happens to the requests of one attempt, in their order, and whether the configure event arrives in time.
      Whether the request for the surface itself could be sent is not looked at. */
  datatype Answers = Answers(layerSurface: bool, sized: bool, anchored: bool, zoned: bool, region: bool, memfd: bool,
                             truncated: bool, pool: bool, buffer: bool, committed: bool, configured: bool, inhibitor: Answer)

  /** Which of the globals a connection offers. */
  datatype Globals = Globals(compositor: bool, inhibitorMgr: bool, layerShell: bool, shm: bool)

  /** The first attempt, the reconnect and what it finds, and the second attempt. */
  datatype Schedule = Schedule(first: Answers, reconnected: bool, globals: Globals, second: Answers)

  predicate Supported(g: Globals) { g.compositor && g.inhibitorMgr }

  /** The surface can be mapped: everything but the input region is needed. */
  predicate Maps(a: Answers) {
    a.layerSurface && a.sized && a.anchored && a.zoned && a.memfd && a.truncated && a.pool && a.buffer && a.committed && a.configured
  }

  /** The second attempt is made. */
  predicate Retries(g: Globals, s: Schedule) { Supported(g) && s.first.inhibitor == Broken && s.reconnected }

  /** Enabling succeeds. */
  predicate Grants(g: Globals, s: Schedule) {
    if Retries(g, s) then Supported(s.globals) && s.second.inhibitor == Granted else Supported(g) && s.first.inhibitor == Granted
  }

  /** Why it does not. */
  function Cause(g: Globals, s: Schedule): InhibitError {
    if !Supported(g) then NotSupported
    else if s.first.inhibitor != Broken then RequestFailed
    else if !s.reconnected then ReconnectFailed
    else if !Supported(s.globals) then NotSupported
    else if s.second.inhibitor == Broken then BrokenPipe
    else RequestFailed
  }

  function SetOfOption(o: Option<Handle>): set<Handle> { if o.Some? then {o.value} else {} }

  function PartsHeld(p: Parts): set<Handle> {
    SetOfOption(p.surface) + SetOfOption(p.layerSurf) + SetOfOption(p.region) + SetOfOption(p.pool) + SetOfOption(p.buffer)
  }

  /** Everything an inhibitor holds a reference to. */
  function Held(i: Inhibitor): set<Handle> { SetOfOption(i.inhibitor) + PartsHeld(i.parts) }

  /** Created one after the other, hence distinct. */
  predicate Ordered(p: Parts) {
    && (p.layerSurf.Some? <==> p.pool.Some?) && (p.pool.Some? <==> p.buffer.Some?)
    && (p.layerSurf.Some? ==> p.surface.Some? && p.surface.value < p.layerSurf.value < p.pool.value < p.buffer.value)
    && (p.region.Some? ==> p.layerSurf.Some? && p.layerSurf.value < p.region.value < p.pool.value)
  }

  /** An inhibitor holds either a whole set of objects or none. */
  predicate WholeOrNothing(i: Inhibitor) {
    && Ordered(i.parts)
    && (i.inhibitor.None? ==> i.parts == NO_PARTS)
    && (i.inhibitor.Some? ==> i.parts.surface.Some? && forall h :: h in PartsHeld(i.parts) ==> h < i.inhibitor.value)
  }

  /** The same inhibitors, none of them holding anything. */
  ghost predicate Forgotten(now: map<nat, Inhibitor>, before: map<nat, Inhibitor>) {
    now.Keys == before.Keys && forall i :: i in now ==> now[i] == Inhibitor(before[i].enabled, None, NO_PARTS)
  }

  /** The shares together make up exactly the live objects, and no two overlap. */
  ghost predicate Partition(held: map<nat, set<Handle>>, live: set<Handle>) {
    && (forall i :: i in held ==> held[i] <= live)
    && (forall i, j :: i in held && j in held && i != j ==> held[i] !! held[j])
    && (forall h :: h in live ==> exists i :: i in held && h in held[i])
  }

  lemma PartitionRemove(held: map<nat, set<Handle>>, live: set<Handle>, id: nat)
    requires Partition(held, live) && id in held
    ensures Partition(held - {id}, live - held[id])
  {
    forall h | h in live - held[id] ensures exists i :: i in held - {id} && h in (held - {id})[i] {
      var i :| i in held && h in held[i];
      assert i in held - {id};
    }
  }

  lemma PartitionPut(held: map<nat, set<Handle>>, live: set<Handle>, id: nat, share: set<Handle>)
    requires Partition(held, live) && (id in held ==> held[id] == {}) && share !! live
    ensures Partition(held[id := share], live + share)
  {
    var n := held[id := share];
    forall h | h in live + share ensures exists i :: i in n && h in n[i] {
      if h in live {
        var i :| i in held && h in held[i];
        assert i != id && i in n;
      } else {
        assert h in n[id];
      }
    }
  }

  function HeldBy(m: map<nat, Inhibitor>): map<nat, set<Handle>> {
    map i | i in m :: Held(m[i])
  }

  /** Every inhibitor is whole or empty, a disabled one is empty, and together they hold exactly the live objects. */
  ghost predicate Accounts(m: map<nat, Inhibitor>, live: set<Handle>) {
    (forall i :: i in m ==> WholeOrNothing(m[i]) && (!m[i].enabled ==> m[i].inhibitor.None?)) && Partition(HeldBy(m), live)
  }

  lemma AccountsRemove(m: map<nat, Inhibitor>, live: set<Handle>, id: nat)
    requires Accounts(m, live) && id in m
    ensures Accounts(m - {id}, live - Held(m[id]))
  {
    PartitionRemove(HeldBy(m), live, id);
    assert HeldBy(m - {id}) == HeldBy(m) - {id};
  }

  lemma HeldByPut(m: map<nat, Inhibitor>, id: nat, inh: Inhibitor)
    ensures HeldBy(m[id := inh]) == HeldBy(m)[id := Held(inh)]
    ensures id in m ==> HeldBy(m)[id] == Held(m[id])
  {
  }

  lemma AccountsPut(m: map<nat, Inhibitor>, live: set<Handle>, id: nat, inh: Inhibitor)
    requires Accounts(m, live) && (id in m ==> Held(m[id]) == {})
    requires WholeOrNothing(inh) && Held(inh) !! live && (!inh.enabled ==> inh.inhibitor.None?)
    ensures Accounts(m[id := inh], live + Held(inh))
  {
    HeldByPut(m, id, inh);
    PartitionPut(HeldBy(m), live, id, Held(inh));
  }

  lemma AccountsReplace(m: map<nat, Inhibitor>, live: set<Handle>, id: nat, inh: Inhibitor)
    requires Accounts(m, live) && id in m && inh == Inhibitor(inh.enabled, None, NO_PARTS)
    ensures Accounts(m[id := inh], live - Held(m[id]))
  {
    var rest := live - Held(m[id]);
    AccountsRemove(m, live, id);
    HoldsNothing(inh, rest);
    AccountsPut(m - {id}, rest, id, inh);
    assert (m - {id})[id := inh] == m[id := inh];
  }

  lemma HoldsNothing(inh: Inhibitor, live: set<Handle>)
    requires inh == Inhibitor(inh.enabled, None, NO_PARTS)
    ensures WholeOrNothing(inh) && Held(inh) !! live && live + Held(inh) == live
  {
    assert Held(inh) == {};
  }

  lemma AccountsForgotten(now: map<nat, Inhibitor>, before: map<nat, Inhibitor>)
    requires Forgotten(now, before)
    ensures Accounts(now, {})
  {
  }

  /** What Enable may have done to the table: nothing, or one reconnect. */
  ghost predicate Renewal(before: map<nat, Inhibitor>, now: map<nat, Inhibitor>, epoch: Handle, epoch': Handle, next: Handle, renewed: bool) {
    if renewed then next <= epoch' && Forgotten(now, before) else epoch' == epoch && now == before
  }

  lemma FailedEnableAccounts(before: map<nat, Inhibitor>, now: map<nat, Inhibitor>, open: set<Handle>,
                             epoch: Handle, epoch': Handle, next: Handle, renewed: bool)
    requires Accounts(before, LiveOf(open, epoch)) && (forall h :: h in open ==> h < next)
    requires Renewal(before, now, epoch, epoch', next, renewed)
    ensures Accounts(now, LiveOf(open, epoch'))
  {
    if renewed {
      LiveGrows(open, {}, next, epoch, epoch');
      AccountsForgotten(now, before);
    }
  }

  lemma EnableAccounts(before: map<nat, Inhibitor>, now: map<nat, Inhibitor>, open: set<Handle>,
                       epoch: Handle, epoch': Handle, next: Handle, renewed: bool, id: nat, inh: Inhibitor)
    requires Accounts(before, LiveOf(open, epoch)) && (forall h :: h in open ==> h < next)
    requires Renewal(before, now, epoch, epoch', next, renewed)
    requires id in before && !before[id].enabled && inh.enabled && WholeOrNothing(inh)
    requires forall h :: h in Held(inh) ==> next <= h && epoch' <= h
    ensures Accounts(now[id := inh], LiveOf(open + Held(inh), epoch'))
    ensures Held(inh) <= LiveOf(open + Held(inh), epoch') && Held(inh) !! open
  {
    FailedEnableAccounts(before, now, open, epoch, epoch', next, renewed);
    LiveGrows(open, Held(inh), next, epoch, epoch');
    assert Held(now[id]) == {};
    AccountsPut(now, LiveOf(open, epoch'), id, inh);
  }

  /** With nothing enabled, nothing is owned. */
  lemma AllDisabledHoldsNothing(m: map<nat, Inhibitor>, live: set<Handle>)
    requires Accounts(m, live) && forall i :: i in m ==> !m[i].enabled
    ensures live == {}
  {
    assert forall i :: i in HeldBy(m) ==> HeldBy(m)[i] == {};
  }

  /** The open handles of the connection that began at epoch. */
  ghost function LiveOf(open: set<Handle>, epoch: Handle): set<Handle> { set h | h in open && epoch <= h }

  /** New handles, all of the current connection, join the live ones; a new connection starts from none. */
  lemma LiveGrows(open: set<Handle>, held: set<Handle>, next: Handle, before: Handle, now: Handle)
    requires (forall h :: h in open ==> h < next) && (forall h :: h in held ==> next <= h && now <= h)
    requires now == before || next <= now
    ensures LiveOf(open + held, now) == (if now == before then LiveOf(open, before) else LiveOf(open, now)) + held
    ensures next <= now ==> LiveOf(open, now) == {}
    ensures held !! open
  {
  }

  lemma OwnedShrinks(open: set<Handle>, lost: set<Handle>, held: set<Handle>, epoch: Handle)
    ensures LiveOf(open - held - lost, epoch) == LiveOf(open - lost, epoch) - held
  {
  }

  lemma OwnedGrows(open: set<Handle>, lost: set<Handle>, held: set<Handle>)
    requires held !! lost
    ensures open + held - lost == (open - lost) + held
  {
  }

  /** An overwritten inhibitor's objects are no longer owned. */
  lemma OwnedLoses(open: set<Handle>, lost: set<Handle>, held: set<Handle>, epoch: Handle)
    ensures LiveOf(open - (lost + held), epoch) == LiveOf(open - lost, epoch) - held
  {
  }

  /** EnableAccounts beside lost objects. */
  lemma EnableResult(before: map<nat, Inhibitor>, now: map<nat, Inhibitor>, open: set<Handle>, lost: set<Handle>,
                     epoch: Handle, epoch': Handle, next: Handle, renewed: bool, id: nat, inh: Inhibitor)
    requires Accounts(before, LiveOf(open - lost, epoch)) && (forall h :: h in open ==> h < next) && (forall h :: h in lost ==> h < next)
    requires Renewal(before, now, epoch, epoch', next, renewed)
    requires id in before && !before[id].enabled && inh.enabled && WholeOrNothing(inh)
    requires forall h :: h in Held(inh) ==> next <= h && epoch' <= h
    ensures Accounts(now[id := inh], LiveOf(open + Held(inh) - lost, epoch'))
    ensures Held(inh) <= LiveOf(open + Held(inh), epoch') && Held(inh) !! open
  {
    EnableAccounts(before, now, open - lost, epoch, epoch', next, renewed, id, inh);
    OwnedGrows(open, lost, Held(inh));
  }

  lemma KeysAgain(keys: set<nat>, id: nat)
    ensures keys + {id} - {id} == keys - {id}
  {
  }

  lemma DestroyAccounts(m: map<nat, Inhibitor>, open: set<Handle>, lost: set<Handle>, epoch: Handle, id: nat)
    requires Accounts(m, LiveOf(open - lost, epoch)) && id in m
    ensures WholeOrNothing(m[id]) && Held(m[id]) <= open
    ensures Accounts(m - {id}, LiveOf(open - Held(m[id]) - lost, epoch))
  {
    AccountsRemove(m, LiveOf(open - lost, epoch), id);
    assert HeldBy(m)[id] == Held(m[id]);
    OwnedShrinks(open, lost, Held(m[id]), epoch);
  }

  class IdleManager {
    // The globals of the current connection; any of them may be missing.
    var hasCompositor: bool
    var hasInhibitorMgr: bool
    var hasLayerShell: bool
    var hasShm: bool

    var legacyInhibitorID: nat
    var nextInhibitorID: nat
    var inhibitors: map<nat, Inhibitor>

    /** The next handle to be created, and the first one of the current connection. */
    var nextHandle: Handle
    var epoch: Handle
    /** Objects whose inhibitor was overwritten when its identifier was used again: nothing refers to them. */
    ghost var lost: set<Handle>
    /** Every release ever performed. */
    ghost var released: multiset<Handle>

    // -------------------------------------------------------------------
    // The ledger
    // -------------------------------------------------------------------

    /** Nothing is released twice, and only what was created is released. */
    ghost predicate Ledger()
      reads this`epoch, this`nextHandle, this`released
    {
      && epoch <= nextHandle && (forall h: Handle :: released[h] <= 1 && (h in released ==> h < nextHandle))
    }

    /** Created and not released. */
    ghost function Open(): set<Handle>
      reads this`nextHandle, this`released
    {
      set h: Handle | 0 <= h < nextHandle && h !in released
    }

    /** The open objects of the current connection. */
    ghost function Live(): set<Handle>
      reads this`epoch, this`nextHandle, this`released
    {
      LiveOf(Open(), epoch)
    }

    /** The open objects of the current connection that some inhibitor still refers to. */
    ghost function Owned(): set<Handle>
      reads this`epoch, this`nextHandle, this`released, this`lost
    {
      LiveOf(Open() - lost, epoch)
    }

    function Offered(): Globals
      reads this`hasCompositor, this`hasInhibitorMgr, this`hasLayerShell, this`hasShm
    {
      Globals(hasCompositor, hasInhibitorMgr, hasLayerShell, hasShm)
    }

    ghost predicate Valid()
      reads this
    {
      Ledger() && Accounts(inhibitors, Owned()) && forall h :: h in lost ==> h < nextHandle
    }

    constructor ()
      ensures Valid() && inhibitors == map[] && Live() == {} && lost == {}
    {
      hasCompositor, hasInhibitorMgr, hasLayerShell, hasShm := false, false, false, false;
      legacyInhibitorID, nextInhibitorID := 0, 0;
      inhibitors := map[];
      nextHandle, epoch := 0, 0;
      released := multiset{};
      lost := {};
    }

    method Create() returns (h: Handle)
      requires Ledger()
      modifies this`nextHandle
      ensures Ledger() && h == old(nextHandle) && nextHandle == h + 1
      ensures Open() == old(Open()) + {h} && h !in old(Open())
    {
      h := nextHandle;
      nextHandle := nextHandle + 1;
    }

    method Release(h: Handle)
      requires Ledger() && h in Open()
      modifies this`released
      ensures Ledger() && Open() == old(Open()) - {h}
    {
      released := released + multiset{h};
    }

    method ReleaseIf(o: Option<Handle>)
      requires Ledger() && SetOfOption(o) <= Open()
      modifies this`released
      ensures Ledger() && Open() == old(Open()) - SetOfOption(o)
    {
      if o.Some? {
        assert o.value in SetOfOption(o);
        Release(o.value);
      }
    }

    /** destroyInhibitorSurfaceState: layer surface, buffer, pool, region, then the surface itself. */
    method DestroyParts(p: Parts)
      requires Ledger() && Ordered(p) && PartsHeld(p) <= Open()
      modifies this`released
      ensures Ledger() && Open() == old(Open()) - PartsHeld(p)
    {
      ReleaseIf(p.layerSurf);
      ReleaseIf(p.buffer);
      ReleaseIf(p.pool);
      ReleaseIf(p.region);
      ReleaseIf(p.surface);
    }

    // -------------------------------------------------------------------
    // Mapping a surface
    // -------------------------------------------------------------------

    /** mapInhibitorSurface. It succeeds exactly when every request but the one for an input region is answered and
        the configure event arrives in time. A failure leaves nothing behind; a success adds exactly the layer surface,
        the region if one could be had, the pool and the buffer. The memfd is closed on every path. */
    method MapSurface(surface: Handle, a: Answers) returns (p: Option<Parts>)
      requires Ledger() && surface in Open()
      modifies this`nextHandle, this`released
      ensures Ledger() && nextHandle >= old(nextHandle)
      ensures p.Some? <==> a.layerSurface && a.sized && a.anchored && a.zoned && a.memfd && a.truncated && a.pool && a.buffer
                           && a.committed && a.configured
      ensures p.None? ==> Open() == old(Open())
      ensures p.Some? ==> Ordered(p.value) && p.value.surface == Some(surface) && p.value.layerSurf.Some?
                          && (p.value.region.Some? <==> a.region)
                          && Open() == old(Open()) + PartsHeld(p.value)
                          && forall h :: h in PartsHeld(p.value) ==> h == surface || old(nextHandle) <= h < nextHandle
    {
      var layer := CreateLayerSurface(a);
      if layer.None? {
        return None;
      }
      var (ls, region) := layer.value;
      var shm := CreateShmBuffer(a);
      if shm.None? {
        Release(ls);
        ReleaseIf(region);
        return None;
      }
      var (pool, buffer) := shm.value;
      if !a.committed || !a.configured { // the commit that asks for a configure, then the wait for it
        Release(buffer);
        Release(pool);
        Release(ls);
        ReleaseIf(region);
        return None;
      }
      p := Some(Parts(Some(surface), Some(ls), region, Some(pool), Some(buffer)));
    }

    /** The layer surface with its size, anchor and exclusive zone, and an input region if one can be had. */
    method CreateLayerSurface(a: Answers) returns (r: Option<(Handle, Option<Handle>)>)
      requires Ledger()
      modifies this`nextHandle, this`released
      ensures Ledger() && nextHandle >= old(nextHandle)
      ensures r.Some? <==> a.layerSurface && a.sized && a.anchored && a.zoned
      ensures r.None? ==> Open() == old(Open())
      ensures r.Some? ==> old(nextHandle) == r.value.0 < nextHandle
                          && (r.value.1.Some? <==> a.region)
                          && (r.value.1.Some? ==> r.value.0 < r.value.1.value < nextHandle)
                          && Open() == old(Open()) + {r.value.0} + SetOfOption(r.value.1)
    {
      if !a.layerSurface {
        return None;
      }
      var ls := Create();
      if !a.sized || !a.anchored || !a.zoned {
        Release(ls);
        return None;
      }
      var region: Option<Handle> := None;
      if a.region {
        var h := Create();
        region := Some(h);
      }
      r := Some((ls, region));
    }

    /** memfd, ftruncate, pool and buffer; our copy of the descriptor is closed whatever happens. */
    method CreateShmBuffer(a: Answers) returns (r: Option<(Handle, Handle)>)
      requires Ledger()
      modifies this`nextHandle, this`released
      ensures Ledger() && nextHandle >= old(nextHandle)
      ensures r.Some? <==> a.memfd && a.truncated && a.pool && a.buffer
      ensures r.None? ==> Open() == old(Open())
      ensures r.Some? ==> old(nextHandle) <= r.value.0 < r.value.1 < nextHandle
                          && Open() == old(Open()) + {r.value.0, r.value.1}
    {
      if !a.memfd {
        return None;
      }
      var fd := Create();
      if !a.truncated || !a.pool {
        Release(fd);
        return None;
      }
      var pool := Create();
      Release(fd);
      if !a.buffer {
        Release(pool);
        return None;
      }
      var buffer := Create();
      r := Some((pool, buffer));
    }

    // -------------------------------------------------------------------
    // Reconnecting
    // -------------------------------------------------------------------

    /** connectWayland. On success every object of the old connection is gone and every inhibitor forgets
        what it held; on failure the bookkeeping is left alone. The globals are those found either way. */
    method Reconnect(ok: bool, found: Globals)
      requires Ledger()
      modifies this`hasCompositor, this`hasInhibitorMgr, this`hasLayerShell, this`hasShm, this`epoch, this`inhibitors
      ensures Ledger() && epoch == (if ok then nextHandle else old(epoch)) && Offered() == found
      ensures if ok then Forgotten(inhibitors, old(inhibitors)) else inhibitors == old(inhibitors)
    {
      hasCompositor, hasInhibitorMgr, hasLayerShell, hasShm := found.compositor, found.inhibitorMgr, found.layerShell, found.shm;
      if ok {
        epoch := nextHandle;
        InvalidateStaleProxies();
      }
    }

    method InvalidateStaleProxies()
      modifies this`inhibitors
      ensures Forgotten(inhibitors, old(inhibitors))
    {
      var ids := inhibitors.Keys;
      while ids != {}
        invariant ids <= inhibitors.Keys == old(inhibitors.Keys)
        invariant forall i :: i in ids ==> inhibitors[i] == old(inhibitors)[i]
        invariant forall i :: i in inhibitors && i !in ids ==> inhibitors[i] == Inhibitor(old(inhibitors)[i].enabled, None, NO_PARTS)
        decreases |ids|
      {
        var i :| i in ids;
        ids := ids - {i};
        inhibitors := inhibitors[i := Inhibitor(inhibitors[i].enabled, None, NO_PARTS)];
      }
    }

    // -------------------------------------------------------------------
    // Enabling and disabling
    // -------------------------------------------------------------------

    /** setInhibitorEnabledLocked(inh, false). */
    method Disable(inh: Inhibitor) returns (r: Inhibitor)
      requires Ledger() && WholeOrNothing(inh) && Held(inh) <= Open()
      modifies this`released
      ensures Ledger() && Open() == old(Open()) - Held(inh)
      ensures r == Inhibitor(inh.enabled, None, NO_PARTS)
    {
      ReleaseIf(inh.inhibitor);
      DestroyParts(inh.parts);
      r := inh.(inhibitor := None, parts := NO_PARTS);
    }

    /** One attempt at the create path: the surface, the mapping if the globals allow it (its failure is not
        fatal), and the inhibitor object. It succeeds exactly when compositor and inhibitor manager are there and the
        inhibitor is granted; a failed attempt leaves nothing behind. */
    method Attempt(a: Answers) returns (r: Result<(Handle, Parts), InhibitError>)
      requires Ledger()
      modifies this`nextHandle, this`released
      ensures Ledger() && nextHandle >= old(nextHandle)
      ensures r.Ok? <==> hasCompositor && hasInhibitorMgr && a.inhibitor == Granted
      ensures r.Err? ==> Open() == old(Open())
                         && r.error == if !hasCompositor || !hasInhibitorMgr then NotSupported
                                       else if a.inhibitor == Broken then BrokenPipe else RequestFailed
      ensures r.Ok? ==>
                var held := Inhibitor(true, Some(r.value.0), r.value.1);
                WholeOrNothing(held) && Open() == old(Open()) + Held(held)
                && (r.value.1.layerSurf.Some? <==> hasLayerShell && hasShm && Maps(a))
                && (r.value.1.region.Some? <==> hasLayerShell && hasShm && Maps(a) && a.region)
                && forall h :: h in Held(held) ==> old(nextHandle) <= h < nextHandle
    {
      if !hasCompositor || !hasInhibitorMgr {
        return Err(NotSupported);
      }
      var surface := Create();
      var parts := Parts(Some(surface), None, None, None, None);
      if hasLayerShell && hasShm {
        var mapped := MapSurface(surface, a);
        if mapped.Some? {
          parts := mapped.value;
        }
      }
      if a.inhibitor == Granted {
        var inhibitor := Create();
        return Ok((inhibitor, parts));
      }
      DestroyParts(parts);
      r := Err(if a.inhibitor == Broken then BrokenPipe else RequestFailed);
    }

    /** setInhibitorEnabledLocked(inh, true): at most two attempts, with a reconnect in between when the first
        broke the pipe; renewed says whether the connection was replaced on the way. It succeeds exactly when the first
        attempt does, or the second after a broken pipe and a reconnect, and otherwise names the first cause; the
        surface is mapped if that attempt could map it. Whatever the schedule, a failure leaves no object open that was
        not open before, and a success leaves open exactly the objects the inhibitor now holds, all of them on the
        current connection. */
    method Enable(inh: Inhibitor, s: Schedule) returns (r: Result<Inhibitor, InhibitError>, ghost renewed: bool)
      requires Ledger() && WholeOrNothing(inh)
      modifies this`nextHandle, this`released, this`hasCompositor, this`hasInhibitorMgr, this`hasLayerShell,
               this`hasShm, this`epoch, this`inhibitors
      ensures Ledger() && nextHandle >= old(nextHandle)
      ensures if renewed then epoch >= old(nextHandle) && Forgotten(inhibitors, old(inhibitors))
              else epoch == old(epoch) && inhibitors == old(inhibitors)
      ensures r.Err? || inh.inhibitor.Some? ==> Open() == old(Open())
      ensures inh.inhibitor.Some? ==> r == Ok(inh) && !renewed && Offered() == old(Offered())
      ensures inh.inhibitor.None? ==>
                var g := old(Offered());
                var retry := g.compositor && g.inhibitorMgr && s.first.inhibitor == Broken && s.reconnected;
                && renewed == retry
                && (r.Ok? <==> (g.compositor && g.inhibitorMgr && s.first.inhibitor == Granted)
                               || (retry && s.globals.compositor && s.globals.inhibitorMgr && s.second.inhibitor == Granted))
                && (r.Ok? ==> (r.value.parts.layerSurf.Some? <==> if retry then s.globals.layerShell && s.globals.shm && Maps(s.second)
                                                                  else g.layerShell && g.shm && Maps(s.first)))
                && (r.Ok? <==> Grants(g, s)) && (r.Err? ==> r.error == Cause(g, s))
      ensures r.Ok? && inh.inhibitor.None? ==>
                && WholeOrNothing(r.value) && r.value.inhibitor.Some? && r.value.enabled == inh.enabled
                && Open() == old(Open()) + Held(r.value)
                && forall h :: h in Held(r.value) ==> old(nextHandle) <= h < nextHandle && epoch <= h
    {
      renewed := false;
      if inh.inhibitor.Some? {
        return Ok(inh), false;
      }
      ghost var g := Offered();
      var outcome: Result<(Handle, Parts), InhibitError> := Err(NotSupported);
      for attempt := 0 to 2
        invariant Ledger() && nextHandle >= old(nextHandle)
        invariant outcome.Err? && Open() == old(Open())
        invariant if renewed then epoch >= old(nextHandle) && Forgotten(inhibitors, old(inhibitors))
                  else epoch == old(epoch) && inhibitors == old(inhibitors)
        invariant if attempt == 0 then !renewed && Offered() == g else renewed && Retries(g, s) && Offered() == s.globals
        invariant attempt < 2
      {
        outcome := Attempt(if attempt == 0 then s.first else s.second);
        if outcome.Ok? {
          break;
        }
        if !outcome.error.BrokenPipe? || attempt == 1 {
          break;
        }
        Reconnect(s.reconnected, s.globals);
        if !s.reconnected {
          outcome := Err(ReconnectFailed);
          break;
        }
        renewed := true;
      }
      if outcome.Err? {
        return Err(outcome.error), renewed;
      }
      r := Ok(inh.(inhibitor := Some(outcome.value.0), parts := outcome.value.1));
    }

    // -------------------------------------------------------------------
    // The operations offered to clients
    // -------------------------------------------------------------------

    /** The common core of switching a known inhibitor that is not already in the wanted state. On success it
        holds a whole set of live objects, or none; on failure it stays as it was, and nothing else is open. */
    method Switch(id: nat, on: bool, s: Schedule) returns (r: Result<bool, InhibitError>)
      requires Valid() && id in inhibitors && inhibitors[id].enabled != on
      modifies this
      ensures Valid() && inhibitors.Keys == old(inhibitors.Keys)
      ensures legacyInhibitorID == old(legacyInhibitorID) && nextInhibitorID == old(nextInhibitorID) && lost == old(lost)
      ensures r.Ok? ==> r.value == on && inhibitors[id].enabled == on
      ensures on ==> (r.Ok? <==> Grants(old(Offered()), s)) && (r.Err? ==> r.error == Cause(old(Offered()), s))
      ensures !on ==> r.Ok? && inhibitors == old(inhibitors)[id := Inhibitor(false, None, NO_PARTS)]
                      && Open() == old(Open()) - Held(old(inhibitors)[id])
      ensures on && r.Ok? ==> inhibitors[id].inhibitor.Some? && Open() == old(Open()) + Held(inhibitors[id])
                              && Held(inhibitors[id]) <= Live() && Held(inhibitors[id]) !! old(Open())
      ensures r.Err? ==> on && !inhibitors[id].enabled && Open() == old(Open())
    {
      if on {
        r := SwitchOn(id, s);
      } else {
        SwitchOff(id);
        r := Ok(false);
      }
    }

    method SwitchOff(id: nat)
      requires Valid() && id in inhibitors && inhibitors[id].enabled
      modifies this
      ensures Valid() && inhibitors == old(inhibitors)[id := Inhibitor(false, None, NO_PARTS)]
      ensures legacyInhibitorID == old(legacyInhibitorID) && nextInhibitorID == old(nextInhibitorID) && lost == old(lost)
      ensures Open() == old(Open()) - Held(old(inhibitors)[id])
    {
      var inh := inhibitors[id];
      AccountsReplace(inhibitors, Owned(), id, Inhibitor(false, None, NO_PARTS));
      HeldIsLive(id);
      ghost var open := Open();
      var off := Disable(inh);
      OwnedShrinks(open, lost, Held(inh), epoch);
      inhibitors := inhibitors[id := off.(enabled := false)];
    }

    lemma HeldIsLive(id: nat)
      requires Valid() && id in inhibitors
      ensures Held(inhibitors[id]) <= Owned() <= Live() && WholeOrNothing(inhibitors[id])
    {
      assert HeldBy(inhibitors)[id] == Held(inhibitors[id]);
    }

    lemma DisabledHoldsNothing(id: nat)
      requires Valid() && id in inhibitors && !inhibitors[id].enabled
      ensures inhibitors[id].inhibitor.None? && WholeOrNothing(inhibitors[id])
    {
    }

    method SwitchOn(id: nat, s: Schedule) returns (r: Result<bool, InhibitError>)
      requires Valid() && id in inhibitors && !inhibitors[id].enabled
      modifies this
      ensures Valid() && inhibitors.Keys == old(inhibitors.Keys)
      ensures (r.Ok? <==> Grants(old(Offered()), s)) && (r.Err? ==> r.error == Cause(old(Offered()), s))
      ensures legacyInhibitorID == old(legacyInhibitorID) && nextInhibitorID == old(nextInhibitorID) && lost == old(lost)
      ensures r.Ok? ==> r.value && inhibitors[id].enabled && inhibitors[id].inhibitor.Some?
                        && Open() == old(Open()) + Held(inhibitors[id])
                        && Held(inhibitors[id]) <= Live() && Held(inhibitors[id]) !! old(Open())
      ensures r.Err? ==> !inhibitors[id].enabled && Open() == old(Open())
    {
      var inh := inhibitors[id];
      ghost var before, kept := inhibitors, Open() - lost;
      ghost var renewed;
      var e;
      DisabledHoldsNothing(id);
      e, renewed := Enable(inh, s);
      if e.Err? {
        FailedEnableAccounts(before, inhibitors, kept, old(epoch), epoch, old(nextHandle), renewed);
        return Err(e.error);
      }
      var now := e.value.(enabled := true);
      assert Held(now) == Held(e.value);
      EnableResult(before, inhibitors, old(Open()), lost, old(epoch), epoch, old(nextHandle), renewed, id, now);
      inhibitors := inhibitors[id := now];
      r := Ok(true);
    }

    /** An unknown inhibitor is an error and one already in the wanted state is left alone. Disabling always succeeds,
        and enabling exactly when compositor and inhibitor manager are there and the inhibitor is granted, on the first
        attempt or on the second after a broken pipe and a reconnect. */
    method SetIdleInhibitorEnabled(id: nat, enabled: bool, s: Schedule) returns (r: Result<bool, InhibitError>)
      requires Valid()
      modifies this
      ensures Valid() && inhibitors.Keys == old(inhibitors.Keys)
      ensures id !in old(inhibitors) ==> r == Err(NotFound)
      ensures r.Ok? ==> r.value == enabled == inhibitors[id].enabled
      ensures id in old(inhibitors) && (!enabled || old(inhibitors)[id].enabled) ==> r.Ok?
      ensures id in old(inhibitors) && enabled && !old(inhibitors)[id].enabled ==>
                && (r.Ok? <==> (old(hasCompositor && hasInhibitorMgr) && s.first.inhibitor == Granted)
                               || (old(hasCompositor && hasInhibitorMgr) && s.first.inhibitor == Broken && s.reconnected
                                   && s.globals.compositor && s.globals.inhibitorMgr && s.second.inhibitor == Granted))
                && (r.Err? ==> r.error == Cause(old(Offered()), s))
      ensures id !in old(inhibitors) || old(inhibitors)[id].enabled == enabled ==>
                inhibitors == old(inhibitors) && Open() == old(Open()) && epoch == old(epoch)
      ensures r.Err? && id in old(inhibitors) ==> enabled && Open() == old(Open())
    {
      if id !in inhibitors {
        return Err(NotFound);
      }
      r := SwitchTo(id, enabled, s);
    }

    /** An inhibitor that is already in the wanted state is left alone. */
    method SwitchTo(id: nat, on: bool, s: Schedule) returns (r: Result<bool, InhibitError>)
      requires Valid() && id in inhibitors
      modifies this
      ensures Valid() && inhibitors.Keys == old(inhibitors.Keys)
      ensures legacyInhibitorID == old(legacyInhibitorID) && nextInhibitorID == old(nextInhibitorID) && lost == old(lost)
      ensures r.Ok? <==> !on || old(inhibitors)[id].enabled || Grants(old(Offered()), s)
      ensures r.Ok? ==> r.value == on == inhibitors[id].enabled
      ensures r.Err? ==> !inhibitors[id].enabled && Open() == old(Open()) && r.error == Cause(old(Offered()), s)
      ensures old(inhibitors)[id].enabled == on ==> inhibitors == old(inhibitors) && Open() == old(Open()) && epoch == old(epoch)
    {
      if inhibitors[id].enabled == on {
        return Ok(on);
      }
      r := Switch(id, on, s);
    }

    /** Identifiers are 32 bits wide. Whatever had the next one is overwritten, and its objects are lost. */
    method NewInhibitor() returns (id: nat)
      requires Valid()
      modifies this`nextInhibitorID, this`inhibitors, this`lost
      ensures Valid() && id == nextInhibitorID == (old(nextInhibitorID) + 1) % ID_SPACE
      ensures inhibitors == old(inhibitors)[id := Inhibitor(false, None, NO_PARTS)]
      ensures lost == old(lost) + (if id in old(inhibitors) then Held(old(inhibitors)[id]) else {})
    {
      nextInhibitorID := (nextInhibitorID + 1) % ID_SPACE;
      id := nextInhibitorID;
      var off := Inhibitor(false, None, NO_PARTS);
      HoldsNothing(off, Owned());
      if id in inhibitors {
        HeldIsLive(id);
        AccountsReplace(inhibitors, Owned(), id, off);
        OwnedLoses(Open(), lost, Held(inhibitors[id]), epoch);
        lost := lost + Held(inhibitors[id]);
      } else {
        AccountsPut(inhibitors, Owned(), id, off);
      }
      inhibitors := inhibitors[id := off];
    }

    method Forget(id: nat)
      requires Valid() && id in inhibitors && !inhibitors[id].enabled
      modifies this`inhibitors
      ensures Valid() && inhibitors == old(inhibitors) - {id}
    {
      AccountsRemove(inhibitors, Owned(), id);
      assert Held(inhibitors[id]) == {} && Owned() - {} == Owned();
      inhibitors := inhibitors - {id};
    }

    /** Identifiers are 32 bits wide. While the next one is unused nothing is lost; otherwise the older inhibitor is
        gone, and exactly the objects it held are lost. */
    method CreateIdleInhibitor(enabled: bool, s: Schedule) returns (r: Result<nat, InhibitError>)
      requires Valid()
      modifies this
      ensures Valid()
      ensures var id := (old(nextInhibitorID) + 1) % ID_SPACE;
              && lost == old(lost) + (if id in old(inhibitors) then Held(old(inhibitors)[id]) else {})
              && (r.Ok? ==> r.value == id && id in inhibitors && inhibitors[id].enabled == enabled
                            && inhibitors.Keys == old(inhibitors.Keys) + {id})
              && (r.Err? ==> enabled && inhibitors.Keys == old(inhibitors.Keys) - {id} && Open() == old(Open()))
      ensures r.Ok? <==> !enabled || Grants(old(Offered()), s)
      ensures r.Err? ==> r.error == Cause(old(Offered()), s)
    {
      var id := NewInhibitor();
      if !enabled {
        return Ok(id);
      }
      KeysAgain(old(inhibitors.Keys), id);
      r := EnableNew(id, s);
    }

    /** A new inhibitor that cannot be enabled is dropped again. */
    method EnableNew(id: nat, s: Schedule) returns (r: Result<nat, InhibitError>)
      requires Valid() && id in inhibitors && !inhibitors[id].enabled
      modifies this
      ensures Valid() && lost == old(lost)
      ensures r.Ok? ==> r.value == id && inhibitors.Keys == old(inhibitors.Keys) && inhibitors[id].enabled
      ensures r.Err? ==> inhibitors.Keys == old(inhibitors.Keys) - {id} && Open() == old(Open())
      ensures (r.Ok? <==> Grants(old(Offered()), s)) && (r.Err? ==> r.error == Cause(old(Offered()), s))
    {
      var e := Switch(id, true, s);
      if e.Err? {
        Forget(id);
        return Err(e.error);
      }
      r := Ok(id);
    }

    /** The objects of a destroyed inhibitor are released, and the inhibitor is gone. */
    method DestroyIdleInhibitor(id: nat) returns (r: Result<(), InhibitError>)
      requires Valid()
      modifies this
      ensures Valid()
      ensures if id in old(inhibitors)
              then r == Ok(()) && inhibitors == old(inhibitors) - {id} && Open() == old(Open()) - Held(old(inhibitors)[id])
              else r == Err(NotFound) && inhibitors == old(inhibitors) && Open() == old(Open())
      ensures legacyInhibitorID == if id in old(inhibitors) && old(legacyInhibitorID) == id then 0 else old(legacyInhibitorID)
    {
      if id !in inhibitors {
        return Err(NotFound);
      }
      if legacyInhibitorID == id {
        legacyInhibitorID := 0;
      }
      Drop(id);
      r := Ok(());
    }

    method ReleaseAll(inh: Inhibitor)
      requires Ledger() && WholeOrNothing(inh) && Held(inh) <= Open()
      modifies this`released
      ensures Ledger() && Open() == old(Open()) - Held(inh)
    {
      var _ := Disable(inh);
    }

    method Drop(id: nat)
      requires Valid() && id in inhibitors
      modifies this`inhibitors, this`released
      ensures Valid() && inhibitors == old(inhibitors) - {id} && Open() == old(Open()) - Held(old(inhibitors)[id])
    {
      var inh := inhibitors[id];
      ghost var open := Open();
      DestroyAccounts(inhibitors, open, lost, epoch, id);
      ReleaseAll(inh);
      assert Owned() == LiveOf(open - Held(inh) - lost, epoch);
      inhibitors := inhibitors - {id};
    }

    /** The single unnamed inhibitor of the older interface, created on first use. If its entry has gone, which
        takes a failed creation under its identifier after 2^32 others, there is only an error. */
    method Inhibit(on: bool, s: Schedule) returns (r: Result<bool, InhibitError>)
      requires Valid()
      modifies this
      ensures Valid()
      ensures var fresh' := old(legacyInhibitorID) == 0;
              var id := if fresh' then (old(nextInhibitorID) + 1) % ID_SPACE else old(legacyInhibitorID);
              && legacyInhibitorID == id
              && (!fresh' && id !in old(inhibitors) ==> r == Err(NotFound) && inhibitors == old(inhibitors) && Open() == old(Open()))
              && (fresh' || id in old(inhibitors) ==>
                    && id in inhibitors && inhibitors.Keys == old(inhibitors.Keys) + {id}
                    && (r.Ok? ==> inhibitors[id].enabled == on)
                    && (r.Err? ==> on && !inhibitors[id].enabled && Open() == old(Open())))
              && lost == old(lost) + (if fresh' && id in old(inhibitors) then Held(old(inhibitors)[id]) else {})
              && (fresh' || id in old(inhibitors) ==>
                    var was := !fresh' && old(inhibitors)[id].enabled;
                    (r.Ok? <==> !on || was || Grants(old(Offered()), s)) && (r.Err? ==> r.error == Cause(old(Offered()), s)))
    {
      NameLegacy();
      ghost var named, id := inhibitors, legacyInhibitorID;
      assert old(legacyInhibitorID) == 0 ==> id in named && !named[id].enabled && named.Keys == old(inhibitors.Keys) + {id};
      assert old(legacyInhibitorID) != 0 ==> named == old(inhibitors) && (id in named ==> named.Keys == named.Keys + {id});
      if legacyInhibitorID !in inhibitors {
        return Err(NotFound);
      }
      r := SwitchTo(legacyInhibitorID, on, s);
    }

    /** The legacy inhibitor is created if it has no identifier yet. */
    method NameLegacy()
      requires Valid()
      modifies this`legacyInhibitorID, this`nextInhibitorID, this`inhibitors, this`lost
      ensures Valid()
      ensures old(legacyInhibitorID) != 0 ==>
                legacyInhibitorID == old(legacyInhibitorID) && inhibitors == old(inhibitors) && lost == old(lost)
      ensures old(legacyInhibitorID) == 0 ==>
                && legacyInhibitorID == (old(nextInhibitorID) + 1) % ID_SPACE
                && inhibitors == old(inhibitors)[legacyInhibitorID := Inhibitor(false, None, NO_PARTS)]
                && lost == old(lost) + (if legacyInhibitorID in old(inhibitors) then Held(old(inhibitors)[legacyInhibitorID]) else {})
    {
      if legacyInhibitorID == 0 {
        legacyInhibitorID := NewInhibitor();
      }
    }
  }
}

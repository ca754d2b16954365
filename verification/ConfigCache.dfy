/** The cached configuration payload and its atomic partial updates. */
module ConfigCache {
  import opened Prelude
  import opened IpcConfig
  import opened AppearanceKeys
  import Batch = KeybindBatch

  datatype ConfigError = NotApplied | UnsupportedKeys(names: seq<string>)

  type Request = map<string, Dynamic>

  function NameOf(k: Key): string {
    match k
    case GapsInner => "gaps.inner"
    case GapsOuter => "gaps.outer"
    case BorderWidth => "border.width"
    case BorderActive => "border.active_color"
    case BorderInactive => "border.inactive_color"
    case OpacityActive => "opacity.active"
    case OpacityInactive => "opacity.inactive"
    case BlurEnabled => "blur.enabled"
    case BlurSize => "blur.size"
    case BlurPasses => "blur.passes"
  }

  lemma NamesAreKeys(k: Key, n: string)
    ensures KeyOf(NameOf(k)) == Some(k)
    ensures KeyOf(n) == Some(k) ==> n == NameOf(k)
  {
  }

  predicate Accepts(n: string, v: Dynamic, scan: Scanners) {
    KeyOf(n).Some? && Coerce(KeyOf(n).value, v, scan).Some?
  }

  function Rejected(req: Request, names: set<string>, scan: Scanners): set<string> {
    set n | n in names && n in req && !Accepts(n, req[n], scan)
  }

  /** The coerced values of the accepted entries among names. */
  function Chosen(req: Request, names: set<string>, scan: Scanners): Choice {
    map k: Key | NameOf(k) in names && NameOf(k) in req && Coerce(k, req[NameOf(k)], scan).Some? ::
      Coerce(k, req[NameOf(k)], scan).value
  }

  lemma ChosenFits(req: Request, names: set<string>, scan: Scanners)
    ensures WellTyped(Chosen(req, names, scan))
  {
    forall k | k in Chosen(req, names, scan) ensures Fits(k, Chosen(req, names, scan)[k]) {
      CoerceFits(k, req[NameOf(k)], scan);
    }
  }

  lemma CoerceFits(k: Key, v: Dynamic, scan: Scanners)
    ensures Coerce(k, v, scan).Some? ==> Fits(k, Coerce(k, v, scan).value)
  {
  }

  lemma ChosenStep(req: Request, names: set<string>, n: string, scan: Scanners)
    requires n in req
    ensures Chosen(req, names + {n}, scan) ==
            if Accepts(n, req[n], scan)
            then Chosen(req, names, scan)[KeyOf(n).value := Coerce(KeyOf(n).value, req[n], scan).value]
            else Chosen(req, names, scan)
  {
    forall k: Key ensures (KeyOf(n) == Some(k) ==> n == NameOf(k)) && KeyOf(NameOf(k)) == Some(k) {
      NamesAreKeys(k, n);
    }
    var c, d := Chosen(req, names, scan), Chosen(req, names + {n}, scan);
    if Accepts(n, req[n], scan) {
      var k := KeyOf(n).value;
      assert NameOf(k) == n;
      assert d.Keys == c.Keys + {k};
    } else {
      assert d.Keys == c.Keys;
    }
  }

  /** What a batch of settings makes of an appearance, stated without any order on the batch. */
  function Applied(a: ConfigAppearance, req: Request, scan: Scanners): ConfigAppearance {
    Overlay(a, Chosen(req, req.Keys, scan))
  }

  /** Reading any setting after a batch gives the coerced value if the batch sets it, else the old value. */
  lemma ReadAfterBatch(a: ConfigAppearance, req: Request, scan: Scanners, k: Key)
    requires Rejected(req, req.Keys, scan) == {}
    ensures Get(Applied(a, req, scan), k) ==
            if NameOf(k) in req then Coerce(k, req[NameOf(k)], scan) else Get(a, k)
  {
    ChosenFits(req, req.Keys, scan);
    GetAfterOverlay(a, Chosen(req, req.Keys, scan), k);
    if NameOf(k) in req {
      NamesAreKeys(k, NameOf(k));
      assert NameOf(k) !in Rejected(req, req.Keys, scan);
    }
  }

  /** After an accepted batch, a key that the batch sets reads as what the value given to it stands for. */
  lemma ReadBack(a: ConfigAppearance, req: Request, scan: Scanners, k: Key, x: Scalar)
    requires Rejected(req, req.Keys, scan) == {} && NameOf(k) in req
    ensures Get(Applied(a, req, scan), k) == Some(x) <==> ReadsAs(k, req[NameOf(k)], x, scan)
    ensures Get(Applied(a, req, scan), k).Some?
  {
    ReadAfterBatch(a, req, scan, k);
    CoerceIff(k, req[NameOf(k)], x, scan);
    NamesAreKeys(k, NameOf(k));
    assert NameOf(k) !in Rejected(req, req.Keys, scan);
  }

  /** A name is rejected exactly when it names no key, or its value stands for nothing of the key's type. */
  lemma RejectedIff(req: Request, n: string, scan: Scanners)
    ensures n in Rejected(req, req.Keys, scan) <==> n in req && forall k: Key, x :: NameOf(k) == n ==> !ReadsAs(k, req[n], x, scan)
  {
    if n in req {
      forall k: Key, x ensures (NameOf(k) == n ==> KeyOf(n) == Some(k)) && (ReadsAs(k, req[n], x, scan) <==> Coerce(k, req[n], scan) == Some(x)) {
        NamesAreKeys(k, n);
        CoerceIff(k, req[n], x, scan);
      }
      if Accepts(n, req[n], scan) {
        var k := KeyOf(n).value;
        NamesAreKeys(k, n);
        assert ReadsAs(k, req[n], Coerce(k, req[n], scan).value, scan);
      }
    }
  }

  /** One entry of the batch; an entry that is not accepted changes nothing. */
  function SetOne(a: ConfigAppearance, req: Request, n: string, scan: Scanners): ConfigAppearance {
    if n in req && Accepts(n, req[n], scan) then Overlay(a, map[KeyOf(n).value := Coerce(KeyOf(n).value, req[n], scan).value]) else a
  }

  /** The batch applied one entry after another. */
  function OneByOne(a: ConfigAppearance, req: Request, order: seq<string>, scan: Scanners): ConfigAppearance
    decreases |order|
  {
    if order == [] then a else SetOne(OneByOne(a, req, order[..|order| - 1], scan), req, order[|order| - 1], scan)
  }

  /** Whatever order the entries are taken in, even repeatedly, the outcome is the unordered one. */
  lemma {:induction false} AnyOrder(a: ConfigAppearance, req: Request, order: seq<string>, scan: Scanners)
    ensures OneByOne(a, req, order, scan) == Overlay(a, Chosen(req, SetOf(order), scan))
    decreases |order|
  {
    if order == [] {
      NothingChosen(a, req, scan);
    } else {
      var init, n := order[..|order| - 1], order[|order| - 1];
      AnyOrder(a, req, init, scan);
      OverlayNext(a, req, SetOf(init), n, scan);
      SetOfSnoc(init, n);
      assert order == init + [n];
    }
  }

  lemma NothingChosen(a: ConfigAppearance, req: Request, scan: Scanners)
    ensures Overlay(a, Chosen(req, SetOf([]), scan)) == a
  {
    assert Chosen(req, SetOf([]), scan) == map[];
  }

  lemma OverlayNext(a: ConfigAppearance, req: Request, done: set<string>, n: string, scan: Scanners)
    ensures SetOne(Overlay(a, Chosen(req, done, scan)), req, n, scan) == Overlay(a, Chosen(req, done + {n}, scan))
  {
    if n in req {
      ChosenStep(req, done, n, scan);
      if Accepts(n, req[n], scan) {
        CoerceFits(KeyOf(n).value, req[n], scan);
        OverlayOne(a, Chosen(req, done, scan), KeyOf(n).value, Coerce(KeyOf(n).value, req[n], scan).value);
      }
    } else {
      assert Chosen(req, done + {n}, scan) == Chosen(req, done, scan);
    }
  }

  lemma WriteStep(a: ConfigAppearance, req: Request, done: set<string>, n: string, scan: Scanners)
    requires n in req && n !in done
    ensures Accepts(n, req[n], scan) ==>
              && Overlay(a, Chosen(req, done + {n}, scan))
                 == Overlay(Overlay(a, Chosen(req, done, scan)), map[KeyOf(n).value := Coerce(KeyOf(n).value, req[n], scan).value])
              && Rejected(req, done + {n}, scan) == Rejected(req, done, scan)
    ensures !Accepts(n, req[n], scan) ==>
              && Chosen(req, done + {n}, scan) == Chosen(req, done, scan)
              && Rejected(req, done + {n}, scan) == Rejected(req, done, scan) + SetOf([n]) && SetOf([n]) !! Rejected(req, done, scan)
  {
    ChosenStep(req, done, n, scan);
    assert SetOf([n]) == {n};
    if Accepts(n, req[n], scan) {
      CoerceFits(KeyOf(n).value, req[n], scan);
      OverlayOne(a, Chosen(req, done, scan), KeyOf(n).value, Coerce(KeyOf(n).value, req[n], scan).value);
    }
  }

  // ---------------------------------------------------------------------
  // What a history of batches leaves
  // ---------------------------------------------------------------------

  /** The value that the last of the batches to name k gave it, else the one it had at first. */
  function Written(first: ConfigAppearance, batches: seq<Request>, k: Key, scan: Scanners): Option<Scalar>
    decreases |batches|
  {
    if batches == [] then Get(first, k)
    else
      var b := batches[|batches| - 1];
      if NameOf(k) in b then Coerce(k, b[NameOf(k)], scan) else Written(first, batches[..|batches| - 1], k, scan)
  }

  /** The last batch that names a key decides what it reads as. */
  lemma {:induction false} WrittenReads(first: ConfigAppearance, batches: seq<Request>, k: Key, scan: Scanners, i: nat, x: Scalar)
    requires i < |batches| && NameOf(k) in batches[i] && forall j :: i < j < |batches| ==> NameOf(k) !in batches[j]
    ensures Written(first, batches, k, scan) == Some(x) <==> ReadsAs(k, batches[i][NameOf(k)], x, scan)
    decreases |batches|
  {
    if i == |batches| - 1 {
      CoerceIff(k, batches[i][NameOf(k)], x, scan);
    } else {
      WrittenReads(first, batches[..|batches| - 1], k, scan, i, x);
    }
  }

  /** a reads as if the batches had been written one after another over first. */
  ghost predicate ReadsLike(a: ConfigAppearance, first: ConfigAppearance, batches: seq<Request>, scan: Scanners) {
    forall k: Key :: Get(a, k) == Written(first, batches, k, scan)
  }

  lemma ReadsLikeAfter(a: ConfigAppearance, first: ConfigAppearance, batches: seq<Request>, req: Request, scan: Scanners)
    requires ReadsLike(a, first, batches, scan) && Rejected(req, req.Keys, scan) == {}
    ensures ReadsLike(Applied(a, req, scan), first, batches + [req], scan)
  {
    assert (batches + [req])[..|batches|] == batches;
    forall k: Key ensures Get(Applied(a, req, scan), k) == Written(first, batches + [req], k, scan) {
      ReadAfterBatch(a, req, scan, k);
    }
  }

  class ConfigState {
    const scan: Scanners
    var last: ConfigUniversal
    var applied: bool
    /** The appearance of the payload seeded last, and the batches accepted since. */
    ghost var seeded: ConfigAppearance
    ghost var batches: seq<Request>

    ghost predicate Valid()
      reads this
    {
      applied ==> ReadsLike(last.appearance, seeded, batches, scan)
    }

    constructor (scan: Scanners, nothing: ConfigUniversal)
      ensures Valid() && !applied && this.scan == scan && batches == []
    {
      this.scan := scan;
      last := nothing;
      applied := false;
      seeded, batches := nothing.appearance, [];
    }

    method Seed(payload: ConfigUniversal)
      modifies this
      ensures Valid() && applied && last == payload && seeded == payload.appearance && batches == []
    {
      last := payload;
      applied := true;
      seeded, batches := payload.appearance, [];
    }

    method Current() returns (r: Option<ConfigUniversal>)
      ensures r == if applied then Some(Clone(last)) else None
    {
      if !applied {
        return None;
      }
      r := Some(Clone(last));
    }

    /** All or nothing: either every entry is accepted and the whole batch is applied, or nothing changes
        and exactly the offending names are reported, each once. */
    method SetKeys(req: Request) returns (r: Result<ConfigUniversal, ConfigError>)
      requires Valid()
      modifies this
      ensures Valid() && applied == old(applied) && seeded == old(seeded)
      ensures batches == if r.Ok? then old(batches) + [req] else old(batches)
      ensures !old(applied) ==> r == Err(NotApplied) && last == old(last)
      ensures old(applied) && Rejected(req, req.Keys, scan) == {} ==>
                r == Ok(last) && last == Clone(old(last)).(appearance := Applied(old(last).appearance, req, scan))
      ensures old(applied) && Rejected(req, req.Keys, scan) != {} ==>
                last == old(last) && r.Err? && r.error.UnsupportedKeys?
                && NoDup(r.error.names) && SetOf(r.error.names) == Rejected(req, req.Keys, scan)
    {
      if !applied {
        return Err(NotApplied);
      }
      var next := Clone(last);
      var cell, unknown := Write(next.appearance, req);
      if |unknown| > 0 {
        assert unknown[0] in SetOf(unknown);
        return Err(UnsupportedKeys(unknown));
      }
      assert SetOf(unknown) == {};
      ReadsLikeAfter(last.appearance, seeded, batches, req, scan);
      next := next.(appearance := cell);
      last := next;
      batches := batches + [req];
      r := Ok(Clone(last));
    }

    /** The loop over the batch, whose entries come in an arbitrary order. */
    method Write(a: ConfigAppearance, req: Request) returns (r: ConfigAppearance, unknown: seq<string>)
      ensures r == Applied(a, req, scan)
      ensures NoDup(unknown) && SetOf(unknown) == Rejected(req, req.Keys, scan)
    {
      var cell := new AppearanceCell(a);
      var pending := req.Keys;
      unknown := [];
      assert Chosen(req, {}, scan) == map[];
      while pending != {}
        invariant pending <= req.Keys
        invariant cell.Value() == Overlay(a, Chosen(req, req.Keys - pending, scan))
        invariant NoDup(unknown) && SetOf(unknown) == Rejected(req, req.Keys - pending, scan)
        decreases |pending|
      {
        var n :| n in pending;
        ghost var done := req.Keys - pending;
        pending := pending - {n};
        assert req.Keys - pending == done + {n};
        var ok := cell.Set(n, req[n], scan);
        WriteStep(a, req, done, n, scan);
        if !ok {
          SetOfConcat(unknown, [n]);
          NoDupConcat(unknown, [n]);
          unknown := unknown + [n];
        }
      }
      assert req.Keys - {} == req.Keys;
      r := cell.Value();
    }

    method SetKey(name: string, value: Dynamic) returns (r: Result<ConfigUniversal, ConfigError>)
      requires Valid()
      modifies this
      ensures Valid() && applied == old(applied) && seeded == old(seeded)
      ensures batches == if r.Ok? then old(batches) + [map[name := value]] else old(batches)
      ensures !old(applied) ==> r == Err(NotApplied) && last == old(last)
      ensures old(applied) ==>
                if Accepts(name, value, scan)
                then r == Ok(last) && last == Clone(old(last)).(appearance := Applied(old(last).appearance, map[name := value], scan))
                else r.Err? && last == old(last)
    {
      ghost var req := map[name := value];
      assert req.Keys == {name};
      assert Rejected(req, req.Keys, scan) == if Accepts(name, value, scan) then {} else {name};
      r := SetKeys(map[name := value]);
    }

    /** Reads the value that the last accepted batch to name the key gave it, coerced, or else the one seeded; an
        unset key reads as Ok(None), an unknown name is an error. */
    method GetKey(name: string) returns (r: Result<Option<Scalar>, ConfigError>)
      requires Valid()
      ensures !applied ==> r == Err(NotApplied)
      ensures applied && KeyOf(name).None? ==> r == Err(UnsupportedKeys([name]))
      ensures applied && KeyOf(name).Some? ==> r == Ok(Written(seeded, batches, KeyOf(name).value, scan))
      ensures applied && KeyOf(name).Some? && batches != [] && name in batches[|batches| - 1] ==>
                forall x :: r == Ok(Some(x)) <==> ReadsAs(KeyOf(name).value, batches[|batches| - 1][name], x, scan)
    {
      if !applied {
        return Err(NotApplied);
      }
      var key := KeyOf(name);
      if key.None? {
        return Err(UnsupportedKeys([name]));
      }
      r := Ok(Get(last.appearance, key.value));
      LastBatchReads(name);
    }

    lemma LastBatchReads(name: string)
      ensures KeyOf(name).Some? && batches != [] && name in batches[|batches| - 1] ==>
                forall x :: Written(seeded, batches, KeyOf(name).value, scan) == Some(x)
                            <==> ReadsAs(KeyOf(name).value, batches[|batches| - 1][name], x, scan)
    {
      if KeyOf(name).Some? && batches != [] && name in batches[|batches| - 1] {
        NamesAreKeys(KeyOf(name).value, name);
        forall x ensures Written(seeded, batches, KeyOf(name).value, scan) == Some(x)
                         <==> ReadsAs(KeyOf(name).value, batches[|batches| - 1][name], x, scan) {
          WrittenReads(seeded, batches, KeyOf(name).value, scan, |batches| - 1, x);
        }
      }
    }

    method ApplyKeybinds(payload: BatchKeybinds) returns (r: Result<ConfigUniversal, ConfigError>)
      requires Valid()
      modifies this
      ensures Valid() && applied == old(applied) && seeded == old(seeded) && batches == old(batches)
      ensures !old(applied) ==> r == Err(NotApplied) && last == old(last)
      ensures old(applied) ==>
                && last == Clone(old(last)).(keybinds := Batch.Apply(CloneKeybinds(old(last).keybinds), payload))
                && r == Ok(Clone(last))
    {
      if !applied {
        return Err(NotApplied);
      }
      var next := Clone(last);
      var table := new Batch.KeybindTable(next.keybinds);
      table.ApplyPayload(payload);
      next := next.(keybinds := table.Value());
      last := next;
      r := Ok(Clone(last));
    }
  }
}

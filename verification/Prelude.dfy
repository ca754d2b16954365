/** Vocabulary shared by every part of the axctl model. */
module Prelude {

  datatype Option<+T> = None | Some(value: T) {
    function GetOr(default: T): T {
      if Some? then value else default
    }
  }

  datatype Result<+T, +E> = Ok(value: T) | Err(error: E)

  predicate NoDup<T(==)>(s: seq<T>) {
    forall i, j :: 0 <= i < j < |s| ==> s[i] != s[j]
  }

  function SetOf<T>(s: seq<T>): set<T> {
    set x | x in s
  }

  lemma SetOfConcat<T>(a: seq<T>, b: seq<T>)
    ensures SetOf(a + b) == SetOf(a) + SetOf(b)
  {
    assert forall x :: x in a + b <==> x in a || x in b;
  }

  lemma SetOfSnoc<T>(s: seq<T>, x: T)
    ensures SetOf(s + [x]) == SetOf(s) + {x}
  {
  }

  lemma Assoc<T>(a: seq<T>, b: seq<T>, c: seq<T>)
    ensures a + (b + c) == a + b + c
  {
  }

  lemma Unit<T>(a: seq<T>)
    ensures a + [] == a && [] + a == a
  {
  }

  lemma NoDupConcat<T>(a: seq<T>, b: seq<T>)
    requires NoDup(a) && NoDup(b) && SetOf(a) !! SetOf(b)
    ensures NoDup(a + b)
  {
    forall i, j | 0 <= i < j < |a + b| ensures (a + b)[i] != (a + b)[j] {
      if i < |a| <= j {
        assert a[i] in SetOf(a) && b[j - |a|] in SetOf(b);
      }
    }
  }

  /** ps are the values that f has on s, and at their places: every place where f has one, in order. */
  ghost predicate Selects<S, T>(s: seq<S>, f: S -> Option<T>, ps: seq<T>, at: seq<int>) {
    && |at| == |ps|
    && (forall k :: 0 <= k < |at| ==> 0 <= at[k] < |s| && f(s[at[k]]) == Some(ps[k]))
    && (forall k, l :: 0 <= k < l < |at| ==> at[k] < at[l])
    && (forall j :: 0 <= j < |s| && f(s[j]).Some? ==> j in at)
  }

  lemma SelectsSnoc<S, T>(s: seq<S>, f: S -> Option<T>, ps: seq<T>, at: seq<int>, x: S)
    requires Selects(s, f, ps, at)
    ensures f(x).Some? ==> Selects(s + [x], f, ps + [f(x).value], at + [|s|])
    ensures f(x).None? ==> Selects(s + [x], f, ps, at)
  {
    if f(x).Some? {
      forall j | 0 <= j < |s + [x]| && f((s + [x])[j]).Some? ensures j in at + [|s|] {
        assert j < |s| ==> f(s[j]).Some?;
      }
    }
  }
}

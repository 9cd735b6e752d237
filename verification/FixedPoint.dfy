/** Stabilising twice: when it changes nothing, and the one way it can. */
module FixedPoint {
  import opened Padding
  import opened Fixtures
  import opened CanonicalForm

  const URL := "comdove_webhook_url"

  lemma IdIn(vs: seq<Leaf>, kind: Kind, i: nat)
    requires i < |vs| && IsId(vs[i], kind)
    ensures vs[i].value.s in Firsts(vs, kind)
  {
    FirstsAre(vs, kind);
  }

  /** The number an id gets; 0 for what is none. */
  function NumberOf(vs: seq<Leaf>, kind: Kind, i: nat): nat
    requires i < |vs|
  {
    if IsId(vs[i], kind) && vs[i].value.s in Firsts(vs, kind) then IndexOf(Firsts(vs, kind), vs[i].value.s) + 1 else 0
  }

  /** The stand-ins that are ids themselves: the first ones, until the padding runs out. */
  function Cap(kind: Kind, n: nat): (m: nat)
    ensures m <= n
  {
    if n == 0 then 0 else Cap(kind, n - 1) + if FitsPad(kind, n) then 1 else 0
  }

  lemma {:induction false} CapIs(kind: Kind, n: nat, j: nat)
    requires 1 <= j <= n
    ensures j <= Cap(kind, n) <==> FitsPad(kind, j)
    ensures FitsPad(kind, n) ==> Cap(kind, n) == n
  {
    if n > 1 {
      CapIs(kind, n - 1, if j < n then j else n - 1);
      if FitsPad(kind, n) { DigitsGrow(kind, n - 1, n); }
    } else {
      assert Cap(kind, 0) == 0;
    }
  }

  function StandIns(kind: Kind, m: nat): (r: seq<string>)
    ensures |r| == m && forall i | 0 <= i < m :: r[i] == StandIn(kind, i + 1)
  {
    seq(m, i requires 0 <= i < m => StandIn(kind, i + 1))
  }

  lemma StandInsHave(kind: Kind, m: nat, n: nat)
    requires n >= 1
    ensures StandIn(kind, n) in StandIns(kind, m) <==> n <= m
    ensures n <= m ==> IndexOf(StandIns(kind, m), StandIn(kind, n)) == n - 1
  {
    var xs := StandIns(kind, m);
    if StandIn(kind, n) in xs {
      var i := IndexOf(xs, StandIn(kind, n));
      StandInInjective(kind, i + 1, n);
    }
    if n <= m { assert xs[n - 1] == StandIn(kind, n); }
  }

  lemma {:induction false} IndexPrefix(xs: seq<string>, ys: seq<string>, x: string)
    requires xs <= ys && x in xs
    ensures x in ys && IndexOf(ys, x) == IndexOf(xs, x)
  {
    assert xs[0] == ys[0];
    if xs[0] != x { IndexPrefix(xs[1..], ys[1..], x); }
  }

  lemma FirstsGrow(vs: seq<Leaf>, kind: Kind)
    requires vs != []
    ensures Firsts(vs[..|vs| - 1], kind) <= Firsts(vs, kind)
  {}

  ghost predicate OneNumber(v: Leaf, w: Leaf, kind: Kind, ids: seq<string>) {
    if IsId(v, kind) then v.value.s in ids && w.value == Str(StandIn(kind, IndexOf(ids, v.value.s) + 1)) else !IsId(w, kind)
  }

  /** `ws` is `vs` with the ids of this kind replaced, numbered by `ids`. */
  ghost predicate Numbers(vs: seq<Leaf>, ws: seq<Leaf>, kind: Kind, ids: seq<string>) {
    |ws| == |vs| && forall i | 0 <= i < |vs| :: OneNumber(vs[i], ws[i], kind, ids)
  }

  /** The second time, the ids found are the stand-ins that fit, in order. */
  lemma {:induction false} SecondFirsts(vs: seq<Leaf>, ws: seq<Leaf>, kind: Kind, ids: seq<string>)
    requires Numbers(vs, ws, kind, ids) && Firsts(vs, kind) <= ids
    ensures Firsts(ws, kind) == StandIns(kind, Cap(kind, |Firsts(vs, kind)|))
  {
    if vs != [] {
      var k := |vs| - 1;
      FirstsGrow(vs, kind);
      NumbersInit(vs, ws, kind, ids);
      SecondFirsts(vs[..k], ws[..k], kind, ids);
      if IsId(vs[k], kind) {
        IdIn(vs, kind, k);
        SecondId(Firsts(vs[..k], kind), Firsts(vs, kind), ids, kind, vs[k].value.s);
      }
    }
  }

  lemma NumbersInit(vs: seq<Leaf>, ws: seq<Leaf>, kind: Kind, ids: seq<string>)
    requires Numbers(vs, ws, kind, ids) && vs != []
    ensures Numbers(vs[..|vs| - 1], ws[..|vs| - 1], kind, ids)
  {}

  /** The list of stand-ins found so far, and one more id. */
  lemma SecondId(prior: seq<string>, all: seq<string>, ids: seq<string>, kind: Kind, s: string)
    requires prior <= all <= ids && s in all
    requires all == if s in prior then prior else prior + [s]
    ensures s in ids
    ensures var found, t := StandIns(kind, Cap(kind, |prior|)), StandIn(kind, IndexOf(ids, s) + 1);
            StandIns(kind, Cap(kind, |all|)) == if Matches(kind, t) && t !in found then found + [t] else found
  {
    IndexPrefix(all, ids, s);
    var n := IndexOf(ids, s) + 1;
    if s in prior {
      IndexPrefix(prior, ids, s);
    } else {
      IndexLast(prior, s);
    }
    SecondStep(kind, |prior|, n);
  }

  /** One more stand-in: in the list already, new, or no id any more. */
  lemma SecondStep(kind: Kind, m: nat, n: nat)
    requires 1 <= n <= m + 1
    ensures n <= m ==> (Matches(kind, StandIn(kind, n)) ==> StandIn(kind, n) in StandIns(kind, Cap(kind, m)))
    ensures n == m + 1 && FitsPad(kind, n) ==> StandIns(kind, Cap(kind, n)) == StandIns(kind, Cap(kind, m)) + [StandIn(kind, n)]
    ensures n == m + 1 && FitsPad(kind, n) ==> StandIn(kind, n) !in StandIns(kind, Cap(kind, m))
    ensures n == m + 1 && !FitsPad(kind, n) ==> Cap(kind, n) == Cap(kind, m)
    ensures Matches(kind, StandIn(kind, n)) <==> FitsPad(kind, n)
  {
    StandInMatches(kind, kind, n);
    StandInsHave(kind, Cap(kind, m), n);
    if n <= m {
      CapIs(kind, m, n);
    } else if FitsPad(kind, n) {
      CapIs(kind, n, n);
    }
  }

  // ---- leaf by leaf ----

  lemma OutNumbers(vs: seq<Leaf>, ws: seq<Leaf>, kind: Kind)
    requires Rewritten(vs, ws, TableOf(vs))
    ensures Numbers(vs, ws, kind, Firsts(vs, kind))
    ensures Firsts(ws, kind) == StandIns(kind, Cap(kind, |Firsts(vs, kind)|))
  {
    forall i | 0 <= i < |vs| ensures OneNumber(vs[i], ws[i], kind, Firsts(vs, kind)) {
      if IsId(vs[i], kind) { IdOut(vs, kind, i); } else { NoNewId(vs, kind, i); }
    }
    SecondFirsts(vs, ws, kind, Firsts(vs, kind));
  }

  lemma NoNewId(vs: seq<Leaf>, kind: Kind, i: nat)
    requires i < |vs| && !IsId(vs[i], kind)
    ensures var r := Replace(vs[i], TableOf(vs)); !(r.Str? && Matches(kind, r.s))
  {
    if k: Kind :| IsId(vs[i], k) {
      IdOut(vs, k, i);
      StandInMatches(k, kind, IndexOf(Firsts(vs, k), vs[i].value.s) + 1);
    } else if !IsTime(vs[i]) {
      PlainOut(vs, vs[i]);
      ConstantsAreNoIds(kind);
    }
  }

  lemma NoSecret(kind: Kind, n: nat, key: string)
    ensures !Secret(Leaf(key, Str(StandIn(kind, n)))) && StandIn(kind, n) != "http://localhost:3000/webhooks/whatsapp"
  {
    var s := StandIn(kind, n);
    assert s[0] == Prefix(kind)[0] && |s| >= 11;
    assert s[..11][0] == s[0] && "mock-token-"[0] == 'm';
  }

  lemma NumberIs(vs: seq<Leaf>, kind: Kind, i: nat)
    requires i < |vs| && IsId(vs[i], kind)
    ensures 1 <= NumberOf(vs, kind, i) <= |Firsts(vs, kind)|
    ensures Replace(vs[i], TableOf(vs)) == Str(StandIn(kind, NumberOf(vs, kind, i)))
  {
    IdOut(vs, kind, i);
  }

  lemma FittingTwice(vs: seq<Leaf>, ws: seq<Leaf>, kind: Kind, i: nat)
    requires Rewritten(vs, ws, TableOf(vs)) && i < |vs| && IsId(vs[i], kind) && FitsPad(kind, NumberOf(vs, kind, i))
    ensures Replace(ws[i], TableOf(ws)) == ws[i].value
  {
    var n, m := NumberOf(vs, kind, i), |Firsts(vs, kind)|;
    NumberIs(vs, kind, i);
    OutNumbers(vs, ws, kind);
    StandInMatches(kind, kind, n);
    CapIs(kind, m, n);
    StandInsHave(kind, Cap(kind, m), n);
    IdOut(ws, kind, i);
  }

  lemma OverflownTwice(vs: seq<Leaf>, ws: seq<Leaf>, kind: Kind, i: nat)
    requires Rewritten(vs, ws, TableOf(vs)) && i < |vs| && IsId(vs[i], kind) && !FitsPad(kind, NumberOf(vs, kind, i))
    ensures Replace(ws[i], TableOf(ws)) == ws[i].value <==> vs[i].key != URL
  {
    var n := NumberOf(vs, kind, i);
    NumberIs(vs, kind, i);
    StandInMatches(kind, Wamid, n);
    StandInMatches(kind, Trace, n);
    PlainOut(ws, ws[i]);
    NoSecret(kind, n, vs[i].key);
  }

  /** An id whose number overflowed stands where the own address is blanked. */
  ghost predicate Overflown(vs: seq<Leaf>, kind: Kind, i: nat)
    requires i < |vs|
  {
    IsId(vs[i], kind) && !FitsPad(kind, NumberOf(vs, kind, i)) && vs[i].key == URL
  }

  lemma TimeTwice(vs: seq<Leaf>, ws: seq<Leaf>, i: nat)
    requires Rewritten(vs, ws, TableOf(vs)) && i < |vs| && IsTime(vs[i])
    ensures Replace(ws[i], TableOf(ws)) == ws[i].value
  {
    forall a | 0 <= a < |vs| ensures IsTime(vs[a]) <==> IsTime(ws[a]) {
      assert Replace(vs[a], TableOf(vs)).Num? <==> vs[a].value.Num?;
    }
    forall a, b | 0 <= a < |vs| && 0 <= b < |vs| && IsTime(vs[a]) && IsTime(vs[b])
      ensures vs[a].value.n < vs[b].value.n <==> ws[a].value.n < ws[b].value.n
    {
      KeepsOrder(vs, a, b);
    }
    SameTimeStandIn(vs, ws, i);
  }

  lemma PlainTwice(vs: seq<Leaf>, ws: seq<Leaf>, i: nat)
    requires Rewritten(vs, ws, TableOf(vs)) && i < |vs| && IsPlain(vs[i])
    ensures Replace(ws[i], TableOf(ws)) == ws[i].value
  {
    PlainOut(vs, vs[i]);
    NoNewId(vs, Wamid, i);
    NoNewId(vs, Trace, i);
    PlainOut(ws, ws[i]);
    BlankTwice(vs[i]);
  }

  lemma BlankTwice(v: Leaf)
    requires IsPlain(v)
    ensures Blank(Leaf(v.key, Blank(v))) == Blank(v)
  {}

  ghost predicate Overflows(vs: seq<Leaf>) {
    exists i: nat | i < |vs| :: Overflown(vs, Wamid, i) || Overflown(vs, Trace, i)
  }

  lemma OneKind(vs: seq<Leaf>, i: nat)
    requires i < |vs|
    ensures !IsId(vs[i], Wamid) || !IsId(vs[i], Trace)
  {
    if vs[i].value.Str? { KindsDiffer(vs[i].value.s); }
  }

  lemma IdTwice(vs: seq<Leaf>, ws: seq<Leaf>, kind: Kind, i: nat)
    requires Rewritten(vs, ws, TableOf(vs)) && i < |vs| && IsId(vs[i], kind)
    ensures Replace(ws[i], TableOf(ws)) == ws[i].value <==> !Overflown(vs, kind, i)
  {
    if FitsPad(kind, NumberOf(vs, kind, i)) { FittingTwice(vs, ws, kind, i); } else { OverflownTwice(vs, ws, kind, i); }
  }

  lemma LeafTwice(vs: seq<Leaf>, ws: seq<Leaf>, i: nat)
    requires Rewritten(vs, ws, TableOf(vs)) && i < |vs|
    ensures Replace(ws[i], TableOf(ws)) == ws[i].value <==> !Overflown(vs, Wamid, i) && !Overflown(vs, Trace, i)
  {
    OneKind(vs, i);
    if IsId(vs[i], Wamid) {
      IdTwice(vs, ws, Wamid, i);
    } else if IsId(vs[i], Trace) {
      IdTwice(vs, ws, Trace, i);
    } else if IsTime(vs[i]) {
      TimeTwice(vs, ws, i);
    } else {
      PlainTwice(vs, ws, i);
    }
  }

  /** Stabilising again changes nothing, exactly unless an overflowed id stands under the key of the own address. */
  lemma Idempotent(t: Json)
    ensures Stable(Stable(t)) == Stable(t) <==> !Overflows(Leaves(t, ""))
  {
    var vs, ws := Leaves(t, ""), Leaves(Stable(t), "");
    WalkLeaves(t, "", TableOf(vs));
    WalkEqual(Stable(t), t, "", TableOf(ws), TableOf(vs));
    AllTwice(vs, ws);
  }

  lemma AllTwice(vs: seq<Leaf>, ws: seq<Leaf>)
    requires Rewritten(vs, ws, TableOf(vs))
    ensures SameOut(ws, TableOf(ws), vs, TableOf(vs)) <==> !Overflows(vs)
  {
    forall i: nat | i < |vs|
      ensures Replace(ws[i], TableOf(ws)) == Replace(vs[i], TableOf(vs)) <==> !(Overflown(vs, Wamid, i) || Overflown(vs, Trace, i))
    {
      LeafTwice(vs, ws, i);
    }
  }

  lemma FitsOne(vs: seq<Leaf>, kind: Kind, i: nat)
    requires FitsPad(kind, |Firsts(vs, kind)|) && i < |vs|
    ensures !Overflown(vs, kind, i)
  {
    if IsId(vs[i], kind) {
      NumberIs(vs, kind, i);
      DigitsGrow(kind, NumberOf(vs, kind, i), |Firsts(vs, kind)|);
    }
  }

  /** So every recording whose numbers fit is stable after one pass. */
  lemma FitsIsStable(t: Json)
    requires Fits(Leaves(t, ""))
    ensures Stable(Stable(t)) == Stable(t)
  {
    Idempotent(t);
    var vs := Leaves(t, "");
    forall i: nat | i < |vs| ensures !(Overflown(vs, Wamid, i) || Overflown(vs, Trace, i)) {
      FitsOne(vs, Wamid, i);
      FitsOne(vs, Trace, i);
    }
  }

  // ---- a recording that is not stable after one pass ----

  function TraceOf(i: nat): string { Prefix(Trace) + Pad(i, 6) }

  /** All the trace ids below `n`, in a list under the key of the own address. */
  function Crowd(n: nat): seq<Json> {
    seq(n, i requires 0 <= i < n => Str(TraceOf(i)))
  }

  function Flat(n: nat): (vs: seq<Leaf>)
    ensures |vs| == n && forall i | 0 <= i < n :: vs[i] == Leaf(URL, Str(TraceOf(i)))
  {
    seq(n, i requires 0 <= i < n => Leaf(URL, Str(TraceOf(i))))
  }

  lemma {:induction false} FlatLeaves(items: seq<Json>, vs: seq<Leaf>)
    requires |items| == |vs| && forall i | 0 <= i < |items| :: IsLeaf(items[i]) && vs[i] == Leaf(URL, items[i])
    ensures LeavesOf(items, URL) == vs
  {
    if items != [] {
      FlatLeaves(items[1..], vs[1..]);
      assert vs == [vs[0]] + vs[1..];
    }
  }

  lemma Million()
    ensures !FitsPad(Trace, 1000000) && FitsPad(Trace, 999999)
  {
    assert |Digits(1)| == 1 && |Digits(10)| == 2 && |Digits(100)| == 3;
    assert |Digits(1000)| == 4;
    assert |Digits(10000)| == 5;
    assert |Digits(100000)| == 6;
    assert |Digits(1000000)| == 7;
    assert |Digits(9)| == 1 && |Digits(99)| == 2 && |Digits(999)| == 3;
    assert |Digits(9999)| == 4;
    assert |Digits(99999)| == 5;
    assert |Digits(999999)| == 6;
  }

  lemma TraceIsId(i: nat)
    requires i < 1000000
    ensures Matches(Trace, TraceOf(i))
  {
    Million();
    DigitsGrow(Trace, i, 999999);
    StandInMatches(Trace, Trace, i);
  }

  function TraceIds(n: nat): (r: seq<string>)
    ensures |r| == n && forall i | 0 <= i < n :: r[i] == TraceOf(i)
  {
    seq(n, i requires 0 <= i < n => TraceOf(i))
  }

  lemma TraceIsNew(n: nat)
    ensures TraceOf(n) !in TraceIds(n)
  {
    forall i | 0 <= i < n ensures TraceIds(n)[i] != TraceOf(n) { StandInInjective(Trace, i, n); }
  }

  lemma {:induction false} CrowdFirsts(n: nat)
    requires n <= 1000000
    ensures Firsts(Flat(n), Trace) == TraceIds(n)
  {
    if n > 0 {
      CrowdFirsts(n - 1);
      assert Flat(n)[..n - 1] == Flat(n - 1);
      TraceIsId(n - 1);
      TraceIsNew(n - 1);
      assert TraceIds(n) == TraceIds(n - 1) + [TraceOf(n - 1)];
    }
  }

  /** A million trace ids under that key: the last stand-in has seven digits and is blanked the second time. */
  lemma MillionTracesUnstable()
    ensures var t := Obj([Field(URL, Arr(Crowd(1000000)))]); Stable(Stable(t)) != Stable(t)
  {
    var n := 1000000;
    var t := Obj([Field(URL, Arr(Crowd(n)))]);
    var vs := Leaves(t, "");
    FlatLeaves(Crowd(n), Flat(n));
    OneField(Field(URL, Arr(Crowd(n))));
    assert vs == Flat(n);
    CrowdFirsts(n);
    TraceIsId(n - 1);
    TraceIsNew(n - 1);
    assert TraceIds(n) == TraceIds(n - 1) + [TraceOf(n - 1)];
    IndexLast(TraceIds(n - 1), TraceOf(n - 1));
    assert IsId(vs[n - 1], Trace) && NumberOf(vs, Trace, n - 1) == n;
    Million();
    assert Overflown(vs, Trace, n - 1);
    Idempotent(t);
  }

  lemma OneField(f: Field)
    ensures LeavesIn([f]) == Leaves(f.value, f.name)
  {
    assert [f][1..] == [];
  }
}

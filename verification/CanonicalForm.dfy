/**
 Two recordings of the same session come out the same, and only those: stable fixtures are a canonical form under
 renaming of ids and reordering-free change of times.
 */
module CanonicalForm {
  import opened Padding
  import opened Fixtures

  // ---- the same session ----

  /** Ids sit in the same places and are equal in the same places: one list is an injective renaming of the other. */
  ghost predicate Renames(vs: seq<Leaf>, ws: seq<Leaf>, kind: Kind) {
    && |vs| == |ws|
    && (forall i | 0 <= i < |vs| :: IsId(vs[i], kind) <==> IsId(ws[i], kind))
    && (forall i, j | 0 <= i < |vs| && 0 <= j < |vs| && IsId(vs[i], kind) && IsId(vs[j], kind) ::
          vs[i].value.s == vs[j].value.s <==> ws[i].value.s == ws[j].value.s)
  }

  /** Times sit in the same places, in the same order. */
  ghost predicate SameOrder(vs: seq<Leaf>, ws: seq<Leaf>) {
    && |vs| == |ws|
    && (forall i | 0 <= i < |vs| :: IsTime(vs[i]) <==> IsTime(ws[i]))
    && (forall i, j | 0 <= i < |vs| && 0 <= j < |vs| && IsTime(vs[i]) && IsTime(vs[j]) ::
          vs[i].value.n < vs[j].value.n <==> ws[i].value.n < ws[j].value.n)
  }

  predicate IsPlain(v: Leaf) { !IsId(v, Wamid) && !IsId(v, Trace) && !IsTime(v) }

  /** A leaf without the values that say nothing: durations, the uptime, the own address, generated tokens. */
  function Blank(v: Leaf): Json { Replace(v, Table([], [], {})) }

  ghost predicate SameElse(vs: seq<Leaf>, ws: seq<Leaf>) {
    |vs| == |ws| && forall i | 0 <= i < |vs| && IsPlain(vs[i]) :: Blank(vs[i]) == Blank(ws[i])
  }

  ghost predicate Alike(vs: seq<Leaf>, ws: seq<Leaf>) {
    SameKeys(vs, ws) && Renames(vs, ws, Wamid) && Renames(vs, ws, Trace) && SameOrder(vs, ws) && SameElse(vs, ws)
  }

  /** The numbers given fit into the padding, so that stand-ins are ids themselves. */
  predicate FitsPad(kind: Kind, n: nat) { |Digits(n)| <= Width(kind) }

  predicate Fits(vs: seq<Leaf>) { FitsPad(Wamid, |Firsts(vs, Wamid)|) && FitsPad(Trace, |Firsts(vs, Trace)|) }

  // ---- ids ----

  lemma {:induction false} FirstsAre(vs: seq<Leaf>, kind: Kind)
    ensures forall s :: s in Firsts(vs, kind) <==> exists i :: 0 <= i < |vs| && IsId(vs[i], kind) && vs[i].value.s == s
    ensures forall s | s in Firsts(vs, kind) :: Matches(kind, s)
  {
    if vs != [] {
      var n := |vs| - 1;
      FirstsAre(vs[..n], kind);
      forall s ensures s in Firsts(vs, kind) <==> exists i :: 0 <= i < |vs| && IsId(vs[i], kind) && vs[i].value.s == s {
        if s in Firsts(vs[..n], kind) {
          var i :| 0 <= i < n && IsId(vs[..n][i], kind) && vs[..n][i].value.s == s;
          assert vs[i] == vs[..n][i];
        }
        if i :| 0 <= i < |vs| && IsId(vs[i], kind) && vs[i].value.s == s {
          assert i < n ==> vs[..n][i] == vs[i];
        }
      }
    }
  }

  lemma RenamesInit(vs: seq<Leaf>, ws: seq<Leaf>, kind: Kind, n: nat)
    requires Renames(vs, ws, kind) && n <= |vs|
    ensures Renames(vs[..n], ws[..n], kind)
  {}

  /** Whether the last id is new is the same in both lists. */
  lemma SameNews(vs: seq<Leaf>, ws: seq<Leaf>, kind: Kind)
    requires Renames(vs, ws, kind) && vs != [] && IsId(vs[|vs| - 1], kind)
    ensures var n := |vs| - 1; vs[n].value.s in Firsts(vs[..n], kind) <==> ws[n].value.s in Firsts(ws[..n], kind)
  {
    var n := |vs| - 1;
    FirstsAre(vs[..n], kind);
    FirstsAre(ws[..n], kind);
    if vs[n].value.s in Firsts(vs[..n], kind) {
      var i :| 0 <= i < n && IsId(vs[..n][i], kind) && vs[..n][i].value.s == vs[n].value.s;
      assert IsId(ws[..n][i], kind) && ws[..n][i].value.s == ws[n].value.s;
    }
    if ws[n].value.s in Firsts(ws[..n], kind) {
      var i :| 0 <= i < n && IsId(ws[..n][i], kind) && ws[..n][i].value.s == ws[n].value.s;
      assert IsId(vs[..n][i], kind) && vs[..n][i].value.s == vs[n].value.s;
    }
  }

  /** An id seen before has an earlier twin, at the same place in both lists. */
  lemma EarlierTwin(vs: seq<Leaf>, ws: seq<Leaf>, kind: Kind, n: nat) returns (j: nat)
    requires Renames(vs, ws, kind) && n < |vs| && IsId(vs[n], kind) && vs[n].value.s in Firsts(vs[..n], kind)
    ensures j < n && IsId(vs[j], kind) && vs[j].value.s == vs[n].value.s && ws[j].value.s == ws[n].value.s
  {
    FirstsAre(vs[..n], kind);
    j :| 0 <= j < n && IsId(vs[..n][j], kind) && vs[..n][j].value.s == vs[n].value.s;
    assert vs[j] == vs[..n][j];
  }

  /** A renaming does not change when an id is first seen. */
  lemma {:induction false} SameIndex(vs: seq<Leaf>, ws: seq<Leaf>, kind: Kind, i: nat)
    requires Renames(vs, ws, kind) && i < |vs| && IsId(vs[i], kind)
    ensures vs[i].value.s in Firsts(vs, kind) && ws[i].value.s in Firsts(ws, kind)
    ensures IndexOf(Firsts(vs, kind), vs[i].value.s) == IndexOf(Firsts(ws, kind), ws[i].value.s)
  {
    var n := |vs| - 1;
    RenamesInit(vs, ws, kind, n);
    SameCount(vs[..n], ws[..n], kind);
    assert vs == vs[..n] + [vs[n]] && ws == ws[..n] + [ws[n]];
    FirstsAppend(vs[..n], vs[n], kind);
    FirstsAppend(ws[..n], ws[n], kind);
    if i < n {
      SameIndex(vs[..n], ws[..n], kind, i);
      if IsId(vs[n], kind) { SameNews(vs, ws, kind); }
    } else {
      SameNews(vs, ws, kind);
      if vs[n].value.s in Firsts(vs[..n], kind) {
        var j := EarlierTwin(vs, ws, kind, n);
        SameIndex(vs[..n], ws[..n], kind, j);
      }
    }
  }

  lemma {:induction false} SameCount(vs: seq<Leaf>, ws: seq<Leaf>, kind: Kind)
    requires Renames(vs, ws, kind)
    ensures |Firsts(vs, kind)| == |Firsts(ws, kind)|
  {
    if vs != [] {
      var n := |vs| - 1;
      RenamesInit(vs, ws, kind, n);
      SameCount(vs[..n], ws[..n], kind);
      if IsId(vs[n], kind) { SameNews(vs, ws, kind); }
    }
  }

  // ---- times ----

  function Below(times: set<real>, x: real): set<real> { set s | s in times && s < x }

  lemma {:induction false} TimesAre(vs: seq<Leaf>)
    ensures forall t :: t in Times(vs) <==> exists i :: 0 <= i < |vs| && IsTime(vs[i]) && vs[i].value.n == t
  {
    if vs != [] {
      var n := |vs| - 1;
      TimesAre(vs[..n]);
      forall t ensures t in Times(vs) <==> exists i :: 0 <= i < |vs| && IsTime(vs[i]) && vs[i].value.n == t {
        if t in Times(vs[..n]) {
          var i :| 0 <= i < n && IsTime(vs[..n][i]) && vs[..n][i].value.n == t;
          assert vs[i] == vs[..n][i];
        }
        if i :| 0 <= i < |vs| && IsTime(vs[i]) && vs[i].value.n == t {
          assert i < n ==> vs[..n][i] == vs[i];
        }
      }
    }
  }

  lemma SameTimeNews(vs: seq<Leaf>, ws: seq<Leaf>)
    requires SameOrder(vs, ws) && vs != [] && IsTime(vs[|vs| - 1])
    ensures var n := |vs| - 1; vs[n].value.n in Times(vs[..n]) <==> ws[n].value.n in Times(ws[..n])
  {
    var n := |vs| - 1;
    TimesAre(vs[..n]);
    TimesAre(ws[..n]);
    if vs[n].value.n in Times(vs[..n]) {
      var i :| 0 <= i < n && IsTime(vs[..n][i]) && vs[..n][i].value.n == vs[n].value.n;
      assert IsTime(ws[i]) && !(vs[i].value.n < vs[n].value.n) && !(vs[n].value.n < vs[i].value.n);
      assert IsTime(ws[..n][i]) && ws[..n][i].value.n == ws[n].value.n;
    }
    if ws[n].value.n in Times(ws[..n]) {
      var i :| 0 <= i < n && IsTime(ws[..n][i]) && ws[..n][i].value.n == ws[n].value.n;
      assert IsTime(vs[i]) && !(ws[i].value.n < ws[n].value.n) && !(ws[n].value.n < ws[i].value.n);
      assert IsTime(vs[..n][i]) && vs[..n][i].value.n == vs[n].value.n;
    }
  }

  lemma BelowMore(times: set<real>, n: real, x: real)
    ensures |Below(times + {n}, x)| == |Below(times, x)| + if n < x && n !in times then 1 else 0
  {
    var below := Below(times, x);
    if n < x {
      assert Below(times + {n}, x) == below + {n};
      if n in times { assert below + {n} == below; }
    } else {
      assert Below(times + {n}, x) == below;
    }
  }

  /** As many different times lie below a cut in one list as below the matching cut in the other. */
  lemma {:induction false} SameBelow(vs: seq<Leaf>, ws: seq<Leaf>, x: real, y: real)
    requires SameOrder(vs, ws)
    requires forall i | 0 <= i < |vs| && IsTime(vs[i]) :: vs[i].value.n < x <==> ws[i].value.n < y
    ensures |Below(Times(vs), x)| == |Below(Times(ws), y)|
  {
    if vs == [] {
      assert Below(Times(vs), x) == {} && Below(Times(ws), y) == {};
    } else {
      var n := |vs| - 1;
      SameBelow(vs[..n], ws[..n], x, y);
      if IsTime(vs[n]) {
        SameTimeNews(vs, ws);
        BelowMore(Times(vs[..n]), vs[n].value.n, x);
        BelowMore(Times(ws[..n]), ws[n].value.n, y);
      }
    }
  }

  lemma SameTimeStandIn(vs: seq<Leaf>, ws: seq<Leaf>, i: nat)
    requires SameOrder(vs, ws) && i < |vs| && IsTime(vs[i])
    ensures TimeStandIn(Times(vs), vs[i].value.n) == TimeStandIn(Times(ws), ws[i].value.n)
  {
    SameBelow(vs, ws, vs[i].value.n, ws[i].value.n);
    assert (set s | s in Times(vs) && s < vs[i].value.n) == Below(Times(vs), vs[i].value.n);
    assert (set s | s in Times(ws) && s < ws[i].value.n) == Below(Times(ws), ws[i].value.n);
  }

  // ---- leaf by leaf ----

  lemma KindsDiffer(s: string)
    ensures !(Matches(Wamid, s) && Matches(Trace, s))
  {
    if Matches(Wamid, s) { assert s[0] == s[..|Prefix(Wamid)|][0] == 'w'; }
    if Matches(Trace, s) { assert s[0] == s[..|Prefix(Trace)|][0] == 'M'; }
  }

  /** What the second pass does to an id. */
  lemma IdOut(vs: seq<Leaf>, kind: Kind, i: nat)
    requires i < |vs| && IsId(vs[i], kind)
    ensures vs[i].value.s in Firsts(vs, kind)
    ensures Replace(vs[i], TableOf(vs)) == Str(StandIn(kind, IndexOf(Firsts(vs, kind), vs[i].value.s) + 1))
  {
    FirstsAre(vs, Wamid);
    FirstsAre(vs, Trace);
    KindsDiffer(vs[i].value.s);
  }

  /** A plain leaf is in no table. */
  lemma PlainOut(vs: seq<Leaf>, v: Leaf)
    requires IsPlain(v)
    ensures Replace(v, TableOf(vs)) == Blank(v)
  {
    FirstsAre(vs, Wamid);
    FirstsAre(vs, Trace);
  }

  lemma IdAlike(vs: seq<Leaf>, ws: seq<Leaf>, kind: Kind, i: nat)
    requires Renames(vs, ws, kind) && i < |vs| && IsId(vs[i], kind)
    ensures Replace(vs[i], TableOf(vs)) == Replace(ws[i], TableOf(ws))
  {
    IdAlikeOut(vs, ws, kind, i, Replace(vs[i], TableOf(vs)), Replace(ws[i], TableOf(ws)));
  }

  lemma IdAlikeOut(vs: seq<Leaf>, ws: seq<Leaf>, kind: Kind, i: nat, a: Json, b: Json)
    requires Renames(vs, ws, kind) && i < |vs| && IsId(vs[i], kind)
    requires a == Replace(vs[i], TableOf(vs)) && b == Replace(ws[i], TableOf(ws))
    ensures a == b
  {
    IdOut(vs, kind, i);
    IdOut(ws, kind, i);
    SameIndex(vs, ws, kind, i);
  }

  lemma AlikeOut(vs: seq<Leaf>, ws: seq<Leaf>, i: nat)
    requires Alike(vs, ws) && i < |vs|
    ensures Replace(vs[i], TableOf(vs)) == Replace(ws[i], TableOf(ws))
  {
    if IsId(vs[i], Wamid) {
      IdAlike(vs, ws, Wamid, i);
    } else if IsId(vs[i], Trace) {
      IdAlike(vs, ws, Trace, i);
    } else if IsTime(vs[i]) {
      SameTimeStandIn(vs, ws, i);
    } else {
      PlainOut(vs, vs[i]);
      PlainOut(ws, ws[i]);
    }
  }

  /** Recordings that differ only by renamed ids, times moved in order, and the blanked values come out equal. */
  lemma SameSessionSameForm(t: Json, u: Json)
    requires SameShape(t, u) && Alike(Leaves(t, ""), Leaves(u, ""))
    ensures Stable(t) == Stable(u)
  {
    var vs, ws := Leaves(t, ""), Leaves(u, "");
    forall i | 0 <= i < |vs| ensures Replace(vs[i], TableOf(vs)) == Replace(ws[i], TableOf(ws)) { AlikeOut(vs, ws, i); }
    WalkEqual(t, u, "", TableOf(vs), TableOf(ws));
  }

  // ---- what the form keeps ----

  lemma StandInMatches(kind: Kind, other: Kind, n: nat)
    ensures Matches(kind, StandIn(kind, n)) <==> FitsPad(kind, n)
    ensures other != kind ==> !Matches(other, StandIn(kind, n))
  {
    var s := StandIn(kind, n);
    assert s[..|Prefix(kind)|] == Prefix(kind);
    forall i | |Prefix(kind)| <= i < |s| ensures CharOk(kind, s[i]) { assert s[i] in Pad(n, Width(kind)); }
    assert |s| == |Prefix(kind)| + Width(kind) <==> FitsPad(kind, n);
    if other != kind { assert s[0] == Prefix(kind)[0] && Prefix(Wamid)[0] == 'w' && Prefix(Trace)[0] == 'M'; PrefixFirst(other, s); }
  }

  lemma PrefixFirst(kind: Kind, s: string)
    ensures Matches(kind, s) ==> s[0] == Prefix(kind)[0]
  {
    if Matches(kind, s) { assert s[0] == s[..|Prefix(kind)|][0]; }
  }

  lemma StandInInjective(kind: Kind, m: nat, n: nat)
    ensures StandIn(kind, m) == StandIn(kind, n) <==> m == n
  {
    PadInjective(m, n, Width(kind));
    assert StandIn(kind, m)[|Prefix(kind)|..] == Pad(m, Width(kind));
    assert StandIn(kind, n)[|Prefix(kind)|..] == Pad(n, Width(kind));
  }

  /** Equal ids stay equal, different ids stay different. */
  lemma KeepsEquality(vs: seq<Leaf>, kind: Kind, i: nat, j: nat)
    requires i < |vs| && j < |vs| && IsId(vs[i], kind) && IsId(vs[j], kind)
    ensures Replace(vs[i], TableOf(vs)) == Replace(vs[j], TableOf(vs)) <==> vs[i].value == vs[j].value
  {
    KeptApart(vs, kind, i, j, Replace(vs[i], TableOf(vs)), Replace(vs[j], TableOf(vs)));
  }

  lemma KeptApart(vs: seq<Leaf>, kind: Kind, i: nat, j: nat, a: Json, b: Json)
    requires i < |vs| && j < |vs| && IsId(vs[i], kind) && IsId(vs[j], kind)
    requires a == Replace(vs[i], TableOf(vs)) && b == Replace(vs[j], TableOf(vs))
    ensures a == b <==> vs[i].value == vs[j].value
  {
    IdOut(vs, kind, i);
    IdOut(vs, kind, j);
    SamePlace(Firsts(vs, kind), kind, vs[i].value.s, vs[j].value.s);
  }

  lemma SamePlace(firsts: seq<string>, kind: Kind, x: string, y: string)
    requires x in firsts && y in firsts
    ensures StandIn(kind, IndexOf(firsts, x) + 1) == StandIn(kind, IndexOf(firsts, y) + 1) <==> x == y
  {
    StandInInjective(kind, IndexOf(firsts, x) + 1, IndexOf(firsts, y) + 1);
  }

  lemma LaterRanksHigher(times: set<real>, s: real, t: real)
    requires s in times && s < t
    ensures TimeStandIn(times, s) < TimeStandIn(times, t)
  {
    var a, b := (set x | x in times && x < s), (set x | x in times && x < t);
    assert s in b - a && a <= b;
    SmallerSet(a, b, s);
  }

  lemma SmallerSet(a: set<real>, b: set<real>, x: real)
    requires a <= b && x in b && x !in a
    ensures |a| < |b|
  {
    var rest := b - a;
    assert x in rest && b == a + rest;
    assert |b| == |a| + |rest| && |rest| > 0;
  }

  /** Earlier stays earlier, equal stays equal. */
  lemma KeepsOrder(vs: seq<Leaf>, i: nat, j: nat)
    requires i < |vs| && j < |vs| && IsTime(vs[i]) && IsTime(vs[j])
    ensures Replace(vs[i], TableOf(vs)).n < Replace(vs[j], TableOf(vs)).n <==> vs[i].value.n < vs[j].value.n
  {
    TimesAre(vs);
    var s, t := vs[i].value.n, vs[j].value.n;
    if s < t { LaterRanksHigher(Times(vs), s, t); }
    if t < s { LaterRanksHigher(Times(vs), t, s); }
  }

  // ---- and nothing else is lost ----

  lemma {:induction false} DigitsGrow(kind: Kind, m: nat, n: nat)
    requires m <= n && FitsPad(kind, n)
    ensures FitsPad(kind, m)
  {
    MoreDigits(m, n);
  }

  lemma ConstantsAreNoIds(kind: Kind)
    ensures !Matches(kind, "http://localhost:3000/webhooks/whatsapp") && !Matches(kind, "mock-token-3f9c2a1b7e4d")
  {
    PrefixFirst(kind, "http://localhost:3000/webhooks/whatsapp");
    PrefixFirst(kind, "mock-token-3f9c2a1b7e4d");
  }

  /** After the second pass a leaf is an id exactly if it was one, as long as the numbers fit. */
  lemma IdsStay(vs: seq<Leaf>, kind: Kind, i: nat)
    requires i < |vs| && Fits(vs)
    ensures var r := Replace(vs[i], TableOf(vs)); r.Str? && Matches(kind, r.s) <==> IsId(vs[i], kind)
  {
    if k: Kind :| IsId(vs[i], k) {
      IdOut(vs, k, i);
      var n := IndexOf(Firsts(vs, k), vs[i].value.s) + 1;
      DigitsGrow(k, n, |Firsts(vs, k)|);
      StandInMatches(k, kind, n);
      KindsDiffer(vs[i].value.s);
    } else if !IsTime(vs[i]) {
      PlainOut(vs, vs[i]);
      ConstantsAreNoIds(kind);
    }
  }

  lemma OutRenames(vs: seq<Leaf>, ws: seq<Leaf>, kind: Kind)
    requires Fits(vs) && Fits(ws) && SameOut(vs, TableOf(vs), ws, TableOf(ws))
    ensures Renames(vs, ws, kind)
  {
    forall i | 0 <= i < |vs| ensures IsId(vs[i], kind) <==> IsId(ws[i], kind) {
      IdsStay(vs, kind, i);
      IdsStay(ws, kind, i);
    }
    forall i, j | 0 <= i < |vs| && 0 <= j < |vs| && IsId(vs[i], kind) && IsId(vs[j], kind)
      ensures vs[i].value.s == vs[j].value.s <==> ws[i].value.s == ws[j].value.s
    {
      KeepsEquality(vs, kind, i, j);
      KeepsEquality(ws, kind, i, j);
    }
  }

  lemma OutSameOrder(vs: seq<Leaf>, ws: seq<Leaf>)
    requires SameKeys(vs, ws) && SameOut(vs, TableOf(vs), ws, TableOf(ws))
    ensures SameOrder(vs, ws)
  {
    forall i | 0 <= i < |vs| ensures IsTime(vs[i]) <==> IsTime(ws[i]) {
      assert Replace(vs[i], TableOf(vs)).Num? <==> vs[i].value.Num?;
      assert Replace(ws[i], TableOf(ws)).Num? <==> ws[i].value.Num?;
    }
    forall i, j | 0 <= i < |vs| && 0 <= j < |vs| && IsTime(vs[i]) && IsTime(vs[j])
      ensures vs[i].value.n < vs[j].value.n <==> ws[i].value.n < ws[j].value.n
    {
      KeepsOrder(vs, i, j);
      KeepsOrder(ws, i, j);
    }
  }

  /** Equal forms come from alike sessions. */
  lemma SameFormSameSession(t: Json, u: Json)
    requires Stable(t) == Stable(u) && Fits(Leaves(t, "")) && Fits(Leaves(u, ""))
    ensures SameShape(t, u) && Alike(Leaves(t, ""), Leaves(u, ""))
  {
    var vs, ws := Leaves(t, ""), Leaves(u, "");
    WalkEqual(t, u, "", TableOf(vs), TableOf(ws));
    ShapeKeys(t, u, "");
    OutRenames(vs, ws, Wamid);
    OutRenames(vs, ws, Trace);
    OutSameOrder(vs, ws);
    forall i | 0 <= i < |vs| && IsPlain(vs[i]) ensures Blank(vs[i]) == Blank(ws[i]) {
      PlainOut(vs, vs[i]);
      PlainOut(ws, ws[i]);
    }
  }

  /**
   The canonical form: with at most 999999 trace ids and 24 digits' worth of wamids, two recordings come out equal
   exactly if they have the same shape and differ only by an injective renaming of ids, times moved without changing
   their order, and the blanked values.
   */
  lemma Canonical(t: Json, u: Json)
    requires Fits(Leaves(t, "")) && Fits(Leaves(u, ""))
    ensures Stable(t) == Stable(u) <==> SameShape(t, u) && Alike(Leaves(t, ""), Leaves(u, ""))
  {
    if Stable(t) == Stable(u) { SameFormSameSession(t, u); }
    if SameShape(t, u) && Alike(Leaves(t, ""), Leaves(u, "")) { SameSessionSameForm(t, u); }
  }
}

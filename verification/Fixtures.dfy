/** Decimal numbers with leading zeros. */
module Padding {
  function DigitChar(d: nat): char
    requires d < 10
  {
    ('0' as int + d) as char
  }

  function Digits(n: nat): (s: string)
    ensures s != [] && forall c | c in s :: '0' <= c <= '9'
  {
    if n < 10 then [DigitChar(n)] else Digits(n / 10) + [DigitChar(n % 10)]
  }

  function Zeros(k: nat): (s: string)
    ensures |s| == k && forall i | 0 <= i < |s| :: s[i] == '0'
  {
    if k == 0 then "" else Zeros(k - 1) + "0"
  }

  function Pad(n: nat, width: nat): (s: string)
    ensures |s| == if |Digits(n)| <= width then width else |Digits(n)|
    ensures forall c | c in s :: '0' <= c <= '9'
  {
    (if |Digits(n)| <= width then Zeros(width - |Digits(n)|) else "") + Digits(n)
  }

  function ValueOf(s: string): int {
    if s == [] then 0 else ValueOf(s[..|s| - 1]) * 10 + (s[|s| - 1] as int - '0' as int)
  }

  lemma {:induction false} DigitsValue(n: nat)
    ensures ValueOf(Digits(n)) == n
  {
    if n >= 10 {
      DigitsValue(n / 10);
      assert Digits(n)[..|Digits(n)| - 1] == Digits(n / 10);
    } else {
      assert Digits(n)[..0] == [];
    }
  }

  lemma {:induction false} ZerosValue(z: string, s: string)
    requires forall i | 0 <= i < |z| :: z[i] == '0'
    ensures ValueOf(z + s) == ValueOf(s)
  {
    if s == [] {
      assert z + s == z;
      AllZero(z);
    } else {
      assert (z + s)[..|z + s| - 1] == z + s[..|s| - 1];
      ZerosValue(z, s[..|s| - 1]);
    }
  }

  lemma {:induction false} AllZero(z: string)
    requires forall i | 0 <= i < |z| :: z[i] == '0'
    ensures ValueOf(z) == 0
  {
    if z != [] { AllZero(z[..|z| - 1]); }
  }

  /** Padding loses nothing. */
  lemma PadInjective(m: nat, n: nat, width: nat)
    ensures Pad(m, width) == Pad(n, width) <==> m == n
  {
    forall k: nat | k in {m, n} ensures ValueOf(Pad(k, width)) == k {
      DigitsValue(k);
      ZerosValue(if |Digits(k)| <= width then Zeros(width - |Digits(k)|) else "", Digits(k));
    }
  }

  lemma {:induction false} MoreDigits(m: nat, n: nat)
    requires m <= n
    ensures |Digits(m)| <= |Digits(n)|
  {
    if m >= 10 {
      assert 10 * (m / 10) <= m && n < 10 * (n / 10) + 10;
      MoreDigits(m / 10, n / 10);
    }
  }
}

/**
 Stable fixtures: random ids and times of a recorded session are replaced by stand-ins that keep what matters, which
 ids are equal and which times are earlier.
 */
module Fixtures {
  import opened Padding

  datatype Json = Arr(items: seq<Json>) | Obj(fields: seq<Field>) | Str(s: string) | Num(n: real) | Bool(b: bool) | Null

  datatype Field = Field(name: string, value: Json)

  predicate IsLeaf(j: Json) { !j.Arr? && !j.Obj? }

  /** A leaf with the key it stands under; items of an array stand under the array's key. */
  datatype Leaf = Leaf(key: string, value: Json)

  function Leaves(j: Json, key: string): (vs: seq<Leaf>)
    ensures forall v | v in vs :: IsLeaf(v.value)
    decreases j
  {
    match j
    case Arr(items) => LeavesOf(items, key)
    case Obj(fields) => LeavesIn(fields)
    case _ => [Leaf(key, j)]
  }

  function LeavesOf(items: seq<Json>, key: string): (vs: seq<Leaf>)
    ensures forall v | v in vs :: IsLeaf(v.value)
    decreases items
  {
    if items == [] then [] else Leaves(items[0], key) + LeavesOf(items[1..], key)
  }

  function LeavesIn(fields: seq<Field>): (vs: seq<Leaf>)
    ensures forall v | v in vs :: IsLeaf(v.value)
    decreases fields
  {
    if fields == [] then [] else Leaves(fields[0].value, fields[0].name) + LeavesIn(fields[1..])
  }

  // ---- what is replaced ----

  datatype Kind = Wamid | Trace

  function Prefix(kind: Kind): string { if kind.Wamid? then "wamid.MOCK-" else "MOCK-trace-" }
  function Width(kind: Kind): nat { if kind.Wamid? then 24 else 6 }

  predicate CharOk(kind: Kind, c: char) { '0' <= c <= '9' || (kind.Wamid? && 'a' <= c <= 'f') }

  predicate Matches(kind: Kind, s: string) {
    && |s| == |Prefix(kind)| + Width(kind) && s[..|Prefix(kind)|] == Prefix(kind)
    && forall i | |Prefix(kind)| <= i < |s| :: CharOk(kind, s[i])
  }

  predicate IsId(v: Leaf, kind: Kind) { v.value.Str? && Matches(kind, v.value.s) }

  predicate TimeKey(k: string) { k in {"time", "at", "created_at", "since", "locked_since", "finished_at"} }

  predicate IsTime(v: Leaf) { v.value.Num? && TimeKey(v.key) }

  /** What the first pass collects: ids by first appearance, and all times. */
  datatype Table = Table(wamids: seq<string>, traces: seq<string>, times: set<real>)

  function Firsts(vs: seq<Leaf>, kind: Kind): seq<string> {
    if vs == [] then []
    else
      var ids, v := Firsts(vs[..|vs| - 1], kind), vs[|vs| - 1];
      if IsId(v, kind) && v.value.s !in ids then ids + [v.value.s] else ids
  }

  function Times(vs: seq<Leaf>): set<real> {
    if vs == [] then {}
    else
      var times, v := Times(vs[..|vs| - 1]), vs[|vs| - 1];
      if IsTime(v) then times + {v.value.n} else times
  }

  function TableOf(vs: seq<Leaf>): Table { Table(Firsts(vs, Wamid), Firsts(vs, Trace), Times(vs)) }

  function IndexOf(xs: seq<string>, x: string): (i: nat)
    requires x in xs
    ensures i < |xs| && xs[i] == x
  {
    if xs[0] == x then 0 else 1 + IndexOf(xs[1..], x)
  }

  function StandIn(kind: Kind, n: nat): string { Prefix(kind) + Pad(n, Width(kind)) }

  const BASE := 1758270000000.0

  /** Times one second apart, in order. */
  function TimeStandIn(times: set<real>, t: real): real {
    BASE + 1000.0 * |set s | s in times && s < t| as real
  }

  predicate Secret(v: Leaf) {
    v.key == "token" && v.value.Str? && |v.value.s| >= 11 && v.value.s[..11] == "mock-token-" && v.value.s != "mock-token-dev"
  }

  /** The second pass, at one leaf. */
  function Replace(v: Leaf, tab: Table): (r: Json)
    ensures IsLeaf(v.value) ==> IsLeaf(r)
  {
    match v.value
    case Str(s) =>
      if s in tab.wamids then Str(StandIn(Wamid, IndexOf(tab.wamids, s) + 1))
      else if s in tab.traces then Str(StandIn(Trace, IndexOf(tab.traces, s) + 1))
      else if v.key == "comdove_webhook_url" then Str("http://localhost:3000/webhooks/whatsapp")
      else if Secret(v) then Str("mock-token-3f9c2a1b7e4d")
      else v.value
    case Num(n) =>
      if TimeKey(v.key) then Num(TimeStandIn(tab.times, n))
      else if v.key == "duration_ms" then Num(12.0)
      else if v.key == "uptime" then Num(42.0)
      else v.value
    case _ => v.value
  }

  function Walk(j: Json, key: string, tab: Table): Json
    decreases j
  {
    match j
    case Arr(items) => Arr(WalkItems(items, key, tab))
    case Obj(fields) => Obj(WalkFields(fields, tab))
    case _ => Replace(Leaf(key, j), tab)
  }

  function WalkItems(items: seq<Json>, key: string, tab: Table): seq<Json>
    decreases items
  {
    if items == [] then [] else [Walk(items[0], key, tab)] + WalkItems(items[1..], key, tab)
  }

  function WalkFields(fields: seq<Field>, tab: Table): seq<Field>
    decreases fields
  {
    if fields == [] then [] else [Field(fields[0].name, Walk(fields[0].value, fields[0].name, tab))] + WalkFields(fields[1..], tab)
  }

  function Stable(j: Json): Json { Walk(j, "", TableOf(Leaves(j, ""))) }

  // ---- the first pass, as it runs ----

  /** The maps and the set that the first pass fills. */
  class Collector {
    var wamids: map<string, string>
    var traces: map<string, string>
    var times: set<real>
    ghost var seen: seq<Leaf>

    ghost predicate Valid()
      reads this
    {
      Numbered(wamids, Wamid, Firsts(seen, Wamid)) && Numbered(traces, Trace, Firsts(seen, Trace)) && times == Times(seen)
    }

    constructor ()
      ensures Valid() && seen == []
    {
      wamids, traces, times, seen := map[], map[], {}, [];
    }

    /** One kind of id: numbered when first seen. */
    ghost static predicate Numbered(ids: map<string, string>, kind: Kind, firsts: seq<string>) {
      && |ids| == |firsts|
      && (forall s :: s in ids <==> s in firsts)
      && (forall s | s in ids :: ids[s] == StandIn(kind, IndexOf(firsts, s) + 1))
    }

    static method Note(ids: map<string, string>, kind: Kind, v: Leaf, ghost vs: seq<Leaf>) returns (r: map<string, string>)
      requires Numbered(ids, kind, Firsts(vs, kind))
      ensures Numbered(r, kind, Firsts(vs + [v], kind))
    {
      FirstsAppend(vs, v, kind);
      if IsId(v, kind) && v.value.s !in ids {
        r := ids[v.value.s := StandIn(kind, |ids| + 1)];
        OneMore(ids, kind, Firsts(vs, kind), v.value.s);
      } else {
        r := ids;
      }
    }

    method Look(v: Leaf)
      requires Valid()
      modifies this
      ensures Valid() && seen == old(seen) + [v]
    {
      wamids := Note(wamids, Wamid, v, seen);
      if IsTime(v) { times := times + {v.value.n}; }
      traces := Note(traces, Trace, v, seen);
      TimesAppend(seen, v);
      seen := seen + [v];
    }

    method Visit(j: Json, key: string)
      requires Valid()
      modifies this
      ensures Valid() && seen == old(seen) + Leaves(j, key)
      decreases j
    {
      match j
      case Arr(items) => VisitItems(items, key);
      case Obj(fields) => VisitFields(fields);
      case _ => Look(Leaf(key, j));
    }

    method VisitItems(items: seq<Json>, key: string)
      requires Valid()
      modifies this
      ensures Valid() && seen == old(seen) + LeavesOf(items, key)
      decreases items
    {
      if items == [] {
        assert seen + [] == seen;
      } else {
        ghost var before := seen;
        Visit(items[0], key);
        VisitItems(items[1..], key);
        Regroup(before, Leaves(items[0], key), LeavesOf(items[1..], key));
      }
    }

    method VisitFields(fields: seq<Field>)
      requires Valid()
      modifies this
      ensures Valid() && seen == old(seen) + LeavesIn(fields)
      decreases fields
    {
      if fields == [] {
        assert seen + [] == seen;
      } else {
        ghost var before := seen;
        Visit(fields[0].value, fields[0].name);
        VisitFields(fields[1..]);
        Regroup(before, Leaves(fields[0].value, fields[0].name), LeavesIn(fields[1..]));
      }
    }

    /** The second pass at one leaf, by the maps. */
    function Out(v: Leaf): (r: Json)
      requires Valid()
      reads this
      ensures r == Replace(v, TableOf(seen))
    {
      match v.value
      case Str(s) =>
        if s in wamids then Str(wamids[s])
        else if s in traces then Str(traces[s])
        else if v.key == "comdove_webhook_url" then Str("http://localhost:3000/webhooks/whatsapp")
        else if Secret(v) then Str("mock-token-3f9c2a1b7e4d")
        else v.value
      case Num(n) =>
        if TimeKey(v.key) then Num(TimeStandIn(times, n))
        else if v.key == "duration_ms" then Num(12.0)
        else if v.key == "uptime" then Num(42.0)
        else v.value
      case _ => v.value
    }

    method Rewrite(j: Json, key: string) returns (r: Json)
      requires Valid()
      ensures r == Walk(j, key, TableOf(seen))
      decreases j
    {
      match j
      case Arr(items) =>
        var xs := RewriteItems(items, key);
        r := Arr(xs);
      case Obj(fields) =>
        var xs := RewriteFields(fields);
        r := Obj(xs);
      case _ => r := Out(Leaf(key, j));
    }

    method RewriteItems(items: seq<Json>, key: string) returns (r: seq<Json>)
      requires Valid()
      ensures r == WalkItems(items, key, TableOf(seen))
      decreases items
    {
      r := [];
      if items != [] {
        var first := Rewrite(items[0], key);
        var rest := RewriteItems(items[1..], key);
        r := [first] + rest;
      }
    }

    method RewriteFields(fields: seq<Field>) returns (r: seq<Field>)
      requires Valid()
      ensures r == WalkFields(fields, TableOf(seen))
      decreases fields
    {
      r := [];
      if fields != [] {
        var first := Rewrite(fields[0].value, fields[0].name);
        var rest := RewriteFields(fields[1..]);
        r := [Field(fields[0].name, first)] + rest;
      }
    }
  }

  /** Both passes: collect, then rewrite. */
  method Stabilize(f: Json) returns (r: Json)
    ensures r == Stable(f)
  {
    var c := new Collector();
    c.Visit(f, "");
    assert [] + Leaves(f, "") == Leaves(f, "");
    r := c.Rewrite(f, "");
  }

  lemma Regroup(a: seq<Leaf>, b: seq<Leaf>, c: seq<Leaf>)
    ensures (a + b) + c == a + (b + c)
  {}

  lemma {:induction false} IndexAppend(xs: seq<string>, y: string, x: string)
    requires x in xs
    ensures IndexOf(xs + [y], x) == IndexOf(xs, x)
  {
    if xs[0] != x {
      assert (xs + [y])[1..] == xs[1..] + [y];
      IndexAppend(xs[1..], y, x);
    }
  }

  lemma {:induction false} IndexLast(xs: seq<string>, y: string)
    requires y !in xs
    ensures IndexOf(xs + [y], y) == |xs|
  {
    if xs != [] {
      assert (xs + [y])[1..] == xs[1..] + [y];
      IndexLast(xs[1..], y);
    }
  }

  lemma InAppended(xs: seq<string>, x: string, y: string)
    ensures y in xs + [x] <==> y in xs || y == x
  {
    assert (xs + [x])[|xs|] == x;
  }

  lemma OneMoreKey(ids: map<string, string>, firsts: seq<string>, x: string, v: string)
    requires |ids| == |firsts| && x !in firsts && forall y :: y in ids <==> y in firsts
    ensures |ids[x := v]| == |firsts + [x]| && forall y :: y in ids[x := v] <==> y in firsts + [x]
  {
    forall y ensures y in ids[x := v] <==> y in firsts + [x] { InAppended(firsts, x, y); }
    assert x !in ids && |ids[x := v]| == |ids| + 1;
  }

  lemma OneMoreNumber(firsts: seq<string>, x: string, y: string)
    requires x !in firsts && y in firsts + [x]
    ensures IndexOf(firsts + [x], y) == if y == x then |firsts| else IndexOf(firsts, y)
  {
    InAppended(firsts, x, y);
    if y == x { IndexLast(firsts, x); } else { IndexAppend(firsts, x, y); }
  }

  lemma OneMoreValue(ids: map<string, string>, kind: Kind, firsts: seq<string>, x: string, y: string)
    requires x !in firsts && y in firsts + [x] && |ids| == |firsts|
    requires y in firsts ==> y in ids && ids[y] == StandIn(kind, IndexOf(firsts, y) + 1)
    ensures y in ids[x := StandIn(kind, |ids| + 1)]
    ensures ids[x := StandIn(kind, |ids| + 1)][y] == StandIn(kind, IndexOf(firsts + [x], y) + 1)
  {
    OneMoreNumber(firsts, x, y);
    InAppended(firsts, x, y);
  }

  /** The id has the number of its place. */
  predicate NumberedAt(ids: map<string, string>, kind: Kind, firsts: seq<string>, s: string) {
    s in ids && s in firsts && ids[s] == StandIn(kind, IndexOf(firsts, s) + 1)
  }

  lemma NumberedHas(ids: map<string, string>, kind: Kind, firsts: seq<string>, s: string)
    requires Collector.Numbered(ids, kind, firsts) && s in firsts
    ensures NumberedAt(ids, kind, firsts, s)
  {}

  lemma OneMoreAt(ids: map<string, string>, kind: Kind, firsts: seq<string>, x: string, y: string)
    requires |ids| == |firsts| && x !in firsts && y in firsts + [x] && (y in firsts ==> NumberedAt(ids, kind, firsts, y))
    ensures NumberedAt(ids[x := StandIn(kind, |ids| + 1)], kind, firsts + [x], y)
  {
    OneMoreValue(ids, kind, firsts, x, y);
  }

  lemma NumberedIs(ids: map<string, string>, kind: Kind, firsts: seq<string>)
    requires |ids| == |firsts| && forall s :: s in ids <==> s in firsts
    requires forall s | s in ids :: NumberedAt(ids, kind, firsts, s)
    ensures Collector.Numbered(ids, kind, firsts)
  {}

  lemma OneMore(ids: map<string, string>, kind: Kind, firsts: seq<string>, x: string)
    requires Collector.Numbered(ids, kind, firsts) && x !in firsts
    ensures Collector.Numbered(ids[x := StandIn(kind, |ids| + 1)], kind, firsts + [x])
  {
    var more := ids[x := StandIn(kind, |ids| + 1)];
    OneMoreKey(ids, firsts, x, StandIn(kind, |ids| + 1));
    forall y | y in more ensures NumberedAt(more, kind, firsts + [x], y) {
      if y in firsts { NumberedHas(ids, kind, firsts, y); }
      OneMoreAt(ids, kind, firsts, x, y);
    }
    NumberedIs(more, kind, firsts + [x]);
  }

  lemma TimesAppend(vs: seq<Leaf>, v: Leaf)
    ensures Times(vs + [v]) == if IsTime(v) then Times(vs) + {v.value.n} else Times(vs)
  {
    assert (vs + [v])[..|vs|] == vs;
  }

  /** A new id goes to the end; the others keep their number. */
  lemma FirstsAppend(vs: seq<Leaf>, v: Leaf, kind: Kind)
    ensures var ids, more := Firsts(vs, kind), Firsts(vs + [v], kind);
            if IsId(v, kind) && v.value.s !in ids
            then more == ids + [v.value.s] && IndexOf(more, v.value.s) == |ids| && forall x | x in ids :: IndexOf(more, x) == IndexOf(ids, x)
            else more == ids
  {
    assert (vs + [v])[..|vs|] == vs;
    var ids := Firsts(vs, kind);
    if IsId(v, kind) && v.value.s !in ids {
      IndexLast(ids, v.value.s);
      forall x | x in ids ensures IndexOf(ids + [v.value.s], x) == IndexOf(ids, x) { IndexAppend(ids, v.value.s, x); }
    }
  }

  // ---- from trees to leaves ----

  /** Two trees that differ at most in their leaves. */
  predicate SameShape(t: Json, u: Json)
    decreases t
  {
    match t
    case Arr(items) => u.Arr? && SameItems(items, u.items)
    case Obj(fields) => u.Obj? && SameFields(fields, u.fields)
    case _ => IsLeaf(u)
  }

  predicate SameItems(xs: seq<Json>, ys: seq<Json>)
    decreases xs
  {
    |xs| == |ys| && (xs == [] || (SameShape(xs[0], ys[0]) && SameItems(xs[1..], ys[1..])))
  }

  predicate SameFields(xs: seq<Field>, ys: seq<Field>)
    decreases xs
  {
    |xs| == |ys| && (xs == [] || (xs[0].name == ys[0].name && SameShape(xs[0].value, ys[0].value) && SameFields(xs[1..], ys[1..])))
  }

  ghost predicate SameKeys(vs: seq<Leaf>, ws: seq<Leaf>) {
    |vs| == |ws| && forall i | 0 <= i < |vs| :: vs[i].key == ws[i].key
  }

  /** Replaced leaf by leaf, two lists come out the same. */
  ghost predicate SameOut(vs: seq<Leaf>, a: Table, ws: seq<Leaf>, b: Table) {
    |vs| == |ws| && forall i | 0 <= i < |vs| :: Replace(vs[i], a) == Replace(ws[i], b)
  }

  lemma SameOutOne(v: Leaf, a: Table, w: Leaf, b: Table)
    ensures SameOut([v], a, [w], b) <==> Replace(v, a) == Replace(w, b)
  {
    assert [v][0] == v && [w][0] == w;
  }

  lemma SameOutCat(vs: seq<Leaf>, vs': seq<Leaf>, a: Table, ws: seq<Leaf>, ws': seq<Leaf>, b: Table)
    requires |vs| == |ws|
    ensures SameOut(vs + vs', a, ws + ws', b) <==> SameOut(vs, a, ws, b) && SameOut(vs', a, ws', b)
  {
    if SameOut(vs + vs', a, ws + ws', b) {
      forall i | 0 <= i < |vs| ensures Replace(vs[i], a) == Replace(ws[i], b) {
        assert (vs + vs')[i] == vs[i] && (ws + ws')[i] == ws[i];
      }
      forall i | 0 <= i < |vs'| ensures Replace(vs'[i], a) == Replace(ws'[i], b) {
        assert (vs + vs')[|vs| + i] == vs'[i] && (ws + ws')[|ws| + i] == ws'[i];
      }
    }
  }

  lemma {:induction false} ShapeKeys(t: Json, u: Json, key: string)
    requires SameShape(t, u)
    ensures SameKeys(Leaves(t, key), Leaves(u, key))
    decreases t
  {
    match t
    case Arr(items) => ItemKeys(items, u.items, key);
    case Obj(fields) => FieldKeys(fields, u.fields);
    case _ =>
  }

  lemma {:induction false} ItemKeys(xs: seq<Json>, ys: seq<Json>, key: string)
    requires SameItems(xs, ys)
    ensures SameKeys(LeavesOf(xs, key), LeavesOf(ys, key))
    decreases xs
  {
    if xs != [] {
      ShapeKeys(xs[0], ys[0], key);
      ItemKeys(xs[1..], ys[1..], key);
    }
  }

  lemma {:induction false} FieldKeys(xs: seq<Field>, ys: seq<Field>)
    requires SameFields(xs, ys)
    ensures SameKeys(LeavesIn(xs), LeavesIn(ys))
    decreases xs
  {
    if xs != [] {
      ShapeKeys(xs[0].value, ys[0].value, xs[0].name);
      FieldKeys(xs[1..], ys[1..]);
    }
  }

  /** The second pass gives equal trees exactly for equal shapes whose leaves come out equal. */
  lemma {:induction false} WalkEqual(t: Json, u: Json, key: string, a: Table, b: Table)
    ensures Walk(t, key, a) == Walk(u, key, b) <==> SameShape(t, u) && SameOut(Leaves(t, key), a, Leaves(u, key), b)
    decreases t
  {
    match t
    case Arr(items) => if u.Arr? { ItemsEqual(items, u.items, key, a, b); }
    case Obj(fields) => if u.Obj? { FieldsEqual(fields, u.fields, a, b); }
    case _ => if IsLeaf(u) { SameOutOne(Leaf(key, t), a, Leaf(key, u), b); }
  }

  lemma {:induction false} ItemsEqual(xs: seq<Json>, ys: seq<Json>, key: string, a: Table, b: Table)
    ensures WalkItems(xs, key, a) == WalkItems(ys, key, b) <==> SameItems(xs, ys) && SameOut(LeavesOf(xs, key), a, LeavesOf(ys, key), b)
    decreases xs
  {
    WalkLength(xs, key, a);
    WalkLength(ys, key, b);
    if xs != [] && ys != [] {
      WalkEqual(xs[0], ys[0], key, a, b);
      ItemsEqual(xs[1..], ys[1..], key, a, b);
      if SameShape(xs[0], ys[0]) {
        ShapeKeys(xs[0], ys[0], key);
        SameOutCat(Leaves(xs[0], key), LeavesOf(xs[1..], key), a, Leaves(ys[0], key), LeavesOf(ys[1..], key), b);
      }
      var wx, wy := WalkItems(xs, key, a), WalkItems(ys, key, b);
      assert wx[0] == Walk(xs[0], key, a) && wx[1..] == WalkItems(xs[1..], key, a);
      assert wy[0] == Walk(ys[0], key, b) && wy[1..] == WalkItems(ys[1..], key, b);
      assert wx == wy <==> wx[0] == wy[0] && wx[1..] == wy[1..] by { assert wx == [wx[0]] + wx[1..] && wy == [wy[0]] + wy[1..]; }
    }
  }

  lemma {:induction false} FieldsEqual(xs: seq<Field>, ys: seq<Field>, a: Table, b: Table)
    ensures WalkFields(xs, a) == WalkFields(ys, b) <==> SameFields(xs, ys) && SameOut(LeavesIn(xs), a, LeavesIn(ys), b)
    decreases xs
  {
    FieldsLength(xs, a);
    FieldsLength(ys, b);
    if xs != [] && ys != [] {
      WalkEqual(xs[0].value, ys[0].value, xs[0].name, a, b);
      FieldsEqual(xs[1..], ys[1..], a, b);
      if SameShape(xs[0].value, ys[0].value) && xs[0].name == ys[0].name {
        ShapeKeys(xs[0].value, ys[0].value, xs[0].name);
        SameOutCat(Leaves(xs[0].value, xs[0].name), LeavesIn(xs[1..]), a, Leaves(ys[0].value, ys[0].name), LeavesIn(ys[1..]), b);
      }
      var wx, wy := WalkFields(xs, a), WalkFields(ys, b);
      assert wx[0] == Field(xs[0].name, Walk(xs[0].value, xs[0].name, a)) && wx[1..] == WalkFields(xs[1..], a);
      assert wy[0] == Field(ys[0].name, Walk(ys[0].value, ys[0].name, b)) && wy[1..] == WalkFields(ys[1..], b);
      assert wx == wy <==> wx[0] == wy[0] && wx[1..] == wy[1..] by { assert wx == [wx[0]] + wx[1..] && wy == [wy[0]] + wy[1..]; }
    }
  }

  lemma {:induction false} WalkLength(xs: seq<Json>, key: string, a: Table)
    ensures |WalkItems(xs, key, a)| == |xs|
  {
    if xs != [] { WalkLength(xs[1..], key, a); }
  }

  lemma {:induction false} FieldsLength(xs: seq<Field>, a: Table)
    ensures |WalkFields(xs, a)| == |xs|
  {
    if xs != [] { FieldsLength(xs[1..], a); }
  }

  ghost predicate Rewritten(vs: seq<Leaf>, ws: seq<Leaf>, a: Table) {
    |ws| == |vs| && forall i | 0 <= i < |vs| :: ws[i] == Leaf(vs[i].key, Replace(vs[i], a))
  }

  lemma RewrittenCat(vs: seq<Leaf>, vs': seq<Leaf>, ws: seq<Leaf>, ws': seq<Leaf>, a: Table)
    requires Rewritten(vs, ws, a) && Rewritten(vs', ws', a)
    ensures Rewritten(vs + vs', ws + ws', a)
  {}

  /** The leaves of a rewritten tree are the rewritten leaves. */
  lemma {:induction false} WalkLeaves(t: Json, key: string, a: Table)
    ensures SameShape(Walk(t, key, a), t) && Rewritten(Leaves(t, key), Leaves(Walk(t, key, a), key), a)
    decreases t
  {
    match t
    case Arr(items) => ItemLeaves(items, key, a);
    case Obj(fields) => FieldLeaves(fields, a);
    case _ =>
  }

  lemma {:induction false} ItemLeaves(xs: seq<Json>, key: string, a: Table)
    ensures SameItems(WalkItems(xs, key, a), xs) && Rewritten(LeavesOf(xs, key), LeavesOf(WalkItems(xs, key, a), key), a)
    decreases xs
  {
    if xs != [] {
      WalkLeaves(xs[0], key, a);
      ItemLeaves(xs[1..], key, a);
      assert WalkItems(xs, key, a)[1..] == WalkItems(xs[1..], key, a);
      RewrittenCat(Leaves(xs[0], key), LeavesOf(xs[1..], key), Leaves(Walk(xs[0], key, a), key), LeavesOf(WalkItems(xs[1..], key, a), key), a);
    }
  }

  lemma {:induction false} FieldLeaves(xs: seq<Field>, a: Table)
    ensures SameFields(WalkFields(xs, a), xs) && Rewritten(LeavesIn(xs), LeavesIn(WalkFields(xs, a)), a)
    decreases xs
  {
    if xs != [] {
      WalkLeaves(xs[0].value, xs[0].name, a);
      FieldLeaves(xs[1..], a);
      assert WalkFields(xs, a)[1..] == WalkFields(xs[1..], a);
      RewrittenCat(Leaves(xs[0].value, xs[0].name), LeavesIn(xs[1..]),
                   Leaves(Walk(xs[0].value, xs[0].name, a), xs[0].name), LeavesIn(WalkFields(xs[1..], a)), a);
    }
  }
}

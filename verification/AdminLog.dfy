/**
 The admin log page: the newest messages and the newest rejected requests, each cut by its own query, then merged,
 sorted and cut again. A query leaves open how equal times are ordered, so its result is any that fits.
 */
module AdminLog {
  datatype Item =
    | Logged(time: int, wamid: string)
    | Rejected(time: int, code: int)

  ghost predicate NewestFirst(xs: seq<Item>) {
    forall i, j | 0 <= i < j < |xs| :: xs[i].time >= xs[j].time
  }

  function Min(a: nat, b: nat): nat { if a < b then a else b }

  /** `rest` is what `ys` omits of `xs`, and none of it is newer. */
  ghost predicate Omits(xs: seq<Item>, ys: seq<Item>, rest: seq<Item>) {
    && multiset(xs) == multiset(ys) + multiset(rest)
    && forall a, b | a in ys && b in rest :: a.time >= b.time
  }

  /** `ys` are `limit` newest items of `xs`, newest first. */
  ghost predicate Newest(xs: seq<Item>, limit: nat, ys: seq<Item>) {
    && NewestFirst(ys) && |ys| == Min(limit, |xs|)
    && exists rest :: Omits(xs, ys, rest)
  }

  // ---- the page ----

  /** Stable: an equal time stays behind. */
  function Insert(xs: seq<Item>, x: Item): (r: seq<Item>)
    ensures multiset(r) == multiset(xs) + multiset{x}
  {
    if xs == [] || xs[|xs| - 1].time >= x.time then xs + [x]
    else
      assert xs == xs[..|xs| - 1] + [xs[|xs| - 1]];
      Insert(xs[..|xs| - 1], x) + [xs[|xs| - 1]]
  }

  function SortNewest(xs: seq<Item>): (r: seq<Item>)
    ensures multiset(r) == multiset(xs)
  {
    if xs == [] then []
    else
      assert xs == xs[..|xs| - 1] + [xs[|xs| - 1]];
      Insert(SortNewest(xs[..|xs| - 1]), xs[|xs| - 1])
  }

  function Cut(xs: seq<Item>, limit: nat): seq<Item> {
    if |xs| > limit then xs[..limit] else xs
  }

  /** The page for what the two queries returned. */
  function GetLog(rows: seq<Item>, rejected: seq<Item>, limit: nat): seq<Item> {
    Cut(SortNewest(rows + rejected), limit)
  }

  // ---- sorting ----

  lemma {:induction false} InsertNewest(xs: seq<Item>, x: Item)
    requires NewestFirst(xs)
    ensures NewestFirst(Insert(xs, x))
  {
    if !(xs == [] || xs[|xs| - 1].time >= x.time) {
      var init, last := xs[..|xs| - 1], xs[|xs| - 1];
      InsertNewest(init, x);
      var r := Insert(init, x);
      assert xs == init + [last];
      forall i | 0 <= i < |r| ensures r[i].time >= last.time {
        assert r[i] in multiset(r);
        if r[i] != x { assert r[i] in multiset(init); assert r[i] in init; }
      }
    }
  }

  lemma {:induction false} SortedNewest(xs: seq<Item>)
    ensures NewestFirst(SortNewest(xs))
  {
    if xs != [] {
      SortedNewest(xs[..|xs| - 1]);
      InsertNewest(SortNewest(xs[..|xs| - 1]), xs[|xs| - 1]);
    }
  }

  // ---- counting what is at least as new ----

  function CountSince(xs: seq<Item>, t: int): nat {
    if xs == [] then 0 else CountSince(xs[..|xs| - 1], t) + if xs[|xs| - 1].time >= t then 1 else 0
  }

  lemma {:induction false} CountCat(xs: seq<Item>, ys: seq<Item>, t: int)
    ensures CountSince(xs + ys, t) == CountSince(xs, t) + CountSince(ys, t)
  {
    if ys == [] {
      assert xs + ys == xs;
    } else {
      CountCat(xs, ys[..|ys| - 1], t);
      assert (xs + ys)[..|xs + ys| - 1] == xs + ys[..|ys| - 1];
    }
  }

  lemma Without(ys: seq<Item>, i: nat, t: int)
    requires i < |ys|
    ensures multiset(ys[..i] + ys[i + 1..]) == multiset(ys) - multiset{ys[i]}
    ensures CountSince(ys, t) == CountSince(ys[..i] + ys[i + 1..], t) + if ys[i].time >= t then 1 else 0
  {
    assert ys == ys[..i] + [ys[i]] + ys[i + 1..];
    CountCat(ys[..i], ys[i + 1..], t);
    CountCat(ys[..i] + [ys[i]], ys[i + 1..], t);
    CountCat(ys[..i], [ys[i]], t);
  }

  lemma {:induction false} CountSame(xs: seq<Item>, ys: seq<Item>, t: int)
    requires multiset(xs) == multiset(ys)
    ensures CountSince(xs, t) == CountSince(ys, t) && |xs| == |ys|
    decreases |xs|
  {
    assert |multiset(xs)| == |xs| && |multiset(ys)| == |ys|;
    if xs != [] {
      var n := |xs| - 1;
      assert xs[n] in multiset(ys);
      var i :| 0 <= i < |ys| && ys[i] == xs[n];
      Without(ys, i, t);
      Without(xs, n, t);
      assert xs[..n] + xs[n + 1..] == xs[..n];
      CountSame(xs[..n], ys[..i] + ys[i + 1..], t);
    }
  }

  lemma {:induction false} CountBounds(xs: seq<Item>, t: int)
    ensures CountSince(xs, t) <= |xs|
    ensures (forall x | x in xs :: x.time >= t) ==> CountSince(xs, t) == |xs|
    ensures (forall x | x in xs :: x.time < t) ==> CountSince(xs, t) == 0
  {
    if xs != [] { CountBounds(xs[..|xs| - 1], t); }
  }

  /** Newest first, the items at least as new as `t` are a prefix. */
  lemma {:induction false} PrefixSince(ys: seq<Item>, t: int, i: nat)
    requires NewestFirst(ys) && i < |ys|
    ensures ys[i].time >= t <==> i < CountSince(ys, t)
  {
    var n := |ys| - 1;
    if i < n {
      PrefixSince(ys[..n], t, i);
      if ys[n].time >= t { CountBounds(ys[..n], t); }
    } else {
      CountBounds(ys[..n], t);
      if ys[n].time < t && CountSince(ys[..n], t) > n - 1 && n > 0 { PrefixSince(ys[..n], t, n - 1); }
    }
  }

  /** How many of the newest items are at least as new as `t` depends on the whole log only. */
  lemma NewestCount(xs: seq<Item>, limit: nat, ys: seq<Item>, t: int)
    requires Newest(xs, limit, ys)
    ensures CountSince(ys, t) == Min(CountSince(xs, t), limit)
  {
    var rest :| Omits(xs, ys, rest);
    assert multiset(ys + rest) == multiset(xs);
    CountSame(ys + rest, xs, t);
    CountCat(ys, rest, t);
    CountBounds(ys, t);
    CountBounds(rest, t);
    if x :| x in rest && x.time >= t {
      assert forall a | a in ys :: a.time >= t;
    }
    assert |ys| < limit ==> rest == [];
  }

  // ---- main results ----

  /** The newest items of a log are unique up to the order of equal times. */
  lemma NewestTimes(xs: seq<Item>, limit: nat, ys: seq<Item>, zs: seq<Item>, i: nat)
    requires Newest(xs, limit, ys) && Newest(xs, limit, zs) && i < |ys|
    ensures |zs| == |ys| && zs[i].time == ys[i].time
  {
    NewestCount(xs, limit, ys, ys[i].time);
    NewestCount(xs, limit, zs, ys[i].time);
    NewestCount(xs, limit, ys, zs[i].time);
    NewestCount(xs, limit, zs, zs[i].time);
    PrefixSince(ys, ys[i].time, i);
    PrefixSince(zs, ys[i].time, i);
    PrefixSince(ys, zs[i].time, i);
    PrefixSince(zs, zs[i].time, i);
  }

  lemma CutOmits(s: seq<Item>, limit: nat)
    requires NewestFirst(s)
    ensures var ys := Cut(s, limit); |ys| == Min(limit, |s|) && NewestFirst(ys) && Omits(s, ys, s[|ys|..])
  {
    var ys := Cut(s, limit);
    assert s == ys + s[|ys|..];
    forall a, b | a in ys && b in s[|ys|..] ensures a.time >= b.time {
      var i :| 0 <= i < |ys| && ys[i] == a;
      var j :| |ys| <= j < |s| && s[j] == b;
    }
  }

  /** Sorting the whole log and cutting it once gives the newest items. */
  lemma WholeLog(xs: seq<Item>, limit: nat)
    ensures Newest(xs, limit, Cut(SortNewest(xs), limit))
  {
    var s := SortNewest(xs);
    SortedNewest(xs);
    CountSame(s, xs, 0);
    CutOmits(s, limit);
    assert Omits(xs, Cut(s, limit), s[|Cut(s, limit)|..]);
  }

  /** What one query omitted is no newer than anything on the page. */
  lemma OmittedIsOlder(all: seq<Item>, part: seq<Item>, rest: seq<Item>, s: seq<Item>, limit: nat, i: nat, b: Item)
    requires NewestFirst(s) && i < |s| && i < limit && b in rest
    requires |part| == Min(limit, |all|) && Omits(all, part, rest)
    requires CountSince(s, b.time) >= CountSince(part, b.time)
    ensures s[i].time >= b.time
  {
    assert multiset(part + rest) == multiset(all);
    CountSame(part + rest, all, 0);
    assert |part| == limit;
    CountBounds(part, b.time);
    PrefixSince(s, b.time, i);
  }

  lemma PageBeats(all: seq<Item>, part: seq<Item>, rest: seq<Item>, rows: seq<Item>, rejected: seq<Item>, limit: nat, a: Item, b: Item)
    requires part == rows || part == rejected
    requires |part| == Min(limit, |all|) && Omits(all, part, rest)
    requires a in GetLog(rows, rejected, limit) && b in rest
    ensures a.time >= b.time
  {
    var s := SortNewest(rows + rejected);
    var i :| 0 <= i < |Cut(s, limit)| && Cut(s, limit)[i] == a;
    SortedNewest(rows + rejected);
    CountSame(s, rows + rejected, b.time);
    CountCat(rows, rejected, b.time);
    OmittedIsOlder(all, part, rest, s, limit, i, b);
  }

  lemma AllAccounted(m: multiset<Item>, r: multiset<Item>, rows: multiset<Item>, rejected: multiset<Item>, old1: multiset<Item>, old2: multiset<Item>, page: multiset<Item>, old3: multiset<Item>)
    requires m == rows + old1 && r == rejected + old2 && rows + rejected == page + old3
    ensures m + r == page + (old1 + old2 + old3)
  {
    calc {
      m + r;
      (rows + rejected) + (old1 + old2);
      page + (old1 + old2 + old3);
    }
  }

  /**
   Cutting each query first loses nothing: the page shows the newest items of the whole log, as many as asked for, and
   no omitted item is newer than a shown one.
   */
  lemma PageIsNewest(messages: seq<Item>, rejections: seq<Item>, limit: nat, rows: seq<Item>, rejected: seq<Item>)
    requires Newest(messages, limit, rows) && Newest(rejections, limit, rejected)
    ensures Newest(messages + rejections, limit, GetLog(rows, rejected, limit))
  {
    var s, page := SortNewest(rows + rejected), GetLog(rows, rejected, limit);
    var old1 :| Omits(messages, rows, old1);
    var old2 :| Omits(rejections, rejected, old2);
    var old3 := s[|page|..];
    SortedNewest(rows + rejected);
    CutOmits(s, limit);
    PageSize(messages, rejections, limit, rows, rejected, old1, old2);
    forall a: Item, b: Item | a in page && b in old1 + old2 + old3 ensures a.time >= b.time {
      if b in old1 {
        PageBeats(messages, rows, old1, rows, rejected, limit, a, b);
      } else if b in old2 {
        PageBeats(rejections, rejected, old2, rows, rejected, limit, a, b);
      }
    }
    AllAccounted(multiset(messages), multiset(rejections), multiset(rows), multiset(rejected), multiset(old1), multiset(old2), multiset(page), multiset(old3));
    assert multiset(old1 + old2 + old3) == multiset(old1) + multiset(old2) + multiset(old3);
    assert Omits(messages + rejections, page, old1 + old2 + old3);
  }

  lemma PageSize(messages: seq<Item>, rejections: seq<Item>, limit: nat, rows: seq<Item>, rejected: seq<Item>, old1: seq<Item>, old2: seq<Item>)
    requires Omits(messages, rows, old1) && |rows| == Min(limit, |messages|)
    requires Omits(rejections, rejected, old2) && |rejected| == Min(limit, |rejections|)
    ensures |GetLog(rows, rejected, limit)| == Min(limit, |messages + rejections|)
  {
    CountSame(SortNewest(rows + rejected), rows + rejected, 0);
  }

  /** The page and the cut of the whole sorted log show the same times, place by place. */
  lemma PageAgreesWithWholeLog(messages: seq<Item>, rejections: seq<Item>, limit: nat, rows: seq<Item>, rejected: seq<Item>, i: nat)
    requires Newest(messages, limit, rows) && Newest(rejections, limit, rejected)
    requires i < |GetLog(rows, rejected, limit)|
    ensures var whole := Cut(SortNewest(messages + rejections), limit);
            |whole| == |GetLog(rows, rejected, limit)| && whole[i].time == GetLog(rows, rejected, limit)[i].time
  {
    PageIsNewest(messages, rejections, limit, rows, rejected);
    WholeLog(messages + rejections, limit);
    NewestTimes(messages + rejections, limit, GetLog(rows, rejected, limit), Cut(SortNewest(messages + rejections), limit), i);
  }
}

/** Dropping clusters from a board: what a stable sort and the order of contents keep. */
module MergeThin {
  import opened Prelude
  import opened BoardRows
  import opened MergeSpec
  import opened MergeIds
  import opened MergeSymmetry

  // ---------------------------------------------------------------- sorting and dropping

  function Kept<T(!new)>(keep: T -> bool, x: T): seq<T> {
    if keep(x) then [x] else []
  }

  lemma {:induction false} FilterCons<T(!new)>(keep: T -> bool, x: T, s: seq<T>)
    ensures Filter(keep, [x] + s) == Kept(keep, x) + Filter(keep, s)
  {
    FilterAppend(keep, [x], s);
    FilterSnoc(keep, [], x);
    assert [] + [x] == [x];
  }

  lemma {:induction false} InsertFront<T(!new)>(le: (T, T) -> bool, keep: T -> bool, x: T, s: seq<T>)
    requires TotalPreorder(le) && SortedBy(le, s) && s != [] && le(x, s[0])
    ensures Insert(le, x, Filter(keep, s)) == [x] + Filter(keep, s)
  {
    var f := Filter(keep, s);
    if f != [] {
      assert f[0] in s;
      var i :| 0 <= i < |s| && s[i] == f[0];
      assert i > 0 ==> le(s[0], s[i]);
    }
  }

  lemma {:induction false} InsertFilter<T(!new)>(le: (T, T) -> bool, keep: T -> bool, x: T, s: seq<T>)
    requires TotalPreorder(le) && SortedBy(le, s)
    ensures Filter(keep, Insert(le, x, s)) == if keep(x) then Insert(le, x, Filter(keep, s)) else Filter(keep, s)
    decreases |s|, 1
  {
    if s == [] {
      FilterCons(keep, x, s);
      assert Kept(keep, x) + [] == Kept(keep, x);
    } else if le(x, s[0]) {
      FilterCons(keep, x, s);
      InsertFront(le, keep, x, s);
      assert [] + Filter(keep, s) == Filter(keep, s);
    } else {
      InsertBehind(le, keep, x, s);
    }
  }

  lemma {:induction false} InsertBehind<T(!new)>(le: (T, T) -> bool, keep: T -> bool, x: T, s: seq<T>)
    requires TotalPreorder(le) && SortedBy(le, s) && s != [] && !le(x, s[0])
    ensures Filter(keep, Insert(le, x, s)) == if keep(x) then Insert(le, x, Filter(keep, s)) else Filter(keep, s)
    decreases |s|, 0
  {
    var rest := s[1..];
    HeadSplit(s);
    SortedTail(le, s);
    InsertFilter(le, keep, x, rest);
    FilterCons(keep, s[0], rest);
    FilterCons(keep, s[0], Insert(le, x, rest));
    assert Insert(le, x, s) == [s[0]] + Insert(le, x, rest);
    BehindKept(le, x, Kept(keep, s[0]), s[0], Filter(keep, rest));
  }

  lemma {:induction false} BehindKept<T(!new)>(le: (T, T) -> bool, x: T, front: seq<T>, y: T, f: seq<T>)
    requires !le(x, y) && (front == [y] || front == [])
    ensures Insert(le, x, front + f) == front + Insert(le, x, f)
  {
    if front == [y] {
      assert (front + f)[1..] == f;
    } else {
      assert front + f == f && front + Insert(le, x, f) == Insert(le, x, f);
    }
  }

  /** A stable sort puts what is kept in the same order. */
  lemma {:induction false} SortFilter<T(!new)>(le: (T, T) -> bool, keep: T -> bool, s: seq<T>)
    requires TotalPreorder(le)
    ensures SortBy(le, Filter(keep, s)) == Filter(keep, SortBy(le, s))
  {
    if s != [] {
      HeadSplit(s);
      FilterCons(keep, s[0], s[1..]);
      SortFilter(le, keep, s[1..]);
      SortSorts(le, s[1..]);
      InsertFilter(le, keep, s[0], SortBy(le, s[1..]));
      SortCons(le, keep, s[0], Filter(keep, s[1..]));
    }
  }

  lemma {:induction false} SortCons<T(!new)>(le: (T, T) -> bool, keep: T -> bool, x: T, f: seq<T>)
    ensures SortBy(le, Kept(keep, x) + f) == if keep(x) then Insert(le, x, SortBy(le, f)) else SortBy(le, f)
  {
    if keep(x) {
      assert ([x] + f)[1..] == f;
    } else {
      assert [] + f == f;
    }
  }

  lemma {:induction false} FiltersSwap<T(!new)>(a: T -> bool, b: T -> bool, s: seq<T>)
    ensures Filter(a, Filter(b, s)) == Filter(b, Filter(a, s))
  {
    if s != [] {
      var front, last := s[..|s| - 1], s[|s| - 1];
      FiltersSwap(a, b, front);
      FilterSnoc(a, Filter(b, front), last);
      FilterSnoc(b, Filter(a, front), last);
    }
  }

  /** Dropping clusters and ordering them can be done in either order. */
  lemma {:induction false} OrderedThins(c: Codec, keep: Cluster -> bool, cl: seq<Cluster>)
    ensures Ordered(c, Filter(keep, cl)) == Filter(keep, Ordered(c, cl))
  {
    hide Filter, SortBy;
    BasePosLeTotal();
    ContentLeTotal(c);
    FiltersSwap(InBase, keep, cl);
    FiltersSwap(IsNew, keep, cl);
    SortFilter(BasePosLe, keep, Filter(InBase, cl));
    SortFilter(ContentLe(c), keep, Filter(IsNew, cl));
    FilterAppend(keep, SortBy(BasePosLe, Filter(InBase, cl)), SortBy(ContentLe(c), Filter(IsNew, cl)));
  }

  // ---------------------------------------------------------------- contents in order

  lemma {:induction false} DistinctTwice<T(!new)>(a: seq<T>, b: seq<T>)
    ensures Distinct(a + b) == Distinct(Distinct(a) + b)
  {
    if b == [] {
      DistinctStays(Distinct(a));
      assert a + b == a && Distinct(a) + b == Distinct(a);
    } else {
      var front, last := b[..|b| - 1], b[|b| - 1];
      LastSplit(b);
      DistinctTwice(a, front);
      AppendAssociates(a, front, [last]);
      AppendAssociates(Distinct(a), front, [last]);
      DistinctSnoc(a + front, last);
      DistinctSnoc(Distinct(a) + front, last);
    }
  }

  /** Behind the same beginning, two sorted tails of the same elements list the same new ones in the same order. */
  lemma {:induction false} SameDistinct<T(!new)>(le: (T, T) -> bool, a: seq<T>, b: seq<T>, d: seq<T>)
    requires SortedBy(le, b) && SortedBy(le, d) && NoTies(le, b) && forall x :: x in b ==> x in a || x in d
    requires forall x :: x in d ==> x in b
    ensures Distinct(a + b) == Distinct(a + d)
  {
    var e := Distinct(a);
    DistinctTwice(a, b);
    DistinctTwice(a, d);
    DistinctTailSorted(le, e, b);
    DistinctTailSorted(le, e, d);
    SameTail(le, e, Distinct(e + b), Distinct(e + d), b, d);
  }

  lemma {:induction false} SameTail<T(!new)>(le: (T, T) -> bool, e: seq<T>, s: seq<T>, t: seq<T>, b: seq<T>, d: seq<T>)
    requires |e| <= |s| && |e| <= |t| && s[..|e|] == e == t[..|e|] && NoDuplicates(s) && NoDuplicates(t)
    requires SortedBy(le, s[|e|..]) && SortedBy(le, t[|e|..]) && NoTies(le, b)
    requires forall x :: x in s <==> x in e + b
    requires forall x :: x in t <==> x in e + d
    requires (forall x :: x in b ==> x in e || x in d) && forall x :: x in d ==> x in b
    requires (forall x | x in s[|e|..] :: x in b && x !in e) && forall x | x in t[|e|..] :: x in d && x !in e
    ensures s == t
  {
    var u, v := s[|e|..], t[|e|..];
    assert s == e + u && t == e + v;
    forall x ensures x in u <==> x in v {
      assert x in s <==> x in e || x in u;
      assert x in t <==> x in e || x in v;
    }
    TailDistinct(s, |e|);
    TailDistinct(t, |e|);
    SameElementsSameMultiset(u, v);
    SortedUnique(le, u, v);
  }

  lemma {:induction false} TailDistinct<T>(s: seq<T>, n: nat)
    requires NoDuplicates(s) && n <= |s|
    ensures NoDuplicates(s[n..])
  {
  }

  ghost predicate ShownIn(s: seq<Cluster>, x: Cluster) {
    exists y :: y in s && Payload(y.row) == Payload(x.row)
  }

  /** Dropping new clusters that are not the last of their content leaves the contents as they are. */
  lemma {:induction false} ContentsThin(c: Codec, bs: seq<Cluster>, ns: seq<Cluster>, kept: seq<Cluster>)
    requires CanonInjective(c) && SortedBy(ContentLe(c), ns) && SortedBy(ContentLe(c), kept)
    requires forall x | x in kept :: x in ns
    requires forall x | x in ns :: ShownIn(bs + kept, x)
    ensures Contents(bs + kept) == Contents(bs + ns)
  {
    MapAppend(PayloadOf, bs, kept);
    MapAppend(PayloadOf, bs, ns);
    var a, b, d := MapSeq(PayloadOf, bs), MapSeq(PayloadOf, ns), MapSeq(PayloadOf, kept);
    PayloadsSorted(c, ns);
    PayloadsSorted(c, kept);
    ContentsTie(c, ns);
    forall x | x in b ensures x in a || x in d {
      ShownAgain(bs, ns, kept, x);
    }
    forall x | x in d ensures x in b {
      ShownThere(ns, kept, x);
    }
    SameDistinct(PayLe(c), a, b, d);
  }

  lemma {:induction false} ShownThere(ns: seq<Cluster>, kept: seq<Cluster>, p: Row)
    requires (forall x | x in kept :: x in ns) && p in MapSeq(PayloadOf, kept)
    ensures p in MapSeq(PayloadOf, ns)
  {
    var i :| 0 <= i < |kept| && MapSeq(PayloadOf, kept)[i] == p;
    assert kept[i] in kept;
    var j :| 0 <= j < |ns| && ns[j] == kept[i];
    assert MapSeq(PayloadOf, ns)[j] == p;
  }

  lemma {:induction false} ShownAgain(bs: seq<Cluster>, ns: seq<Cluster>, kept: seq<Cluster>, p: Row)
    requires forall x | x in ns :: ShownIn(bs + kept, x)
    requires p in MapSeq(PayloadOf, ns)
    ensures p in MapSeq(PayloadOf, bs) || p in MapSeq(PayloadOf, kept)
  {
    var i :| 0 <= i < |ns| && MapSeq(PayloadOf, ns)[i] == p;
    assert ns[i] in ns;
    var y :| y in bs + kept && Payload(y.row) == Payload(ns[i].row);
    if y in bs {
      var j :| 0 <= j < |bs| && bs[j] == y;
      assert MapSeq(PayloadOf, bs)[j] == p;
    } else {
      var j :| 0 <= j < |kept| && kept[j] == y;
      assert MapSeq(PayloadOf, kept)[j] == p;
    }
  }

  lemma {:induction false} ContentsTie(c: Codec, s: seq<Cluster>)
    requires CanonInjective(c)
    ensures NoTies(PayLe(c), MapSeq(PayloadOf, s))
  {
    var x := MapSeq(PayloadOf, s);
    forall p, q | p in x && q in x && PayLe(c)(p, q) && PayLe(c)(q, p) ensures p == q {
      var i :| 0 <= i < |x| && x[i] == p;
      var j :| 0 <= j < |x| && x[j] == q;
      OrderLeAntisymmetric(c, p, q);
      assert Payload(p) == p && Payload(q) == q;
    }
  }

  // ---------------------------------------------------------------- order of first appearance

  lemma {:induction false} DistinctGrows<T(!new)>(a: seq<T>, b: seq<T>)
    ensures Distinct(a) <= Distinct(a + b)
  {
    if b == [] {
      assert a + b == a;
    } else {
      var front, last := b[..|b| - 1], b[|b| - 1];
      DistinctGrows(a, front);
      LastSplit(b);
      AppendAssociates(a, front, [last]);
      DistinctSnoc(a + front, last);
    }
  }

  /** What has appeared before the first `y` is listed before it. */
  lemma {:induction false} ListedBefore<T(!new)>(a: seq<T>, b: seq<T>, i: nat, j: nat)
    requires i < |Distinct(a + b)| && j < |Distinct(a + b)|
    requires Distinct(a + b)[i] in a && Distinct(a + b)[j] !in a
    ensures i < j
  {
    var d, e := Distinct(a + b), Distinct(a);
    DistinctGrows(a, b);
    assert d[i] in e;
    var k :| 0 <= k < |e| && e[k] == d[i];
    assert d[k] == e[k];
    PrefixMember(e, d, j);
  }

  lemma {:induction false} PrefixMember<T>(e: seq<T>, d: seq<T>, j: nat)
    requires e <= d && j < |d|
    ensures j < |e| ==> d[j] in e
  {
    if j < |e| {
      assert e[j] in e;
    }
  }

  /** A filter keeps the order. */
  lemma {:induction false} FilterOrder<T(!new)>(keep: T -> bool, s: seq<T>, i: nat, j: nat) returns (m: nat, n: nat)
    requires i < j < |Filter(keep, s)|
    ensures m < n < |s| && s[m] == Filter(keep, s)[i] && s[n] == Filter(keep, s)[j]
  {
    var front := s[..|s| - 1];
    if j < |Filter(keep, front)| {
      m, n := FilterOrder(keep, front, i, j);
    } else {
      n := |s| - 1;
      assert Filter(keep, front)[i] in front;
      m :| 0 <= m < |front| && front[m] == Filter(keep, front)[i];
    }
  }

  ghost function At<T>(s: seq<T>, x: T): (i: nat)
    requires x in s
    ensures i < |s| && s[i] == x
  {
    var i :| 0 <= i < |s| && s[i] == x;
    i
  }

  /** The elements of `a` stand in `s` in the same order. */
  ghost predicate InOrder<T>(s: seq<T>, a: seq<T>) {
    forall i, j | 0 <= i < j < |a| :: a[i] in s && a[j] in s && At(s, a[i]) < At(s, a[j])
  }

  /** Two listings of the same elements in the order of `s` are equal. */
  lemma {:induction false} SameOrder<T(!new)>(s: seq<T>, a: seq<T>, b: seq<T>)
    requires NoDuplicates(s) && NoDuplicates(a) && NoDuplicates(b)
    requires (forall x :: x in a <==> x in b) && forall x | x in a :: x in s
    requires InOrder(s, a) && InOrder(s, b)
    ensures a == b
  {
    var le := (x: T, y: T) => x in s && y in s && At(s, x) <= At(s, y);
    SameElementsSameMultiset(a, b);
    SortedUnique(le, a, b);
  }

  lemma {:induction false} FilterInOrder<T(!new)>(keep: T -> bool, s: seq<T>)
    requires NoDuplicates(s)
    ensures InOrder(s, Filter(keep, s))
  {
    var f := Filter(keep, s);
    forall i, j | 0 <= i < j < |f| ensures f[i] in s && f[j] in s && At(s, f[i]) < At(s, f[j]) {
      var m, n := FilterOrder(keep, s, i, j);
      AtIs(s, m);
      AtIs(s, n);
    }
  }

  lemma {:induction false} OrderInOrder<T(!new)>(s: seq<T>, t: seq<T>, a: seq<T>)
    requires InOrder(s, t) && InOrder(t, a)
    ensures InOrder(s, a)
  {
    forall i, j | 0 <= i < j < |a| ensures a[i] in s && a[j] in s && At(s, a[i]) < At(s, a[j]) {
      var x, y := a[i], a[j];
      assert x in t && y in t && At(t, x) < At(t, y);
      assert t[At(t, x)] == x && t[At(t, y)] == y;
    }
  }

  lemma {:induction false} AtIs<T>(s: seq<T>, i: nat)
    requires NoDuplicates(s) && i < |s|
    ensures s[i] in s && At(s, s[i]) == i
  {
  }

  /** New clusters of one content are emitted in the order in which they were opened. */
  lemma {:induction false} TiesInOrder(c: Codec, cl: seq<Cluster>, p: Row)
    ensures Filter(IsNew, Group(Ordered(c, cl), p)) == Group(Filter(IsNew, cl), p)
  {
    var ns := Filter(IsNew, cl);
    var s := Group(ns, p);
    NewPart(c, cl);
    FiltersSwap(IsNew, PaysAs(p), Ordered(c, cl));
    ContentLeTotal(c);
    SortFilter(ContentLe(c), PaysAs(p), ns);
    forall i, j | 0 <= i < j < |s| ensures ContentLe(c)(s[i], s[j]) {
      assert s[i] in s && s[j] in s;
      StampOfPayload(s[i].row);
      StampOfPayload(s[j].row);
      OrderLeTotal(c, s[i].row, s[j].row);
    }
    SortedStays(ContentLe(c), s);
  }

  lemma {:induction false} NewPart(c: Codec, cl: seq<Cluster>)
    ensures Filter(IsNew, Ordered(c, cl)) == SortBy(ContentLe(c), Filter(IsNew, cl))
    ensures Filter(InBase, Ordered(c, cl)) == SortBy(BasePosLe, Filter(InBase, cl))
  {
    var a, b := SortBy(BasePosLe, Filter(InBase, cl)), SortBy(ContentLe(c), Filter(IsNew, cl));
    SortPermutes(BasePosLe, Filter(InBase, cl));
    SortPermutes(ContentLe(c), Filter(IsNew, cl));
    forall i | 0 <= i < |a| ensures InBase(a[i]) {
      assert a[i] in a;
    }
    forall i | 0 <= i < |b| ensures IsNew(b[i]) {
      assert b[i] in b;
    }
    FilterSplit(InBase, a, b);
    FilterSplit(IsNew, b, a);
  }
}

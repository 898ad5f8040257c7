/** Shared vocabulary: options, Python's string order, decimal text, and a stable sort. */
module Prelude {

  datatype Option<+T> = None | Some(value: T)

  // ---------------------------------------------------------------- string order

  /** Python's `<=` on strings: lexicographic by code point. */
  predicate StrLe(a: string, b: string)
    decreases |a|
  {
    a == "" || (b != "" && (a[0] < b[0] || (a[0] == b[0] && StrLe(a[1..], b[1..]))))
  }

  /** The first place where the two differ is `k`, and there `a` has the lesser character. */
  ghost predicate LessAt(a: string, b: string, k: nat) {
    k < |a| && k < |b| && a[..k] == b[..k] && a[k] < b[k]
  }

  /** The order is decided by the first place where the two differ, or by length where one begins the other. */
  lemma {:induction false} StrLeExactly(a: string, b: string)
    ensures StrLe(a, b) <==> a <= b || exists k: nat :: LessAt(a, b, k)
    decreases |a|
  {
    if a == "" || b == "" {
    } else if a[0] == b[0] {
      StrLeExactly(a[1..], b[1..]);
      LessLater(a, b);
    } else {
      assert a[0] < b[0] ==> LessAt(a, b, 0);
      forall k: nat {
        LessAtHead(a, b, k);
      }
    }
  }

  lemma {:induction false} LessAtHead(a: string, b: string, k: nat)
    ensures LessAt(a, b, k) ==> k == 0 || a[0] == b[0]
  {
    if LessAt(a, b, k) && k > 0 {
      assert a[..k][0] == a[0] && b[..k][0] == b[0];
    }
  }

  lemma {:induction false} LessLater(a: string, b: string)
    requires a != "" && b != "" && a[0] == b[0]
    ensures (exists k: nat :: LessAt(a, b, k)) <==> exists k: nat :: LessAt(a[1..], b[1..], k)
    ensures a <= b <==> a[1..] <= b[1..]
  {
    HeadSplit(a);
    HeadSplit(b);
    if k: nat :| LessAt(a[1..], b[1..], k) {
      assert a[..k + 1] == [a[0]] + a[1..][..k] && b[..k + 1] == [b[0]] + b[1..][..k];
      assert LessAt(a, b, k + 1);
    }
    if k: nat :| LessAt(a, b, k) {
      assert a[1..][..k - 1] == a[..k][1..] && b[1..][..k - 1] == b[..k][1..];
      assert LessAt(a[1..], b[1..], k - 1);
    }
  }

  lemma {:induction false} StrLeTotal(a: string, b: string)
    ensures StrLe(a, b) || StrLe(b, a)
    decreases |a|
  {
    if a != "" && b != "" && a[0] == b[0] {
      StrLeTotal(a[1..], b[1..]);
    }
  }

  lemma {:induction false} StrLeAntisymmetric(a: string, b: string)
    requires StrLe(a, b) && StrLe(b, a)
    ensures a == b
    decreases |a|
  {
    if a != "" {
      StrLeAntisymmetric(a[1..], b[1..]);
      assert a == [a[0]] + a[1..] && b == [b[0]] + b[1..];
    }
  }

  lemma {:induction false} StrLeTransitive(a: string, b: string, d: string)
    requires StrLe(a, b) && StrLe(b, d)
    ensures StrLe(a, d)
    decreases |a|
  {
    if a != "" && a[0] == b[0] == d[0] {
      StrLeTransitive(a[1..], b[1..], d[1..]);
    }
  }

  // ---------------------------------------------------------------- decimal text

  predicate IsDigit(ch: char) {
    '0' <= ch <= '9'
  }

  function DigitChar(n: nat): (ch: char)
    requires n < 10
    ensures IsDigit(ch)
  {
    '0' + n as char
  }

  function DigitValue(ch: char): (n: nat)
    requires IsDigit(ch)
  {
    (ch - '0') as nat
  }

  function DecimalText(n: nat): (s: string)
    ensures s != "" && forall i | 0 <= i < |s| :: IsDigit(s[i])
  {
    if n < 10 then [DigitChar(n)] else DecimalText(n / 10) + [DigitChar(n % 10)]
  }

  function DecimalValue(s: string): nat
    requires forall i | 0 <= i < |s| :: IsDigit(s[i])
  {
    if s == "" then 0 else 10 * DecimalValue(s[..|s| - 1]) + DigitValue(s[|s| - 1])
  }

  lemma {:induction false} DecimalRoundTrip(n: nat)
    ensures DecimalValue(DecimalText(n)) == n
  {
    if n < 10 {
      assert DecimalText(n)[..0] == "";
    } else {
      DecimalRoundTrip(n / 10);
      assert DecimalText(n)[..|DecimalText(n)| - 1] == DecimalText(n / 10);
    }
  }

  // ---------------------------------------------------------------- least number

  lemma {:induction false} LeastExists(p: nat -> bool, n: nat)
    requires p(n)
    ensures exists m: nat :: p(m) && forall k: nat :: k < m ==> !p(k)
  {
    if exists m: nat :: m < n && p(m) {
      var m: nat :| m < n && p(m);
      LeastExists(p, m);
    }
  }

  /** The first number satisfying `p`: where a counting loop that tests `p` stops. */
  ghost function Least(p: nat -> bool): (m: nat)
    requires exists n: nat :: p(n)
    ensures p(m) && forall k: nat :: k < m ==> !p(k)
  {
    var n: nat :| p(n);
    LeastExists(p, n);
    var m: nat :| p(m) && forall k: nat :: k < m ==> !p(k);
    m
  }

  // ---------------------------------------------------------------- stable sort

  ghost predicate TotalPreorder<T(!new)>(le: (T, T) -> bool) {
    && (forall a, b :: le(a, b) || le(b, a))
    && (forall a, b, d :: le(a, b) && le(b, d) ==> le(a, d))
  }

  ghost predicate SortedBy<T>(le: (T, T) -> bool, s: seq<T>) {
    forall i, j | 0 <= i < j < |s| :: le(s[i], s[j])
  }

  function Insert<T>(le: (T, T) -> bool, x: T, s: seq<T>): seq<T> {
    if s == [] || le(x, s[0]) then [x] + s else [s[0]] + Insert(le, x, s[1..])
  }

  /** Python's `sorted`: stable, so equal keys stay in arrival order. */
  function SortBy<T>(le: (T, T) -> bool, s: seq<T>): seq<T> {
    if s == [] then [] else Insert(le, s[0], SortBy(le, s[1..]))
  }

  lemma {:induction false} StrLeOrder()
    ensures TotalPreorder(StrLe)
  {
    forall a, b ensures StrLe(a, b) || StrLe(b, a) {
      StrLeTotal(a, b);
    }
    forall a, b, d | StrLe(a, b) && StrLe(b, d) ensures StrLe(a, d) {
      StrLeTransitive(a, b, d);
    }
  }

  lemma {:induction false} InsertPermutes<T>(le: (T, T) -> bool, x: T, s: seq<T>)
    ensures multiset(Insert(le, x, s)) == multiset{x} + multiset(s)
  {
    if s == [] || le(x, s[0]) {
    } else {
      InsertPermutes(le, x, s[1..]);
      assert s == [s[0]] + s[1..];
    }
  }

  lemma {:induction false} SortPermutes<T>(le: (T, T) -> bool, s: seq<T>)
    ensures multiset(SortBy(le, s)) == multiset(s)
    ensures |SortBy(le, s)| == |s|
    ensures forall x :: x in SortBy(le, s) <==> x in s
  {
    if s != [] {
      SortPermutes(le, s[1..]);
      InsertPermutes(le, s[0], SortBy(le, s[1..]));
      assert s == [s[0]] + s[1..];
    }
    assert |multiset(SortBy(le, s))| == |multiset(s)|;
    forall x ensures x in SortBy(le, s) <==> x in s {
      assert x in multiset(SortBy(le, s)) <==> x in multiset(s);
    }
  }

  lemma {:induction false} InsertSorted<T(!new)>(le: (T, T) -> bool, x: T, s: seq<T>)
    requires TotalPreorder(le) && SortedBy(le, s)
    ensures SortedBy(le, Insert(le, x, s))
  {
    if s == [] {
    } else if le(x, s[0]) {
      forall j | 0 <= j < |s| ensures le(x, s[j]) {
        assert le(s[0], s[j]) || j == 0;
      }
    } else {
      var rest := Insert(le, x, s[1..]);
      InsertSorted(le, x, s[1..]);
      InsertPermutes(le, x, s[1..]);
      forall j | 0 <= j < |rest| ensures le(s[0], rest[j]) {
        assert rest[j] in multiset(rest);
        assert rest[j] == x || rest[j] in s[1..];
      }
    }
  }

  lemma {:induction false} SortSorts<T(!new)>(le: (T, T) -> bool, s: seq<T>)
    requires TotalPreorder(le)
    ensures SortedBy(le, SortBy(le, s))
  {
    if s != [] {
      SortSorts(le, s[1..]);
      InsertSorted(le, s[0], SortBy(le, s[1..]));
    }
  }

  /** Elements that tie under `le` stand in the order `before`. */
  ghost predicate Stable<T>(le: (T, T) -> bool, before: (T, T) -> bool, s: seq<T>) {
    forall i, j | 0 <= i < j < |s| && le(s[j], s[i]) :: before(s[i], s[j])
  }

  lemma {:induction false} InsertStable<T>(le: (T, T) -> bool, before: (T, T) -> bool, x: T, s: seq<T>)
    requires Stable(le, before, s) && forall y | y in s :: before(x, y)
    ensures Stable(le, before, Insert(le, x, s))
  {
    if s != [] && !le(x, s[0]) {
      var rest := Insert(le, x, s[1..]);
      InsertStable(le, before, x, s[1..]);
      InsertPermutes(le, x, s[1..]);
      forall j | 0 <= j < |rest| && le(rest[j], s[0]) ensures before(s[0], rest[j]) {
        assert rest[j] in multiset(rest);
        assert rest[j] == x || rest[j] in s[1..];
      }
    }
  }

  /** The sort is stable. */
  lemma {:induction false} SortStable<T>(le: (T, T) -> bool, before: (T, T) -> bool, s: seq<T>)
    requires SortedBy(before, s)
    ensures Stable(le, before, SortBy(le, s))
  {
    if s != [] {
      SortStable(le, before, s[1..]);
      SortPermutes(le, s[1..]);
      forall y | y in SortBy(le, s[1..]) ensures before(s[0], y) {
        assert y in multiset(SortBy(le, s[1..]));
        var i :| 0 <= i < |s[1..]| && s[1..][i] == y;
        assert s[i + 1] == y;
      }
      InsertStable(le, before, s[0], SortBy(le, s[1..]));
    }
  }

  /** `le` only ties equal elements of `s`. */
  ghost predicate NoTies<T>(le: (T, T) -> bool, s: seq<T>) {
    forall x, y | x in s && y in s :: le(x, y) && le(y, x) ==> x == y
  }

  lemma {:induction false} FirstIsShared<T>(le: (T, T) -> bool, a: seq<T>, b: seq<T>)
    requires SortedBy(le, a) && SortedBy(le, b) && NoTies(le, a)
    requires multiset(a) == multiset(b) && a != [] && b != []
    ensures a[0] == b[0]
  {
    assert a[0] in multiset(b) && b[0] in multiset(a);
    var i :| 0 <= i < |b| && b[i] == a[0];
    var j :| 0 <= j < |a| && a[j] == b[0];
    if i > 0 && j > 0 {
      assert le(b[0], b[i]) && le(a[0], a[j]);
    }
  }

  lemma {:induction false} SortedTail<T>(le: (T, T) -> bool, s: seq<T>)
    requires s != []
    ensures SortedBy(le, s) ==> SortedBy(le, s[1..])
    ensures NoTies(le, s) ==> NoTies(le, s[1..])
  {
    assert forall x | x in s[1..] :: x in s;
  }

  /** A sorted sequence is determined by its contents once ties are equal elements. */
  lemma {:induction false} SortedUnique<T>(le: (T, T) -> bool, a: seq<T>, b: seq<T>)
    requires SortedBy(le, a) && SortedBy(le, b) && NoTies(le, a)
    requires multiset(a) == multiset(b)
    ensures a == b
  {
    assert |multiset(a)| == |multiset(b)|;
    if a != [] {
      FirstIsShared(le, a, b);
      SortedTail(le, a);
      SortedTail(le, b);
      SameTails(a, b);
      SortedUnique(le, a[1..], b[1..]);
      HeadSplit(a);
      HeadSplit(b);
    }
  }

  /** An already sorted sequence is left as it is. */
  lemma {:induction false} SortedStays<T>(le: (T, T) -> bool, s: seq<T>)
    requires SortedBy(le, s)
    ensures SortBy(le, s) == s
  {
    if s != [] {
      SortedStays(le, s[1..]);
      assert SortBy(le, s[1..]) == s[1..];
      if |s| > 1 {
        assert le(s[0], s[1]);
      }
    }
  }

  // ---------------------------------------------------------------- sequences

  lemma {:induction false} AppendAssociates<T>(a: seq<T>, b: seq<T>, d: seq<T>)
    ensures a + b + d == a + (b + d)
  {
  }

  lemma {:induction false} LastSplit<T>(s: seq<T>)
    requires s != []
    ensures s == s[..|s| - 1] + [s[|s| - 1]]
  {
  }

  lemma {:induction false} TakeSnoc<T>(s: seq<T>, i: nat)
    requires i < |s|
    ensures s[..i + 1] == s[..i] + [s[i]]
  {
  }

  lemma {:induction false} PrefixAt<T>(front: seq<T>, more: seq<T>, whole: seq<T>, j: nat)
    requires front + more <= whole && j < |more|
    ensures |front| + j < |whole| && whole[|front| + j] == more[j]
  {
    assert (front + more)[|front| + j] == more[j];
  }

  lemma {:induction false} SomeMember<T>(s: seq<T>)
    ensures s != [] ==> exists x :: x in s
  {
    if s != [] {
      assert s[0] in s;
    }
  }

  lemma {:induction false} NoMembers<T>(s: seq<T>)
    requires forall x :: x !in s
    ensures s == []
  {
    SomeMember(s);
  }

  lemma {:induction false} HeadSplit<T>(s: seq<T>)
    requires s != []
    ensures s == [s[0]] + s[1..]
  {
  }

  lemma {:induction false} SameTails<T>(a: seq<T>, b: seq<T>)
    requires a != [] && b != [] && a[0] == b[0] && multiset(a) == multiset(b)
    ensures multiset(a[1..]) == multiset(b[1..])
  {
    HeadMultiset(a);
    HeadMultiset(b);
    assert multiset(a[1..]) == multiset(a) - multiset{a[0]};
  }

  lemma {:induction false} HeadMultiset<T>(s: seq<T>)
    requires s != []
    ensures multiset(s) == multiset{s[0]} + multiset(s[1..])
  {
    assert s == [s[0]] + s[1..];
  }

  ghost predicate NoDuplicates<T>(s: seq<T>) {
    forall i, j | 0 <= i < j < |s| :: s[i] != s[j]
  }

  lemma {:induction false} TwoDifferent<T>(s: seq<T>)
    ensures NoDuplicates(s) && |s| > 1 ==> exists x, y :: x in s && y in s && x != y
  {
    if |s| > 1 && s[0] != s[1] {
      assert s[0] in s && s[1] in s;
    }
  }

  lemma {:induction false} AllTheSame<T>(s: seq<T>, p: T)
    requires NoDuplicates(s) && s != [] && forall i | 0 <= i < |s| :: s[i] == p
    ensures s == [p]
  {
    TwoDifferent(s);
    assert s[0] == p;
  }

  /** The elements of `s` in order of first appearance: the keys of a Python dict filled from `s`. */
  function Distinct<T(==,!new)>(s: seq<T>): (d: seq<T>)
    ensures forall x :: x in d <==> x in s
    ensures NoDuplicates(d)
  {
    if s == [] then [] else
      var d := Distinct(s[..|s| - 1]);
      var last := s[|s| - 1];
      assert s == s[..|s| - 1] + [last];
      if last in d then d else d + [last]
  }

  function Filter<T(!new)>(keep: T -> bool, s: seq<T>): (r: seq<T>)
    ensures |r| <= |s|
    ensures forall x :: x in r <==> x in s && keep(x)
  {
    if s == [] then [] else
      var r := Filter(keep, s[..|s| - 1]);
      var last := s[|s| - 1];
      assert s == s[..|s| - 1] + [last];
      if keep(last) then r + [last] else r
  }

  function MapSeq<S, T>(f: S -> T, s: seq<S>): (r: seq<T>)
    ensures |r| == |s| && forall i | 0 <= i < |s| :: r[i] == f(s[i])
  {
    seq(|s|, i requires 0 <= i < |s| => f(s[i]))
  }

  /** One more element: a new one goes to the end, a known one changes nothing. */
  lemma {:induction false} DistinctSnoc<T(!new)>(s: seq<T>, x: T)
    ensures Distinct(s + [x]) == if x in s then Distinct(s) else Distinct(s) + [x]
  {
    assert (s + [x])[..|s + [x]| - 1] == s;
  }

  lemma {:induction false} DistinctFew<T(!new)>(x: T, y: T)
    ensures Distinct([x]) == [x]
    ensures Distinct([x, y]) == if x == y then [x] else [x, y]
  {
    DistinctSnoc([], x);
    DistinctSnoc([x], y);
    assert [] + [x] == [x] && [x] + [y] == [x, y];
  }

  lemma {:induction false} FilterSnoc<T(!new)>(keep: T -> bool, s: seq<T>, x: T)
    ensures Filter(keep, s + [x]) == if keep(x) then Filter(keep, s) + [x] else Filter(keep, s)
  {
    assert (s + [x])[..|s + [x]| - 1] == s;
  }

  lemma {:induction false} FilterAppend<T(!new)>(keep: T -> bool, a: seq<T>, b: seq<T>)
    ensures Filter(keep, a + b) == Filter(keep, a) + Filter(keep, b)
  {
    if b == [] {
      assert a + b == a;
      assert Filter(keep, a) + [] == Filter(keep, a);
    } else {
      var front, last := b[..|b| - 1], b[|b| - 1];
      LastSplit(b);
      AppendAssociates(a, front, [last]);
      FilterAppend(keep, a, front);
      FilterSnoc(keep, a + front, last);
      FilterSnoc(keep, front, last);
      AppendAssociates(Filter(keep, a), Filter(keep, front), [last]);
    }
  }

  lemma {:induction false} FilterAll<T(!new)>(keep: T -> bool, s: seq<T>)
    requires forall i | 0 <= i < |s| :: keep(s[i])
    ensures Filter(keep, s) == s
  {
    if s != [] {
      FilterAll(keep, s[..|s| - 1]);
      assert s == s[..|s| - 1] + [s[|s| - 1]];
    }
  }

  lemma {:induction false} FilterNone<T(!new)>(keep: T -> bool, s: seq<T>)
    requires forall i | 0 <= i < |s| :: !keep(s[i])
    ensures Filter(keep, s) == []
  {
    if s != [] {
      FilterNone(keep, s[..|s| - 1]);
    }
  }

  lemma {:induction false} FilterSplit<T(!new)>(keep: T -> bool, front: seq<T>, back: seq<T>)
    requires forall i | 0 <= i < |front| :: keep(front[i])
    requires forall i | 0 <= i < |back| :: !keep(back[i])
    ensures Filter(keep, front + back) == front && Filter(keep, back + front) == front
  {
    FilterAppend(keep, front, back);
    FilterAppend(keep, back, front);
    FilterAll(keep, front);
    FilterNone(keep, back);
    assert front + [] == front == [] + front;
  }

  lemma {:induction false} FilterMultiset<T(!new)>(keep: T -> bool, s: seq<T>, x: T)
    ensures multiset(Filter(keep, s))[x] == if keep(x) then multiset(s)[x] else 0
  {
    if s != [] {
      FilterMultiset(keep, s[..|s| - 1], x);
      assert s == s[..|s| - 1] + [s[|s| - 1]];
    }
  }

  lemma {:induction false} NoDuplicatesMultiset<T>(s: seq<T>, x: T)
    requires NoDuplicates(s)
    ensures multiset(s)[x] == if x in s then 1 else 0
  {
    if s != [] {
      var t := s[..|s| - 1];
      NoDuplicatesMultiset(t, x);
      assert s == t + [s[|s| - 1]];
    }
  }

  /** Two duplicate-free sequences with the same elements are permutations of each other. */
  lemma {:induction false} SameElementsSameMultiset<T>(a: seq<T>, b: seq<T>)
    requires NoDuplicates(a) && NoDuplicates(b)
    requires forall x :: x in a <==> x in b
    ensures multiset(a) == multiset(b)
  {
    forall x ensures multiset(a)[x] == multiset(b)[x] {
      NoDuplicatesMultiset(a, x);
      NoDuplicatesMultiset(b, x);
    }
  }

  lemma {:induction false} FilterNoDuplicates<T(!new)>(keep: T -> bool, s: seq<T>)
    requires NoDuplicates(s)
    ensures NoDuplicates(Filter(keep, s))
  {
    if s != [] {
      FilterNoDuplicates(keep, s[..|s| - 1]);
      assert s[|s| - 1] !in s[..|s| - 1];
    }
  }

  lemma {:induction false} MapAppend<S, T>(f: S -> T, a: seq<S>, b: seq<S>)
    ensures MapSeq(f, a + b) == MapSeq(f, a) + MapSeq(f, b)
  {
  }

  lemma {:induction false} RemoveAt<T>(s: seq<T>, k: nat)
    requires k < |s|
    ensures multiset(s[..k] + s[k + 1..]) == multiset(s) - multiset{s[k]}
  {
    SplitAt(s, k);
    assert multiset(s) == multiset(s[..k]) + multiset{s[k]} + multiset(s[k + 1..]);
  }

  lemma {:induction false} MapRemoveAt<S, T>(f: S -> T, s: seq<S>, k: nat)
    requires k < |s|
    ensures multiset(MapSeq(f, s)) == multiset(MapSeq(f, s[..k] + s[k + 1..])) + multiset{f(s[k])}
  {
    var m := MapSeq(f, s);
    assert m[..k] + m[k + 1..] == MapSeq(f, s[..k] + s[k + 1..]);
    SplitAt(m, k);
    assert multiset(m) == multiset(m[..k]) + multiset{m[k]} + multiset(m[k + 1..]);
  }

  lemma {:induction false} MapMultiset<S, T>(f: S -> T, a: seq<S>, b: seq<S>)
    requires multiset(a) == multiset(b)
    ensures multiset(MapSeq(f, a)) == multiset(MapSeq(f, b))
    decreases |a|
  {
    SameLength(a, b);
    if a != [] {
      var k := HeadAmong(a, b);
      RemoveBoth(a, b, k);
      MapMultiset(f, a[..0] + a[1..], b[..k] + b[k + 1..]);
      MapRemoveAt(f, a, 0);
      MapRemoveAt(f, b, k);
    }
  }

  lemma {:induction false} RemoveBoth<T>(a: seq<T>, b: seq<T>, k: nat)
    requires multiset(a) == multiset(b) && a != [] && k < |b| && b[k] == a[0]
    ensures multiset(a[..0] + a[1..]) == multiset(b[..k] + b[k + 1..])
    ensures |a[..0] + a[1..]| < |a|
  {
    RemoveAt(a, 0);
    RemoveAt(b, k);
  }

  lemma {:induction false} SameLength<T>(a: seq<T>, b: seq<T>)
    requires multiset(a) == multiset(b)
    ensures |a| == |b|
  {
    assert |multiset(a)| == |multiset(b)|;
  }

  lemma {:induction false} HeadAmong<T>(a: seq<T>, b: seq<T>) returns (k: nat)
    requires multiset(a) == multiset(b) && a != []
    ensures k < |b| && b[k] == a[0]
  {
    assert a[0] in multiset(b);
    k :| 0 <= k < |b| && b[k] == a[0];
  }

  lemma {:induction false} SplitAt<T>(s: seq<T>, k: nat)
    requires k < |s|
    ensures s == s[..k] + [s[k]] + s[k + 1..]
  {
  }
}

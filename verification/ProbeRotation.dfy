/** The health probe's rotating window over a provider's rankable lanes, and what a day of hourly runs reaches. */
module ProbeRotation {
  import opened Prelude

  // ---------------------------------------------------------------- rankable lanes

  datatype Offer = Offer(provider: string, model: string, disabled: bool, archived: bool, validTo: string,
      price: Option<real>, planTier: bool)

  datatype Lane = Lane(price: real, model: string)

  const NO_PRICE: real := 1_000_000_000.0

  predicate Rankable(o: Offer, provider: string, today: string) {
    && o.provider == provider && !o.disabled && !o.archived
    && (o.validTo != "" ==> StrLe(today, o.validTo))
    && (o.price.Some? || o.planTier)
  }

  function LaneOf(o: Offer): Lane {
    Lane(if o.price.Some? then o.price.value else NO_PRICE, o.model)
  }

  predicate LaneLe(a: Lane, b: Lane) {
    a.price < b.price || (a.price == b.price && StrLe(a.model, b.model))
  }

  function Priced(offers: seq<Offer>, provider: string, today: string): seq<Lane> {
    MapSeq(LaneOf, Filter((o: Offer) => Rankable(o, provider, today), offers))
  }

  lemma {:induction false} NextOffer(offers: seq<Offer>, provider: string, today: string, n: nat)
    requires n < |offers|
    ensures Priced(offers[..n + 1], provider, today)
         == if Rankable(offers[n], provider, today) then Priced(offers[..n], provider, today) + [LaneOf(offers[n])]
            else Priced(offers[..n], provider, today)
  {
    var keep := (o: Offer) => Rankable(o, provider, today);
    FilterSnoc(keep, offers[..n], offers[n]);
    assert offers[..n + 1] == offers[..n] + [offers[n]];
    if Rankable(offers[n], provider, today) {
      MapAppend(LaneOf, Filter(keep, offers[..n]), [offers[n]]);
    }
  }

  /** Every rankable offer of the provider as a lane, cheapest first. */
  method RankableLanes(offers: seq<Offer>, provider: string, today: string) returns (lanes: seq<Lane>)
    ensures multiset(lanes) == multiset(Priced(offers, provider, today))
    ensures forall i, j | 0 <= i < j < |lanes| ::
        lanes[i].price <= lanes[j].price && (lanes[i].price == lanes[j].price ==> StrLe(lanes[i].model, lanes[j].model))
  {
    lanes := [];
    for n := 0 to |offers|
      invariant lanes == Priced(offers[..n], provider, today)
    {
      NextOffer(offers, provider, today, n);
      if Rankable(offers[n], provider, today) {
        lanes := lanes + [LaneOf(offers[n])];
      }
    }
    assert offers[..|offers|] == offers;
    LaneOrder();
    SortPermutes(LaneLe, lanes);
    SortSorts(LaneLe, lanes);
    lanes := SortBy(LaneLe, lanes);
    CheaperFirst(lanes);
  }

  lemma {:induction false} CheaperFirst(lanes: seq<Lane>)
    requires SortedBy(LaneLe, lanes)
    ensures forall i, j | 0 <= i < j < |lanes| ::
        lanes[i].price <= lanes[j].price && (lanes[i].price == lanes[j].price ==> StrLe(lanes[i].model, lanes[j].model))
  {
    hide StrLe;
    forall i, j | 0 <= i < j < |lanes|
      ensures lanes[i].price <= lanes[j].price
      ensures lanes[i].price == lanes[j].price ==> StrLe(lanes[i].model, lanes[j].model)
    {
      assert LaneLe(lanes[i], lanes[j]);
    }
  }

  /** Which lanes are listed: those of the provider's offers that are neither disabled nor archived nor expired before
      today, at their price, or, on a plan without one, behind every price below a billion. */
  lemma {:induction false} ListedExactly(offers: seq<Offer>, provider: string, today: string, l: Lane)
    ensures l in Priced(offers, provider, today) <==>
      exists o :: o in offers && o.provider == provider && !o.disabled && !o.archived && o.model == l.model
        && (o.validTo == "" || StrLe(today, o.validTo))
        && (if o.price.Some? then l.price == o.price.value else o.planTier && l.price == 1_000_000_000.0)
  {
    var keep := (o: Offer) => Rankable(o, provider, today);
    var kept := Filter(keep, offers);
    if l in Priced(offers, provider, today) {
      var i :| 0 <= i < |kept| && LaneOf(kept[i]) == l;
      assert kept[i] in kept;
    }
    if o :| o in offers && Rankable(o, provider, today) && LaneOf(o) == l {
      assert o in kept;
      var i :| 0 <= i < |kept| && kept[i] == o;
      assert Priced(offers, provider, today)[i] == l;
    }
  }

  lemma {:induction false} LaneOrder()
    ensures TotalPreorder(LaneLe)
  {
    forall a, b ensures LaneLe(a, b) || LaneLe(b, a) {
      StrLeTotal(a.model, b.model);
    }
    forall a, b, d | LaneLe(a, b) && LaneLe(b, d) ensures LaneLe(a, d) {
      if a.price == b.price == d.price {
        StrLeTransitive(a.model, b.model, d.model);
      }
    }
  }

  // ---------------------------------------------------------------- the window

  function Cap(cap: int): nat {
    if cap < 1 then 1 else cap
  }

  /** The positions one hourly run probes. */
  function Positions(n: nat, cap: int, hour: int): (ps: seq<nat>)
    requires n > 0
    ensures forall i | 0 <= i < |ps| :: ps[i] < n
  {
    if n <= Cap(cap) then seq(n, i requires 0 <= i < n => i)
    else seq(Cap(cap), i requires 0 <= i < Cap(cap) => ((((hour % 24) * Cap(cap)) % n + i) % n) as nat)
  }

  function Window(rows: seq<Lane>, cap: int, hour: int): (window: seq<Lane>)
  {
    if rows == [] then [] else
      var ps := Positions(|rows|, cap, hour);
      seq(|ps|, i requires 0 <= i < |ps| => rows[ps[i]])
  }

  lemma {:induction false} Scale(n: int, d: int, m: int)
    requires n > 0
    ensures d >= m ==> n * d >= n * m
  {
  }

  /** Quotient and remainder are determined. */
  lemma {:induction false} Remainder(x: int, n: int, q: int, r: int)
    requires 0 <= r < n && x == n * q + r
    ensures x % n == r
  {
    var p := x / n;
    Scale(n, q, p + 1);
    Scale(n, p, q + 1);
    assert n * (p + 1) == n * p + n && n * (q + 1) == n * q + n;
  }

  lemma {:induction false} ModShift(x: int, n: int, q: int)
    requires n > 0
    ensures (x + n * q) % n == x % n
  {
    assert x + n * q == n * (x / n + q) + x % n;
    Remainder(x + n * q, n, x / n + q, x % n);
  }

  lemma {:induction false} ModOfSum(a: int, i: int, n: int)
    requires n > 0
    ensures (a % n + i) % n == (a + i) % n
  {
    assert a + i == (a % n + i) + n * (a / n);
    ModShift(a % n + i, n, a / n);
  }

  /** Equal remainders less than `n` apart are one number. */
  lemma {:induction false} ModSmall(x: int, y: int, n: int)
    requires 0 < n && x % n == y % n && 0 <= y - x < n
    ensures x == y
  {
    var p, q := x / n, y / n;
    Scale(n, q, p + 1);
    Scale(n, p, q + 1);
    assert n * (p + 1) == n * p + n && n * (q + 1) == n * q + n;
  }

  /** A run never probes a position twice, and probes as many as the cap and the list allow. */
  lemma {:induction false} WindowDistinct(n: nat, cap: int, hour: int)
    requires n > 0
    ensures cap < 1 ==> |Positions(n, cap, hour)| == 1
    ensures cap >= 1 ==> |Positions(n, cap, hour)| == if n <= cap then n else cap
    ensures NoDuplicates(Positions(n, cap, hour))
  {
    var ps := Positions(n, cap, hour);
    if n > Cap(cap) {
      var start := ((hour % 24) * Cap(cap)) % n;
      forall i, j | 0 <= i < j < |ps| ensures ps[i] != ps[j] {
        if ps[i] == ps[j] {
          ModSmall(start + i, start + j, n);
        }
      }
    }
  }

  /** A run of the day that reaches position `j`. */
  ghost predicate Reached(n: nat, cap: int, first: int, j: nat)
    requires n > 0
  {
    exists hour :: first <= hour < first + 24 && j in Positions(n, cap, hour)
  }

  /** Where the clock stands in the day's 24 * c slots. */
  function Slot(c: nat, hour: int, i: nat): nat {
    (hour % 24) * c + i
  }

  lemma {:induction false} SlotInDay(c: nat, hour: int, i: nat)
    requires i < c
    ensures Slot(c, hour, i) < 24 * c
  {
    Scale(c, 23, hour % 24);
  }

  lemma {:induction false} PositionIs(n: nat, cap: int, hour: int, i: nat)
    requires n > Cap(cap) && i < Cap(cap)
    ensures i < |Positions(n, cap, hour)| && Positions(n, cap, hour)[i] == Slot(Cap(cap), hour, i) % n
  {
    ModOfSum((hour % 24) * Cap(cap), i, n);
  }

  lemma {:induction false} RowColumn(j: nat, c: nat)
    requires c > 0 && j < 24 * c
    ensures (j / c) * c + j % c == j && 0 <= j / c < 24
  {
    Scale(c, j / c, 24);
  }

  /** ROTATION: any 24 consecutive hourly runs together probe exactly the first 24 * cap positions of the list. */
  lemma {:induction false} DayReaches(n: nat, cap: int, first: int, j: nat)
    requires j < n
    ensures Reached(n, cap, first, j) <==> j < 24 * Cap(cap)
  {
    if n <= Cap(cap) {
      assert Positions(n, cap, first)[j] == j;
    } else {
      if j < 24 * Cap(cap) {
        ReachedInTime(n, cap, first, j);
      }
      forall hour | first <= hour < first + 24 && j in Positions(n, cap, hour) ensures j < 24 * Cap(cap) {
        OnlyFirst(n, cap, hour, j);
      }
    }
  }

  lemma {:induction false} HourOf(c: nat, first: int, j: nat) returns (hour: int, i: nat)
    requires c > 0 && j < 24 * c
    ensures first <= hour < first + 24 && i < c && Slot(c, hour, i) == j
  {
    RowColumn(j, c);
    hour, i := first + (j / c - first) % 24, j % c;
    assert hour % 24 == j / c;
  }

  lemma {:induction false} ReachedInTime(n: nat, cap: int, first: int, j: nat)
    requires j < n && n > Cap(cap) && j < 24 * Cap(cap)
    ensures Reached(n, cap, first, j)
  {
    hide Slot, Positions;
    var hour, i := HourOf(Cap(cap), first, j);
    PositionIs(n, cap, hour, i);
    Remainder(j, n, 0, j);
    assert Positions(n, cap, hour)[i] == j;
  }

  lemma {:induction false} OnlyFirst(n: nat, cap: int, hour: int, j: nat)
    requires n > Cap(cap) && j in Positions(n, cap, hour)
    ensures j < 24 * Cap(cap)
  {
    var i :| 0 <= i < |Positions(n, cap, hour)| && Positions(n, cap, hour)[i] == j;
    assert i < Cap(cap);
    hide Slot, Positions;
    PositionIs(n, cap, hour, i);
    SlotInDay(Cap(cap), hour, i);
    ModAtMost(Slot(Cap(cap), hour, i), n);
  }

  lemma {:induction false} ModAtMost(x: nat, n: nat)
    requires n > 0
    ensures x % n <= x
  {
  }

  /** So a day covers the list exactly when it is at most 24 * cap long. */
  lemma {:induction false} DayCoversAll(n: nat, cap: int, first: int)
    requires n > 0
    ensures (forall j: nat | j < n :: Reached(n, cap, first, j)) <==> n <= 24 * Cap(cap)
  {
    forall j: nat | j < n ensures Reached(n, cap, first, j) <==> j < 24 * Cap(cap) {
      DayReaches(n, cap, first, j);
    }
    if n > 24 * Cap(cap) {
      assert !Reached(n, cap, first, n - 1);
    }
  }

  /** And the lanes a day never reaches are the dearest: none is cheaper than a lane it does reach. */
  lemma {:induction false} UnreachedAreDearest(rows: seq<Lane>, cap: int, first: int, i: nat, j: nat)
    requires forall k, l | 0 <= k < l < |rows| :: rows[k].price <= rows[l].price
    requires i < |rows| && j < |rows| && Reached(|rows|, cap, first, i) && !Reached(|rows|, cap, first, j)
    ensures rows[i].price <= rows[j].price
  {
    DayReaches(|rows|, cap, first, i);
    DayReaches(|rows|, cap, first, j);
  }

  // ---------------------------------------------------------------- the probe set

  function Models(lanes: seq<Lane>): seq<string> {
    MapSeq((l: Lane) => l.model, lanes)
  }

  /** One provider's probe list: its static model first, then the window's models it does not have yet. */
  method ProbeModels(rows: seq<Lane>, standing: string, cap: int, hour: int) returns (probes: seq<string>)
    ensures probes == Distinct([standing] + Models(Window(rows, cap, hour)))
    ensures NoDuplicates(probes) && probes != [] && probes[0] == standing
  {
    var models := Models(Window(rows, cap, hour));
    probes := [standing];
    var existing := {standing};
    assert [standing] + models[..0] == [standing];
    DistinctFew(standing, standing);
    for n := 0 to |models|
      invariant forall m :: m in existing <==> m in probes
      invariant probes == Distinct([standing] + models[..n]) && probes != [] && probes[0] == standing
    {
      AddModel([standing], models, n);
      if models[n] !in existing {
        probes := probes + [models[n]];
        existing := existing + {models[n]};
      }
    }
    assert models[..|models|] == models;
  }

  lemma {:induction false} AddModel(front: seq<string>, models: seq<string>, n: nat)
    requires n < |models|
    ensures var sofar := front + models[..n];
      Distinct(front + models[..n + 1])
          == if models[n] in Distinct(sofar) then Distinct(sofar) else Distinct(sofar) + [models[n]]
  {
    assert front + models[..n + 1] == (front + models[..n]) + [models[n]];
    DistinctSnoc(front + models[..n], models[n]);
  }

  /** What a day of runs probes: the static model, and every model that stands among the first 24 * cap lanes. */
  lemma {:induction false} DayProbes(rows: seq<Lane>, standing: string, cap: int, first: int, m: string)
    ensures (exists hour :: first <= hour < first + 24 && m in Distinct([standing] + Models(Window(rows, cap, hour))))
       <==> m == standing || exists j :: 0 <= j < |rows| && j < 24 * Cap(cap) && rows[j].model == m
  {
    if j :| 0 <= j < |rows| && j < 24 * Cap(cap) && rows[j].model == m {
      DayReaches(|rows|, cap, first, j);
      var hour :| first <= hour < first + 24 && j in Positions(|rows|, cap, hour);
      var i :| 0 <= i < |Positions(|rows|, cap, hour)| && Positions(|rows|, cap, hour)[i] == j;
      assert Models(Window(rows, cap, hour))[i] == m;
    }
    if m == standing {
      assert m in Distinct([standing] + Models(Window(rows, cap, first)));
    }
    forall hour | first <= hour < first + 24 && m in Distinct([standing] + Models(Window(rows, cap, hour)))
        && m != standing
      ensures exists j :: 0 <= j < |rows| && j < 24 * Cap(cap) && rows[j].model == m
    {
      var i :| 0 <= i < |Models(Window(rows, cap, hour))| && Models(Window(rows, cap, hour))[i] == m;
      var j := Positions(|rows|, cap, hour)[i];
      DayReaches(|rows|, cap, first, j);
    }
  }

  // ---------------------------------------------------------------- the coverage report

  datatype Coverage = Coverage(rankable: nat, probed: seq<string>, unprobed: seq<string>)

  /** Each rankable lane is reported once, as probed or as unprobed, both lists in order. */
  method CoverageBlock(rows: seq<Lane>, stamped: set<string>) returns (report: Coverage)
    ensures report.rankable == |rows|
    ensures multiset(report.probed) + multiset(report.unprobed) == multiset(Models(rows))
    ensures forall m :: m in report.probed ==> m in stamped
    ensures forall m :: m in report.unprobed ==> m !in stamped
    ensures SortedBy(StrLe, report.probed) && SortedBy(StrLe, report.unprobed)
  {
    var models, probed, unprobed := Models(rows), [], [];
    for n := 0 to |models|
      invariant multiset(probed) + multiset(unprobed) == multiset(models[..n])
      invariant forall m :: m in probed ==> m in stamped
      invariant forall m :: m in unprobed ==> m !in stamped
    {
      assert models[..n + 1] == models[..n] + [models[n]];
      if models[n] in stamped {
        probed := probed + [models[n]];
      } else {
        unprobed := unprobed + [models[n]];
      }
    }
    assert models[..|models|] == models;
    StrLeOrder();
    SortPermutes(StrLe, probed);
    SortPermutes(StrLe, unprobed);
    SortSorts(StrLe, probed);
    SortSorts(StrLe, unprobed);
    return Coverage(|models|, SortBy(StrLe, probed), SortBy(StrLe, unprobed));
  }
}

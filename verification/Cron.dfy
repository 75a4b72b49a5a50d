/**
Cron occurrences across daylight-saving folds.

Instants and wall-clock times are seconds. The cron iterator is a parameter: it
lists the matching instants whose wall time is later than that of the scan
start, ordered by wall time and, where a wall time occurs twice, by instant.
 */
module Cron {
  import opened Common

  const DAY: int := 86400

  // ----- time zones -----

  datatype Transition = Transition(at: int, offset: int)

  datatype Zone = Zone(base: int, transitions: seq<Transition>)

  /** The offset in force after the first `k` transitions. */
  function Offset(z: Zone, k: nat): int
    requires k <= |z.transitions|
  {
    if k == 0 then z.base else z.transitions[k - 1].offset
  }

  function SegmentFrom(z: Zone, u: int, n: nat): (k: nat)
    requires n <= |z.transitions|
    ensures k <= n
    ensures k > 0 ==> z.transitions[k - 1].at <= u
    ensures forall i :: k <= i < n ==> u < z.transitions[i].at
  {
    if n == 0 then 0 else if z.transitions[n - 1].at <= u then n else SegmentFrom(z, u, n - 1)
  }

  /** How many transitions have happened by `u`. */
  function Segment(z: Zone, u: int): nat { SegmentFrom(z, u, |z.transitions|) }

  function OffsetAt(z: Zone, u: int): int { Offset(z, Segment(z, u)) }

  function Local(z: Zone, u: int): int { u + OffsetAt(z, u) }

  /** Offsets shorter than a day, and changes from `t` on more than two days apart. */
  ghost predicate GoodSince(z: Zone, t: int) {
    && (forall i, j :: 0 <= i < j < |z.transitions| ==> z.transitions[i].at < z.transitions[j].at)
    && (forall i, j :: 0 <= i < j < |z.transitions| && t < z.transitions[i].at ==>
          z.transitions[j].at - z.transitions[i].at > 2 * DAY)
    && (forall k :: 0 <= k <= |z.transitions| ==> -DAY < Offset(z, k) < DAY)
  }

  /** The wall time lies in the stretch that transition `k` repeats. */
  predicate InFold(z: Zone, wall: int, k: nat) {
    k < |z.transitions| && z.transitions[k].at + Offset(z, k + 1) <= wall < z.transitions[k].at + Offset(z, k)
  }

  /** The wall time is shown twice: once before and once after some step back. */
  predicate Ambiguous(z: Zone, wall: int) {
    exists k | 0 <= k < |z.transitions| :: InFold(z, wall, k)
  }

  lemma SegmentIs(z: Zone, u: int, k: nat)
    requires forall i, j :: 0 <= i < j < |z.transitions| ==> z.transitions[i].at < z.transitions[j].at
    requires k <= |z.transitions|
    requires k > 0 ==> z.transitions[k - 1].at <= u
    requires k < |z.transitions| ==> u < z.transitions[k].at
    ensures Segment(z, u) == k
  {
  }

  lemma SegmentsApart(z: Zone, t: int, v: int, u: int)
    requires GoodSince(z, t) && t <= v <= u
    ensures Segment(z, v) <= Segment(z, u)
    ensures Segment(z, u) >= Segment(z, v) + 2 ==> u - v > 2 * DAY
  {
    var k, m := Segment(z, v), Segment(z, u);
    assert m < |z.transitions| ==> u < z.transitions[m].at;
    assert k < |z.transitions| ==> v < z.transitions[k].at;
  }

  /**
  Wall order differs from time order only inside one fold, and there both wall
  times are ambiguous.
   */
  lemma DisorderIsAmbiguous(z: Zone, t: int, v: int, u: int)
    requires GoodSince(z, t) && t <= v < u && Local(z, u) <= Local(z, v)
    ensures var k := Segment(z, v);
            && k < |z.transitions| && Segment(z, u) == k + 1
            && v < z.transitions[k].at <= u
            && Offset(z, k) - Offset(z, k + 1) >= u - v
    ensures Ambiguous(z, Local(z, u)) && Ambiguous(z, Local(z, v))
  {
    SegmentsApart(z, t, v, u);
    assert -DAY < OffsetAt(z, v) < DAY && -DAY < OffsetAt(z, u) < DAY;
    assert InFold(z, Local(z, u), Segment(z, v)) && InFold(z, Local(z, v), Segment(z, v));
  }

  /** The computed test is the meaning: two different instants show the wall time. */
  lemma AmbiguousMeansTwice(z: Zone, t: int, wall: int)
    requires GoodSince(z, t) && t <= wall - DAY
    ensures Ambiguous(z, wall) <==> exists u, v :: u != v && Local(z, u) == wall && Local(z, v) == wall
  {
    if Ambiguous(z, wall) {
      var k :| 0 <= k < |z.transitions| && InFold(z, wall, k);
      ShownBothSides(z, t, wall, k);
    }
    if u, v :| u != v && Local(z, u) == wall && Local(z, v) == wall {
      assert -DAY < OffsetAt(z, u) < DAY && -DAY < OffsetAt(z, v) < DAY;
      if u < v { DisorderIsAmbiguous(z, t, u, v); } else { DisorderIsAmbiguous(z, t, v, u); }
    }
  }

  /** The change before transition `k` and the one after it keep two days' distance. */
  lemma Neighbours(z: Zone, t: int, k: nat)
    requires GoodSince(z, t) && k < |z.transitions| && t < z.transitions[k].at
    ensures k > 0 ==> z.transitions[k - 1].at <= t || z.transitions[k].at - z.transitions[k - 1].at > 2 * DAY
    ensures k + 1 < |z.transitions| ==> z.transitions[k + 1].at - z.transitions[k].at > 2 * DAY
    ensures -DAY < Offset(z, k) < DAY && -DAY < Offset(z, k + 1) < DAY
  {
  }

  lemma ShownBefore(z: Zone, t: int, wall: int, k: nat)
    requires GoodSince(z, t) && t <= wall - DAY && InFold(z, wall, k)
    ensures Segment(z, wall - Offset(z, k)) == k
  {
    var u := wall - Offset(z, k);
    assert Offset(z, k) < DAY && t < z.transitions[k].at;
    Neighbours(z, t, k);
    assert k > 0 ==> z.transitions[k - 1].at <= u;
    SegmentIs(z, u, k);
  }

  lemma ShownAfter(z: Zone, t: int, wall: int, k: nat)
    requires GoodSince(z, t) && t <= wall - DAY && InFold(z, wall, k)
    ensures Segment(z, wall - Offset(z, k + 1)) == k + 1
  {
    var v := wall - Offset(z, k + 1);
    assert Offset(z, k) < DAY && t < z.transitions[k].at;
    Neighbours(z, t, k);
    assert k + 1 < |z.transitions| ==> v < z.transitions[k + 1].at;
    SegmentIs(z, v, k + 1);
  }

  lemma ShownBothSides(z: Zone, t: int, wall: int, k: nat)
    requires GoodSince(z, t) && t <= wall - DAY && InFold(z, wall, k)
    ensures Local(z, wall - Offset(z, k)) == wall && Local(z, wall - Offset(z, k + 1)) == wall
    ensures wall - Offset(z, k) != wall - Offset(z, k + 1)
  {
    ShownBefore(z, t, wall, k);
    ShownAfter(z, t, wall, k);
  }

  // ----- increasing listings -----

  ghost predicate Increasing(s: seq<int>) {
    forall i, j :: 0 <= i < j < |s| ==> s[i] < s[j]
  }

  lemma {:induction false} Least(s: set<int>) returns (m: int)
    requires s != {}
    ensures m in s && forall x :: x in s ==> m <= x
  {
    assert (forall x :: x !in s) ==> s == {};
    var a :| a in s;
    var rest := s - {a};
    m := a;
    if rest != {} {
      var k := Least(rest);
      if k < a { m := k; }
    }
    forall x | x in s ensures m <= x {
      assert x == a || x in rest;
    }
  }

  ghost function LeastOf(s: set<int>): (m: int)
    requires s != {}
    ensures m in s && forall x :: x in s ==> m <= x
  {
    LeastExists(s);
    var m :| m in s && forall x :: x in s ==> m <= x;
    m
  }

  lemma LeastExists(s: set<int>)
    requires s != {}
    ensures exists m :: m in s && forall x :: x in s ==> m <= x
  {
    var m := Least(s);
  }

  /** The elements of `s` in increasing order. */
  ghost function Listing(s: set<int>): seq<int> {
    if s == {} then [] else [LeastOf(s)] + Listing(s - {LeastOf(s)})
  }

  lemma {:induction false} ListingLists(s: set<int>)
    ensures Increasing(Listing(s)) && |Listing(s)| == |s|
    ensures forall x :: x in Listing(s) <==> x in s
  {
    if s != {} {
      var m, rest := LeastOf(s), s - {LeastOf(s)};
      ListingLists(rest);
      forall x ensures x in Listing(s) <==> x in s {
        assert x in s <==> x == m || x in rest;
      }
      ConcatIncreases([m], Listing(rest));
    }
  }

  lemma {:induction false} IncreasingIsUnique(a: seq<int>, b: seq<int>)
    requires Increasing(a) && Increasing(b) && forall x :: x in a <==> x in b
    ensures a == b
  {
    if a != [] {
      var x := a[0];
      assert x in a && x in b;
    }
    if b != [] {
      var x := b[0];
      assert x in b && x in a;
      assert a[0] == b[0];
      forall x ensures x in a[1..] <==> x in b[1..] {
        if x in a[1..] { assert x in a && x != a[0]; }
        if x in b[1..] { assert x in b && x != b[0]; }
      }
      IncreasingIsUnique(a[1..], b[1..]);
    }
  }

  lemma ConcatIncreases(a: seq<int>, b: seq<int>)
    requires Increasing(a) && Increasing(b) && forall x, y :: x in a && y in b ==> x < y
    ensures Increasing(a + b)
  {
    var l := a + b;
    forall i, j | 0 <= i < j < |l| ensures l[i] < l[j] {
      if i < |a| <= j {
        assert a[i] in a && b[j - |a|] in b;
      }
    }
  }

  lemma ListingSplits(a: set<int>, b: set<int>)
    requires forall x, y :: x in a && y in b ==> x < y
    ensures Listing(a + b) == Listing(a) + Listing(b)
  {
    ListingLists(a);
    ListingLists(b);
    ListingLists(a + b);
    ConcatIncreases(Listing(a), Listing(b));
    IncreasingIsUnique(Listing(a) + Listing(b), Listing(a + b));
  }

  function Take(s: seq<int>, n: nat): seq<int> { s[..Min(n, |s|)] }

  ghost function Later(occ: set<int>, after: int): set<int> { set u | u in occ && u > after }

  /** The first `count` elements of `s`. */
  ghost function First(s: set<int>, count: nat): seq<int> { Take(Listing(s), count) }

  // ----- the scan -----

  function Midnight(wall: int): (m: int)
    ensures m <= wall < m + DAY
  {
    wall - wall % DAY
  }

  predicate NearFallBack(z: Zone, after: int) { OffsetAt(z, after - DAY) > OffsetAt(z, after + DAY) }

  /** The rewind near a fall-back, and the plain start elsewhere. */
  function ScanFrom(z: Zone, after: int): int {
    if NearFallBack(z, after) then Midnight(Local(z, after)) - DAY else after
  }

  predicate ScanOrder(z: Zone, u: int, v: int) {
    Local(z, u) < Local(z, v) || (Local(z, u) == Local(z, v) && u < v)
  }

  /** What the cron iterator promises. */
  ghost predicate IsScan(z: Zone, occ: set<int>, from: int, scan: seq<int>) {
    && InScanOrder(z, scan)
    && (forall u :: u in scan <==> u in occ && Local(z, u) > Local(z, from))
  }

  // ----- where the scan starts late -----

  /** The instant has passed into the next segment but shows a wall time no later than `wall`. */
  predicate Hidden(z: Zone, after: int, wall: int, u: int) {
    var k := Segment(z, after);
    k < |z.transitions| && z.transitions[k].at <= u <= wall - Offset(z, k + 1)
  }

  /** It is hidden by the start of the scan. */
  predicate Lost(z: Zone, after: int, u: int) { Hidden(z, after, Local(z, ScanFrom(z, after)), u) }

  /** The wall time shown right after the next change lies inside the scan. */
  predicate Reaches(z: Zone, after: int) {
    var k := Segment(z, after);
    k == |z.transitions| || z.transitions[k].at + Offset(z, k + 1) > Local(z, ScanFrom(z, after))
  }

  lemma ScanStartsEarly(z: Zone, t: int, after: int)
    requires GoodSince(z, t)
    ensures Local(z, ScanFrom(z, after)) <= Local(z, after)
    ensures after - 3 * DAY < ScanFrom(z, after) <= after
  {
    var from := ScanFrom(z, after);
    assert -DAY < OffsetAt(z, from) < DAY && -DAY < OffsetAt(z, after) < DAY;
  }

  lemma HiddenShowsLess(z: Zone, t: int, after: int, wall: int, u: int)
    requires GoodSince(z, t) && t <= after && wall <= Local(z, after) && Hidden(z, after, wall, u)
    ensures after < u && Local(z, u) <= wall
  {
    var k := Segment(z, after);
    Neighbours(z, t, k);
    SegmentIs(z, u, k + 1);
  }

  lemma ShowsLessIsHidden(z: Zone, t: int, after: int, wall: int, u: int)
    requires GoodSince(z, t) && t <= after < u && Local(z, u) <= wall <= Local(z, after)
    ensures Hidden(z, after, wall, u)
  {
    DisorderIsAmbiguous(z, t, after, u);
  }

  /** A later instant is missing from the scan exactly when it is lost. */
  lemma LaterIsScannedOrLost(z: Zone, t: int, after: int, u: int)
    requires GoodSince(z, t) && t <= after < u
    ensures Local(z, u) <= Local(z, ScanFrom(z, after)) <==> Lost(z, after, u)
  {
    var wall := Local(z, ScanFrom(z, after));
    ScanStartsEarly(z, t, after);
    if Hidden(z, after, wall, u) {
      HiddenShowsLess(z, t, after, wall, u);
    } else if Local(z, u) <= wall {
      ShowsLessIsHidden(z, t, after, wall, u);
    }
  }

  lemma ReachesMeansNoneLost(z: Zone, after: int)
    ensures Reaches(z, after) <==> forall u :: !Lost(z, after, u)
  {
    var k := Segment(z, after);
    if !Reaches(z, after) {
      assert Lost(z, after, z.transitions[k].at);
    }
  }

  /** The next step back, and with the offset at the scan start, stays within a day. */
  predicate GentleStep(z: Zone, after: int) {
    var k := Segment(z, after);
    k < |z.transitions| ==>
      var drop := Offset(z, k) - Offset(z, k + 1);
      drop <= DAY && drop + OffsetAt(z, ScanFrom(z, after)) <= DAY
  }

  lemma SegmentADayBefore(z: Zone, t: int, after: int)
    requires GoodSince(z, t) && t <= after - DAY
    requires Segment(z, after) < |z.transitions| && z.transitions[Segment(z, after)].at <= after + DAY
    ensures Segment(z, after - DAY) == Segment(z, after)
  {
    var k := Segment(z, after);
    Neighbours(z, t, k);
    SegmentIs(z, after - DAY, k);
  }

  lemma SegmentADayAfter(z: Zone, t: int, after: int)
    requires GoodSince(z, t) && t <= after - DAY
    requires Segment(z, after) < |z.transitions| && z.transitions[Segment(z, after)].at <= after + DAY
    ensures Segment(z, after + DAY) == Segment(z, after) + 1
  {
    var k := Segment(z, after);
    Neighbours(z, t, k);
    SegmentIs(z, after + DAY, k + 1);
  }

  /** A change within a day that goes unnoticed is no step back. */
  lemma UnnoticedIsNoDrop(z: Zone, t: int, after: int)
    requires GoodSince(z, t) && t <= after - DAY && !NearFallBack(z, after)
    requires Segment(z, after) < |z.transitions| && z.transitions[Segment(z, after)].at <= after + DAY
    ensures Offset(z, Segment(z, after)) <= Offset(z, Segment(z, after) + 1)
  {
    SegmentADayBefore(z, t, after);
    SegmentADayAfter(z, t, after);
  }

  lemma GentleStepReaches(z: Zone, t: int, after: int)
    requires GoodSince(z, t) && t <= after - DAY && GentleStep(z, after)
    ensures Reaches(z, after)
  {
    var k := Segment(z, after);
    if k < |z.transitions| && !NearFallBack(z, after) && z.transitions[k].at <= after + DAY {
      UnnoticedIsNoDrop(z, t, after);
    }
  }

  // ----- the specification as a list -----

  ghost predicate AllBefore(a: set<int>, b: set<int>) { forall x, y :: x in a && y in b ==> x < y }

  function After(s: seq<int>, after: int): seq<int> {
    if s == [] then [] else (if s[0] > after then [s[0]] else []) + After(s[1..], after)
  }

  lemma {:induction false} AfterConcat(a: seq<int>, b: seq<int>, after: int)
    ensures After(a + b, after) == After(a, after) + After(b, after)
  {
    if a == [] {
      assert a + b == b;
    } else {
      assert (a + b)[1..] == a[1..] + b;
      AfterConcat(a[1..], b, after);
    }
  }

  lemma {:induction false} AfterKeepsOrder(s: seq<int>, after: int)
    requires Increasing(s)
    ensures Increasing(After(s, after))
    ensures forall x :: x in After(s, after) <==> x in s && x > after
  {
    if s != [] {
      AfterKeepsOrder(s[1..], after);
      assert s == [s[0]] + s[1..];
      forall x | x in After(s[1..], after) ensures s[0] < x {
        assert x in s[1..];
      }
      ConcatIncreases([s[0]], After(s[1..], after));
    }
  }

  /** The scan with each ambiguous stretch, `held` so far, reordered by instant. */
  ghost function Emitted(z: Zone, scan: seq<int>, held: seq<int>): seq<int> {
    if scan == [] then Listing(Elements(held))
    else if Ambiguous(z, Local(z, scan[0])) then Emitted(z, scan[1..], held + [scan[0]])
    else Listing(Elements(held)) + [scan[0]] + Emitted(z, scan[1..], [])
  }

  ghost predicate InScanOrder(z: Zone, scan: seq<int>) {
    forall i, j :: 0 <= i < j < |scan| ==> ScanOrder(z, scan[i], scan[j])
  }

  ghost predicate AllSince(t: int, s: seq<int>) { forall i :: 0 <= i < |s| ==> t <= s[i] }

  /** Around an unambiguous match, scan order is time order. */
  lemma UnambiguousSplits(z: Zone, t: int, u: int, v: int)
    requires GoodSince(z, t) && ScanOrder(z, u, v) && t <= u && t <= v
    requires !Ambiguous(z, Local(z, u)) || !Ambiguous(z, Local(z, v))
    ensures u < v
  {
    if v < u {
      DisorderIsAmbiguous(z, t, v, u);
    }
  }

  lemma PivotIsLater(z: Zone, t: int, s: seq<int>, i: nat, n: nat)
    requires GoodSince(z, t) && InScanOrder(z, s) && AllSince(t, s) && i < n < |s|
    requires !Ambiguous(z, Local(z, s[i])) || !Ambiguous(z, Local(z, s[n]))
    ensures s[i] < s[n]
  {
    assert ScanOrder(z, s[i], s[n]);
    UnambiguousSplits(z, t, s[i], s[n]);
  }

  lemma BeforeByIndex(a: seq<int>, b: seq<int>)
    requires forall i, j :: 0 <= i < |a| && 0 <= j < |b| ==> a[i] < b[j]
    ensures AllBefore(Elements(a), Elements(b))
  {
  }

  lemma HeldIsEarlier(z: Zone, t: int, held: seq<int>, v: int, rest: seq<int>)
    requires GoodSince(z, t) && InScanOrder(z, held + [v] + rest) && AllSince(t, held + [v] + rest)
    requires !Ambiguous(z, Local(z, v))
    ensures forall i :: 0 <= i < |held| ==> held[i] < v
  {
    var s, n := held + [v] + rest, |held|;
    assert s[n] == v;
    forall i | 0 <= i < n ensures held[i] < v {
      assert s[i] == held[i];
      PivotIsLater(z, t, s, i, n);
    }
  }

  lemma RestIsLater(z: Zone, t: int, held: seq<int>, v: int, rest: seq<int>)
    requires GoodSince(z, t) && InScanOrder(z, held + [v] + rest) && AllSince(t, held + [v] + rest)
    requires !Ambiguous(z, Local(z, v))
    ensures forall j :: 0 <= j < |rest| ==> v < rest[j]
  {
    var s, n := held + [v] + rest, |held|;
    assert s[n] == v;
    forall j | 0 <= j < |rest| ensures v < rest[j] {
      assert s[n + 1 + j] == rest[j];
      PivotIsLater(z, t, s, n, n + 1 + j);
    }
  }

  lemma UnambiguousPivot(z: Zone, t: int, held: seq<int>, v: int, rest: seq<int>)
    requires GoodSince(z, t) && InScanOrder(z, held + [v] + rest) && AllSince(t, held + [v] + rest)
    requires !Ambiguous(z, Local(z, v))
    ensures AllBefore(Elements(held), {v}) && AllBefore({v}, Elements(rest))
  {
    HeldIsEarlier(z, t, held, v, rest);
    RestIsLater(z, t, held, v, rest);
    AroundByIndex(held, v, rest);
  }

  lemma AroundByIndex(held: seq<int>, v: int, rest: seq<int>)
    requires forall i :: 0 <= i < |held| ==> held[i] < v
    requires forall j :: 0 <= j < |rest| ==> v < rest[j]
    ensures AllBefore(Elements(held), {v}) && AllBefore({v}, Elements(rest))
  {
    BeforeByIndex(held, [v]);
    BeforeByIndex([v], rest);
    assert Elements([v]) == {v};
  }

  lemma {:induction false} EmittedLists(z: Zone, t: int, scan: seq<int>, held: seq<int>)
    requires GoodSince(z, t) && InScanOrder(z, held + scan) && AllSince(t, held + scan)
    ensures Emitted(z, scan, held) == Listing(Elements(held) + Elements(scan))
    decreases |scan|
  {
    if scan == [] {
      assert Elements(held) + Elements(scan) == Elements(held);
    } else {
      var v, rest := scan[0], scan[1..];
      assert scan == [v] + rest;
      assert Elements(scan) == {v} + Elements(rest);
      if Ambiguous(z, Local(z, v)) {
        assert (held + [v]) + rest == held + scan;
        EmittedLists(z, t, rest, held + [v]);
        assert Elements(held + [v]) + Elements(rest) == Elements(held) + Elements(scan);
      } else {
        assert held + [v] + rest == held + scan;
        UnambiguousPivot(z, t, held, v, rest);
        OrderOfRest(z, t, held + [v], rest);
        EmittedLists(z, t, rest, []);
        assert Elements([]) + Elements(rest) == Elements(rest);
        ListingAround(Elements(held), v, Elements(rest));
      }
    }
  }

  lemma ListingAround(a: set<int>, v: int, b: set<int>)
    requires AllBefore(a, {v}) && AllBefore({v}, b)
    ensures Listing(a + ({v} + b)) == Listing(a) + [v] + Listing(b)
  {
    forall x, y | x in a && y in {v} + b ensures x < y {
      assert v in {v};
    }
    ListingSplits({v}, b);
    ListingSplits(a, {v} + b);
    ListingOfOne(v);
  }

  lemma OrderOfRest(z: Zone, t: int, head: seq<int>, rest: seq<int>)
    requires InScanOrder(z, head + rest) && AllSince(t, head + rest)
    ensures InScanOrder(z, [] + rest) && AllSince(t, [] + rest)
  {
    var s := head + rest;
    forall i | 0 <= i < |rest| ensures t <= rest[i] {
      assert s[|head| + i] == rest[i];
    }
    forall i, j | 0 <= i < j < |rest| ensures ScanOrder(z, rest[i], rest[j]) {
      assert ScanOrder(z, s[|head| + i], s[|head| + j]);
    }
  }

  lemma ListingOfOne(v: int)
    ensures Listing({v}) == [v]
  {
    ListingLists({v});
    IncreasingIsUnique(Listing({v}), [v]);
  }

  // ----- next_occurrences -----

  lemma AppendLeast(r: seq<int>, todo: set<int>, m: int)
    requires Increasing(r) && AllBefore(Elements(r), todo)
    requires m in todo && forall x :: x in todo ==> m <= x
    ensures Increasing(r + [m]) && AllBefore(Elements(r + [m]), todo - {m})
    ensures Elements(r + [m]) + (todo - {m}) == Elements(r) + todo
  {
    forall x | x in r ensures x < m {
      assert x in Elements(r);
    }
    ConcatIncreases(r, [m]);
    assert Elements(r + [m]) == Elements(r) + {m};
  }

  /** `sort_unstable` and `dedup`. */
  method SortDistinct(s: seq<int>) returns (r: seq<int>)
    ensures r == Listing(Elements(s))
  {
    var todo := set x | x in s;
    r := [];
    while todo != {}
      invariant Increasing(r) && Elements(r) + todo == Elements(s)
      invariant AllBefore(Elements(r), todo)
      decreases |todo|
    {
      LeastExists(todo);
      var m :| m in todo && forall x :: x in todo ==> m <= x;
      AppendLeast(r, todo, m);
      r := r + [m];
      todo := todo - {m};
    }
    assert forall x :: x in r <==> x in Elements(r);
    ListingLists(Elements(s));
    IncreasingIsUnique(r, Listing(Elements(s)));
  }

  lemma NextIsNew(whole: seq<int>, r: seq<int>, x: int)
    requires Increasing(whole)
    ensures r + [x] <= whole && r != [] ==> r[|r| - 1] != x
  {
    if r + [x] <= whole && r != [] {
      assert whole[|r| - 1] == (r + [x])[|r| - 1] == r[|r| - 1];
      assert whole[|r|] == (r + [x])[|r|] == x;
    }
  }

  /** Pushes what is later than `after`, up to `count` in all. */
  method AppendAfter(occurrences: seq<int>, sorted: seq<int>, after: int, count: nat) returns (r: seq<int>)
    requires |occurrences| < count && Increasing(occurrences + After(sorted, after))
    ensures r == Take(occurrences + After(sorted, after), count)
  {
    ghost var whole := occurrences + After(sorted, after);
    r := occurrences;
    for i := 0 to |sorted|
      invariant |r| < count && whole == r + After(sorted[i..], after)
    {
      var occurrence := sorted[i];
      assert sorted[i..][1..] == sorted[i + 1..];
      assert occurrence > after ==> whole == (r + [occurrence]) + After(sorted[i + 1..], after);
      NextIsNew(whole, r, occurrence);
      if occurrence > after && (r == [] || r[|r| - 1] != occurrence) {
        r := r + [occurrence];
        if |r| == count {
          return;
        }
      }
    }
  }

  /** Flushes the held matches, earliest instant first, up to `count` in all. */
  method AppendAmbiguousAfter(occurrences: seq<int>, ambiguous: seq<int>, after: int, count: nat) returns (r: seq<int>)
    requires |occurrences| < count
    requires Increasing(occurrences + After(Listing(Elements(ambiguous)), after))
    ensures r == Take(occurrences + After(Listing(Elements(ambiguous)), after), count)
  {
    var sorted := SortDistinct(ambiguous);
    r := AppendAfter(occurrences, sorted, after, count);
  }

  /**
  Groups each stretch of ambiguous wall times, orders it by instant, and stops
  at `count`.
   */
  method Emit(z: Zone, after: int, count: nat, scan: seq<int>) returns (r: seq<int>)
    requires Increasing(After(Emitted(z, scan, []), after))
    ensures r == Take(After(Emitted(z, scan, []), after), count)
  {
    ghost var whole := After(Emitted(z, scan, []), after);
    r := [];
    if count == 0 {
      return;
    }
    var ambiguous: seq<int> := [];
    for i := 0 to |scan|
      invariant |r| < count
      invariant whole == r + After(Emitted(z, scan[i..], ambiguous), after)
    {
      var occurrence := scan[i];
      EmitOne(z, scan, i, ambiguous);
      if Ambiguous(z, Local(z, occurrence)) {
        ambiguous := ambiguous + [occurrence];
        continue;
      }
      r := FlushAndPush(r, ambiguous, occurrence, after, count, Emitted(z, scan[i + 1..], []), whole);
      if |r| == count {
        return;
      }
      ambiguous := [];
    }
    r := AppendAmbiguousAfter(r, ambiguous, after, count);
  }

  lemma EmitOne(z: Zone, scan: seq<int>, i: nat, held: seq<int>)
    requires i < |scan|
    ensures Emitted(z, scan[i..], held) ==
              if Ambiguous(z, Local(z, scan[i])) then Emitted(z, scan[i + 1..], held + [scan[i]])
              else Listing(Elements(held)) + [scan[i]] + Emitted(z, scan[i + 1..], [])
  {
    assert scan[i..][1..] == scan[i + 1..];
  }

  lemma RightAnswer(z: Zone, t: int, occ: set<int>, after: int, count: nat, scan: seq<int>)
    requires GoodSince(z, t) && t <= after && IsScan(z, occ, ScanFrom(z, after), scan)
    ensures (forall u :: u in occ ==> !Lost(z, after, u)) ==> First(Later(Elements(scan), after), count) == First(Later(occ, after), count)
    ensures Reaches(z, after) ==> First(Later(Elements(scan), after), count) == First(Later(occ, after), count)
  {
    RightExactlyWhenNoMatchIsLost(z, t, occ, after, scan);
    ReachesMeansNoneLost(z, after);
  }

  /** The answer to a request for `count` occurrences after `after`, given what the iterator lists. */
  method NextOccurrences(z: Zone, after: int, count: nat, scan: seq<int>, ghost occ: set<int>) returns (r: seq<int>)
    requires GoodSince(z, after - LOOKBACK) && IsScan(z, occ, ScanFrom(z, after), scan)
    ensures r == First(Later(Elements(scan), after), count)
    ensures (forall u :: u in occ ==> !Lost(z, after, u)) ==> r == First(Later(occ, after), count)
    ensures Reaches(z, after) ==> r == First(Later(occ, after), count)
  {
    ScanStaysNear(z, occ, after, scan);
    RightAnswer(z, after - LOOKBACK, occ, after, count, scan);
    EmittedAfter(z, after - LOOKBACK, scan, after);
    r := Emit(z, after, count, scan);
  }

  /** The loop body at an unambiguous match. */
  method FlushAndPush(occurrences: seq<int>, ambiguous: seq<int>, occurrence: int, after: int, count: nat,
                      ghost rest: seq<int>, ghost whole: seq<int>) returns (r: seq<int>)
    requires |occurrences| < count && Increasing(whole)
    requires whole == occurrences + After(Listing(Elements(ambiguous)) + [occurrence] + rest, after)
    ensures |r| < count ==> whole == r + After(rest, after)
    ensures |r| >= count ==> |r| == count && r == Take(whole, count)
  {
    ghost var flushed := occurrences + After(Listing(Elements(ambiguous)), after);
    FlushSplits(occurrences, Listing(Elements(ambiguous)), occurrence, rest, after);
    PrefixIncreases(whole, flushed);
    r := AppendAmbiguousAfter(occurrences, ambiguous, after, count);
    if |r| == count {
      TakePrefix(whole, flushed, count);
      return;
    }
    assert r == flushed;
    NextIsNew(whole, r, occurrence);
    if occurrence > after && (r == [] || r[|r| - 1] != occurrence) {
      r := r + [occurrence];
    }
    TakePrefix(whole, r, count);
  }

  lemma FlushSplits(occurrences: seq<int>, held: seq<int>, occurrence: int, rest: seq<int>, after: int)
    ensures var whole := occurrences + After(held + [occurrence] + rest, after);
            whole == occurrences + After(held, after) + (if occurrence > after then [occurrence] else []) + After(rest, after)
  {
    AfterConcat(held + [occurrence], rest, after);
    AfterConcat(held, [occurrence], after);
    assert After([occurrence], after) == (if occurrence > after then [occurrence] else []) + After([], after);
  }

  lemma TakePrefix(whole: seq<int>, p: seq<int>, count: nat)
    requires p <= whole
    ensures |p| >= count ==> Take(p, count) == Take(whole, count)
    ensures |p| <= count ==> Take(p, count) == p
  {
  }

  lemma PrefixIncreases(s: seq<int>, p: seq<int>)
    requires Increasing(s) && p <= s
    ensures Increasing(p)
  {
    forall i, j | 0 <= i < j < |p| ensures p[i] < p[j] {
      assert p[i] == s[i] && p[j] == s[j];
    }
  }

  lemma EmittedAfter(z: Zone, t: int, scan: seq<int>, after: int)
    requires GoodSince(z, t) && InScanOrder(z, scan) && AllSince(t, scan)
    ensures After(Emitted(z, scan, []), after) == Listing(Later(Elements(scan), after))
    ensures Increasing(After(Emitted(z, scan, []), after))
  {
    assert [] + scan == scan && Elements([]) + Elements(scan) == Elements(scan);
    EmittedLists(z, t, scan, []);
    var all := Listing(Elements(scan));
    ListingLists(Elements(scan));
    ListingLists(Later(Elements(scan), after));
    AfterKeepsOrder(all, after);
    IncreasingIsUnique(After(all, after), Listing(Later(Elements(scan), after)));
  }

  // ----- when the answer is right -----

  /** No instant of the scan lies further back than this. */
  const LOOKBACK: int := 5 * DAY

  lemma ScanStaysNear(z: Zone, occ: set<int>, after: int, scan: seq<int>)
    requires GoodSince(z, after - LOOKBACK) && IsScan(z, occ, ScanFrom(z, after), scan)
    ensures AllSince(after - LOOKBACK, scan)
  {
    var from := ScanFrom(z, after);
    ScanStartsEarly(z, after - LOOKBACK, after);
    forall i | 0 <= i < |scan| ensures after - LOOKBACK <= scan[i] {
      var u := scan[i];
      assert u in scan;
      assert -DAY < OffsetAt(z, u) < DAY && -DAY < OffsetAt(z, from) < DAY;
    }
  }

  /** What the scan yields is, for every count, the first matching instants later than `after`. */
  ghost predicate Right(occ: set<int>, after: int, scan: seq<int>) {
    forall count: nat :: First(Later(Elements(scan), after), count) == First(Later(occ, after), count)
  }

  /** The answer is right if and only if no match lies in the stretch that the scan start hides. */
  lemma RightExactlyWhenNoMatchIsLost(z: Zone, t: int, occ: set<int>, after: int, scan: seq<int>)
    requires GoodSince(z, t) && t <= after && IsScan(z, occ, ScanFrom(z, after), scan)
    ensures Right(occ, after, scan) <==> forall u :: u in occ ==> !Lost(z, after, u)
  {
    var s, o := Later(Elements(scan), after), Later(occ, after);
    forall u | u in occ && u > after ensures u in scan <==> !Lost(z, after, u) {
      LaterIsScannedOrLost(z, t, after, u);
    }
    if forall u :: u in occ ==> !Lost(z, after, u) {
      assert s == o;
    } else {
      var u :| u in occ && Lost(z, after, u);
      assert u in o && u !in s;
      DifferentListings(s, o, u);
    }
  }

  lemma DifferentListings(s: set<int>, o: set<int>, u: int)
    requires u in o && u !in s
    ensures First(s, |s| + |o|) != First(o, |s| + |o|)
  {
    ListingLists(s);
    ListingLists(o);
    assert First(s, |s| + |o|) == Listing(s) && First(o, |s| + |o|) == Listing(o);
    assert u in Listing(o) && u !in Listing(s);
  }

  /** Whatever the expression matches, the answer is right. */
  ghost predicate AlwaysRight(z: Zone, after: int) {
    forall occ, scan :: IsScan(z, occ, ScanFrom(z, after), scan) ==> Right(occ, after, scan)
  }

  /**
  At a given zone and instant the answer is right for every cron expression if
  and only if the wall time shown right after the next change, if any, is later
  than the one the scan starts from.
   */
  lemma RightExactlyWhenScanReaches(z: Zone, t: int, after: int)
    requires GoodSince(z, t) && t <= after
    ensures AlwaysRight(z, after) <==> Reaches(z, after)
  {
    ReachesMeansNoneLost(z, after);
    if Reaches(z, after) {
      forall occ, scan | IsScan(z, occ, ScanFrom(z, after), scan) ensures Right(occ, after, scan) {
        RightExactlyWhenNoMatchIsLost(z, t, occ, after, scan);
      }
    } else {
      var u :| Lost(z, after, u);
      var occ, scan: seq<int> := {u}, [];
      LaterIsScannedOrLost(z, t, after, u);
      assert IsScan(z, occ, ScanFrom(z, after), scan);
      RightExactlyWhenNoMatchIsLost(z, t, occ, after, scan);
      assert !Right(occ, after, scan);
    }
  }

  /**
  The rewind does not reach everywhere. In this invented zone clocks go back 23
  hours, from eleven hours ahead to twelve behind, one second after midnight: the
  match at the very moment of the change is lost, and the answer is empty instead.
   */
  lemma LargeStepBackLosesAnOccurrence()
    ensures var z := Zone(39600, [Transition(46801, -43200)]);
            && GoodSince(z, 46800 - LOOKBACK) && !Reaches(z, 46800)
            && IsScan(z, {46801}, ScanFrom(z, 46800), [])
            && First(Later(Elements([]), 46800), 1) == [] && First(Later({46801}, 46800), 1) == [46801]
  {
    var z := Zone(39600, [Transition(46801, -43200)]);
    SegmentOfSingle(z);
    assert Local(z, 46801) <= Local(z, ScanFrom(z, 46800));
    assert Later(Elements([]), 46800) == {} && Later({46801}, 46800) == {46801};
    ListingOfOne(46801);
  }

  lemma SegmentOfSingle(z: Zone)
    requires z == Zone(39600, [Transition(46801, -43200)])
    ensures forall u :: Segment(z, u) == if u < 46801 then 0 else 1
  {
    forall u ensures Segment(z, u) == if u < 46801 then 0 else 1 {
      assert SegmentFrom(z, u, 0) == 0;
      assert SegmentFrom(z, u, 1) == if u < 46801 then 0 else 1;
    }
  }
}

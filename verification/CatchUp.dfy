/**
Catch-up: each pass asks for the occurrences after the last one created and
creates those that are due. A pass sees what the scan from its own cursor yields,
so a match lost to that scan is one the pass does not see.
 */
module CatchUp {
  import opened Common
  import opened Cron

  const PASS_LIMIT: nat := 1000

  ghost function Due(occ: set<int>, cursor: int, now: int): set<int> { set u | u in occ && cursor < u <= now }

  /** The matches that a scan from this cursor lists. */
  ghost function Scanned(z: Zone, occ: set<int>, cursor: int): set<int> {
    set u | u in occ && Local(z, u) > Local(z, ScanFrom(z, cursor))
  }

  // ----- one batch -----

  lemma ScanListsScanned(z: Zone, occ: set<int>, cursor: int, scan: seq<int>)
    requires IsScan(z, occ, ScanFrom(z, cursor), scan)
    ensures Elements(scan) == Scanned(z, occ, cursor)
  {
    forall u ensures u in Elements(scan) <==> u in Scanned(z, occ, cursor) {
      assert u in Elements(scan) <==> u in scan;
    }
  }

  /** `take_while` on an increasing answer, whatever set it was taken from. */
  method TakeWhileDue(next: seq<int>, now: int, ghost found: set<int>, ghost cursor: int) returns (due: seq<int>)
    requires next == First(Later(found, cursor), PASS_LIMIT)
    ensures due == First(Due(found, cursor, now), PASS_LIMIT)
  {
    var i := 0;
    while i < |next| && next[i] <= now
      invariant 0 <= i <= |next|
      invariant forall k :: 0 <= k < i ==> next[k] <= now
    {
      i := i + 1;
    }
    due := next[..i];
    DueIsPrefix(found, cursor, now, i);
  }

  /** The next occurrences, as long as they are due. */
  method DueCronBatch(z: Zone, cursor: int, now: int, scan: seq<int>, ghost occ: set<int>) returns (due: seq<int>)
    requires GoodSince(z, cursor - LOOKBACK) && IsScan(z, occ, ScanFrom(z, cursor), scan)
    ensures due == First(Due(Scanned(z, occ, cursor), cursor, now), PASS_LIMIT)
  {
    ScanListsScanned(z, occ, cursor, scan);
    var next := NextOccurrences(z, cursor, PASS_LIMIT, scan, occ);
    due := TakeWhileDue(next, now, Scanned(z, occ, cursor), cursor);
  }

  lemma DueIsPrefix(occ: set<int>, cursor: int, now: int, i: nat)
    requires var next := First(Later(occ, cursor), PASS_LIMIT);
             && i <= |next| && (forall k :: 0 <= k < i ==> next[k] <= now)
             && (i < |next| ==> next[i] > now)
    ensures First(Later(occ, cursor), PASS_LIMIT)[..i] == First(Due(occ, cursor, now), PASS_LIMIT)
  {
    var due, rest := Due(occ, cursor, now), Later(occ, Max(cursor, now));
    assert Later(occ, cursor) == due + rest;
    ListingSplits(due, rest);
    ListingWithin(due, now);
    ListingBeyond(rest, now);
    PrefixUpTo(Listing(due), Listing(rest), PASS_LIMIT, now, i);
  }

  lemma ListingWithin(s: set<int>, now: int)
    requires forall x :: x in s ==> x <= now
    ensures forall k :: 0 <= k < |Listing(s)| ==> Listing(s)[k] <= now
  {
    ListingLists(s);
    forall k | 0 <= k < |Listing(s)| ensures Listing(s)[k] <= now {
      var x := Listing(s)[k];
      assert x in Listing(s);
    }
  }

  lemma ListingBeyond(s: set<int>, now: int)
    requires forall x :: x in s ==> x > now
    ensures forall k :: 0 <= k < |Listing(s)| ==> Listing(s)[k] > now
  {
    ListingLists(s);
    forall k | 0 <= k < |Listing(s)| ensures Listing(s)[k] > now {
      var x := Listing(s)[k];
      assert x in Listing(s);
    }
  }

  lemma PrefixUpTo(a: seq<int>, b: seq<int>, limit: nat, now: int, i: nat)
    requires forall k :: 0 <= k < |a| ==> a[k] <= now
    requires forall k :: 0 <= k < |b| ==> b[k] > now
    requires var next := Take(a + b, limit);
             && i <= |next| && (forall k :: 0 <= k < i ==> next[k] <= now)
             && (i < |next| ==> next[i] > now)
    ensures Take(a + b, limit)[..i] == Take(a, limit)
  {
    var next := Take(a + b, limit);
    assert forall k :: 0 <= k < |next| ==> (next[k] <= now <==> k < |a|);
    assert |a| < |next| ==> next[|a|] > now;
    assert i == Min(|a|, |next|);
  }

  // ----- cutting a due list -----

  function CursorAfter(cursor: int, batch: seq<int>): int { if batch == [] then cursor else batch[|batch| - 1] }

  lemma CutDueList(occ: set<int>, cursor: int, now: int, limit: nat)
    ensures var batch := First(Due(occ, cursor, now), limit);
            var next := CursorAfter(cursor, batch);
            && cursor <= next
            && batch == Listing(Due(occ, cursor, next))
            && Listing(Due(occ, cursor, now)) == batch + Listing(Due(occ, next, now))
            && (|batch| < limit ==> Due(occ, next, now) == {})
  {
    var due := Due(occ, cursor, now);
    var l := Listing(due);
    var batch := First(due, limit);
    var next := CursorAfter(cursor, batch);
    ListingLists(due);
    if batch == [] {
      assert Due(occ, cursor, cursor) == {};
      assert limit > 0 ==> |due| == 0;
    } else {
      var x := l[|batch| - 1];
      assert x in l && x == next;
      BatchEndsAt(occ, cursor, now, batch, next);
      assert due == Due(occ, cursor, next) + Due(occ, next, now);
      ListingSplits(Due(occ, cursor, next), Due(occ, next, now));
      assert |due| == |Due(occ, cursor, next)| + |Due(occ, next, now)|;
      ListingLists(Due(occ, cursor, next));
    }
  }

  lemma BatchEndsAt(occ: set<int>, cursor: int, now: int, batch: seq<int>, next: int)
    requires batch <= Listing(Due(occ, cursor, now)) && batch != []
    requires next == batch[|batch| - 1] && next in Due(occ, cursor, now)
    ensures batch == Listing(Due(occ, cursor, next))
  {
    var l := Listing(Due(occ, cursor, now));
    ListingLists(Due(occ, cursor, now));
    CutMembership(l, |batch|, next);
    assert l[..|batch|] == batch;
    ListingLists(Due(occ, cursor, next));
    PrefixIncreases(l, batch);
    IncreasingIsUnique(batch, Listing(Due(occ, cursor, next)));
  }

  lemma CutMembership(l: seq<int>, m: nat, x: int)
    requires Increasing(l) && 0 < m <= |l| && l[m - 1] == x
    ensures forall y :: y in l[..m] <==> y in l && y <= x
  {
    forall y ensures y in l[..m] <==> y in l && y <= x {
      if y in l[..m] {
        var k :| 0 <= k < m && l[..m][k] == y;
        assert l[k] == y;
      }
      if y in l && y <= x {
        var k :| 0 <= k < |l| && l[k] == y;
        assert k < m;
        assert l[..m][k] == y;
      }
    }
  }

  // ----- passes -----

  /** What the scan from each cursor lets a pass see. */
  type Sight = int -> set<int>

  ghost predicate Sees(sight: Sight, occ: set<int>) { forall c: int :: sight(c) <= occ }

  /** One pass: the time it sees, and how many occurrences it creates before it is stopped. */
  datatype Pass = Pass(now: int, stop: nat)

  function Allowed(pass: Pass): nat { Min(PASS_LIMIT, pass.stop) }

  /** A stale schedule, an error or a crash ends a pass after any part of its batch. */
  ghost function Created(sight: Sight, cursor: int, pass: Pass): seq<int> {
    Take(First(Due(sight(cursor), cursor, pass.now), PASS_LIMIT), pass.stop)
  }

  ghost function NextCursor(sight: Sight, cursor: int, pass: Pass): int { CursorAfter(cursor, Created(sight, cursor, pass)) }

  /** What successive passes create, each restarted from the last instant created. */
  ghost function Made(sight: Sight, cursor: int, passes: seq<Pass>): seq<int>
    decreases |passes|
  {
    if passes == [] then []
    else Created(sight, cursor, passes[0]) + Made(sight, NextCursor(sight, cursor, passes[0]), passes[1..])
  }

  /** A pass creates the matches it sees up to the instant the next pass restarts from. */
  lemma PassCutsDueList(sight: Sight, cursor: int, pass: Pass)
    ensures var batch, next := Created(sight, cursor, pass), NextCursor(sight, cursor, pass);
            && cursor <= next
            && batch == First(Due(sight(cursor), cursor, pass.now), Allowed(pass))
            && batch == Listing(Due(sight(cursor), cursor, next))
            && (|batch| < Allowed(pass) ==> Due(sight(cursor), next, pass.now) == {})
  {
    CutDueList(sight(cursor), cursor, pass.now, Allowed(pass));
  }

  // ----- one pass against the due list -----

  lemma TakeFromSubset(a: set<int>, b: set<int>, n: nat)
    requires a <= b && Elements(First(b, n)) <= a
    ensures First(a, n) == First(b, n)
  {
    var front := Elements(First(b, n));
    FrontIsBefore(b, n);
    ListingOfFront(b, n);
    assert a == front + (a - front);
    forall x, y | x in front && y in a - front ensures x < y {
      assert y in b - front;
    }
    ListingSplits(front, a - front);
    assert Listing(a) == First(b, n) + Listing(a - front);
    if |First(b, n)| < n {
      WholeFront(b, n);
      assert a - front == {};
    }
  }

  lemma WholeFront(b: set<int>, n: nat)
    requires |First(b, n)| < n
    ensures Elements(First(b, n)) == b
  {
    ListingLists(b);
    assert First(b, n) == Listing(b);
  }

  lemma FrontIsBefore(b: set<int>, n: nat)
    ensures AllBefore(Elements(First(b, n)), b - Elements(First(b, n)))
  {
    var l, front := Listing(b), First(b, n);
    ListingLists(b);
    assert forall k :: 0 <= k < |front| ==> front[k] == l[k];
    forall x, y | x in front && y in b && y !in front ensures x < y {
      var i :| 0 <= i < |front| && front[i] == x;
      assert y in l;
      var j :| 0 <= j < |l| && l[j] == y;
      assert |front| <= j;
    }
  }

  lemma ListingOfFront(b: set<int>, n: nat)
    ensures Listing(Elements(First(b, n))) == First(b, n)
  {
    ListingLists(b);
    PrefixIncreases(Listing(b), First(b, n));
    ListingLists(Elements(First(b, n)));
    IncreasingIsUnique(Listing(Elements(First(b, n))), First(b, n));
  }

  /** A pass creates the first due matches if and only if it sees them. */
  lemma PassIsRightExactlyWhenItSees(sight: Sight, occ: set<int>, cursor: int, pass: Pass)
    requires Sees(sight, occ)
    ensures var wanted := First(Due(occ, cursor, pass.now), Allowed(pass));
            Created(sight, cursor, pass) == wanted <==> forall u :: u in wanted ==> u in sight(cursor)
  {
    assert sight(cursor) <= occ;
    PassCutsDueList(sight, cursor, pass);
    FirstsAgree(Due(sight(cursor), cursor, pass.now), Due(occ, cursor, pass.now), Allowed(pass));
    FirstIsWithin(Due(occ, cursor, pass.now), Allowed(pass));
  }

  lemma FirstIsWithin(b: set<int>, n: nat)
    ensures forall u :: u in First(b, n) ==> u in b
  {
    ListingLists(b);
    forall u | u in First(b, n) ensures u in b {
      assert u in Listing(b);
    }
  }

  lemma FirstsAgree(a: set<int>, b: set<int>, n: nat)
    requires a <= b
    ensures First(a, n) == First(b, n) <==> forall u :: u in First(b, n) ==> u in a
  {
    FirstIsWithin(a, n);
    if forall u :: u in First(b, n) ==> u in a {
      TakeFromSubset(a, b, n);
    }
  }

  // ----- all passes against the due list -----

  /** Every match that a pass goes past is one it sees from its own cursor. */
  ghost predicate SeesAllPassed(sight: Sight, occ: set<int>, cursor: int, passes: seq<Pass>)
    decreases |passes|
  {
    passes != [] ==>
      && (forall u :: u in Due(occ, cursor, NextCursor(sight, cursor, passes[0])) ==> u in sight(cursor))
      && SeesAllPassed(sight, occ, NextCursor(sight, cursor, passes[0]), passes[1..])
  }

  lemma CreatedIsDue(sight: Sight, occ: set<int>, cursor: int, pass: Pass)
    requires Sees(sight, occ)
    ensures var batch := Created(sight, cursor, pass);
            Increasing(batch) && forall u :: u in batch ==> u in Due(occ, cursor, NextCursor(sight, cursor, pass))
  {
    assert sight(cursor) <= occ;
    PassCutsDueList(sight, cursor, pass);
    ListingLists(Due(sight(cursor), cursor, NextCursor(sight, cursor, pass)));
  }

  lemma {:induction false} MadeIsDue(sight: Sight, occ: set<int>, cursor: int, passes: seq<Pass>)
    requires Sees(sight, occ)
    ensures var made := Made(sight, cursor, passes);
            cursor <= CursorAfter(cursor, made) && forall u :: u in made ==> u in Due(occ, cursor, CursorAfter(cursor, made))
    decreases |passes|
  {
    if passes != [] {
      var next := NextCursor(sight, cursor, passes[0]);
      CreatedIsDue(sight, occ, cursor, passes[0]);
      PassCutsDueList(sight, cursor, passes[0]);
      MadeIsDue(sight, occ, next, passes[1..]);
      JoinedCursor(cursor, Created(sight, cursor, passes[0]), Made(sight, next, passes[1..]));
    }
  }

  lemma JoinedCursor(cursor: int, batch: seq<int>, rest: seq<int>)
    ensures CursorAfter(cursor, batch + rest) == CursorAfter(CursorAfter(cursor, batch), rest)
  {
    if rest == [] {
      assert batch + rest == batch;
    }
  }

  lemma SameListing(a: set<int>, b: set<int>)
    requires a <= b
    ensures Listing(a) == Listing(b) <==> forall u :: u in b ==> u in a
  {
    ListingLists(a);
    ListingLists(b);
    if forall u :: u in b ==> u in a {
      assert a == b;
    }
    if Listing(a) == Listing(b) {
      forall u | u in b ensures u in a {
        assert u in Listing(b);
      }
    }
  }

  /** One pass has made everything up to its end exactly when it saw all of it. */
  lemma PassSkipsNoneExactlyWhen(sight: Sight, occ: set<int>, cursor: int, pass: Pass)
    requires Sees(sight, occ)
    ensures var next := NextCursor(sight, cursor, pass);
            Created(sight, cursor, pass) == Listing(Due(occ, cursor, next)) <==>
              forall u :: u in Due(occ, cursor, next) ==> u in sight(cursor)
  {
    assert sight(cursor) <= occ;
    PassCutsDueList(sight, cursor, pass);
    SameListing(Due(sight(cursor), cursor, NextCursor(sight, cursor, pass)), Due(occ, cursor, NextCursor(sight, cursor, pass)));
  }

  /** A list up to `end`, cut at `next`, is the whole due list exactly when both parts are. */
  lemma CutAgrees(occ: set<int>, cursor: int, next: int, end: int, batch: seq<int>, rest: seq<int>)
    requires cursor <= next <= end
    requires forall u :: u in batch ==> u in Due(occ, cursor, next)
    requires forall u :: u in rest ==> u in Due(occ, next, end)
    ensures batch + rest == Listing(Due(occ, cursor, end)) <==>
              batch == Listing(Due(occ, cursor, next)) && rest == Listing(Due(occ, next, end))
  {
    var a, b := Due(occ, cursor, next), Due(occ, next, end);
    assert Due(occ, cursor, end) == a + b;
    ListingSplits(a, b);
    if batch + rest == Listing(a + b) {
      SplitListing(batch, rest, a, b);
    }
  }

  lemma SplitListing(batch: seq<int>, rest: seq<int>, a: set<int>, b: set<int>)
    requires batch + rest == Listing(a) + Listing(b) && AllBefore(a, b)
    requires (forall u :: u in batch ==> u in a) && (forall u :: u in rest ==> u in b)
    ensures batch == Listing(a) && rest == Listing(b)
  {
    var l := Listing(a) + Listing(b);
    ListingLists(a);
    ListingLists(b);
    ConcatIncreases(Listing(a), Listing(b));
    PrefixIncreases(l, batch);
    forall u ensures u in batch <==> u in Listing(a) {
      if u in Listing(a) {
        assert u in l;
        assert u in batch || u in rest;
      }
    }
    IncreasingIsUnique(batch, Listing(a));
    assert rest == l[|batch|..];
  }

  /**
  Whatever the clock shows at each pass and wherever it stops, what has been
  created so far is the due list up to the current cursor, nothing skipped,
  repeated or out of order, if and only if each pass saw every match it went past.
   */
  lemma {:induction false} NothingSkippedExactlyWhenSeen(sight: Sight, occ: set<int>, cursor: int, passes: seq<Pass>)
    requires Sees(sight, occ)
    ensures var made := Made(sight, cursor, passes);
            made == Listing(Due(occ, cursor, CursorAfter(cursor, made))) <==> SeesAllPassed(sight, occ, cursor, passes)
    decreases |passes|
  {
    if passes == [] {
      assert Due(occ, cursor, cursor) == {};
    } else {
      var batch, next := Created(sight, cursor, passes[0]), NextCursor(sight, cursor, passes[0]);
      var rest := Made(sight, next, passes[1..]);
      JoinedCursor(cursor, batch, rest);
      PassCutsDueList(sight, cursor, passes[0]);
      CreatedIsDue(sight, occ, cursor, passes[0]);
      MadeIsDue(sight, occ, next, passes[1..]);
      CutAgrees(occ, cursor, next, CursorAfter(next, rest), batch, rest);
      PassSkipsNoneExactlyWhen(sight, occ, cursor, passes[0]);
      NothingSkippedExactlyWhenSeen(sight, occ, next, passes[1..]);
    }
  }

  /** How many occurrences the passes may create in all. */
  function Allowance(passes: seq<Pass>): nat {
    if passes == [] then 0 else Allowed(passes[0]) + Allowance(passes[1..])
  }

  /** The first cursor, or a match after it. */
  ghost predicate MayBeCursor(occ: set<int>, first: int, c: int) { c == first || (c in occ && first < c) }

  /** From every cursor there may be, all later matches are seen. */
  ghost predicate SeesAhead(sight: Sight, occ: set<int>, first: int) {
    forall c, u :: MayBeCursor(occ, first, c) && u in occ && c < u ==> u in sight(c)
  }

  lemma CursorStaysKnown(sight: Sight, occ: set<int>, first: int, cursor: int, pass: Pass)
    requires Sees(sight, occ) && MayBeCursor(occ, first, cursor)
    ensures MayBeCursor(occ, first, NextCursor(sight, cursor, pass))
  {
    var batch := Created(sight, cursor, pass);
    CreatedIsDue(sight, occ, cursor, pass);
    PassCutsDueList(sight, cursor, pass);
    if batch != [] {
      assert NextCursor(sight, cursor, pass) in batch;
    }
  }

  lemma {:induction false} SeenAheadIsSeenPassed(sight: Sight, occ: set<int>, first: int, cursor: int, passes: seq<Pass>)
    requires Sees(sight, occ) && SeesAhead(sight, occ, first) && MayBeCursor(occ, first, cursor)
    ensures SeesAllPassed(sight, occ, cursor, passes)
    decreases |passes|
  {
    if passes != [] {
      CursorStaysKnown(sight, occ, first, cursor, passes[0]);
      SeenAheadIsSeenPassed(sight, occ, first, NextCursor(sight, cursor, passes[0]), passes[1..]);
    }
  }

  lemma {:induction false} SeenPassesConcatenate(sight: Sight, occ: set<int>, first: int, cursor: int, now: int, passes: seq<Pass>)
    requires Sees(sight, occ) && SeesAhead(sight, occ, first) && MayBeCursor(occ, first, cursor)
    requires forall i :: 0 <= i < |passes| ==> passes[i].now == now
    ensures Made(sight, cursor, passes) == First(Due(occ, cursor, now), Allowance(passes))
    decreases |passes|
  {
    if passes != [] {
      var batch, next := Created(sight, cursor, passes[0]), NextCursor(sight, cursor, passes[0]);
      SeenBatch(sight, occ, first, cursor, passes[0]);
      CutDueList(occ, cursor, now, Allowed(passes[0]));
      CursorStaysKnown(sight, occ, first, cursor, passes[0]);
      SeenPassesConcatenate(sight, occ, first, next, now, passes[1..]);
      TakeMore(batch, Listing(Due(occ, next, now)), Allowed(passes[0]), Allowance(passes[1..]));
    }
  }

  lemma SeenBatch(sight: Sight, occ: set<int>, first: int, cursor: int, pass: Pass)
    requires Sees(sight, occ) && SeesAhead(sight, occ, first) && MayBeCursor(occ, first, cursor)
    ensures Created(sight, cursor, pass) == First(Due(occ, cursor, pass.now), Allowed(pass))
  {
    FirstIsWithin(Due(occ, cursor, pass.now), Allowed(pass));
    PassIsRightExactlyWhenItSees(sight, occ, cursor, pass);
  }

  lemma TakeMore(batch: seq<int>, rest: seq<int>, limit: nat, more: nat)
    requires |batch| <= limit && (|batch| < limit ==> rest == [])
    ensures Take(batch + rest, limit + more) == batch + Take(rest, more)
  {
  }

  // ----- the scans of a zone -----

  ghost function ScanSight(z: Zone, occ: set<int>): Sight { c => Scanned(z, occ, c) }

  lemma SeenExactlyWhenNotLost(z: Zone, t: int, occ: set<int>, cursor: int, u: int)
    requires GoodSince(z, t) && t <= cursor < u && u in occ
    ensures u in ScanSight(z, occ)(cursor) <==> !Lost(z, cursor, u)
  {
    LaterIsScannedOrLost(z, t, cursor, u);
  }

  lemma ScanSeesMatches(z: Zone, occ: set<int>)
    ensures Sees(ScanSight(z, occ), occ)
  {
  }

  /** A pass creates the first due matches if and only if none of those is lost to its scan. */
  lemma PassIsRightExactlyWhen(z: Zone, t: int, occ: set<int>, cursor: int, pass: Pass)
    requires GoodSince(z, t) && t <= cursor
    ensures var wanted := First(Due(occ, cursor, pass.now), Allowed(pass));
            Created(ScanSight(z, occ), cursor, pass) == wanted <==> forall u :: u in wanted ==> !Lost(z, cursor, u)
  {
    var wanted := First(Due(occ, cursor, pass.now), Allowed(pass));
    ScanSeesMatches(z, occ);
    PassIsRightExactlyWhenItSees(ScanSight(z, occ), occ, cursor, pass);
    FirstIsWithin(Due(occ, cursor, pass.now), Allowed(pass));
    forall u | u in wanted ensures u in ScanSight(z, occ)(cursor) <==> !Lost(z, cursor, u) {
      SeenExactlyWhenNotLost(z, t, occ, cursor, u);
    }
  }

  /** No pass goes past a match that is lost to the scan from its own cursor. */
  ghost predicate PassesNoneLost(z: Zone, occ: set<int>, cursor: int, passes: seq<Pass>)
    decreases |passes|
  {
    passes != [] ==>
      var next := NextCursor(ScanSight(z, occ), cursor, passes[0]);
      && (forall u :: u in Due(occ, cursor, next) ==> !Lost(z, cursor, u))
      && PassesNoneLost(z, occ, next, passes[1..])
  }

  lemma {:induction false} SeenPassedMeansNoneLost(z: Zone, t: int, occ: set<int>, cursor: int, passes: seq<Pass>)
    requires GoodSince(z, t) && t <= cursor
    ensures SeesAllPassed(ScanSight(z, occ), occ, cursor, passes) <==> PassesNoneLost(z, occ, cursor, passes)
    decreases |passes|
  {
    if passes != [] {
      var next := NextCursor(ScanSight(z, occ), cursor, passes[0]);
      PassCutsDueList(ScanSight(z, occ), cursor, passes[0]);
      forall u | u in Due(occ, cursor, next) ensures u in ScanSight(z, occ)(cursor) <==> !Lost(z, cursor, u) {
        SeenExactlyWhenNotLost(z, t, occ, cursor, u);
      }
      SeenPassedMeansNoneLost(z, t, occ, next, passes[1..]);
    }
  }

  /**
  Whatever the clock shows at each pass and wherever it stops, the passes have
  made exactly the due list up to their cursor if and only if none of them went
  past a match lost to the scan from its own cursor.
   */
  lemma PassesSkipNothingExactlyWhen(z: Zone, t: int, occ: set<int>, cursor: int, passes: seq<Pass>)
    requires GoodSince(z, t) && t <= cursor
    ensures var made := Made(ScanSight(z, occ), cursor, passes);
            made == Listing(Due(occ, cursor, CursorAfter(cursor, made))) <==> PassesNoneLost(z, occ, cursor, passes)
  {
    ScanSeesMatches(z, occ);
    NothingSkippedExactlyWhenSeen(ScanSight(z, occ), occ, cursor, passes);
    SeenPassedMeansNoneLost(z, t, occ, cursor, passes);
  }

  /** The scan reaches from the first cursor and from every later match, which may become one. */
  ghost predicate ReachesThroughout(z: Zone, occ: set<int>, first: int) {
    forall c :: MayBeCursor(occ, first, c) ==> Reaches(z, c)
  }

  lemma ReachingSeesAhead(z: Zone, t: int, occ: set<int>, first: int)
    requires GoodSince(z, t) && t <= first && ReachesThroughout(z, occ, first)
    ensures SeesAhead(ScanSight(z, occ), occ, first)
  {
    forall c, u | MayBeCursor(occ, first, c) && u in occ && c < u ensures u in ScanSight(z, occ)(c) {
      ReachesMeansNoneLost(z, c);
      SeenExactlyWhenNotLost(z, t, occ, c, u);
    }
  }

  /** There, nothing is ever skipped. */
  lemma PassesSkipNothing(z: Zone, t: int, occ: set<int>, cursor: int, passes: seq<Pass>)
    requires GoodSince(z, t) && t <= cursor && ReachesThroughout(z, occ, cursor)
    ensures var made := Made(ScanSight(z, occ), cursor, passes);
            cursor <= CursorAfter(cursor, made) && made == Listing(Due(occ, cursor, CursorAfter(cursor, made)))
  {
    var sight := ScanSight(z, occ);
    ScanSeesMatches(z, occ);
    ReachingSeesAhead(z, t, occ, cursor);
    MadeIsDue(sight, occ, cursor, passes);
    SeenAheadIsSeenPassed(sight, occ, cursor, cursor, passes);
    NothingSkippedExactlyWhenSeen(sight, occ, cursor, passes);
  }

  /** There, passes at one time create the first due instants, as many as they may, hence all of them in the end. */
  lemma PassesConcatenate(z: Zone, t: int, occ: set<int>, cursor: int, now: int, passes: seq<Pass>)
    requires GoodSince(z, t) && t <= cursor && ReachesThroughout(z, occ, cursor)
    requires forall i :: 0 <= i < |passes| ==> passes[i].now == now
    ensures Made(ScanSight(z, occ), cursor, passes) == First(Due(occ, cursor, now), Allowance(passes))
  {
    ScanSeesMatches(z, occ);
    ReachingSeesAhead(z, t, occ, cursor);
    SeenPassesConcatenate(ScanSight(z, occ), occ, cursor, cursor, now, passes);
  }

  const INVENTED := Zone(39600, [Transition(46801, -43200)])

  lemma {:induction false} BlindPassesMakeNothing(sight: Sight, cursor: int, passes: seq<Pass>)
    requires sight(cursor) == {}
    ensures Made(sight, cursor, passes) == []
    decreases |passes|
  {
    if passes != [] {
      assert Due({}, cursor, passes[0].now) == {};
      BlindPassesMakeNothing(sight, cursor, passes[1..]);
    }
  }

  /** In the invented zone no number of passes ever creates the lost occurrence: the cursor stays where it is lost. */
  lemma LostOccurrenceIsNeverMade(passes: seq<Pass>)
    ensures Made(ScanSight(INVENTED, {46801}), 46800, passes) == []
    ensures Listing(Due({46801}, 46800, 46801)) == [46801]
  {
    LargeStepBackLosesAnOccurrence();
    ScanListsScanned(INVENTED, {46801}, 46800, []);
    BlindPassesMakeNothing(ScanSight(INVENTED, {46801}), 46800, passes);
    assert Due({46801}, 46800, 46801) == {46801};
    ListingOfOne(46801);
  }
}

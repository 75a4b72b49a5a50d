/** One batch's ingestion: the commit of a page, and the loop over the pages of any source. */
module Ingestion {
  import opened Common
  import opened Collections

  // ----- duplicates -----

  method FirstWithKey(items: seq<Item>, key: string) returns (p: Option<nat>)
    ensures p.Some? ==> p.value < |items| && items[p.value].key == key
    ensures p.None? ==> forall i :: 0 <= i < |items| ==> items[i].key != key
  {
    for i := 0 to |items|
      invariant forall k :: 0 <= k < i ==> items[k].key != key
    {
      if items[i].key == key {
        return Some(i);
      }
    }
    return None;
  }

  lemma RepeatedBefore(raws: seq<Item>, x: Item, i: nat)
    requires i < |raws|
    ensures Repeated(raws + [x], i) <==> Repeated(raws, i) || raws[i].key == x.key
  {
    var more := raws + [x];
    assert forall j :: 0 <= j < |raws| ==> more[j] == raws[j];
    assert more[|raws|] == x;
  }

  lemma AppendFresh(raws: seq<Item>, x: Item)
    requires forall i :: 0 <= i < |raws| ==> raws[i].key != x.key
    ensures Deduplicated(raws + [x]) == Deduplicated(raws) + [x]
  {
    var more := raws + [x];
    forall i | 0 <= i < |more| ensures Deduplicated(more)[i] == (Deduplicated(raws) + [x])[i] {
      if i < |raws| {
        RepeatedBefore(raws, x, i);
      }
    }
  }

  lemma AppendRepeat(raws: seq<Item>, x: Item, p: nat)
    requires p < |raws| && raws[p].key == x.key
    ensures var items := Deduplicated(raws);
            Deduplicated(raws + [x]) == items[p := items[p].(state := Invalid)] + [x.(state := Invalid)]
  {
    var more, items := raws + [x], Deduplicated(raws);
    assert more[p] == raws[p];
    assert Repeated(more, |raws|);
    forall i | 0 <= i < |raws| ensures Deduplicated(more)[i] == items[p := items[p].(state := Invalid)][i] {
      RepeatedBefore(raws, x, i);
      assert more[i] == raws[i];
      if i != p && raws[i].key == x.key {
        assert Repeated(raws, i);
      }
    }
  }

  lemma ConsistentAppend(raws: seq<Item>, x: Item)
    ensures Consistent(raws + [x]) <==>
              Consistent(raws) && forall i :: 0 <= i < |raws| && raws[i].key == x.key ==> raws[i].digest == x.digest
  {
    var more := raws + [x];
    assert forall i :: 0 <= i < |raws| ==> more[i] == raws[i];
    assert more[|raws|] == x;
    if Consistent(more) {
      forall i, j | 0 <= i < |raws| && 0 <= j < |raws| && raws[i].key == raws[j].key ensures raws[i].digest == raws[j].digest {
        assert more[i].key == more[j].key;
      }
      forall i | 0 <= i < |raws| && raws[i].key == x.key ensures raws[i].digest == x.digest {
        assert more[i].key == more[|raws|].key;
      }
    }
  }

  /** The rows and counters that `raws` must have led to. */
  ghost predicate Stored(items: seq<Item>, counts: Counts, raws: seq<Item>) {
    items == Deduplicated(raws) && counts == Tally(items) && Consistent(raws)
  }

  /** Inserts one item; a key seen before makes both invalid, or ends the page if the parameters differ. */
  method AddItem(items: seq<Item>, counts: Counts, x: Item, ghost raws: seq<Item>)
    returns (ok: bool, items': seq<Item>, counts': Counts)
    requires Stored(items, counts, raws)
    ensures ok <==> Consistent(raws + [x])
    ensures ok ==> Stored(items', counts', raws + [x])
  {
    ConsistentAppend(raws, x);
    ok, items', counts' := true, items, counts;
    var p := FirstWithKey(items, x.key);
    assert forall i :: 0 <= i < |raws| ==> items[i].key == raws[i].key && items[i].digest == raws[i].digest;
    if p.None? {
      AppendFresh(raws, x);
      TallyAppend(items, x);
      items', counts' := items + [x], Observe(counts, x.state);
    } else {
      var prior := items[p.value];
      if prior.digest != x.digest {
        assert raws[p.value].key == x.key;
        ok := false;
        return;
      }
      AppendRepeat(raws, x, p.value);
      if prior.state != Invalid {
        TallyInvalidate(items, p.value);
        items' := items'[p.value := prior.(state := Invalid)];
        counts' := Reclassify(counts', prior.state);
      } else {
        assert items[p.value := prior.(state := Invalid)] == items;
      }
      TallyAppend(items', x.(state := Invalid));
      items', counts' := items' + [x.(state := Invalid)], Observe(counts', Invalid);
    }
  }

  // ----- pages -----

  type Fetch = (nat, Option<Cursor>, Option<string>) -> Result<Page, SourceError>

  /** How the store answers a commit: the page is new, another worker has committed the same page, or the batch has moved on. */
  datatype Commit = Applied | Replayed | Outdated

  datatype Status =
    | More
    | Complete
    | Stale
    | SourceFailed(error: SourceError)
    | LimitExceeded
    | CursorSeen
    | ConflictingKey

  predicate ValidLimits(pageSize: nat, maxItems: nat) { 1 <= pageSize <= 1_000 && 1 <= maxItems <= 10_000 }

  /** A page may fill the limit only if it is the last. */
  predicate OverLimit(count: nat, page: Page, maxItems: nat) {
    count + |page.items| > maxItems || (page.next.Some? && count + |page.items| >= maxItems)
  }

  function NextPage(fetch: Fetch, generation: nat, cursor: Option<Cursor>, snapshot: Option<string>, pageSize: nat)
    : Result<Page, SourceError>
  {
    var page := fetch(generation, cursor, snapshot);
    if page.Err? then page else ValidateSourcePage(page.value, cursor, snapshot, pageSize)
  }

  lemma DenseAppend(raws: seq<Item>, materialize: (nat, Raw) -> Item, page: seq<Raw>)
    requires Dense(raws)
    ensures Dense(raws + MaterializeFrom(materialize, page, |raws|))
  {
    var more := MaterializeFrom(materialize, page, |raws|);
    forall i | 0 <= i < |raws + more| ensures (raws + more)[i].index == i {
      if i >= |raws| {
        assert (raws + more)[i] == more[i - |raws|];
      }
    }
  }

  lemma ConsistentPrefix(raws: seq<Item>, more: seq<Item>)
    requires Consistent(raws + more)
    ensures Consistent(raws)
  {
    forall i, j | 0 <= i < |raws| && 0 <= j < |raws| && raws[i].key == raws[j].key ensures raws[i].digest == raws[j].digest {
      assert (raws + more)[i] == raws[i] && (raws + more)[j] == raws[j];
    }
  }

  // ----- static collections -----

  /** One page, and one more for every further `pageSize` items begun. */
  function PageCount(n: nat, pageSize: nat): nat
    requires pageSize > 0
    decreases n
  {
    if n <= pageSize then 1 else 1 + PageCount(n - pageSize, pageSize)
  }

  lemma AtLeastOnce(p: nat, d: int)
    requires d >= 1
    ensures p * d >= p
  {
    assert p * d == p * (d - 1) + p;
  }

  lemma QuotientIsUnique(p: nat, q: int, r: int, q': int, r': int)
    requires 0 <= r < p && 0 <= r' < p && p * q + r == p * q' + r'
    ensures q == q'
  {
    var x, y := p * q, p * q';
    assert p * (q' - q) == y - x && p * (q - q') == x - y;
    if q < q' {
      AtLeastOnce(p, q' - q);
    } else if q > q' {
      AtLeastOnce(p, q - q');
    }
  }

  lemma QuotientStep(a: nat, p: nat)
    requires p > 0
    ensures (a + p) / p == a / p + 1
  {
    assert p * (a / p + 1) == p * (a / p) + p;
    QuotientIsUnique(p, (a + p) / p, (a + p) % p, a / p + 1, a % p);
  }

  lemma {:induction false} PageCountIsCeiling(n: nat, pageSize: nat)
    requires pageSize > 0
    ensures PageCount(n, pageSize) == Max(1, (n + pageSize - 1) / pageSize)
    decreases n
  {
    if n > pageSize {
      PageCountIsCeiling(n - pageSize, pageSize);
      QuotientStep(n - 1, pageSize);
      QuotientStep(n - pageSize - 1, pageSize);
    } else if n > 0 {
      QuotientStep(n - 1, pageSize);
    }
  }

  /** The source is a static collection whose bytes do not change. */
  ghost predicate FetchesStatic(fetch: Fetch, values: seq<Raw>, digest: string, pageSize: nat) {
    && 0 < |digest| <= MAX_SNAPSHOT_ID_BYTES
    && forall generation, cursor, snapshot ::
         fetch(generation, cursor, snapshot) == StaticSlice(values, digest, cursor, snapshot, pageSize)
  }

  lemma StaticNextPage(fetch: Fetch, values: seq<Raw>, digest: string, pageSize: nat, generation: nat, offset: nat,
                       cursor: Option<Cursor>, snapshot: Option<string>)
    requires FetchesStatic(fetch, values, digest, pageSize) && 0 < pageSize && offset <= |values|
    requires cursor == Some(Offset(offset)) || (cursor == None && offset == 0)
    requires snapshot == None || snapshot == Some(digest)
    ensures var end := Min(offset + pageSize, |values|);
            NextPage(fetch, generation, cursor, snapshot, pageSize) ==
              Ok(Page(digest, values[offset..end], if end < |values| then Some(Offset(end)) else None))
  {
    var end := Min(offset + pageSize, |values|);
    assert |values[offset..end]| == end - offset;
  }

  lemma MaterializeMore(materialize: (nat, Raw) -> Item, values: seq<Raw>, offset: nat, end: nat)
    requires offset <= end <= |values|
    ensures MaterializeFrom(materialize, values[..offset], 0) + MaterializeFrom(materialize, values[offset..end], offset)
         == MaterializeFrom(materialize, values[..end], 0)
  {
  }

  /** What the rounds of a batch depend on. */
  datatype Position = Position(
    raws: seq<Item>, generation: nat, next: Option<Cursor>, snapshot: Option<string>, requests: set<Cursor>)

  /** The batch stands at an item boundary of a static collection. */
  ghost predicate StaticAt(at: Position, values: seq<Raw>, digest: string, materialize: (nat, Raw) -> Item, pageSize: nat)
    requires pageSize > 0
  {
    && |at.raws| <= |values| && at.raws == MaterializeFrom(materialize, values[..|at.raws|], 0)
    && (at.generation == 0 ==> at.raws == [] && at.next == None && at.snapshot == None)
    && (at.generation > 0 ==> |at.raws| < |values| && at.next == Some(Offset(|at.raws|)) && at.snapshot == Some(digest))
    && (forall c :: c in at.requests ==> c.Offset? && c.offset < |at.raws|)
    && at.generation + PageCount(|values| - |at.raws|, pageSize) == PageCount(|values|, pageSize)
  }

  /** A new batch does. */
  lemma FreshIsStatic(values: seq<Raw>, digest: string, materialize: (nat, Raw) -> Item, pageSize: nat)
    requires pageSize > 0
    ensures StaticAt(Position([], 0, None, None, {}), values, digest, materialize, pageSize)
  {
  }

  ghost predicate StaticDone(at: Position, values: seq<Raw>, materialize: (nat, Raw) -> Item, pageSize: nat)
    requires pageSize > 0
  {
    at.raws == MaterializeFrom(materialize, values, 0) && at.generation == PageCount(|values|, pageSize)
  }

  /** How far a static collection has come, and that nothing but its own size and keys can stop it. */
  ghost predicate StaticOutcome(status: Status, at: Position, values: seq<Raw>, digest: string,
                                materialize: (nat, Raw) -> Item, pageSize: nat, maxItems: nat)
    requires pageSize > 0
  {
    var fits := |values| <= maxItems && Consistent(MaterializeFrom(materialize, values, 0));
    && (status.More? ==> StaticAt(at, values, digest, materialize, pageSize))
    && (status.Complete? ==> fits && StaticDone(at, values, materialize, pageSize))
    && (fits ==> status.More? || status.Complete?)
  }

  /** The position after committing a page. */
  ghost function After(at: Position, page: Page, materialize: (nat, Raw) -> Item): Position {
    Position(at.raws + MaterializeFrom(materialize, page.items, |at.raws|), at.generation + 1, page.next,
             if at.snapshot.Some? then at.snapshot else Some(page.snapshot),
             at.requests + if at.next.Some? then {at.next.value} else {})
  }

  /** The page a static collection gives next, and where committing it leads. */
  lemma StaticRound(at: Position, fetch: Fetch, values: seq<Raw>, digest: string, materialize: (nat, Raw) -> Item, pageSize: nat)
    requires 0 < pageSize && FetchesStatic(fetch, values, digest, pageSize) && StaticAt(at, values, digest, materialize, pageSize)
    ensures var fetched := NextPage(fetch, at.generation, at.next, at.snapshot, pageSize);
            && fetched.Ok?
            && var page := fetched.value;
            && |at.raws| + |page.items| <= |values|
            && (page.next.Some? ==>
                  && page.next.value !in at.requests && |at.raws| + |page.items| < |values|
                  && page.items != [] && StaticAt(After(at, page, materialize), values, digest, materialize, pageSize))
            && (page.next.None? ==>
                  && StaticDone(After(at, page, materialize), values, materialize, pageSize)
                  && |at.raws| + |page.items| == |values|)
            && (Consistent(MaterializeFrom(materialize, values, 0)) ==> Consistent(After(at, page, materialize).raws))
  {
    var offset := |at.raws|;
    var end := Min(offset + pageSize, |values|);
    StaticNextPage(fetch, values, digest, pageSize, at.generation, offset, at.next, at.snapshot);
    MaterializeMore(materialize, values, offset, end);
    MaterializeMore(materialize, values, end, |values|);
    assert values[..|values|] == values;
    if Consistent(MaterializeFrom(materialize, values, 0)) {
      ConsistentPrefix(MaterializeFrom(materialize, values[..end], 0), MaterializeFrom(materialize, values[end..|values|], end));
    }
  }

  /** Within the limit, and not back to a cursor already asked for. */
  ghost predicate Acceptable(page: Page, at: Position, maxItems: nat) {
    !OverLimit(|at.raws|, page, maxItems) && (page.next.Some? ==> page.next.value !in at.requests)
  }

  class Batch {
    const pageSize: nat
    const maxItems: nat
    var items: seq<Item>
    var counts: Counts
    var generation: nat
    var next: Option<Cursor>
    var snapshot: Option<string>
    var requests: set<Cursor>
    var complete: bool
    ghost var raws: seq<Item>

    /**
    Rows are numbered without gaps and counted correctly, no limit is passed, and
    every committed page but the last brought at least one item.
     */
    ghost predicate Valid() reads this {
      && ValidLimits(pageSize, maxItems) && Stored(items, counts, raws) && Dense(raws)
      && |raws| <= maxItems && generation <= maxItems
      && (!complete ==> generation <= |raws| < maxItems)
    }

    ghost function Here(): Position
      reads this
    {
      Position(raws, generation, next, snapshot, requests)
    }

    constructor (pageSize: nat, maxItems: nat)
      requires ValidLimits(pageSize, maxItems)
      ensures Valid() && this.pageSize == pageSize && this.maxItems == maxItems && !complete
      ensures Here() == Position([], 0, None, None, {})
    {
      this.pageSize, this.maxItems := pageSize, maxItems;
      items, counts, raws := [], Counts(0, 0, 0, 0, 0), [];
      generation, next, snapshot, requests, complete := 0, None, None, {}, false;
    }

    /** All of the page or nothing. */
    method InsertItems(page: seq<Item>) returns (ok: bool)
      requires Stored(items, counts, raws)
      modifies this`items, this`counts, this`raws
      ensures Stored(items, counts, raws) && (ok <==> Consistent(old(raws) + page))
      ensures raws == if ok then old(raws) + page else old(raws)
      ensures !ok ==> items == old(items) && counts == old(counts)
    {
      var rows, tally := items, counts;
      ghost var done := raws;
      ok := true;
      assert raws + page[..0] == raws;
      for i := 0 to |page|
        invariant done == old(raws) + page[..i] && Stored(rows, tally, done)
        invariant items == old(items) && counts == old(counts) && raws == old(raws)
      {
        assert old(raws) + page[..i + 1] == done + [page[i]];
        ok, rows, tally := AddItem(rows, tally, page[i], done);
        if !ok {
          assert old(raws) + page == (old(raws) + page[..i + 1]) + page[i + 1..];
          if Consistent(old(raws) + page) {
            ConsistentPrefix(old(raws) + page[..i + 1], page[i + 1..]);
          }
          return false;
        }
        done := done + [page[i]];
      }
      assert page[..|page|] == page;
      items, counts, raws := rows, tally, done;
      ok := true;
    }

    /** Fetches the next page and checks it against the batch. */
    method CheckPage(fetch: Fetch) returns (r: Result<Page, Status>)
      requires Valid()
      ensures var fetched := NextPage(fetch, generation, next, snapshot, pageSize);
              && (r.Ok? <==> fetched.Ok? && Acceptable(fetched.value, Here(), maxItems))
              && (r.Ok? ==> r.value == fetched.value)
      ensures r.Err? ==> !r.error.More? && !r.error.Complete?
    {
      var fetched := NextPage(fetch, generation, next, snapshot, pageSize);
      if fetched.Err? {
        return Err(SourceFailed(fetched.error));
      }
      var page := fetched.value;
      if OverLimit(|items|, page, maxItems) {
        return Err(LimitExceeded);
      }
      if page.next.Some? && page.next.value in requests {
        return Err(CursorSeen);
      }
      return Ok(page);
    }

    /** Numbers the raw items on from the last row and inserts them. */
    method InsertRaws(page: seq<Raw>, materialize: (nat, Raw) -> Item) returns (ok: bool)
      requires Stored(items, counts, raws) && Dense(raws)
      modifies this`items, this`counts, this`raws
      ensures Stored(items, counts, raws) && Dense(raws)
      ensures ok <==> Consistent(old(raws) + MaterializeFrom(materialize, page, |old(raws)|))
      ensures raws == if ok then old(raws) + MaterializeFrom(materialize, page, |old(raws)|) else old(raws)
      ensures !ok ==> items == old(items) && counts == old(counts)
    {
      DenseAppend(raws, materialize, page);
      ok := InsertItems(MaterializeFrom(materialize, page, |items|));
    }

    method CommitPage(page: Page, materialize: (nat, Raw) -> Item) returns (ok: bool)
      requires Valid() && !complete && Acceptable(page, Here(), maxItems) && (page.next.Some? ==> page.items != [])
      modifies this
      ensures Valid() && (ok <==> Consistent(After(old(Here()), page, materialize).raws))
      ensures ok ==> Here() == After(old(Here()), page, materialize) && (complete <==> page.next.None?)
      ensures !ok ==> Here() == old(Here()) && items == old(items) && counts == old(counts) && !complete
    {
      ghost var target := After(Here(), page, materialize);
      ok := InsertRaws(page.items, materialize);
      if ok {
        assert raws == target.raws;
        requests, snapshot, generation, next, complete :=
          requests + (if next.Some? then {next.value} else {}),
          if snapshot.Some? then snapshot else Some(page.snapshot), generation + 1, page.next, page.next.None?;
        assert Here() == target;
      }
    }

    /**
    One round of the loop. On a replay the page is in the table already, put there
    by another worker between this round's read and its commit; the round goes on
    from what that worker stored.
     */
    method IngestPage(fetch: Fetch, materialize: (nat, Raw) -> Item, commit: Commit) returns (status: Status)
      requires Valid() && !complete
      modifies this
      ensures Valid() && (status.Complete? <==> complete)
      ensures var fetched := NextPage(fetch, old(generation), old(next), old(snapshot), pageSize);
              if commit != Outdated && fetched.Ok? && Acceptable(fetched.value, old(Here()), maxItems)
                 && Consistent(After(old(Here()), fetched.value, materialize).raws)
              then
                && Here() == After(old(Here()), fetched.value, materialize)
                && status == (if fetched.value.next.None? then Complete else More)
              else
                && Here() == old(Here()) && items == old(items) && counts == old(counts)
                && !status.More? && !status.Complete?
      ensures status.More? ==> |raws| > |old(raws)|
    {
      var checked := CheckPage(fetch);
      if checked.Err? {
        return checked.error;
      }
      if commit == Outdated {
        return Stale;
      }
      var ok := CommitPage(checked.value, materialize);
      if !ok {
        return ConflictingKey;
      }
      return if complete then Complete else More;
    }

    /** One round, and what it means when the source is a static collection. */
    method Round(fetch: Fetch, materialize: (nat, Raw) -> Item, commit: Commit, ghost fixed: bool,
                 ghost values: seq<Raw>, ghost digest: string) returns (status: Status)
      requires Valid() && !complete
      requires fixed ==> commit != Outdated && FetchesStatic(fetch, values, digest, pageSize)
                           && StaticOutcome(More, Here(), values, digest, materialize, pageSize, maxItems)
      modifies this
      ensures Valid() && (status.Complete? <==> complete) && old(raws) <= raws && old(generation) <= generation
      ensures status.More? ==> |raws| > |old(raws)|
      ensures fixed ==> StaticOutcome(status, Here(), values, digest, materialize, pageSize, maxItems)
    {
      if fixed {
        StaticRound(Here(), fetch, values, digest, materialize, pageSize);
      }
      status := IngestPage(fetch, materialize, commit);
    }

    /**
    The whole loop. Over any connector it ends, with at most `maxItems` pages and
    densely numbered items. Over a static collection, started afresh or taken up
    at any committed page, and not lost to another worker, it brings in all of it,
    in the fewest pages, or refuses: exactly when the collection is over the limit
    or gives one key two sets of parameters.
     */
    method Ingest(fetch: Fetch, materialize: (nat, Raw) -> Item, commits: nat -> Commit, ghost values: seq<Raw>, ghost digest: string)
      returns (status: Status)
      requires Valid() && !complete
      modifies this
      ensures Valid() && !status.More? && (status.Complete? <==> complete)
      ensures old(raws) <= raws && old(generation) <= generation <= maxItems
      ensures StaticAt(old(Here()), values, digest, materialize, pageSize) && FetchesStatic(fetch, values, digest, pageSize)
              && (forall g :: commits(g) != Outdated) ==>
                && (status.Complete? <==> |values| <= maxItems && Consistent(MaterializeFrom(materialize, values, 0)))
                && (status.Complete? ==>
                      && items == Deduplicated(MaterializeFrom(materialize, values, 0))
                      && generation == Max(1, (|values| + pageSize - 1) / pageSize))
    {
      status := More;
      ghost var fixed := StaticAt(Here(), values, digest, materialize, pageSize)
                         && FetchesStatic(fetch, values, digest, pageSize) && forall g :: commits(g) != Outdated;
      PageCountIsCeiling(|values|, pageSize);
      while status.More?
        invariant Valid() && (status.Complete? <==> complete) && old(raws) <= raws && old(generation) <= generation
        invariant fixed ==> StaticOutcome(status, Here(), values, digest, materialize, pageSize, maxItems)
        decreases maxItems - |raws|, status.More?
      {
        status := Round(fetch, materialize, commits(generation), fixed, values, digest);
      }
    }
  }
}

/**
Collection ingestion: pages fetched from a source, checked, numbered and
committed until the last one, under an item limit.
 */
module Collections {
  import opened Common

  type Raw = string

  const MAX_SNAPSHOT_ID_BYTES: nat := 512
  const MAX_CURSOR_BYTES: nat := 4 * 1024

  /** An offset cursor is short text of its own shape; any other cursor is the connector's text. */
  datatype Cursor = Offset(offset: nat) | Opaque(text: string)

  datatype Page = Page(snapshot: string, items: seq<Raw>, next: Option<Cursor>)

  datatype SourceError = SnapshotInvalid | SnapshotDrift | PageTooLarge | CursorInvalid | CursorCycle | Unavailable

  predicate CursorTextOk(c: Cursor) { c.Offset? || 0 < |c.text| <= MAX_CURSOR_BYTES }

  function ValidateSourcePage(page: Page, request: Option<Cursor>, expected: Option<string>, pageSize: nat): Result<Page, SourceError> {
    if page.snapshot == "" || |page.snapshot| > MAX_SNAPSHOT_ID_BYTES then Err(SnapshotInvalid)
    else if expected.Some? && expected.value != page.snapshot then Err(SnapshotDrift)
    else if |page.items| > pageSize then Err(PageTooLarge)
    else if page.next.Some? && !CursorTextOk(page.next.value) then Err(CursorInvalid)
    else if page.next.Some? && (request == page.next || page.items == []) then Err(CursorCycle)
    else Ok(page)
  }

  /** The slice of a static collection that a cursor asks for; `digest` is the digest of its bytes. */
  function StaticSlice(values: seq<Raw>, digest: string, cursor: Option<Cursor>, expected: Option<string>, pageSize: nat)
    : Result<Page, SourceError>
  {
    if expected.Some? && expected.value != digest then Err(SnapshotDrift)
    else if cursor.Some? && cursor.value.Opaque? then Err(CursorInvalid)
    else
      var offset := if cursor.Some? then cursor.value.offset else 0;
      if offset > |values| then Err(CursorInvalid)
      else
        var end := Min(offset + pageSize, |values|);
        Ok(Page(digest, values[offset..end], if end < |values| then Some(Offset(end)) else None))
  }

  // ----- items -----

  datatype ItemState = Ready | Invalid | Poisoned | Held

  datatype Item = Item(index: nat, key: string, digest: string, state: ItemState)

  function MaterializeFrom(materialize: (nat, Raw) -> Item, raws: seq<Raw>, first: nat): seq<Item> {
    seq(|raws|, i requires 0 <= i < |raws| => materialize(first + i, raws[i]).(index := first + i))
  }

  /** Some other item carries the same key. */
  predicate Repeated(items: seq<Item>, i: nat)
    requires i < |items|
  {
    exists j :: 0 <= j < |items| && j != i && items[j].key == items[i].key
  }

  /** An item keeps its own state exactly when its key is unique. */
  function Deduplicated(items: seq<Item>): seq<Item> {
    seq(|items|, i requires 0 <= i < |items| => if Repeated(items, i) then items[i].(state := Invalid) else items[i])
  }

  /** Items under one key have the same parameters. */
  ghost predicate Consistent(items: seq<Item>) {
    forall i, j :: 0 <= i < |items| && 0 <= j < |items| && items[i].key == items[j].key ==> items[i].digest == items[j].digest
  }

  ghost predicate Dense(items: seq<Item>) { forall i :: 0 <= i < |items| ==> items[i].index == i }

  function CountState(items: seq<Item>, state: ItemState): nat {
    if items == [] then 0 else CountState(items[..|items| - 1], state) + if items[|items| - 1].state == state then 1 else 0
  }

  datatype Counts = Counts(total: int, ready: int, invalid: int, poisoned: int, held: int)

  function Observe(c: Counts, state: ItemState): Counts {
    var c' := c.(total := c.total + 1);
    match state
    case Ready => c'.(ready := c.ready + 1)
    case Invalid => c'.(invalid := c.invalid + 1)
    case Poisoned => c'.(poisoned := c.poisoned + 1)
    case Held => c'.(held := c.held + 1)
  }

  function Reclassify(c: Counts, state: ItemState): Counts {
    match state
    case Ready => c.(ready := c.ready - 1, invalid := c.invalid + 1)
    case Invalid => c
    case Poisoned => c.(poisoned := c.poisoned - 1, invalid := c.invalid + 1)
    case Held => c.(held := c.held - 1, invalid := c.invalid + 1)
  }

  /** The counters the rows themselves give. */
  function Tally(items: seq<Item>): Counts {
    Counts(|items|, CountState(items, Ready), CountState(items, Invalid), CountState(items, Poisoned), CountState(items, Held))
  }

  // ----- counting -----

  lemma CountAppend(items: seq<Item>, x: Item, state: ItemState)
    ensures CountState(items + [x], state) == CountState(items, state) + if x.state == state then 1 else 0
  {
    assert (items + [x])[..|items|] == items;
  }

  lemma {:induction false} CountUpdate(items: seq<Item>, i: nat, x: Item, state: ItemState)
    requires i < |items|
    ensures CountState(items[i := x], state) ==
              CountState(items, state) - (if items[i].state == state then 1 else 0) + (if x.state == state then 1 else 0)
  {
    var n := |items| - 1;
    if i == n {
      assert items[i := x][..n] == items[..n];
    } else {
      CountUpdate(items[..n], i, x, state);
      assert items[i := x][..n] == items[..n][i := x];
    }
  }

  lemma TallyAppend(items: seq<Item>, x: Item)
    ensures Tally(items + [x]) == Observe(Tally(items), x.state)
  {
    CountAppend(items, x, Ready);
    CountAppend(items, x, Invalid);
    CountAppend(items, x, Poisoned);
    CountAppend(items, x, Held);
  }

  lemma TallyInvalidate(items: seq<Item>, i: nat)
    requires i < |items|
    ensures Tally(items[i := items[i].(state := Invalid)]) == Reclassify(Tally(items), items[i].state)
  {
    var x := items[i].(state := Invalid);
    CountUpdate(items, i, x, Ready);
    CountUpdate(items, i, x, Invalid);
    CountUpdate(items, i, x, Poisoned);
    CountUpdate(items, i, x, Held);
  }
}

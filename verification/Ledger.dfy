/**
The agent's durable delivery ledger: one row per attempt, changed only by
single SQL statements that compare the row's state before writing it.

The row functions say what one statement does to the row it addresses. The
class holds the whole table and runs them the way the agent process does.
 */
module Ledger {
  import opened Common

  type AttemptId = string
  type RunnerId = nat

  /** What an assignment document decodes to. */
  datatype Assignment = Assignment(attempt: AttemptId, lease: string, excel: bool)

  /** Assignment JSON as text: `raw` keeps apart texts that decode alike. */
  datatype Document =
    | Corrupt(raw: string)
    | Encoded(assignment: Assignment, raw: string)

  datatype RowState =
    | Accepted | Claimed | Running | CancelRequested
    | Cancelled | Finished | Acknowledged | Quarantined

  datatype Row = Row(
    lease: string,
    document: Document,
    state: RowState,
    owner: Option<RunnerId>,
    result: Option<string>)

  datatype PendingResult = PendingResult(attempt: AttemptId, lease: string, payload: string)

  datatype RecordOutcome = Inserted | Duplicate | Conflict

  // ----- what one statement does to one row -----

  /** The predicate shared by the claim statement and the recovery query. */
  predicate Recoverable(row: Row, runner: RunnerId) {
    || row.state == Accepted
    || (row.state in {Claimed, Running} && row.owner != Some(runner))
  }

  predicate Claimable(row: Row, assignment: Assignment, document: Document, runner: RunnerId) {
    row.lease == assignment.lease && row.document == document && Recoverable(row, runner)
  }

  function FreshRow(assignment: Assignment, document: Document): Row {
    Row(assignment.lease, document, Accepted, None, None)
  }

  function ClaimRow(row: Row, runner: RunnerId): Row {
    row.(state := Claimed, owner := Some(runner))
  }

  predicate Startable(row: Row, runner: RunnerId) {
    row.state == Claimed && row.owner == Some(runner)
  }

  predicate Cancellable(row: Row) {
    row.state in {Accepted, Claimed, Running}
  }

  function CancelRow(row: Row): Row {
    if !Cancellable(row) then row
    else row.(state := if row.state == Running then CancelRequested else Cancelled)
  }

  predicate Savable(row: Row, runner: RunnerId) {
    row.owner == Some(runner) && row.state in {Running, CancelRequested}
  }

  function SaveRow(row: Row, payload: string): Row {
    row.(state := Finished, result := Some(payload))
  }

  /** A save that changed no row still succeeds for the payload already stored. */
  predicate AlreadySaved(row: Row, runner: RunnerId, payload: string) {
    row.owner == Some(runner) && row.state == Finished && row.result == Some(payload)
  }

  predicate Pending(row: Row) {
    row.state == Finished && row.result.Some?
  }

  function AcknowledgeRow(row: Row): Row {
    if Pending(row) then row.(state := Acknowledged) else row
  }

  function QuarantineRow(row: Row): Row {
    row.(state := Quarantined)
  }

  // ----- what every row satisfies -----

  predicate Terminal(state: RowState) {
    state in {Cancelled, Acknowledged, Quarantined}
  }

  /** A row that is well formed in a process lifetime `runner`. */
  ghost predicate RowOk(row: Row, attempt: AttemptId, runner: RunnerId) {
    && (row.result.Some? <==> row.state in {Finished, Acknowledged})
    && (row.owner.Some? ==> row.owner.value <= runner)
    && (row.document.Encoded? ==>
          row.document.assignment.attempt == attempt && row.document.assignment.lease == row.lease)
    && (row.document.Corrupt? ==> row.owner != Some(runner))
  }

  /** Ranks a row within one process lifetime; every change of a row lowers it. */
  function Rank(row: Row, runner: RunnerId): nat {
    if Recoverable(row, runner) then 5
    else match row.state
      case Claimed => 4
      case Running => 3
      case CancelRequested => 2
      case Finished => 1
      case _ => 0
  }

  /**
  The refused repeat: once the coordinator has acknowledged a stored result, a
  writer repeating its own save is turned away; until then it is accepted.
   */
  lemma RepeatedSaveSucceedsUntilAcknowledged(row: Row, runner: RunnerId, payload: string)
    requires Savable(row, runner)
    ensures AlreadySaved(SaveRow(row, payload), runner, payload)
    ensures var acked := AcknowledgeRow(SaveRow(row, payload));
            !Savable(acked, runner) && !AlreadySaved(acked, runner, payload)
  {
  }

  /** All the changes one statement, by the live runner, can make to a row. */
  ghost predicate RowEvolves(row: Row, row': Row, runner: RunnerId) {
    || row' == row
    || (Recoverable(row, runner) && row.document.Encoded? && row' == ClaimRow(row, runner))
    || (Startable(row, runner) && row' == row.(state := Running))
    || (Cancellable(row) && row' == CancelRow(row))
    || (Savable(row, runner) && row'.result.Some? && row' == SaveRow(row, row'.result.value))
    || (Pending(row) && row' == AcknowledgeRow(row))
    || (Recoverable(row, runner) && row.document.Corrupt? && row' == QuarantineRow(row))
  }

  // ----- the table -----

  /** No row disappears, and each is left alone or changed as one statement may change it. */
  ghost predicate Evolved(rows: map<AttemptId, Row>, rows': map<AttemptId, Row>, runner: RunnerId) {
    rows.Keys <= rows'.Keys && forall a :: a in rows ==> RowEvolves(rows[a], rows'[a], runner)
  }

  function Selected(rows: map<AttemptId, Row>, runner: RunnerId): set<AttemptId> {
    set a | a in rows && Recoverable(rows[a], runner)
  }

  ghost function Readable(rows: map<AttemptId, Row>, attempts: set<AttemptId>): set<AttemptId>
    requires attempts <= rows.Keys
  {
    set a | a in attempts && rows[a].document.Encoded?
  }

  /** The table once the corrupt rows among `seen` are set aside; nothing else moves. */
  ghost function SetAside(rows: map<AttemptId, Row>, seen: set<AttemptId>): map<AttemptId, Row> {
    map a | a in rows :: if a in seen && rows[a].document.Corrupt? then QuarantineRow(rows[a]) else rows[a]
  }

  /** `documents` lists the documents of the rows in `attempts`, one each. */
  ghost predicate DocumentsOf(documents: seq<Document>, rows: map<AttemptId, Row>, attempts: set<AttemptId>)
    requires attempts <= rows.Keys
  {
    && |documents| == |attempts|
    && (forall i :: 0 <= i < |documents| ==>
          && documents[i].Encoded? && documents[i].assignment.attempt in attempts
          && documents[i] == rows[documents[i].assignment.attempt].document)
    && (forall a :: a in attempts ==> rows[a].document in documents)
  }

  /** Where recovery stands once it has been through the rows in `seen`. */
  ghost predicate RecoveredSoFar(documents: seq<Document>, rows: map<AttemptId, Row>, before: map<AttemptId, Row>,
                                 seen: set<AttemptId>) {
    seen <= before.Keys && rows == SetAside(before, seen) && DocumentsOf(documents, before, Readable(before, seen))
  }

  lemma NothingRecovered(rows: map<AttemptId, Row>)
    ensures RecoveredSoFar([], rows, rows, {})
  {
    assert SetAside(rows, {}) == rows;
  }

  lemma SetAsideKeepsRowsOk(rows: map<AttemptId, Row>, seen: set<AttemptId>, runner: RunnerId)
    requires forall a :: a in rows ==> RowOk(rows[a], a, runner)
    requires seen <= Selected(rows, runner)
    ensures var after := SetAside(rows, seen); forall a :: a in after ==> RowOk(after[a], a, runner)
  {
  }

  /** The row's document, if readable, is about the row. */
  ghost predicate NamesItself(rows: map<AttemptId, Row>, a: AttemptId) {
    a in rows && (rows[a].document.Encoded? ==> rows[a].document.assignment.attempt == a)
  }

  /** One round of the recovery loop. */
  lemma RecoverOneMore(documents: seq<Document>, rows: map<AttemptId, Row>, seen: set<AttemptId>, a: AttemptId)
    requires seen <= rows.Keys && a !in seen && NamesItself(rows, a)
    requires DocumentsOf(documents, rows, Readable(rows, seen))
    ensures rows[a].document.Corrupt? ==>
              && SetAside(rows, seen + {a}) == SetAside(rows, seen)[a := QuarantineRow(rows[a])]
              && DocumentsOf(documents, rows, Readable(rows, seen + {a}))
    ensures rows[a].document.Encoded? ==>
              && SetAside(rows, seen + {a}) == SetAside(rows, seen)
              && DocumentsOf(documents + [rows[a].document], rows, Readable(rows, seen + {a}))
  {
    if rows[a].document.Encoded? {
      assert Readable(rows, seen + {a}) == Readable(rows, seen) + {a};
    } else {
      assert Readable(rows, seen + {a}) == Readable(rows, seen);
    }
  }

  /** Recovery returns a readable row's document exactly when a claim of that row would succeed. */
  lemma RecoveredExactlyWhenClaimable(rows: map<AttemptId, Row>, runner: RunnerId, documents: seq<Document>, a: AttemptId)
    requires forall b :: b in rows ==> RowOk(rows[b], b, runner)
    requires DocumentsOf(documents, rows, Readable(rows, Selected(rows, runner)))
    requires a in rows && rows[a].document.Encoded?
    ensures rows[a].document in documents <==>
              Claimable(rows[a], rows[a].document.assignment, rows[a].document, runner)
  {
    if rows[a].document in documents {
      var i :| 0 <= i < |documents| && documents[i] == rows[a].document;
      assert documents[i].assignment.attempt == a;
    }
    if Claimable(rows[a], rows[a].document.assignment, rows[a].document, runner) {
      assert a in Readable(rows, Selected(rows, runner));
    }
  }

  class Ledger {
    var rows: map<AttemptId, Row>
    const runner: RunnerId

    ghost predicate Valid() reads this {
      forall a :: a in rows ==> RowOk(rows[a], a, runner)
    }

    /** Reopens a table left by earlier lifetimes under a runner id none of them used. */
    constructor (rows: map<AttemptId, Row>, runner: RunnerId)
      requires forall a :: a in rows ==> RowOk(rows[a], a, runner) && rows[a].owner != Some(runner)
      ensures Valid()
      ensures this.rows == rows && this.runner == runner
    {
      this.rows := rows;
      this.runner := runner;
    }

    /** Persists an offer; a duplicate never replaces the first lease or document. */
    method Record(assignment: Assignment, document: Document) returns (outcome: RecordOutcome)
      requires Valid()
      requires document.Encoded? && document.assignment == assignment
      modifies this`rows
      ensures Valid() && Evolved(old(rows), rows, runner)
      ensures outcome == Inserted <==> assignment.attempt !in old(rows)
      ensures outcome == Inserted ==>
                rows == old(rows)[assignment.attempt := FreshRow(assignment, document)]
      ensures outcome != Inserted ==> rows == old(rows)
      ensures outcome == Conflict <==>
                && assignment.attempt in old(rows)
                && (|| old(rows)[assignment.attempt].lease != assignment.lease
                    || old(rows)[assignment.attempt].document != document)
    {
      var attempt := assignment.attempt;
      if attempt !in rows {
        rows := rows[attempt := FreshRow(assignment, document)];
        return Inserted;
      }
      var row := rows[attempt];
      if row.lease != assignment.lease || row.document != document {
        return Conflict;
      }
      return Duplicate;
    }

    method Claim(assignment: Assignment, document: Document) returns (claimed: bool)
      requires Valid()
      requires document.Encoded? && document.assignment == assignment
      modifies this`rows
      ensures Valid() && Evolved(old(rows), rows, runner)
      ensures claimed <==>
                && assignment.attempt in old(rows)
                && Claimable(old(rows)[assignment.attempt], assignment, document, runner)
      ensures claimed ==>
                && rows == old(rows)[assignment.attempt := ClaimRow(old(rows)[assignment.attempt], runner)]
                && !Recoverable(rows[assignment.attempt], runner)
      ensures !claimed ==> rows == old(rows)
    {
      var attempt := assignment.attempt;
      claimed := attempt in rows && Claimable(rows[attempt], assignment, document, runner);
      if claimed {
        rows := rows[attempt := ClaimRow(rows[attempt], runner)];
      }
    }

    /** One selected row: a readable document is returned, a corrupt one sets the row aside. */
    method RecoverRow(a: AttemptId, documents: seq<Document>, ghost before: map<AttemptId, Row>,
                      ghost seen: set<AttemptId>) returns (recovered: seq<Document>)
      requires a !in seen && NamesItself(before, a)
      requires RecoveredSoFar(documents, rows, before, seen)
      modifies this`rows
      ensures RecoveredSoFar(recovered, rows, before, seen + {a})
    {
      RecoverOneMore(documents, before, seen, a);
      if rows[a].document.Corrupt? {
        rows := rows[a := QuarantineRow(rows[a])];
        recovered := documents;
      } else {
        recovered := documents + [rows[a].document];
      }
    }

    method RecoverAll(selected: set<AttemptId>) returns (recovered: seq<Document>)
      requires forall a :: a in selected ==> NamesItself(rows, a)
      modifies this`rows
      ensures RecoveredSoFar(recovered, rows, old(rows), selected)
    {
      recovered := [];
      ghost var before, seen: set<AttemptId> := rows, {};
      NothingRecovered(rows);
      var todo := selected;
      while todo != {}
        invariant Splits(selected, seen, todo)
        invariant RecoveredSoFar(recovered, rows, before, seen)
        decreases |todo|
      {
        var a :| a in todo;
        MoveOne(selected, seen, todo, a);
        recovered := RecoverRow(a, recovered, before, seen);
        todo, seen := todo - {a}, seen + {a};
      }
      assert seen == selected;
    }

    /**
    Returns the documents of exactly the well-formed rows a claim would accept,
    in some order, and quarantines the corrupt ones.
     */
    method RecoverableAssignments() returns (recovered: seq<Document>)
      requires Valid()
      modifies this`rows
      ensures Valid() && Evolved(old(rows), rows, runner)
      ensures rows == SetAside(old(rows), Selected(old(rows), runner))
      ensures DocumentsOf(recovered, old(rows), Readable(old(rows), Selected(old(rows), runner)))
    {
      ghost var before := rows;
      recovered := RecoverAll(Selected(rows, runner));
      SetAsideKeepsRowsOk(before, Selected(before, runner), runner);
    }

    method Start(attempt: AttemptId) returns (started: bool)
      requires Valid()
      modifies this`rows
      ensures Valid() && Evolved(old(rows), rows, runner)
      ensures started <==> attempt in old(rows) && Startable(old(rows)[attempt], runner)
      ensures rows == if started then old(rows)[attempt := old(rows)[attempt].(state := Running)] else old(rows)
    {
      started := attempt in rows && Startable(rows[attempt], runner);
      if started {
        rows := rows[attempt := rows[attempt].(state := Running)];
      }
    }

    method Cancel(attempt: AttemptId) returns (cancelled: bool)
      requires Valid()
      modifies this`rows
      ensures Valid() && Evolved(old(rows), rows, runner)
      ensures cancelled <==> attempt in old(rows) && Cancellable(old(rows)[attempt])
      ensures rows == if attempt in old(rows) then old(rows)[attempt := CancelRow(old(rows)[attempt])] else old(rows)
      ensures attempt in rows ==> !Startable(rows[attempt], runner) && !Recoverable(rows[attempt], runner)
    {
      cancelled := attempt in rows && Cancellable(rows[attempt]);
      if cancelled {
        rows := rows[attempt := CancelRow(rows[attempt])];
      }
    }

    method SaveResult(attempt: AttemptId, payload: string) returns (saved: bool)
      requires Valid()
      modifies this`rows
      ensures Valid() && Evolved(old(rows), rows, runner)
      ensures saved <==>
                && attempt in old(rows)
                && (Savable(old(rows)[attempt], runner) || AlreadySaved(old(rows)[attempt], runner, payload))
      ensures rows == if attempt in old(rows) && Savable(old(rows)[attempt], runner)
                      then old(rows)[attempt := SaveRow(old(rows)[attempt], payload)] else old(rows)
      ensures saved ==> Pending(rows[attempt]) && rows[attempt].result == Some(payload)
    {
      if attempt in rows && Savable(rows[attempt], runner) {
        rows := rows[attempt := SaveRow(rows[attempt], payload)];
        return true;
      }
      return attempt in rows && AlreadySaved(rows[attempt], runner, payload);
    }

    method Acknowledge(attempt: AttemptId) returns (acknowledged: bool)
      requires Valid()
      modifies this`rows
      ensures Valid() && Evolved(old(rows), rows, runner)
      ensures acknowledged <==> attempt in rows && rows[attempt].state == Acknowledged
      ensures rows == if attempt in old(rows) then old(rows)[attempt := AcknowledgeRow(old(rows)[attempt])] else old(rows)
    {
      if attempt in rows && Pending(rows[attempt]) {
        rows := rows[attempt := AcknowledgeRow(rows[attempt])];
        return true;
      }
      return attempt in rows && rows[attempt].state == Acknowledged;
    }

    /** The outbox: every stored result the coordinator has not acknowledged, once each. */
    method PendingResults() returns (pending: seq<PendingResult>)
      requires Valid()
      ensures |pending| == |set a | a in rows && Pending(rows[a])|
      ensures forall p :: p in pending <==>
                && p.attempt in rows && Pending(rows[p.attempt])
                && p.lease == rows[p.attempt].lease && rows[p.attempt].result == Some(p.payload)
    {
      pending := [];
      var selected := set a | a in rows && Pending(rows[a]);
      ghost var done: set<AttemptId> := {};
      var todo := selected;
      while todo != {}
        invariant todo <= selected && done == selected - todo && |pending| == |done|
        invariant forall p :: p in pending <==>
                    && p.attempt in done && p.lease == rows[p.attempt].lease
                    && rows[p.attempt].result == Some(p.payload)
        decreases |todo|
      {
        var a :| a in todo;
        todo := todo - {a};
        done := done + {a};
        pending := pending + [PendingResult(a, rows[a].lease, rows[a].result.value)];
      }
    }

    method StoredAssignment(attempt: AttemptId, lease: string) returns (document: Option<Document>)
      requires Valid()
      ensures document.Some? <==>
                attempt in rows && rows[attempt].lease == lease && Cancellable(rows[attempt])
      ensures document.Some? ==> document.value == rows[attempt].document
    {
      if attempt in rows && rows[attempt].lease == lease && Cancellable(rows[attempt]) {
        return Some(rows[attempt].document);
      }
      return None;
    }
  }
}

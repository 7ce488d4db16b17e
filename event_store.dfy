/**
 * The `iot_events` table as the two endpoints use it: an append-only
 * sequence of rows and the counter behind the auto-assigned primary key.
 * `Submit` is one transaction (add, commit, refresh); `GetEvents` is the
 * full-table query.
 */
module EventStore {
  import opened TelemetryRecord

  /** The outcome of a submit: the committed row, or a datastore failure. */
  datatype SubmitOutcome = Committed(row: StoredEvent) | PersistenceFailure

  /** Ids are positive, below the counter, and strictly increase in insertion order. */
  ghost predicate WellKeyed(rows: seq<StoredEvent>, nextId: nat)
  {
    && 1 <= nextId
    && (forall i :: 0 <= i < |rows| ==> 1 <= rows[i].id < nextId)
    && (forall i, j :: 0 <= i < j < |rows| ==> rows[i].id < rows[j].id)
  }

  /** The ids already in use. */
  function Ids(rows: seq<StoredEvent>): set<nat>
  {
    set i | 0 <= i < |rows| :: rows[i].id
  }

  /** No two rows of a well-keyed table share an id. */
  lemma WellKeyedDistinct(rows: seq<StoredEvent>, nextId: nat)
    requires WellKeyed(rows, nextId)
    ensures forall i, j :: 0 <= i < |rows| && 0 <= j < |rows| && i != j ==> rows[i].id != rows[j].id
  {
  }

  class Store {
    var rows: seq<StoredEvent>
    var nextId: nat

    ghost predicate Valid()
      reads this
    {
      WellKeyed(rows, nextId)
    }

    /** An empty table whose sequence starts at 1. */
    constructor ()
      ensures Valid() && rows == [] && nextId == 1
    {
      rows := [];
      nextId := 1;
    }

    /**
     * Flattens the payload into a new row and commits it.  `commitSucceeds`
     * stands for the datastore's verdict on the transaction.  On success
     * exactly one row is appended, with a fresh positive id, and every
     * earlier row is untouched; on failure the transaction is rolled back
     * and the table is as before.  Nothing is checked against existing rows,
     * so repeated device/timestamp pairs are stored as distinct rows.
     */
    method Submit(p: Payload, commitSucceeds: bool) returns (outcome: SubmitOutcome)
      requires Valid()
      modifies this
      ensures Valid()
      ensures outcome.Committed? <==> commitSucceeds
      ensures outcome.Committed? ==>
        && rows == old(rows) + [outcome.row]
        && outcome.row.event == Flatten(p)
        && outcome.row.id >= 1
        && outcome.row.id !in Ids(old(rows))
        && Respond(outcome.row) == Response(outcome.row.id, p)
      ensures !commitSucceeds ==> rows == old(rows) && nextId == old(nextId)
    {
      if !commitSucceeds {
        return PersistenceFailure;
      }
      var row := StoredEvent(nextId, Flatten(p));
      rows := rows + [row];
      nextId := nextId + 1;
      NestFlatten(p);
      outcome := Committed(row);
    }

    /** Every stored row, in insertion order; nothing changes. */
    method GetEvents() returns (events: seq<StoredEvent>)
      requires Valid()
      ensures events == rows
      ensures forall i, j :: 0 <= i < |events| && 0 <= j < |events| && i != j ==>
        events[i].id != events[j].id
    {
      events := rows;
      WellKeyedDistinct(rows, nextId);
    }
  }

  /**
   * A submit followed by a listing shows the submitted payload, with the
   * assigned id, as the last row; a second listing returns the same rows.
   */
  method SubmitThenList(store: Store, p: Payload) returns (r: Response, first: seq<StoredEvent>, second: seq<StoredEvent>)
    requires store.Valid()
    modifies store
    ensures r.id >= 1 && r.payload == p
    ensures |first| >= 1 && Respond(first[|first| - 1]) == r
    ensures first == second
  {
    var outcome := store.Submit(p, true);
    r := Respond(outcome.row);
    first := store.GetEvents();
    second := store.GetEvents();
  }
}

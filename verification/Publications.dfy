/** The publications table: apps/api/publishing/models.py and repository.py. */
module Publications {
  import opened Values
  import opened PublishingErrors

  datatype Status = Pending | Queued | Publishing | Published | Failed

  /** Every permitted transition goes up. */
  function Rank(s: Status): nat {
    match s
    case Pending => 0
    case Queued => 1
    case Publishing => 2
    case Published => 3
    case Failed => 3
  }

  /** What the unique constraint of automatic publications ranges over. */
  datatype Key = Key(execution: nat, provider: string, asset: nat)

  /** A row; its id is its position in the table. Times are numbers. error is error_code and
      error_message, which are only written together. */
  datatype Row = Row(
    id: nat,
    asset: nat,
    execution: Option<nat>,
    provider: string,
    title: string,
    status: Status,
    externalId: Option<string>,
    externalUrl: Option<string>,
    error: Option<Cause>,
    scheduledAt: Option<int>,
    queuedAt: Option<int>,
    startedAt: Option<int>,
    publishedAt: Option<int>,
    taskId: Option<nat>)

  function NewRow(id: nat, asset: nat, execution: Option<nat>, provider: string, title: string): Row {
    Row(id, asset, execution, provider, title, Pending, None, None, None, None, None, None, None, None)
  }

  /** Rows without an execution are never in conflict. */
  function KeyOf(row: Row): Option<Key> {
    if row.execution.Some? then Some(Key(row.execution.value, row.provider, row.asset)) else None
  }

  /** The columns that a transition sets beside the status. */
  datatype Write =
    | Start(startedAt: int)
    | Enqueue(scheduledAt: Option<int>, queuedAt: int, taskId: nat)
    | Failure(cause: Cause)
    | Success(externalId: string, externalUrl: string, publishedAt: int)

  function Update(row: Row, to: Status, w: Write): Row {
    var r := row.(status := to);
    match w
    case Start(at) => r.(startedAt := Some(at))
    case Enqueue(eta, at, task) =>
      r.(scheduledAt := eta, queuedAt := Some(at), taskId := Some(task), error := None)
    case Failure(cause) => r.(error := Some(cause))
    case Success(id, url, at) =>
      r.(externalId := Some(id), externalUrl := Some(url), error := None, publishedAt := Some(at))
  }

  type Table = seq<Row>

  function Find(rows: Table, id: nat): Option<Row> {
    if id < |rows| then Some(rows[id]) else None
  }

  predicate Hits(rows: Table, id: nat, from: Status) {
    id < |rows| && rows[id].status == from
  }

  /** The table after one conditional UPDATE. */
  function CasRows(rows: Table, id: nat, from: Status, to: Status, w: Write): Table {
    if Hits(rows, id, from) then rows[id := Update(rows[id], to, w)] else rows
  }

  /** The updated row, if the condition held. */
  function CasRow(rows: Table, id: nat, from: Status, to: Status, w: Write): Option<Row> {
    if Hits(rows, id, from) then Some(Update(rows[id], to, w)) else None
  }

  /** SELECT by key; the unique constraint leaves at most one row to find. */
  function FindKey(rows: Table, key: Key): (r: Option<Row>)
    ensures r.Some? ==> r.value in rows && KeyOf(r.value) == Some(key)
    ensures r.None? ==> forall i :: 0 <= i < |rows| ==> KeyOf(rows[i]) != Some(key)
  {
    if rows == [] then None
    else if KeyOf(rows[|rows| - 1]) == Some(key) then Some(rows[|rows| - 1])
    else FindKey(rows[..|rows| - 1], key)
  }

  function KeyedRow(rows: Table, key: Key, title: string): Row {
    NewRow(|rows|, key.asset, Some(key.execution), key.provider, title)
  }

  /** INSERT ... ON CONFLICT DO NOTHING. */
  function InsertRows(rows: Table, key: Key, title: string): Table {
    if FindKey(rows, key).None? then rows + [KeyedRow(rows, key, title)] else rows
  }

  function InsertRow(rows: Table, key: Key, title: string): Option<Row> {
    if FindKey(rows, key).None? then Some(KeyedRow(rows, key, title)) else None
  }

  ghost predicate UniqueKeys(rows: Table) {
    forall i, j :: 0 <= i < j < |rows| ==> KeyOf(rows[i]).None? || KeyOf(rows[i]) != KeyOf(rows[j])
  }

  ghost predicate Numbered(rows: Table) {
    forall i :: 0 <= i < |rows| ==> rows[i].id == i
  }

  /** The repository over its own table, one atomic statement a method. */
  class PublicationRepository {
    var rows: Table

    constructor ()
      ensures rows == []
    {
      rows := [];
    }

    method GetById(id: nat) returns (row: Option<Row>)
      ensures row == Find(rows, id)
    {
      row := if id < |rows| then Some(rows[id]) else None;
    }

    /** Atomically move a row on when its current status matches. */
    method TransitionStatus(id: nat, from: Status, to: Status, w: Write) returns (row: Option<Row>)
      modifies this
      ensures rows == CasRows(old(rows), id, from, to, w) && row == CasRow(old(rows), id, from, to, w)
    {
      if id < |rows| && rows[id].status == from {
        var updated := Update(rows[id], to, w);
        rows := rows[id := updated];
        return Some(updated);
      }
      row := None;
    }

    method GetAutomatic(key: Key) returns (row: Option<Row>)
      ensures row == FindKey(rows, key)
    {
      var i := |rows|;
      assert rows[..i] == rows;
      while i > 0
        invariant 0 <= i <= |rows| && FindKey(rows[..i], key) == FindKey(rows, key)
      {
        i := i - 1;
        assert rows[..i + 1][..i] == rows[..i];
        if KeyOf(rows[i]) == Some(key) {
          return Some(rows[i]);
        }
      }
      row := None;
    }

    /** Insert once, the uniqueness constraint being the authority. */
    method Insert(key: Key, title: string) returns (row: Option<Row>)
      modifies this
      ensures rows == InsertRows(old(rows), key, title) && row == InsertRow(old(rows), key, title)
    {
      var existing := GetAutomatic(key);
      if existing.Some? {
        return None;
      }
      var created := KeyedRow(rows, key, title);
      rows := rows + [created];
      row := Some(created);
    }

    /** Insert, or report the row that holds the key already. */
    method CreateAutomatic(key: Key, title: string) returns (row: Row, created: bool)
      modifies this
      ensures created <==> FindKey(old(rows), key).None?
      ensures rows == InsertRows(old(rows), key, title) && Some(row) == FindKey(rows, key)
    {
      var inserted := Insert(key, title);
      if inserted.Some? {
        return inserted.value, true;
      }
      var existing := GetAutomatic(key);
      row, created := existing.value, false;
    }

    /** A pending row without execution. */
    method Create(asset: nat, provider: string, title: string) returns (row: Row)
      modifies this
      ensures row == NewRow(|old(rows)|, asset, None, provider, title) && rows == old(rows) + [row]
    {
      row := NewRow(|rows|, asset, None, provider, title);
      rows := rows + [row];
    }
  }

  /** Inserting keeps keys unique, and afterwards the key is found. */
  lemma InsertKeepsUnique(rows: Table, key: Key, title: string)
    requires UniqueKeys(rows)
    ensures UniqueKeys(InsertRows(rows, key, title)) && FindKey(InsertRows(rows, key, title), key).Some?
  {
    if FindKey(rows, key).None? {
      var rows2 := rows + [KeyedRow(rows, key, title)];
      assert KeyOf(rows2[|rows|]) == Some(key);
    }
  }
}

/**
 * The kanban board of the dashboard page: the fixed pipeline columns,
 * the grouping of (deal, contact) rows into one bucket per column, and
 * the choice of the conversation shown beside the board.
 */
module Dashboard {
  import opened Wrappers
  import opened Models

  datatype Column = Column(id: string, caption: string)

  /** What the board shows for one row of the deal/contact join. */
  datatype BoardEntry = BoardEntry(deal: Deal, contact: Contact)

  /** One row of the join of deals with their contacts. */
  type Row = (Deal, Contact)

  function EntryOf(row: Row): BoardEntry {
    BoardEntry(row.0, row.1)
  }

  /** `_get_pipeline_columns`: four columns, one per deal status, in pipeline order. */
  function PipelineColumns(): (columns: seq<Column>)
    ensures |columns| == 4
    ensures forall k :: 0 <= k < 4 ==> columns[k].id == DealStatuses[k].Value()
    ensures forall j, k :: 0 <= j < k < 4 ==> columns[j].id != columns[k].id
  {
    [ Column(New.Value(), "Nouveaux messages"),
      Column(Quote.Value(), "Devis en cours"),
      Column(Scheduled.Value(), "Interventions planifiées"),
      Column(Closed.Value(), "Facturé / Clôturé") ]
  }

  /*
   * The column ids as literals. They are the `Value()` strings of
   * `DealStatuses` (`ColumnIdsOfPipeline`, `PipelineIdSet`); stating them
   * directly lets membership of a status be decided by comparing strings,
   * without unfolding `Value()` each time.
   */
  const ColumnIds: seq<string> := ["new", "quote", "scheduled", "closed"]

  const ColumnIdSet: set<string> := {"new", "quote", "scheduled", "closed"}

  lemma ColumnIdsOfPipeline()
    ensures |ColumnIds| == |PipelineColumns()|
    ensures forall k :: 0 <= k < |ColumnIds| ==> ColumnIds[k] == PipelineColumns()[k].id
    ensures forall j, k :: 0 <= j < k < |ColumnIds| ==> ColumnIds[j] != ColumnIds[k]
    ensures ColumnIdSet == set id | id in ColumnIds
  {
  }

  /** The ids of the pipeline columns are exactly the four status values. */
  lemma PipelineIdSet()
    ensures (set c | c in PipelineColumns() :: c.id) == ColumnIdSet
  {
    var cols := PipelineColumns();
    var ids := set c | c in cols :: c.id;
    assert cols[0].id == "new" && cols[1].id == "quote" && cols[2].id == "scheduled" && cols[3].id == "closed";
    assert cols[0] in cols && cols[1] in cols && cols[2] in cols && cols[3] in cols;
    assert ColumnIdSet <= ids;
    forall x | x in ids ensures x in ColumnIdSet {
      var c :| c in cols && c.id == x;
    }
  }

  /** The column a deal with this status is shown in: its own, or "new" for an unknown status. */
  function ColumnFor(status: string): (id: string)
    ensures id in ColumnIdSet
    ensures status in ColumnIdSet ==> id == status
    ensures status !in ColumnIdSet ==> id == New.Value()
  {
    if status in ColumnIdSet then status else New.Value()
  }

  /** The entries of `rows` that belong in column `id`, in row order. */
  function Bucket(rows: seq<Row>, id: string): seq<BoardEntry>
    decreases |rows|
  {
    if rows == [] then []
    else
      var last := rows[|rows| - 1];
      Bucket(rows[..|rows| - 1], id) + (if ColumnFor(last.0.status) == id then [EntryOf(last)] else [])
  }

  lemma BucketAppend(rows: seq<Row>, row: Row, id: string)
    ensures Bucket(rows + [row], id)
         == Bucket(rows, id) + (if ColumnFor(row.0.status) == id then [EntryOf(row)] else [])
  {
    assert (rows + [row])[..|rows|] == rows;
  }

  /** The dictionary built before the loop: one empty list per column id. */
  function InitialBuckets(columns: seq<Column>): (m: map<string, seq<BoardEntry>>)
    decreases |columns|
    ensures forall k :: 0 <= k < |columns| ==> columns[k].id in m
    ensures forall id :: id in m ==> m[id] == []
  {
    if columns == [] then map[]
    else InitialBuckets(columns[..|columns| - 1])[columns[|columns| - 1].id := []]
  }

  /** Before grouping there is one empty list per pipeline column and no other key. */
  lemma InitialPipelineBuckets()
    ensures InitialBuckets(PipelineColumns()).Keys == ColumnIdSet
    ensures forall id :: id in InitialBuckets(PipelineColumns()) ==> InitialBuckets(PipelineColumns())[id] == []
    ensures InitialBuckets(PipelineColumns()) == Grouped([])
  {
    InitialBucketsShape(PipelineColumns());
    PipelineIdSet();
  }

  /** `{col["id"]: [] for col in columns}` has one key per column id, each an empty list. */
  lemma {:induction false} InitialBucketsShape(columns: seq<Column>)
    ensures InitialBuckets(columns).Keys == set c | c in columns :: c.id
    ensures forall id :: id in InitialBuckets(columns) ==> InitialBuckets(columns)[id] == []
  {
    if columns != [] {
      var init := columns[..|columns| - 1];
      InitialBucketsShape(init);
      assert columns == init + [columns[|columns| - 1]];
    }
  }

  /**
   * The grouping loop of `dashboard`: each row is appended to the list of
   * its status, or to the "new" list when its status is no column id.
   */
  method GroupRows(rows: seq<Row>) returns (dealsByStatus: map<string, seq<BoardEntry>>)
    ensures dealsByStatus.Keys == ColumnIdSet
    ensures forall id :: id in dealsByStatus ==> dealsByStatus[id] == Bucket(rows, id)
  {
    var columns := PipelineColumns();
    dealsByStatus := InitialBuckets(columns);
    InitialPipelineBuckets();
    for i := 0 to |rows|
      invariant dealsByStatus == Grouped(rows[..i])
    {
      var (deal, contact) := rows[i];
      var key := if deal.status in dealsByStatus then deal.status else New.Value();
      GroupStep(dealsByStatus, rows, i, key);
      dealsByStatus := dealsByStatus[key := dealsByStatus[key] + [BoardEntry(deal, contact)]];
    }
    assert rows[..|rows|] == rows;
    GroupedShape(rows);
  }

  /** The buckets of `rows` under the four column ids. */
  ghost function Grouped(rows: seq<Row>): map<string, seq<BoardEntry>> {
    map id | id in ColumnIdSet :: Bucket(rows, id)
  }

  lemma GroupedShape(rows: seq<Row>)
    ensures Grouped(rows).Keys == ColumnIdSet
    ensures forall id :: id in Grouped(rows) ==> Grouped(rows)[id] == Bucket(rows, id)
  {
  }

  /**
   * One pass of the grouping loop: appending the row to the list of its
   * status, or of "new", turns the grouping of the rows seen so far into
   * the grouping with that row.
   */
  lemma GroupStep(m: map<string, seq<BoardEntry>>, rows: seq<Row>, i: nat, key: string)
    requires i < |rows| && m == Grouped(rows[..i])
    requires key == if rows[i].0.status in m then rows[i].0.status else New.Value()
    ensures key in m
    ensures m[key := m[key] + [BoardEntry(rows[i].0, rows[i].1)]] == Grouped(rows[..i + 1])
  {
    var seen, row := rows[..i], rows[i];
    assert rows[..i + 1] == seen + [row];
    GroupedShape(seen);
    GroupedShape(seen + [row]);
    KeyIsColumn(m, row.0.status, key);
    var m', n := m[key := m[key] + [EntryOf(row)]], Grouped(seen + [row]);
    forall id | id in ColumnIdSet ensures m'[id] == n[id] {
      BucketAppend(seen, row, id);
    }
    assert m'.Keys == n.Keys;
  }

  /** With the four column ids as keys, the fallback picks the status's own column. */
  lemma KeyIsColumn(m: map<string, seq<BoardEntry>>, status: string, key: string)
    requires m.Keys == ColumnIdSet
    requires key == if status in m then status else New.Value()
    ensures key == ColumnFor(status) && key in m
  {
  }

  /**
   * The selection loop of `dashboard`: the first entry of the first
   * non-empty column, in column order, or nothing when all are empty.
   */
  method SelectConversation(columns: seq<Column>, dealsByStatus: map<string, seq<BoardEntry>>)
    returns (selected: Option<BoardEntry>)
    requires forall c :: c in columns ==> c.id in dealsByStatus
    ensures selected.None? <==> forall k :: 0 <= k < |columns| ==> dealsByStatus[columns[k].id] == []
    ensures selected.Some? ==>
      exists k :: 0 <= k < |columns| && dealsByStatus[columns[k].id] != []
               && selected.value == dealsByStatus[columns[k].id][0]
               && forall j :: 0 <= j < k ==> dealsByStatus[columns[j].id] == []
  {
    selected := None;
    for k := 0 to |columns|
      invariant selected.None?
      invariant forall j :: 0 <= j < k ==> dealsByStatus[columns[j].id] == []
    {
      if dealsByStatus[columns[k].id] != [] {
        selected := Some(dealsByStatus[columns[k].id][0]);
        break;
      }
    }
  }

  /** `dashboard`, without the query and the template: the columns, the buckets and the selection. */
  method BuildDashboard(rows: seq<Row>)
    returns (columns: seq<Column>, dealsByStatus: map<string, seq<BoardEntry>>, selected: Option<BoardEntry>)
    ensures columns == PipelineColumns()
    ensures dealsByStatus.Keys == ColumnIdSet
    ensures forall id :: id in dealsByStatus ==> dealsByStatus[id] == Bucket(rows, id)
    ensures selected.None? <==> rows == []
    ensures selected.Some? ==>
      exists k :: 0 <= k < |columns| && dealsByStatus[columns[k].id] != []
               && selected.value == dealsByStatus[columns[k].id][0]
               && forall j :: 0 <= j < k ==> dealsByStatus[columns[j].id] == []
  {
    columns := PipelineColumns();
    dealsByStatus := GroupRows(rows);
    ColumnsAreKeys(dealsByStatus);
    selected := SelectConversation(columns, dealsByStatus);
    EmptyBoardIffNoRows(rows, dealsByStatus);
  }

  lemma ColumnsAreKeys(m: map<string, seq<BoardEntry>>)
    requires m.Keys == ColumnIdSet
    ensures forall c :: c in PipelineColumns() ==> c.id in m
  {
    PipelineIdSet();
  }

  /** Once grouped, every column list is empty exactly when there are no rows. */
  lemma EmptyBoardIffNoRows(rows: seq<Row>, m: map<string, seq<BoardEntry>>)
    requires m.Keys == ColumnIdSet
    requires forall id :: id in m ==> m[id] == Bucket(rows, id)
    ensures (forall k :: 0 <= k < |PipelineColumns()| ==> m[PipelineColumns()[k].id] == []) <==> rows == []
  {
    ColumnIdsOfPipeline();
    NoRowsIffEmptyBuckets(rows);
  }

  // ---------------------------------------------------------------
  // Properties of the grouping
  // ---------------------------------------------------------------

  /** The rows as board entries, in order. */
  function Entries(rows: seq<Row>): (es: seq<BoardEntry>)
    ensures |es| == |rows|
    ensures forall i :: 0 <= i < |rows| ==> es[i] == EntryOf(rows[i])
  {
    seq(|rows|, i requires 0 <= i < |rows| => EntryOf(rows[i]))
  }

  /** The four buckets together hold exactly the rows: every row lands in exactly one bucket. */
  lemma {:induction false} BucketsPartitionRows(rows: seq<Row>)
    ensures multiset(Bucket(rows, ColumnIds[0])) + multiset(Bucket(rows, ColumnIds[1]))
          + multiset(Bucket(rows, ColumnIds[2])) + multiset(Bucket(rows, ColumnIds[3]))
         == multiset(Entries(rows))
  {
    if rows != [] {
      var init, last := rows[..|rows| - 1], rows[|rows| - 1];
      assert rows == init + [last];
      BucketsPartitionRows(init);
      assert Entries(rows) == Entries(init) + [EntryOf(last)];
      BucketAppend(init, last, ColumnIds[0]);
      BucketAppend(init, last, ColumnIds[1]);
      BucketAppend(init, last, ColumnIds[2]);
      BucketAppend(init, last, ColumnIds[3]);
      ColumnIdsOfPipeline();
      OneBucketGrows(ColumnFor(last.0.status), EntryOf(last),
        Bucket(init, ColumnIds[0]), Bucket(init, ColumnIds[1]), Bucket(init, ColumnIds[2]), Bucket(init, ColumnIds[3]),
        Bucket(rows, ColumnIds[0]), Bucket(rows, ColumnIds[1]), Bucket(rows, ColumnIds[2]), Bucket(rows, ColumnIds[3]));
    }
  }

  /** Appending one entry to the bucket of column `c`, and to no other, adds it once to the union. */
  lemma OneBucketGrows(c: string, e: BoardEntry,
                       b0: seq<BoardEntry>, b1: seq<BoardEntry>, b2: seq<BoardEntry>, b3: seq<BoardEntry>,
                       n0: seq<BoardEntry>, n1: seq<BoardEntry>, n2: seq<BoardEntry>, n3: seq<BoardEntry>)
    requires c in ColumnIds
    requires forall j, k :: 0 <= j < k < |ColumnIds| ==> ColumnIds[j] != ColumnIds[k]
    requires n0 == b0 + (if c == ColumnIds[0] then [e] else [])
    requires n1 == b1 + (if c == ColumnIds[1] then [e] else [])
    requires n2 == b2 + (if c == ColumnIds[2] then [e] else [])
    requires n3 == b3 + (if c == ColumnIds[3] then [e] else [])
    ensures multiset(n0) + multiset(n1) + multiset(n2) + multiset(n3)
         == multiset(b0) + multiset(b1) + multiset(b2) + multiset(b3) + multiset{e}
  {
  }

  /** Conservation: the buckets' sizes add up to the number of rows. */
  lemma BucketsConserveRows(rows: seq<Row>)
    ensures |Bucket(rows, ColumnIds[0])| + |Bucket(rows, ColumnIds[1])|
          + |Bucket(rows, ColumnIds[2])| + |Bucket(rows, ColumnIds[3])| == |rows|
  {
    BucketsPartitionRows(rows);
    assert |multiset(Entries(rows))| == |rows|;
  }

  /** Every bucket is empty exactly when there are no rows. */
  lemma NoRowsIffEmptyBuckets(rows: seq<Row>)
    ensures rows == [] <==> forall k :: 0 <= k < 4 ==> Bucket(rows, ColumnIds[k]) == []
  {
    BucketsConserveRows(rows);
  }

  /** The indices of the rows that go to column `id`, ascending. */
  ghost function Positions(rows: seq<Row>, id: string): seq<nat>
    decreases |rows|
  {
    if rows == [] then []
    else
      Positions(rows[..|rows| - 1], id)
        + (if ColumnFor(rows[|rows| - 1].0.status) == id then [|rows| - 1] else [])
  }

  /**
   * A bucket is the subsequence of the rows whose column is `id`: its
   * k-th entry comes from row `Positions[k]`, the positions ascend (rows
   * keep their relative order), and every row of that column is there.
   */
  lemma BucketKeepsRowOrder(rows: seq<Row>, id: string)
    ensures |Positions(rows, id)| == |Bucket(rows, id)|
    ensures forall k :: 0 <= k < |Positions(rows, id)| ==>
      Positions(rows, id)[k] < |rows|
      && ColumnFor(rows[Positions(rows, id)[k]].0.status) == id
      && Bucket(rows, id)[k] == EntryOf(rows[Positions(rows, id)[k]])
    ensures forall k, l :: 0 <= k < l < |Positions(rows, id)| ==> Positions(rows, id)[k] < Positions(rows, id)[l]
    ensures forall i :: 0 <= i < |rows| && ColumnFor(rows[i].0.status) == id ==> i in Positions(rows, id)
  {
    PositionsPickBucket(rows, id);
    PositionsAscend(rows, id);
    PositionsComplete(rows, id);
  }

  lemma {:induction false} PositionsPickBucket(rows: seq<Row>, id: string)
    ensures |Positions(rows, id)| == |Bucket(rows, id)|
    ensures forall k :: 0 <= k < |Positions(rows, id)| ==>
      Positions(rows, id)[k] < |rows|
      && ColumnFor(rows[Positions(rows, id)[k]].0.status) == id
      && Bucket(rows, id)[k] == EntryOf(rows[Positions(rows, id)[k]])
  {
    if rows != [] {
      var init, last := rows[..|rows| - 1], rows[|rows| - 1];
      PositionsPickBucket(init, id);
      var p0, b0 := Positions(init, id), Bucket(init, id);
      var p, b := Positions(rows, id), Bucket(rows, id);
      if ColumnFor(last.0.status) == id {
        assert p == p0 + [|init|] && b == b0 + [EntryOf(last)];
      } else {
        assert p == p0 && b == b0;
      }
      forall k | 0 <= k < |p0| ensures rows[p0[k]] == init[p0[k]] { }
    }
  }

  lemma {:induction false} PositionsAscend(rows: seq<Row>, id: string)
    ensures forall k :: 0 <= k < |Positions(rows, id)| ==> Positions(rows, id)[k] < |rows|
    ensures forall k, l :: 0 <= k < l < |Positions(rows, id)| ==> Positions(rows, id)[k] < Positions(rows, id)[l]
  {
    if rows != [] {
      var init := rows[..|rows| - 1];
      PositionsAscend(init, id);
    }
  }

  lemma {:induction false} PositionsComplete(rows: seq<Row>, id: string)
    ensures forall i :: 0 <= i < |rows| && ColumnFor(rows[i].0.status) == id ==> i in Positions(rows, id)
  {
    if rows != [] {
      var init := rows[..|rows| - 1];
      PositionsComplete(init, id);
      forall i | 0 <= i < |init| ensures rows[i] == init[i] { }
    }
  }

  /** Every entry of a bucket comes from a row of that column. */
  lemma BucketEntriesBelong(rows: seq<Row>, id: string)
    ensures forall e :: e in Bucket(rows, id) ==> ColumnFor(e.deal.status) == id
    ensures forall e :: e in Bucket(rows, id) ==> e in Entries(rows)
  {
    BucketKeepsRowOrder(rows, id);
    forall e | e in Bucket(rows, id)
      ensures ColumnFor(e.deal.status) == id && e in Entries(rows)
    {
      var k :| 0 <= k < |Bucket(rows, id)| && Bucket(rows, id)[k] == e;
      assert Entries(rows)[Positions(rows, id)[k]] == e;
    }
  }
}

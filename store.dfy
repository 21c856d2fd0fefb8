/** `TestDataManager`: the append-only table of case records and its
    time-window query. The SQLite table becomes a sequence field; the query's
    cutoff (`now - days`) is passed in. */
module Store {
  import opened Wrappers
  import opened Collections
  import opened Records

  /** The window query's answer: the records strictly newer than the cutoff,
      newest first (`WHERE timestamp > ? ORDER BY timestamp DESC`). */
  function NewestFirst(rows: seq<TestResult>, cutoff: int): seq<TestResult>
  {
    SortDesc(Since(rows, cutoff), TimestampKey)
  }

  /** The query returns exactly the stored records after the cutoff, each as
      often as it was stored, ordered newest first. */
  lemma QuerySpec(rows: seq<TestResult>, cutoff: int)
    ensures multiset(NewestFirst(rows, cutoff)) == multiset(Since(rows, cutoff))
    ensures forall r :: r in NewestFirst(rows, cutoff) <==> r in rows && r.timestamp > cutoff
    ensures forall i, j :: 0 <= i < j < |NewestFirst(rows, cutoff)| ==>
              NewestFirst(rows, cutoff)[i].timestamp >= NewestFirst(rows, cutoff)[j].timestamp
  {
    SortDescPermutation(Since(rows, cutoff), TimestampKey);
    SortDescSpec(Since(rows, cutoff), TimestampKey);
    var q := NewestFirst(rows, cutoff);
    forall i, j | 0 <= i < j < |q| ensures q[i].timestamp >= q[j].timestamp {
      assert TimestampKey(q[i]) >= TimestampKey(q[j]);
    }
  }

  /** Appending a record extends the window by that record exactly when it is
      after the cutoff. */
  lemma {:induction false} SinceAppend(rows: seq<TestResult>, r: TestResult, cutoff: int)
    ensures Since(rows + [r], cutoff) == Since(rows, cutoff) + (if r.timestamp > cutoff then [r] else [])
  {
    assert (rows + [r])[..|rows|] == rows;
  }

  /** Records all after the cutoff come back in full. */
  lemma {:induction false} SinceAll(rows: seq<TestResult>, cutoff: int)
    requires forall r :: r in rows ==> r.timestamp > cutoff
    ensures Since(rows, cutoff) == rows
  {
    if rows != [] {
      assert rows == rows[..|rows| - 1] + [rows[|rows| - 1]];
      SinceAll(rows[..|rows| - 1], cutoff);
    }
  }

  /** A table holding exactly a batch dated after the cutoff answers the
      window query with that whole batch, as a multiset. */
  lemma RoundTrip(batch: seq<TestResult>, cutoff: int)
    requires forall r :: r in batch ==> r.timestamp > cutoff
    ensures multiset(NewestFirst(batch, cutoff)) == multiset(batch)
    ensures |NewestFirst(batch, cutoff)| == |batch|
  {
    SinceAll(batch, cutoff);
    QuerySpec(batch, cutoff);
    SortDescSpec(batch, TimestampKey);
  }

  class TestDataManager {
    /** The `test_results` table, in insertion (row id) order. */
    var rows: seq<TestResult>

    /** `init_database` on a fresh database. */
    constructor ()
      ensures rows == []
    {
      rows := [];
    }

    /** `store_test_result`: one INSERT. The table's NOT NULL constraint on
        `test_name` rejects a nameless case (sqlite raises), and nothing is
        written then. */
    method StoreTestResult(r: TestResult) returns (ok: bool)
      modifies this
      ensures ok <==> r.testName.Some?
      ensures rows == if ok then old(rows) + [r] else old(rows)
      ensures old(rows) <= rows
    {
      ok := r.testName.Some?;
      if ok {
        rows := rows + [r];
      }
    }

    /** `get_recent_results` with the cutoff `now - timedelta(days)` given. */
    method GetRecentResults(cutoff: int) returns (results: seq<TestResult>)
      ensures results == NewestFirst(rows, cutoff)
      ensures multiset(results) == multiset(Since(rows, cutoff))
      ensures forall x :: x in results <==> x in rows && x.timestamp > cutoff
      ensures forall i, j :: 0 <= i < j < |results| ==> results[i].timestamp >= results[j].timestamp
    {
      results := SortDesc(Since(rows, cutoff), TimestampKey);
      QuerySpec(rows, cutoff);
    }
  }

  /** Number of leading records that carry a test name. */
  function NamedPrefix(results: seq<TestResult>): (k: nat)
    ensures k <= |results|
    ensures forall i :: 0 <= i < k ==> results[i].testName.Some?
    ensures k < |results| ==> results[k].testName.None?
  {
    if results == [] || results[0].testName.None? then 0
    else 1 + NamedPrefix(results[1..])
  }

  /** The ingestion loop of `main`: store every parsed case in order. The
      first nameless case raises, leaving the earlier inserts in place. */
  method StoreAll(store: TestDataManager, results: seq<TestResult>) returns (ok: bool)
    modifies store
    ensures ok <==> forall r :: r in results ==> r.testName.Some?
    ensures store.rows == old(store.rows) + results[..NamedPrefix(results)]
  {
    var k := NamedPrefix(results);
    for i := 0 to |results|
      invariant i <= k
      invariant store.rows == old(store.rows) + results[..i]
    {
      var stored := store.StoreTestResult(results[i]);
      if !stored {
        return false;
      }
      assert results[..i + 1] == results[..i] + [results[i]];
    }
    assert results[..|results|] == results;
    return true;
  }

  /** When every record is named, the ingestion loop stores the whole batch. */
  lemma AllNamedStored(batch: seq<TestResult>)
    requires forall r :: r in batch ==> r.testName.Some?
    ensures batch[..NamedPrefix(batch)] == batch
  {
    forall i | 0 <= i < |batch|
      ensures batch[i].testName.Some?
    {
      assert batch[i] in batch;
    }
  }

  /** Store a batch into a fresh database and query the window. The query
      sees the records stored before the first nameless one; when every
      record is named and dated after the cutoff it returns exactly the
      batch, newest first. */
  method StoreAndQuery(batch: seq<TestResult>, cutoff: int) returns (ok: bool, results: seq<TestResult>)
    ensures ok <==> forall r :: r in batch ==> r.testName.Some?
    ensures results == NewestFirst(batch[..NamedPrefix(batch)], cutoff)
    ensures forall i, j :: 0 <= i < j < |results| ==> results[i].timestamp >= results[j].timestamp
    ensures ok && (forall r :: r in batch ==> r.timestamp > cutoff) ==>
              multiset(results) == multiset(batch) && |results| == |batch|
  {
    var store := new TestDataManager();
    ok := StoreAll(store, batch);
    assert store.rows == batch[..NamedPrefix(batch)];
    results := store.GetRecentResults(cutoff);
    if ok {
      AllNamedStored(batch);
      if forall r :: r in batch ==> r.timestamp > cutoff {
        RoundTrip(batch, cutoff);
      }
    }
  }
}

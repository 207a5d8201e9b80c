/** The agent's offline job queue (agent/src/local_storage.py): a table
    `print_jobs(id, job_data, created_at, uploaded_at, upload_attempts,
    status)` that buffers print jobs the portal could not receive.  The SQLite
    file becomes the sequence `rows` of a `Store` object; uuid4 ids become
    fresh natural numbers and CURRENT_TIMESTAMP an integer clock in seconds
    passed by the caller. */
module LocalStorage {
  import opened Common
  import Sorting
  import Seqs

  type JobId = nat

  /** The job dictionary, stored as JSON text and read back unchanged. */
  type Payload = map<string, Value>

  const SecondsPerDay: int := 86400
  const DefaultPendingLimit: int := 100
  const DefaultRetentionDays: int := 30
  const DefaultMaxAttempts: int := 5

  /** The keys `get_pending_jobs` adds to each returned job. */
  const LocalIdKey: string := "_local_id"
  const AttemptsKey: string := "_upload_attempts"

  datatype Status = Pending | Uploaded | Failed

  /** The text stored in the `status` column. */
  function StatusName(s: Status): string
  {
    match s
    case Pending => "pending"
    case Uploaded => "uploaded"
    case Failed => "failed"
  }

  datatype Row = Row(
    id: JobId,
    jobData: Payload,
    createdAt: int,
    uploadedAt: Option<int>,
    uploadAttempts: nat,
    status: Status)

  /** The row `INSERT INTO print_jobs (id, job_data, status) VALUES (?, ?,
      'pending')` creates: the column defaults fill in the rest. */
  function NewRow(id: JobId, jobData: Payload, now: int): (r: Row)
    ensures r.status == Pending && r.uploadAttempts == 0 && r.uploadedAt == None
    ensures r.id == id && r.jobData == jobData && r.createdAt == now
  {
    Row(id, jobData, now, None, 0, Pending)
  }

  /** `WHERE id = ?` with the caller's value bound to the parameter. */
  predicate HasKey(r: Row, key: Value)
  {
    Int(r.id) == key
  }

  function IdsOf(rows: seq<Row>): set<JobId>
  {
    set r | r in rows :: r.id
  }

  predicate DistinctIds(rows: seq<Row>)
  {
    forall i, j :: 0 <= i < j < |rows| ==> rows[i].id != rows[j].id
  }

  predicate IsPending(r: Row) { r.status == Pending }

  /** `ORDER BY created_at ASC`: `a` may come before `b`. */
  predicate CreatedNoLater(a: Row, b: Row) { a.createdAt <= b.createdAt }

  /** The rows the query of `get_pending_jobs` yields: the pending rows,
      oldest first, at most `limit` of them (none for 0, all for a negative
      limit). */
  function PendingQuery(rows: seq<Row>, limit: int): (q: seq<Row>)
    ensures forall r :: r in q ==> r in rows && r.status == Pending
    ensures limit >= 0 ==> |q| <= limit
    ensures Sorting.Sorted(q, CreatedNoLater)
    ensures (limit < 0 || limit >= Seqs.CountWhere(rows, IsPending)) ==>
              multiset(q) == multiset(Seqs.Filter(rows, IsPending))
    ensures 0 <= limit <= Seqs.CountWhere(rows, IsPending) ==> |q| == limit
    ensures forall x, y :: x in q && y in rows && y.status == Pending && y !in q ==>
              x.createdAt <= y.createdAt
  {
    assert Sorting.TotalPreorder(CreatedNoLater);
    PendingQueryFacts(rows, limit);
    Seqs.Limit(Sorting.Sort(Seqs.Filter(rows, IsPending), CreatedNoLater), limit)
  }

  lemma PendingQueryFacts(rows: seq<Row>, limit: int)
    requires Sorting.TotalPreorder(CreatedNoLater)
    ensures var q := Seqs.Limit(Sorting.Sort(Seqs.Filter(rows, IsPending), CreatedNoLater), limit);
      && (forall r :: r in q ==> r in rows && r.status == Pending)
      && Sorting.Sorted(q, CreatedNoLater)
      && ((limit < 0 || limit >= Seqs.CountWhere(rows, IsPending)) ==>
            multiset(q) == multiset(Seqs.Filter(rows, IsPending)))
      && (0 <= limit <= Seqs.CountWhere(rows, IsPending) ==> |q| == limit)
      && (forall x, y :: x in q && y in rows && y.status == Pending && y !in q ==>
            x.createdAt <= y.createdAt)
  {
    var pending := Seqs.Filter(rows, IsPending);
    var sorted := Sorting.Sort(pending, CreatedNoLater);
    Sorting.SameElements(sorted, pending);
    assert |sorted| == |pending| by {
      assert |multiset(sorted)| == |multiset(pending)|;
    }
    if 0 <= limit < |sorted| { Seqs.PrefixSorted(sorted, limit, CreatedNoLater); }
    OldestPendingFirst(rows, pending, sorted, limit);
  }

  /** A pending row that a limited, oldest-first fetch leaves out is no
      older than any row it returns. */
  lemma OldestPendingFirst(rows: seq<Row>, pending: seq<Row>, sorted: seq<Row>, limit: int)
    requires Sorting.Sorted(sorted, CreatedNoLater)
    requires forall x :: x in sorted <==> x in rows && x.status == Pending
    ensures forall x, y ::
              x in Seqs.Limit(sorted, limit) && y in rows && y.status == Pending && y !in Seqs.Limit(sorted, limit)
              ==> x.createdAt <= y.createdAt
  {
    var q := Seqs.Limit(sorted, limit);
    forall x, y | x in q && y in rows && y.status == Pending && y !in q
      ensures x.createdAt <= y.createdAt
    {
      assert 0 <= limit < |sorted|;
      assert sorted == q + sorted[limit..];
      assert y in sorted[limit..];
      Sorting.PrefixPrecedesRest(sorted, CreatedNoLater, limit, x, y);
    }
  }

  /** A job as `get_pending_jobs` returns it: the stored dictionary plus the
      row's id under `_local_id` and its attempt count under
      `_upload_attempts`. */
  function PendingJob(r: Row): Payload
  {
    r.jobData[LocalIdKey := Int(r.id)][AttemptsKey := Int(r.uploadAttempts)]
  }

  /** The keys of a fetched job: the queue's two keys, and every stored key
      unchanged. */
  lemma PendingJobFacts(r: Row)
    ensures var job := PendingJob(r);
      && LocalIdKey in job && job[LocalIdKey] == Int(r.id)
      && AttemptsKey in job && job[AttemptsKey] == Int(r.uploadAttempts)
      && (forall k :: k in r.jobData && k != LocalIdKey && k != AttemptsKey ==> k in job && job[k] == r.jobData[k])
      && job.Keys == r.jobData.Keys + {LocalIdKey, AttemptsKey}
  {
  }

  /** `UPDATE ... SET status = 'uploaded', uploaded_at = now WHERE id = key`. */
  function MarkUploaded(rows: seq<Row>, key: Value, now: int): (r: seq<Row>)
    ensures |r| == |rows|
    ensures forall i :: 0 <= i < |rows| && !HasKey(rows[i], key) ==> r[i] == rows[i]
    ensures forall i :: 0 <= i < |rows| && HasKey(rows[i], key) ==>
              r[i] == rows[i].(status := Uploaded, uploadedAt := Some(now))
    decreases |rows|
  {
    if |rows| == 0 then []
    else
      var head := if HasKey(rows[0], key) then rows[0].(status := Uploaded, uploadedAt := Some(now)) else rows[0];
      [head] + MarkUploaded(rows[1..], key, now)
  }

  /** `UPDATE ... SET upload_attempts = upload_attempts + 1 WHERE id = key`. */
  function AddAttempt(rows: seq<Row>, key: Value): (r: seq<Row>)
    ensures |r| == |rows|
    ensures forall i :: 0 <= i < |rows| && !HasKey(rows[i], key) ==> r[i] == rows[i]
    ensures forall i :: 0 <= i < |rows| && HasKey(rows[i], key) ==>
              r[i] == rows[i].(uploadAttempts := rows[i].uploadAttempts + 1)
    decreases |rows|
  {
    if |rows| == 0 then []
    else
      var head := if HasKey(rows[0], key) then rows[0].(uploadAttempts := rows[0].uploadAttempts + 1) else rows[0];
      [head] + AddAttempt(rows[1..], key)
  }

  /** The rows `cleanup_old_jobs` deletes. A row that was never uploaded has a
      NULL `uploaded_at`, and `NULL < cutoff` is not true. */
  predicate Expired(r: Row, cutoff: int)
  {
    r.status == Uploaded && r.uploadedAt.Some? && r.uploadedAt.value < cutoff
  }

  /** `DELETE FROM print_jobs WHERE status = 'uploaded' AND uploaded_at < cutoff`. */
  function Cleanup(rows: seq<Row>, cutoff: int): (r: seq<Row>)
    ensures forall x :: x in r <==> x in rows && !Expired(x, cutoff)
    ensures forall x :: x in rows && x.status != Uploaded ==> x in r
    ensures DistinctIds(rows) ==> DistinctIds(r)
  {
    var r := Seqs.Filter(rows, (x: Row) => !Expired(x, cutoff));
    FilterKeepsDistinctIds(rows, (x: Row) => !Expired(x, cutoff));
    r
  }

  /** A failed row that `retry_failed_jobs` puts back in the queue. */
  predicate Retryable(r: Row, maxAttempts: int)
  {
    r.status == Failed && r.uploadAttempts < maxAttempts
  }

  /** `UPDATE ... SET status = 'pending' WHERE status = 'failed' AND upload_attempts < max`. */
  function RetryFailed(rows: seq<Row>, maxAttempts: int): (r: seq<Row>)
    ensures |r| == |rows|
    ensures forall i :: 0 <= i < |rows| && !Retryable(rows[i], maxAttempts) ==> r[i] == rows[i]
    ensures forall i :: 0 <= i < |rows| && Retryable(rows[i], maxAttempts) ==>
              r[i] == rows[i].(status := Pending)
    decreases |rows|
  {
    if |rows| == 0 then []
    else
      var head := if Retryable(rows[0], maxAttempts) then rows[0].(status := Pending) else rows[0];
      [head] + RetryFailed(rows[1..], maxAttempts)
  }

  /** `DELETE FROM print_jobs WHERE upload_attempts >= max`, whatever the status. */
  function Purge(rows: seq<Row>, maxAttempts: int): (r: seq<Row>)
    ensures forall x :: x in r <==> x in rows && x.uploadAttempts < maxAttempts
    ensures DistinctIds(rows) ==> DistinctIds(r)
  {
    var r := Seqs.Filter(rows, (x: Row) => x.uploadAttempts < maxAttempts);
    FilterKeepsDistinctIds(rows, (x: Row) => x.uploadAttempts < maxAttempts);
    r
  }

  predicate DifferentIds(a: Row, b: Row) { a.id != b.id }

  lemma FilterKeepsDistinctIds(rows: seq<Row>, p: Row -> bool)
    ensures DistinctIds(rows) ==> DistinctIds(Seqs.Filter(rows, p))
  {
    if !DistinctIds(rows) { return; }
    assert Sorting.Sorted(rows, DifferentIds);
    Seqs.FilterSorted(rows, p, DifferentIds);
    var r := Seqs.Filter(rows, p);
    assert Sorting.Sorted(r, DifferentIds);
    forall i, j | 0 <= i < j < |r| ensures r[i].id != r[j].id {
      assert DifferentIds(r[i], r[j]);
    }
  }

  /** The number of rows with status `st`, counted from the end so that a
      scan over growing prefixes can extend it. */
  function Count(rows: seq<Row>, st: Status): nat
    decreases |rows|
  {
    if |rows| == 0 then 0
    else Count(rows[..|rows| - 1], st) + (if rows[|rows| - 1].status == st then 1 else 0)
  }

  /** Every row has exactly one of the three statuses. */
  lemma {:induction false} CountsSumToTotal(rows: seq<Row>)
    ensures Count(rows, Pending) + Count(rows, Uploaded) + Count(rows, Failed) == |rows|
    decreases |rows|
  {
    if |rows| > 0 { CountsSumToTotal(rows[..|rows| - 1]); }
  }

  /** What `get_statistics` returns: one entry per status that occurs (the
      `GROUP BY status` rows), then `total`. */
  function Statistics(rows: seq<Row>): (m: map<string, int>)
    ensures "total" in m && m["total"] == |rows|
    ensures forall st :: StatusName(st) in m <==> Count(rows, st) > 0
    ensures forall st :: StatusName(st) in m ==> m[StatusName(st)] == Count(rows, st)
    ensures m.Keys <= {"total", "pending", "uploaded", "failed"}
    ensures GetCount(m, "pending", 0) + GetCount(m, "uploaded", 0) + GetCount(m, "failed", 0) == m["total"]
  {
    CountsSumToTotal(rows);
    var m0: map<string, int> := map[];
    var m1 := if Count(rows, Pending) > 0 then m0["pending" := Count(rows, Pending)] else m0;
    var m2 := if Count(rows, Uploaded) > 0 then m1["uploaded" := Count(rows, Uploaded)] else m1;
    var m3 := if Count(rows, Failed) > 0 then m2["failed" := Count(rows, Failed)] else m2;
    m3["total" := |rows|]
  }

  /** `dict.get` on the statistics map. */
  function GetCount(m: map<string, int>, k: string, default: int): int
  {
    if k in m then m[k] else default
  }

  /** The local SQLite database of the agent. */
  class Store {
    var rows: seq<Row>
    /** The next fresh id; stands for uuid4. */
    var nextId: JobId

    ghost predicate Valid()
      reads this
    {
      && (forall i :: 0 <= i < |rows| ==> rows[i].id < nextId)
      && DistinctIds(rows)
    }

    /** `init_database` on a new file: an empty table. */
    constructor ()
      ensures Valid() && rows == []
    {
      rows := [];
      nextId := 0;
    }

    /** `store_print_job`: one new pending row with a fresh id and no attempts;
        the rows already there are unchanged. */
    method StorePrintJob(jobData: Payload, now: int) returns (id: JobId)
      requires Valid()
      modifies this
      ensures Valid()
      ensures id !in IdsOf(old(rows))
      ensures rows == old(rows) + [NewRow(id, jobData, now)]
    {
      id := nextId;
      rows := rows + [NewRow(id, jobData, now)];
      nextId := nextId + 1;
    }

    /** `get_pending_jobs`: builds the job list from the query's rows. */
    method GetPendingJobs(limit: int := DefaultPendingLimit) returns (jobs: seq<Payload>)
      ensures |jobs| == |PendingQuery(rows, limit)|
      ensures forall i :: 0 <= i < |jobs| ==> jobs[i] == PendingJob(PendingQuery(rows, limit)[i])
    {
      var cursor := PendingQuery(rows, limit);
      jobs := [];
      var i := 0;
      while i < |cursor|
        invariant 0 <= i <= |cursor|
        invariant |jobs| == i
        invariant forall k :: 0 <= k < i ==> jobs[k] == PendingJob(cursor[k])
      {
        jobs := jobs + [PendingJob(cursor[i])];
        i := i + 1;
      }
    }

    /** `mark_as_uploaded`. */
    method MarkAsUploaded(key: Value, now: int)
      requires Valid()
      modifies this
      ensures Valid() && nextId == old(nextId)
      ensures rows == MarkUploaded(old(rows), key, now)
    {
      rows := MarkUploaded(rows, key, now);
    }

    /** `mark_upload_failed`: one more attempt; the status stays as it was. */
    method MarkUploadFailed(key: Value)
      requires Valid()
      modifies this
      ensures Valid() && nextId == old(nextId)
      ensures rows == AddAttempt(old(rows), key)
    {
      rows := AddAttempt(rows, key);
    }

    /** `cleanup_old_jobs`: the cutoff is `days` days before `now`. */
    method CleanupOldJobs(now: int, days: int := DefaultRetentionDays)
      requires Valid()
      modifies this
      ensures Valid() && nextId == old(nextId)
      ensures rows == Cleanup(old(rows), now - days * SecondsPerDay)
    {
      var kept := Cleanup(rows, now - days * SecondsPerDay);
      forall i | 0 <= i < |kept| ensures kept[i].id < nextId {
        assert kept[i] in rows;
      }
      rows := kept;
    }

    /** `get_statistics`: counts the rows per status in one scan. */
    method GetStatistics() returns (stats: map<string, int>)
      ensures stats == Statistics(rows)
    {
      var pending, uploaded, failed := 0, 0, 0;
      var i := 0;
      while i < |rows|
        invariant 0 <= i <= |rows|
        invariant pending == Count(rows[..i], Pending)
        invariant uploaded == Count(rows[..i], Uploaded)
        invariant failed == Count(rows[..i], Failed)
      {
        assert rows[..i + 1][..i] == rows[..i];
        match rows[i].status {
          case Pending => pending := pending + 1;
          case Uploaded => uploaded := uploaded + 1;
          case Failed => failed := failed + 1;
        }
        i := i + 1;
      }
      assert rows[..i] == rows;
      stats := map[];
      if pending > 0 { stats := stats["pending" := pending]; }
      if uploaded > 0 { stats := stats["uploaded" := uploaded]; }
      if failed > 0 { stats := stats["failed" := failed]; }
      stats := stats["total" := |rows|];
    }

    /** `retry_failed_jobs`. */
    method RetryFailedJobs(maxAttempts: int := DefaultMaxAttempts)
      requires Valid()
      modifies this
      ensures Valid() && nextId == old(nextId)
      ensures rows == RetryFailed(old(rows), maxAttempts)
    {
      rows := RetryFailed(rows, maxAttempts);
    }

    /** `purge_failed_jobs`. */
    method PurgeFailedJobs(maxAttempts: int := DefaultMaxAttempts)
      requires Valid()
      modifies this
      ensures Valid() && nextId == old(nextId)
      ensures rows == Purge(old(rows), maxAttempts)
    {
      var kept := Purge(rows, maxAttempts);
      forall i | 0 <= i < |kept| ensures kept[i].id < nextId {
        assert kept[i] in rows;
      }
      rows := kept;
    }
  }
}

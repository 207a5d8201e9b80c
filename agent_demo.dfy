/** The agent's driver (agent/demo.py): registration with the portal, the
    submission of new jobs with the offline queue as fallback, and the drain
    that uploads what the queue holds.  Each call to the portal is an oracle:
    the health check is a boolean, the registration reply a JSON value, and
    the job submissions a sequence of booleans in call order, a missing entry
    counting as a failed submission. */
module AgentDemo {
  import opened Common
  import opened LocalStorage
  import ConfigManager

  /** The printers `get_demo_printers` reports. */
  const DemoPrinters: seq<Value> :=
    [Str("Microsoft Print to PDF"), Str("HP LaserJet Pro M404n"), Str("Canon PIXMA TS3100")]

  /** The outcome of the `k`-th job submission. */
  function Reply(replies: seq<bool>, k: nat): bool
  {
    k < |replies| && replies[k]
  }

  /** The `job` as submitted: the two keys the queue adds are popped. */
  function Unqueued(job: Payload): (p: Payload)
    ensures p.Keys == job.Keys - {LocalIdKey, AttemptsKey}
    ensures forall k :: k in p ==> p[k] == job[k]
  {
    job - {LocalIdKey, AttemptsKey}
  }

  /** A queued job reaches the portal as it was stored, less the queue's own
      keys: they never leak into a submission. */
  lemma UnqueuedPendingJob(r: Row)
    ensures Unqueued(PendingJob(r)) == r.jobData - {LocalIdKey, AttemptsKey}
    ensures LocalIdKey !in Unqueued(PendingJob(r)) && AttemptsKey !in Unqueued(PendingJob(r))
  {
    PendingJobFacts(r);
    assert Unqueued(PendingJob(r)).Keys == (r.jobData - {LocalIdKey, AttemptsKey}).Keys;
  }

  /** A job whose upload log line can be written: it has a `document_name`. */
  predicate Named(r: Row)
  {
    "document_name" in r.jobData
  }

  /** How many queued jobs the drain handles: all of them, or up to and
      including the first one without `document_name`, whose log line raises
      `KeyError` after the job has been submitted and marked. */
  function Processed(q: seq<Row>): (n: nat)
    ensures n <= |q|
    decreases |q|
  {
    if |q| == 0 then 0
    else if !Named(q[0]) then 1
    else 1 + Processed(q[1..])
  }

  lemma {:induction false} ProcessedAllNamed(q: seq<Row>)
    requires forall k :: 0 <= k < |q| ==> Named(q[k])
    ensures Processed(q) == |q|
    decreases |q|
  {
    if |q| > 0 {
      ProcessedAllNamed(q[1..]);
    }
  }

  lemma {:induction false} ProcessedFirstUnnamed(q: seq<Row>, i: nat)
    requires i < |q| && !Named(q[i])
    requires forall k :: 0 <= k < i ==> Named(q[k])
    ensures Processed(q) == i + 1
    decreases i
  {
    if i > 0 {
      ProcessedFirstUnnamed(q[1..], i - 1);
    }
  }

  /** The jobs the drain hands to the portal, in queue order. */
  function Submissions(q: seq<Row>): (s: seq<Payload>)
    ensures |s| == |q|
  {
    seq(|q|, k requires 0 <= k < |q| => Unqueued(PendingJob(q[k])))
  }

  /** Each submission is the stored payload of its row, in queue order. */
  lemma SubmissionsAre(q: seq<Row>)
    ensures forall k :: 0 <= k < |q| ==> Submissions(q)[k] == q[k].jobData - {LocalIdKey, AttemptsKey}
  {
    forall k | 0 <= k < |q| ensures Submissions(q)[k] == q[k].jobData - {LocalIdKey, AttemptsKey} {
      UnqueuedPendingJob(q[k]);
    }
  }

  /** What one upload does to its row: uploaded at `now`, or one more
      attempt with the status left as it was. */
  function Outcome(r: Row, ok: bool, now: int): (o: Row)
    ensures o.id == r.id && o.jobData == r.jobData && o.createdAt == r.createdAt
    ensures ok ==> o.status == Uploaded && o.uploadedAt == Some(now) && o.uploadAttempts == r.uploadAttempts
    ensures !ok ==> o.status == r.status && o.uploadedAt == r.uploadedAt && o.uploadAttempts == r.uploadAttempts + 1
  {
    if ok then r.(status := Uploaded, uploadedAt := Some(now))
    else r.(uploadAttempts := r.uploadAttempts + 1)
  }

  /** The table after the drain has handled the jobs `q`, in order. */
  function Drain(rows: seq<Row>, q: seq<Row>, replies: seq<bool>, now: int): (r: seq<Row>)
    ensures |r| == |rows|
    decreases |q|
  {
    if |q| == 0 then rows
    else
      var prev := Drain(rows, q[..|q| - 1], replies, now);
      var key := Int(q[|q| - 1].id);
      if Reply(replies, |q| - 1) then MarkUploaded(prev, key, now) else AddAttempt(prev, key)
  }

  /** The effect of a drain row by row: a row that was not handled is
      unchanged, and a handled row has exactly its own upload's outcome. */
  lemma {:induction false} DrainEffect(rows: seq<Row>, q: seq<Row>, replies: seq<bool>, now: int, i: nat)
    requires DistinctIds(q)
    requires i < |rows|
    ensures (forall k :: 0 <= k < |q| ==> q[k].id != rows[i].id) ==>
              Drain(rows, q, replies, now)[i] == rows[i]
    ensures forall k :: 0 <= k < |q| && q[k].id == rows[i].id ==>
              Drain(rows, q, replies, now)[i] == Outcome(rows[i], Reply(replies, k), now)
    decreases |q|
  {
    if |q| > 0 {
      var init := q[..|q| - 1];
      var n := |q| - 1;
      assert DistinctIds(init) by {
        forall a, b | 0 <= a < b < |init| ensures init[a].id != init[b].id {
          assert init[a] == q[a] && init[b] == q[b];
        }
      }
      DrainEffect(rows, init, replies, now, i);
      forall k | 0 <= k < n ensures init[k] == q[k] { }
      if q[n].id == rows[i].id {
        assert forall k :: 0 <= k < n ==> init[k].id != rows[i].id;
      }
    }
  }

  /** The drain after one more job. */
  lemma DrainNext(rows: seq<Row>, q: seq<Row>, replies: seq<bool>, now: int, i: nat)
    requires i < |q|
    ensures Drain(rows, q[..i + 1], replies, now) ==
      if Reply(replies, i) then MarkUploaded(Drain(rows, q[..i], replies, now), Int(q[i].id), now)
      else AddAttempt(Drain(rows, q[..i], replies, now), Int(q[i].id))
  {
    assert q[..i + 1][..i] == q[..i];
  }

  lemma SubmissionsNext(q: seq<Row>, i: nat)
    requires i < |q|
    ensures Submissions(q[..i + 1]) == Submissions(q[..i]) + [Unqueued(PendingJob(q[i]))]
  {
    UnqueuedPendingJob(q[i]);
  }

  /** What the drain reads from one fetched job. */
  lemma UploadStep(r: Row, job: Payload)
    requires job == PendingJob(r)
    ensures LocalIdKey in job && job[LocalIdKey] == Int(r.id)
    ensures ("document_name" in Unqueued(job)) == Named(r)
  {
    PendingJobFacts(r);
  }

  /** Rows with distinct ids have distinct elements in any reordering. */
  lemma SameMultisetKeepsDistinctIds(a: seq<Row>, b: seq<Row>)
    requires multiset(a) == multiset(b)
    requires DistinctIds(a)
    ensures DistinctIds(b)
  {
    forall i, j | 0 <= i < j < |b| ensures b[i].id != b[j].id {
      assert b[i] in multiset(a) && b[j] in multiset(a);
      var i' :| 0 <= i' < |a| && a[i'] == b[i];
      var j' :| 0 <= j' < |a| && a[j'] == b[j];
      if b[i] == b[j] {
        assert b == b[..j] + b[j..];
        assert b[i] in b[..j] && b[j] in b[j..];
        assert multiset(b)[b[i]] == multiset(b[..j])[b[i]] + multiset(b[j..])[b[i]];
        AtMostOnce(a, b[i]);
      } else {
        assert i' != j';
      }
    }
  }

  /** In a table with distinct ids no row occurs twice. */
  lemma {:induction false} AtMostOnce(a: seq<Row>, x: Row)
    requires DistinctIds(a)
    ensures multiset(a)[x] <= 1
    decreases |a|
  {
    if |a| > 0 {
      assert a == [a[0]] + a[1..];
      assert DistinctIds(a[1..]) by {
        forall p, q | 0 <= p < q < |a[1..]| ensures a[1..][p].id != a[1..][q].id {
          assert a[1..][p] == a[p + 1] && a[1..][q] == a[q + 1];
        }
      }
      AtMostOnce(a[1..], x);
    }
  }

  /** The queue hands out each stored row at most once per fetch. */
  lemma PendingQueryDistinct(rows: seq<Row>, limit: int)
    requires DistinctIds(rows)
    ensures DistinctIds(PendingQuery(rows, limit))
  {
    assert Sorting.TotalPreorder(CreatedNoLater);
    var pending := Seqs.Filter(rows, IsPending);
    FilterKeepsDistinctIds(rows, IsPending);
    var sorted := Sorting.Sort(pending, CreatedNoLater);
    SameMultisetKeepsDistinctIds(pending, sorted);
    var q := PendingQuery(rows, limit);
    assert q == Seqs.Limit(sorted, limit);
    forall a, b | 0 <= a < b < |q| ensures q[a].id != q[b].id {
      assert q[a] == sorted[a] && q[b] == sorted[b];
    }
  }

  /** The body `register_with_portal` sends: the host facts of `info`, the
      site and company from the configuration `c`, and the demo printers. */
  function RegistrationBody(c: ConfigManager.Config, info: ConfigManager.SystemInfo, localIp: string): (body: Payload)
    ensures body.Keys == {"pc_name", "pc_ip", "username", "site_id", "company_name", "agent_version",
                          "os_version", "installed_printers"}
    ensures body["site_id"] == Get(c, "site_id", Null) && body["company_name"] == Get(c, "company_name", Null)
    ensures body["pc_ip"] == Str(localIp)
    ensures body["pc_name"] == info.pcName && body["username"] == info.username
    ensures body["agent_version"] == info.agentVersion && body["os_version"] == Str(info.osVersion)
    ensures body["installed_printers"] == Arr(DemoPrinters)
  {
    map[
      "pc_name" := info.pcName,
      "pc_ip" := Str(localIp),
      "username" := info.username,
      "site_id" := Get(c, "site_id", Null),
      "company_name" := Get(c, "company_name", Null),
      "agent_version" := info.agentVersion,
      "os_version" := Str(info.osVersion),
      "installed_printers" := Arr(DemoPrinters)
    ]
  }

  /** `APIClient`: the base URL without trailing slashes and the key it
      sends. */
  datatype ApiClient = ApiClient(baseUrl: string, apiKey: Value)

  /** `s.rstrip('/')`. */
  function StripTrailingSlashes(s: string): (r: string)
    ensures |r| <= |s| && s[..|r|] == r
    ensures r == [] || r[|r| - 1] != '/'
    ensures forall k :: |r| <= k < |s| ==> s[k] == '/'
    decreases |s|
  {
    if |s| > 0 && s[|s| - 1] == '/' then StripTrailingSlashes(s[..|s| - 1]) else s
  }

  /** The registration outcome the driver accepts: an object whose `status`
      is `"success"`. */
  predicate Accepted(reply: Value)
  {
    reply.Obj? && PyEq(Get(reply.fields, "status", Null), Str("success"))
  }

  /** The jobs of `jobs` whose submission failed, in order: the ones cached. */
  function FailedJobs(jobs: seq<Payload>, replies: seq<bool>): (r: seq<Payload>)
    ensures |r| <= |jobs|
    decreases |jobs|
  {
    if |jobs| == 0 then []
    else FailedJobs(jobs[..|jobs| - 1], replies)
         + (if Reply(replies, |jobs| - 1) then [] else [jobs[|jobs| - 1]])
  }

  /** The number of successful submissions among the first `n`. */
  function Successes(replies: seq<bool>, n: nat): (c: nat)
    ensures c <= n
  {
    if n == 0 then 0 else Successes(replies, n - 1) + (if Reply(replies, n - 1) then 1 else 0)
  }

  /** Every job is either submitted or cached, never both and never neither. */
  lemma {:induction false} SubmittedPlusCached(jobs: seq<Payload>, replies: seq<bool>)
    ensures Successes(replies, |jobs|) + |FailedJobs(jobs, replies)| == |jobs|
    decreases |jobs|
  {
    if |jobs| > 0 {
      var init := jobs[..|jobs| - 1];
      SubmittedPlusCached(init, replies);
    }
  }

  /** The table `rows` is `start` followed by a new pending row, created at
      `now`, for each of `cachedJobs` in order. */
  ghost predicate CachedRows(start: seq<Row>, rows: seq<Row>, cachedJobs: seq<Payload>, now: int)
  {
    && |rows| == |start| + |cachedJobs|
    && rows[..|start|] == start
    && forall k :: |start| <= k < |rows| ==>
         && rows[k].jobData == cachedJobs[k - |start|]
         && rows[k].status == Pending && rows[k].uploadAttempts == 0
         && rows[k].createdAt == now && rows[k].id !in IdsOf(start)
  }

  /** Storing one more job with a fresh id caches it after the others. */
  lemma CachedRowsAppend(start: seq<Row>, rows: seq<Row>, cachedJobs: seq<Payload>, now: int, id: JobId, job: Payload)
    requires CachedRows(start, rows, cachedJobs, now)
    requires id !in IdsOf(rows)
    ensures CachedRows(start, rows + [NewRow(id, job, now)], cachedJobs + [job], now)
  {
    var t := rows + [NewRow(id, job, now)];
    assert t[..|start|] == rows[..|start|];
    forall x | x in IdsOf(start) ensures x in IdsOf(rows) {
      var m :| 0 <= m < |start| && start[m].id == x;
      assert rows[m] == start[m];
    }
  }

  class Demo {
    var config: ConfigManager.ConfigManager
    var storage: Store
    var apiClient: Option<ApiClient>
    var agentId: Value

    /** `__init__`: configuration from `config.json`, an empty queue, no
        client and no agent id. */
    constructor (onDisk: ConfigManager.ConfigFile, canWrite: bool)
      ensures storage.Valid() && storage.rows == []
      ensures config.config == ConfigManager.Overlay(ConfigManager.DefaultConfig(), onDisk)
      ensures apiClient == None && agentId == Null
    {
      config := new ConfigManager.ConfigManager(onDisk, canWrite);
      storage := new Store();
      apiClient := None;
      agentId := Null;
    }

    /** `register_with_portal`.  The client is created (from `api_url`)
        before the health check; without a connection nothing is sent.  The
        config's `api_key` is set and saved only when the accepted reply
        carries a truthy key.  `sent` is the registration body, if one was
        sent. */
    method RegisterWithPortal(hostname: Option<string>, loginUser: Option<string>, osVersion: Option<string>,
                              pythonVersion: Option<string>, localIp: string, connected: bool, reply: Value)
      returns (ok: bool, sent: Option<Payload>)
      modifies this, config
      ensures config.writable == old(config.writable)
      ensures storage == old(storage)
      ensures ok <==> old(config.GetValue("api_url")).Str? && connected && Accepted(reply)
      ensures old(config.GetValue("api_url")).Str? ==>
                apiClient.Some? && apiClient.value.baseUrl == StripTrailingSlashes(old(config.GetValue("api_url")).s)
      ensures !old(config.GetValue("api_url")).Str? ==> apiClient == old(apiClient)
      ensures sent.Some? <==> old(config.GetValue("api_url")).Str? && connected
      ensures sent.Some? ==>
                sent.value == RegistrationBody(old(config.config),
                  ConfigManager.SystemInfoOf(old(config.config), hostname, loginUser, osVersion, pythonVersion), localIp)
      ensures ok ==> agentId == Get(reply.fields, "agent_id", Null)
      ensures !ok ==> agentId == old(agentId)
      ensures old(config.GetValue("api_url")).Str? ==>
                apiClient.value.apiKey == (if connected && reply.Obj? && "api_key" in reply.fields then reply.fields["api_key"] else Null)
      ensures ok && Truthy(Get(reply.fields, "api_key", Null)) ==>
                config.config == old(config.config)["api_key" := reply.fields["api_key"]]
                && config.file == (if config.writable then ConfigManager.Json(config.config) else old(config.file))
                && apiClient.value.apiKey == reply.fields["api_key"]
      ensures !(ok && Truthy(Get(reply.fields, "api_key", Null))) ==>
                config.config == old(config.config) && config.file == old(config.file)
    {
      var info := ConfigManager.SystemInfoOf(config.config, hostname, loginUser, osVersion, pythonVersion);
      var registration := RegistrationBody(config.config, info, localIp);
      sent := None;
      var url := config.GetValue("api_url");
      if !url.Str? {
        // `rstrip` on a non-string raises; the handler returns False.
        return false, None;
      }
      var client := ApiClient(StripTrailingSlashes(url.s), Null);
      apiClient := Some(client);
      if !connected {
        return false, None;
      }
      sent := Some(registration);
      if reply.Obj? && "api_key" in reply.fields {
        // `register_agent` adopts any key the reply carries.
        client := client.(apiKey := reply.fields["api_key"]);
        apiClient := Some(client);
      }
      if !Truthy(reply) || !reply.Obj? || !PyEq(Get(reply.fields, "status", Null), Str("success")) {
        return false, sent;
      }
      agentId := Get(reply.fields, "agent_id", Null);
      var key := Get(reply.fields, "api_key", Null);
      if Truthy(key) {
        config.Set("api_key", key);
        config.SaveConfig();
        apiClient := Some(client.(apiKey := key));
      }
      return true, sent;
    }

    /** `submit_demo_jobs` over the generated `jobs`: each one is submitted;
        a failed one is stored in the queue at `now` instead. */
    method SubmitDemoJobs(jobs: seq<Payload>, replies: seq<bool>, now: int)
      returns (submitted: nat, cached: nat)
      requires storage.Valid()
      modifies storage
      ensures storage.Valid()
      ensures apiClient.None? ==> submitted == 0 && cached == 0 && storage.rows == old(storage.rows)
      ensures apiClient.Some? ==> submitted == Successes(replies, |jobs|) && cached == |FailedJobs(jobs, replies)|
      ensures apiClient.Some? ==> submitted + cached == |jobs|
      ensures |storage.rows| == |old(storage.rows)| + cached
      ensures storage.rows[..|old(storage.rows)|] == old(storage.rows)
      ensures apiClient.Some? ==> forall k :: |old(storage.rows)| <= k < |storage.rows| ==>
                && storage.rows[k].jobData == FailedJobs(jobs, replies)[k - |old(storage.rows)|]
                && storage.rows[k].status == Pending && storage.rows[k].uploadAttempts == 0
                && storage.rows[k].createdAt == now && storage.rows[k].id !in IdsOf(old(storage.rows))
    {
      submitted, cached := 0, 0;
      if apiClient.None? {
        return;
      }
      ghost var start := storage.rows;
      var i := 0;
      while i < |jobs|
        invariant 0 <= i <= |jobs|
        invariant storage.Valid()
        invariant submitted == Successes(replies, i) && cached == |FailedJobs(jobs[..i], replies)|
        invariant CachedRows(start, storage.rows, FailedJobs(jobs[..i], replies), now)
      {
        assert jobs[..i + 1][..i] == jobs[..i];
        ghost var before := storage.rows;
        if i < |replies| && replies[i] {
          submitted := submitted + 1;
        } else {
          assert FailedJobs(jobs[..i + 1], replies) == FailedJobs(jobs[..i], replies) + [jobs[i]];
          var id := storage.StorePrintJob(jobs[i], now);
          CachedRowsAppend(start, before, FailedJobs(jobs[..i], replies), now, id, jobs[i]);
          cached := cached + 1;
        }
        i := i + 1;
      }
      assert jobs[..i] == jobs;
      SubmittedPlusCached(jobs, replies);
    }

    /** `upload_cached_jobs`: without a client nothing happens; otherwise the
        oldest pending jobs (at most 100) are submitted in order, each one
        marked uploaded at `now` or given one more attempt.  `sent` is the
        list of submitted jobs.  `raised` tells whether the drain ended with
        the `KeyError` of a job without `document_name`, which nothing in
        `upload_cached_jobs` catches, so it reaches the caller. */
    method UploadCachedJobs(replies: seq<bool>, now: int) returns (sent: seq<Payload>, raised: bool)
      requires storage.Valid()
      modifies storage
      ensures storage.Valid()
      ensures apiClient.None? ==> sent == [] && !raised && storage.rows == old(storage.rows)
      ensures apiClient.Some? ==>
                var q := PendingQuery(old(storage.rows), DefaultPendingLimit);
                sent == Submissions(q[..Processed(q)])
                && storage.rows == Drain(old(storage.rows), q[..Processed(q)], replies, now)
                && (raised <==> exists k :: 0 <= k < |q| && !Named(q[k]))
                && (raised ==> Processed(q) >= 1 && !Named(q[Processed(q) - 1]))
    {
      sent, raised := [], false;
      if apiClient.None? {
        return;
      }
      var jobs := storage.GetPendingJobs();
      ghost var q := PendingQuery(storage.rows, DefaultPendingLimit);
      if |jobs| == 0 {
        assert q[..Processed(q)] == [];
        return;
      }
      sent, raised := UploadJobs(jobs, q, replies, now);
    }

    /** One job of the drain, the `i`-th of the fetched rows `q`: it loses
        the queue's keys, is submitted, and its row is marked; `named` tells
        whether its log line can be written. */
    method UploadJob(job: Payload, ghost start: seq<Row>, ghost q: seq<Row>, i: nat, replies: seq<bool>, now: int,
                     sent: seq<Payload>)
      returns (sent': seq<Payload>, named: bool)
      requires storage.Valid()
      requires i < |q| && job == PendingJob(q[i])
      requires sent == Submissions(q[..i]) && storage.rows == Drain(start, q[..i], replies, now)
      modifies storage
      ensures storage.Valid()
      ensures sent' == Submissions(q[..i + 1]) && storage.rows == Drain(start, q[..i + 1], replies, now)
      ensures named == Named(q[i])
    {
      DrainNext(start, q, replies, now, i);
      SubmissionsNext(q, i);
      var id := job[LocalIdKey];
      var submitted := Unqueued(job);
      UploadStep(q[i], job);
      if i < |replies| && replies[i] {
        storage.MarkAsUploaded(id, now);
      } else {
        storage.MarkUploadFailed(id);
      }
      sent' := sent + [submitted];
      named := "document_name" in submitted;
    }

    /** The loop of `upload_cached_jobs` over the fetched `jobs`, which are
        the rows `q` as `get_pending_jobs` returns them.  `raised` is the
        `KeyError` of the first job without `document_name`, which ends the
        loop after that job has been submitted and marked. */
    method UploadJobs(jobs: seq<Payload>, ghost q: seq<Row>, replies: seq<bool>, now: int)
      returns (sent: seq<Payload>, raised: bool)
      requires storage.Valid()
      requires |jobs| == |q|
      requires forall k :: 0 <= k < |q| ==> jobs[k] == PendingJob(q[k])
      modifies storage
      ensures storage.Valid()
      ensures sent == Submissions(q[..Processed(q)])
      ensures storage.rows == Drain(old(storage.rows), q[..Processed(q)], replies, now)
      ensures raised <==> exists k :: 0 <= k < |q| && !Named(q[k])
      ensures raised ==> Processed(q) >= 1 && !Named(q[Processed(q) - 1])
    {
      ghost var start := storage.rows;
      sent, raised := [], false;
      var i := 0;
      while i < |jobs|
        invariant 0 <= i <= |jobs|
        invariant storage.Valid()
        invariant forall k :: 0 <= k < i ==> Named(q[k])
        invariant sent == Submissions(q[..i])
        invariant storage.rows == Drain(start, q[..i], replies, now)
      {
        var named;
        sent, named := UploadJob(jobs[i], start, q, i, replies, now, sent);
        if !named {
          // The log line's `job['document_name']` raises and ends the drain.
          ProcessedFirstUnnamed(q, i);
          raised := true;
          return;
        }
        i := i + 1;
      }
      ProcessedAllNamed(q);
      assert q[..i] == q;
    }
  }
}

/** The print job service (backend/app/services/print_job_service.py): job
    ingestion with get-or-create of the company, site, user and printer it
    names, batch ingestion, the filtered and paginated job listing, deletion
    and the aggregate statistics.  The session is a `Database.Session`; the
    clock is the parameter `now`. */
module PrintJobService {
  import opened Common
  import opened Models
  import opened Database
  import opened PrintJobSchemas
  import Text
  import Like
  import Seqs
  import Sorting

  // Adding one row, with the next id.

  function WithCompany(db: Db, c: Company): Db
  {
    db.(companies := db.companies + [c], nextId := db.nextId + 1)
  }

  function WithSite(db: Db, s: Site): Db
  {
    db.(sites := db.sites + [s], nextId := db.nextId + 1)
  }

  function WithUser(db: Db, u: User): Db
  {
    db.(users := db.users + [u], nextId := db.nextId + 1)
  }

  function WithPrinter(db: Db, p: Printer): Db
  {
    db.(printers := db.printers + [p], nextId := db.nextId + 1)
  }

  function WithJob(db: Db, j: PrintJob): Db
  {
    db.(jobs := db.jobs + [j], nextId := db.nextId + 1)
  }

  // The lookups of the service, each the `.first()` of its query.

  function CompanyNamed(cs: seq<Company>, name: string): Option<nat>
  {
    Seqs.FindFirst(cs, (c: Company) => c.name == name)
  }

  function SiteOfCompany(ss: seq<Site>, siteId: string, companyId: nat): Option<nat>
  {
    Seqs.FindFirst(ss, (s: Site) => s.siteId == siteId && s.companyId == companyId)
  }

  function UserOfCompany(us: seq<User>, username: string, companyId: nat): Option<nat>
  {
    Seqs.FindFirst(us, (u: User) => u.username == username && u.companyId == companyId)
  }

  function PrinterAtSite(ps: seq<Printer>, name: string, siteId: nat): Option<nat>
  {
    Seqs.FindFirst(ps, (p: Printer) => p.name == name && p.siteId == Some(siteId))
  }

  /** The domain a company created by `get_or_create_site` receives: its
      name lower-cased with the spaces removed. */
  function CompanyDomain(name: string): string
  {
    Text.Replace(Text.Lower(name), " ", "")
  }

  /** The first company named `name`, or a new one with `domain`. */
  function CompanyStep(db: Db, name: string, domain: Option<string>, now: int): (r: Result<Step<Company>, ServiceError>)
    requires ValidDb(db)
    ensures r.Err? ==> r.error == IntegrityError
    ensures r.Ok? ==> ValidDb(r.value.db) && r.value.db.jobs == db.jobs && r.value.db.nextId >= db.nextId
    ensures r.Ok? ==> r.value.value.name == name && r.value.value in r.value.db.companies
    ensures CompanyNamed(db.companies, name).Some? ==>
              r == Ok(Step(db, db.companies[CompanyNamed(db.companies, name).value]))
    ensures CompanyNamed(db.companies, name).None? ==>
              (r.Ok? <==> domain.None? || forall k :: 0 <= k < |db.companies| ==> db.companies[k].domain != domain)
    ensures CompanyNamed(db.companies, name).None? && r.Ok? ==>
              r.value.value == NewCompany(db.nextId, now, name, domain)
              && r.value.db == WithCompany(db, r.value.value)
  {
    match CompanyNamed(db.companies, name)
    case Some(i) => Ok(Step(db, db.companies[i]))
    case None =>
      var c := NewCompany(db.nextId, now, name, domain);
      AppendCompanyUnique(db.companies, c);
      Flush(WithCompany(db, c), c)
  }

  /** The first site with `site_id` under `company`, or a new one named
      "Site {site_id}". */
  function SiteUnder(db: Db, siteId: string, company: Company, now: int): (r: Result<Step<Site>, ServiceError>)
    requires ValidDb(db)
    ensures r.Err? ==> r.error == IntegrityError
    ensures r.Ok? ==> ValidDb(r.value.db) && r.value.db.jobs == db.jobs && r.value.db.nextId >= db.nextId
    ensures r.Ok? ==> r.value.value.siteId == siteId && r.value.value.companyId == company.id
                      && r.value.value in r.value.db.sites
    ensures r.Ok? ==> r.value.db.companies == db.companies
    ensures SiteOfCompany(db.sites, siteId, company.id).None? ==>
              (r.Ok? <==> forall k :: 0 <= k < |db.sites| ==> db.sites[k].siteId != siteId)
    ensures SiteOfCompany(db.sites, siteId, company.id).None? && r.Ok? ==>
              r.value.value == NewSite(db.nextId, now, siteId, "Site " + siteId, company.id)
              && r.value.db == WithSite(db, r.value.value)
    ensures SiteOfCompany(db.sites, siteId, company.id).Some? ==>
              r == Ok(Step(db, db.sites[SiteOfCompany(db.sites, siteId, company.id).value]))
  {
    match SiteOfCompany(db.sites, siteId, company.id)
    case Some(i) => Ok(Step(db, db.sites[i]))
    case None =>
      var s := NewSite(db.nextId, now, siteId, "Site " + siteId, company.id);
      AppendSiteUnique(db.sites, s);
      Flush(WithSite(db, s), s)
  }

  /** `get_or_create_site`. */
  function SiteStep(db: Db, siteId: string, companyName: string, now: int): (r: Result<Step<Site>, ServiceError>)
    requires ValidDb(db)
    ensures r.Err? ==> r.error == IntegrityError
    ensures r.Ok? ==> ValidDb(r.value.db) && r.value.db.jobs == db.jobs && r.value.db.nextId >= db.nextId
    ensures r.Ok? ==> r.value.value.siteId == siteId && r.value.value in r.value.db.sites
    ensures r.Ok? ==> exists k :: 0 <= k < |r.value.db.companies| && r.value.db.companies[k].name == companyName
                                   && r.value.db.companies[k].id == r.value.value.companyId
  {
    match CompanyStep(db, companyName, Some(CompanyDomain(companyName)), now)
    case Err(e) => Err(e)
    case Ok(Step(db1, company)) => SiteUnder(db1, siteId, company, now)
  }

  /** A site that exists under the first company of that name is returned
      and nothing is added. */
  lemma SiteStepFindsExisting(db: Db, siteId: string, companyName: string, now: int)
    requires ValidDb(db)
    requires CompanyNamed(db.companies, companyName).Some?
    requires SiteOfCompany(db.sites, siteId, db.companies[CompanyNamed(db.companies, companyName).value].id).Some?
    ensures var r := SiteStep(db, siteId, companyName, now);
      r.Ok? && r.value.db == db
  {
  }

  /** A new company gets the domain of `CompanyDomain`; a new site is named
      "Site {site_id}". */
  lemma SiteStepCreates(db: Db, siteId: string, companyName: string, now: int)
    requires ValidDb(db)
    requires CompanyNamed(db.companies, companyName).None?
    requires forall k :: 0 <= k < |db.sites| ==> db.sites[k].companyId < db.nextId
    requires SiteStep(db, siteId, companyName, now).Ok?
    ensures var st := SiteStep(db, siteId, companyName, now).value;
      && |st.db.companies| == |db.companies| + 1
      && st.db.companies[|db.companies|] == NewCompany(db.nextId, now, companyName, Some(CompanyDomain(companyName)))
      && st.value == NewSite(db.nextId + 1, now, siteId, "Site " + siteId, db.nextId)
      && st.db.sites == db.sites + [st.value]
  {
    var c := NewCompany(db.nextId, now, companyName, Some(CompanyDomain(companyName)));
    var db1 := WithCompany(db, c);
    assert CompanyStep(db, companyName, Some(CompanyDomain(companyName)), now) == Ok(Step(db1, c));
    assert SiteOfCompany(db1.sites, siteId, c.id).None? by {
      assert db1.sites == db.sites;
    }
  }

  /** Running `get_or_create_site` again on its own result finds what it
      returned and adds nothing. */
  lemma SiteStepIdempotent(db: Db, siteId: string, companyName: string, now: int, later: int)
    requires ValidDb(db)
    requires SiteStep(db, siteId, companyName, now).Ok?
    ensures var st := SiteStep(db, siteId, companyName, now).value;
      SiteStep(st.db, siteId, companyName, later) == Ok(st)
  {
    var domain := Some(CompanyDomain(companyName));
    var cst := CompanyStep(db, companyName, domain, now).value;
    var db1, company := cst.db, cst.value;
    var st := SiteStep(db, siteId, companyName, now).value;
    var p := (c: Company) => c.name == companyName;
    match CompanyNamed(db.companies, companyName)
    case Some(i) =>
      assert db1 == db;
    case None =>
      Seqs.FindFirstAppend(db.companies, company, p);
    assert CompanyNamed(db1.companies, companyName).Some?;
    assert CompanyStep(db1, companyName, domain, later) == Ok(Step(db1, company));
    var q := (s: Site) => s.siteId == siteId && s.companyId == company.id;
    match SiteOfCompany(db1.sites, siteId, company.id)
    case Some(i) =>
    case None =>
      Seqs.FindFirstAppend(db1.sites, st.value, q);
    assert st.db.companies == db1.companies;
    assert SiteOfCompany(st.db.sites, siteId, company.id).Some?;
    assert SiteUnder(st.db, siteId, company, later) == Ok(st);
  }

  /** Two names that differ only in case or spaces give one domain: a job for
      "ACME Corp" when only "Acme Corp" exists adds a company whose domain is
      taken, and fails. */
  lemma DomainClash(db: Db, siteId: string, companyName: string, now: int)
    requires ValidDb(db)
    requires CompanyNamed(db.companies, companyName).None?
    requires exists k :: 0 <= k < |db.companies| && db.companies[k].domain == Some(CompanyDomain(companyName))
    ensures SiteStep(db, siteId, companyName, now) == Err(IntegrityError)
  {
  }

  /** `sites.site_id` is unique, yet the lookup also asks for the company: a
      site id already held under another company makes the insert fail. */
  lemma SiteOfOtherCompanyClash(db: Db, siteId: string, companyName: string, now: int, k: nat)
    requires ValidDb(db)
    requires CompanyNamed(db.companies, companyName).Some?
    requires k < |db.sites| && db.sites[k].siteId == siteId
    requires db.sites[k].companyId != db.companies[CompanyNamed(db.companies, companyName).value].id
    ensures SiteStep(db, siteId, companyName, now) == Err(IntegrityError)
  {
    var c := db.companies[CompanyNamed(db.companies, companyName).value];
    assert SiteOfCompany(db.sites, siteId, c.id).None?;
  }

  /** The user row `get_or_create_user` adds. */
  function NewServiceUser(id: nat, now: int, username: string, companyId: nat): (u: User)
    ensures u.username == username && u.companyId == companyId && u.id == id
    ensures u.email == Some(username + "@company.local") && u.fullName == Some(Text.Title(username))
    ensures !u.isLdapUser && u.role == Some("user") && u.isActive == Some(true) && u.hashedPassword == None
  {
    NewUser(id, now, username, companyId).(email := Some(username + "@company.local"), fullName := Some(Text.Title(username)))
  }

  /** `get_or_create_user`. */
  function UserStep(db: Db, username: string, companyId: nat, now: int): (r: Result<Step<User>, ServiceError>)
    requires ValidDb(db)
    ensures r.Err? ==> r.error == IntegrityError
    ensures r.Ok? ==> ValidDb(r.value.db) && r.value.db.jobs == db.jobs && r.value.db.nextId >= db.nextId
    ensures r.Ok? ==> r.value.value.username == username && r.value.value.companyId == companyId
    ensures UserOfCompany(db.users, username, companyId).Some? ==>
              r == Ok(Step(db, db.users[UserOfCompany(db.users, username, companyId).value]))
    ensures UserOfCompany(db.users, username, companyId).None? && r.Ok? ==>
              r.value.value == NewServiceUser(db.nextId, now, username, companyId)
              && r.value.db == WithUser(db, r.value.value)
    ensures UserOfCompany(db.users, username, companyId).None? ==>
              (r.Ok? <==> Constraints(WithUser(db, NewServiceUser(db.nextId, now, username, companyId))))
  {
    match UserOfCompany(db.users, username, companyId)
    case Some(i) => Ok(Step(db, db.users[i]))
    case None =>
      var u := NewServiceUser(db.nextId, now, username, companyId);
      Flush(WithUser(db, u), u)
  }

  /** A username taken in another company makes `get_or_create_user` fail,
      because usernames are unique across companies. */
  lemma UsernameOfOtherCompanyClash(db: Db, username: string, companyId: nat, now: int, k: nat)
    requires ValidDb(db)
    requires k < |db.users| && db.users[k].username == username && db.users[k].companyId != companyId
    ensures UserStep(db, username, companyId, now) == Err(IntegrityError)
  {
    assert UserOfCompany(db.users, username, companyId).None?;
    var t := WithUser(db, NewServiceUser(db.nextId, now, username, companyId)).users;
    assert t[k].username == t[|db.users|].username;
  }

  /** `get_or_create_printer`: printers have no unique column, so it never
      fails. */
  function PrinterStep(db: Db, name: string, ip: Option<string>, siteId: nat, now: int): (r: Result<Step<Printer>, ServiceError>)
    requires ValidDb(db)
    ensures r.Ok?
    ensures ValidDb(r.value.db) && r.value.db.jobs == db.jobs && r.value.db.nextId >= db.nextId
    ensures r.value.value.name == name && r.value.value.siteId == Some(siteId)
    ensures PrinterAtSite(db.printers, name, siteId).Some? ==>
              r == Ok(Step(db, db.printers[PrinterAtSite(db.printers, name, siteId).value]))
    ensures PrinterAtSite(db.printers, name, siteId).None? ==>
              r.value.value == NewPrinter(db.nextId, now, name, Some(siteId)).(ipAddress := ip)
              && r.value.value.isActive
              && r.value.db == WithPrinter(db, r.value.value)
  {
    match PrinterAtSite(db.printers, name, siteId)
    case Some(i) => Ok(Step(db, db.printers[i]))
    case None =>
      var p := NewPrinter(db.nextId, now, name, Some(siteId)).(ipAddress := ip);
      Flush(WithPrinter(db, p), p)
  }

  /** The row `create_print_job` stores for `j`. */
  function JobRecord(id: nat, now: int, j: PrintJobCreate, userId: nat, printerId: nat, siteId: nat): PrintJob
  {
    PrintJob(id, now, now, j.username, j.pcName, j.printerName, j.printerIp, j.documentName,
             j.pages, j.copies, j.pages * j.copies, j.isDuplex, j.isColor, j.printTime,
             j.agentVersion, j.jobSizeBytes, Some(userId), None, Some(printerId), siteId)
  }

  /** A stored job carries the request's fields and `total_pages = pages ×
      copies`. */
  predicate Records(row: PrintJob, j: PrintJobCreate)
  {
    && row.username == j.username && row.pcName == j.pcName && row.printerName == j.printerName
    && row.printerIp == j.printerIp && row.documentName == j.documentName
    && row.pages == j.pages && row.copies == j.copies && row.totalPages == j.pages * j.copies
    && row.isDuplex == j.isDuplex && row.isColor == j.isColor && row.printTime == j.printTime
    && row.agentVersion == j.agentVersion && row.jobSizeBytes == j.jobSizeBytes
    && row.userId.Some? && row.printerId.Some? && row.agentId.None?
  }

  /** What `create_print_job` adds to the open transaction. */
  function CreateStep(db: Db, j: PrintJobCreate, now: int): (r: Result<Step<PrintJob>, ServiceError>)
    requires ValidDb(db)
    ensures r.Err? ==> r.error == IntegrityError
    ensures r.Ok? ==> ValidDb(r.value.db) && r.value.db.jobs == db.jobs + [r.value.value]
    ensures r.Ok? ==> Records(r.value.value, j) && r.value.value.createdAt == now
    ensures r.Ok? ==> r.value.value.id >= db.nextId
    ensures r.Ok? ==> exists k :: 0 <= k < |r.value.db.sites| && r.value.db.sites[k].id == r.value.value.siteId
                                   && r.value.db.sites[k].siteId == j.siteId
  {
    match SiteStep(db, j.siteId, j.companyName, now)
    case Err(e) => Err(e)
    case Ok(Step(db1, site)) =>
      match UserStep(db1, j.username, site.companyId, now)
      case Err(e) => Err(e)
      case Ok(Step(db2, user)) =>
        assert site in db2.sites;
        AddJob(db2, j, user.id, site, now)
  }

  /** The printer lookup and the job row of `create_print_job`, once the
      site and the user are known. */
  function AddJob(db: Db, j: PrintJobCreate, userId: nat, site: Site, now: int): (r: Result<Step<PrintJob>, ServiceError>)
    requires ValidDb(db) && site in db.sites
    ensures r.Err? ==> r.error == IntegrityError
    ensures r.Ok? ==> ValidDb(r.value.db) && r.value.db.jobs == db.jobs + [r.value.value]
    ensures r.Ok? ==> Records(r.value.value, j) && r.value.value.createdAt == now
    ensures r.Ok? ==> r.value.value.id >= db.nextId
    ensures r.Ok? ==> site in r.value.db.sites && r.value.value.siteId == site.id
  {
    var Step(db1, printer) := PrinterStep(db, j.printerName, j.printerIp, site.id, now).value;
    assert site in db1.sites;
    var row := JobRecord(db1.nextId, now, j, userId, printer.id, site.id);
    WithJobKeepsValid(db1, row);
    Flush(WithJob(db1, row), row)
  }

  /** A job with the next id keeps the database valid. */
  lemma WithJobKeepsValid(db: Db, row: PrintJob)
    requires ValidDb(db) && row.id == db.nextId
    ensures ValidDb(WithJob(db, row))
  {
    var t := WithJob(db, row).jobs;
    assert forall k :: 0 <= k < |db.jobs| ==> t[k] == db.jobs[k];
  }

  /** A failed job, with the request it came from. */
  datatype FailedJob = FailedJob(jobData: PrintJobCreate, error: ServiceError)

  /** The result of `create_print_jobs_batch`. */
  datatype BatchResult = BatchResult(processed: nat, failed: nat, createdJobs: seq<PrintJob>, failedJobs: seq<FailedJob>)

  // The listing of `get_print_jobs`.

  /** `column.ilike(f"%{text}%")` under a filter that applies only to a
      non-empty text. */
  predicate TextFilter(column: string, text: Option<string>)
  {
    text.Some? && text.value != "" ==> Like.ILikeContains(column, text.value)
  }

  /** The job's site is one with the given `site_id` (the join on `Site`). */
  predicate AtSite(db: Db, j: PrintJob, siteId: string)
  {
    exists k :: 0 <= k < |db.sites| && db.sites[k].id == j.siteId && db.sites[k].siteId == siteId
  }

  /** A job satisfies every filter that is set.  Text and page filters apply
      only when truthy; the boolean filters whenever they are not `None`. */
  predicate Matches(db: Db, f: PrintJobFilter, j: PrintJob)
  {
    && TextFilter(j.username, f.username)
    && TextFilter(j.pcName, f.pcName)
    && TextFilter(j.printerName, f.printerName)
    && (f.siteId.Some? && f.siteId.value != "" ==> AtSite(db, j, f.siteId.value))
    && (f.startDate.Some? ==> j.printTime >= f.startDate.value)
    && (f.endDate.Some? ==> j.printTime <= f.endDate.value)
    && (f.isColor.Some? ==> j.isColor == f.isColor.value)
    && (f.isDuplex.Some? ==> j.isDuplex == f.isDuplex.value)
    && (f.minPages.Some? && f.minPages.value != 0 ==> j.pages >= f.minPages.value)
    && (f.maxPages.Some? && f.maxPages.value != 0 ==> j.pages <= f.maxPages.value)
  }

  /** `ORDER BY print_time DESC`. */
  predicate NewestFirst(a: PrintJob, b: PrintJob) { a.printTime >= b.printTime }

  /** The jobs that match, in table order. */
  function Matching(db: Db, f: PrintJobFilter): seq<PrintJob>
  {
    Seqs.Filter(db.jobs, (j: PrintJob) => Matches(db, f, j))
  }

  /** All matching jobs, newest first. */
  function Ordered(db: Db, f: PrintJobFilter): (r: seq<PrintJob>)
    ensures multiset(r) == multiset(Matching(db, f))
    ensures Sorting.Sorted(r, NewestFirst)
    ensures forall x :: x in r <==> x in db.jobs && Matches(db, f, x)
  {
    assert Sorting.TotalPreorder(NewestFirst);
    var r := Sorting.Sort(Matching(db, f), NewestFirst);
    Sorting.SameElements(r, Matching(db, f));
    r
  }

  /** `get_print_jobs(skip, limit, filters)`: a missing filter object filters
      nothing. */
  function PrintJobs(db: Db, skip: int := 0, limit: int := 100, filters: Option<PrintJobFilter> := None): (r: seq<PrintJob>)
    ensures var f := if filters.Some? then filters.value else NoFilter;
      forall x :: x in r ==> x in db.jobs && Matches(db, f, x)
    ensures Sorting.Sorted(r, NewestFirst)
    ensures limit >= 0 ==> |r| <= limit
    ensures var f := if filters.Some? then filters.value else NoFilter;
      r == Seqs.Page(Ordered(db, f), skip, limit)
  {
    var f := if filters.Some? then filters.value else NoFilter;
    var all := Ordered(db, f);
    var r := Seqs.Page(all, skip, limit);
    Seqs.PageOfSorted(all, skip, limit, NewestFirst);
    r
  }

  /** Every matching job is listed on some page, and a job on a later page is
      no newer than one on an earlier page. */
  lemma PagesAreOrdered(db: Db, f: PrintJobFilter, skip: nat, n: nat, m: nat, x: PrintJob, y: PrintJob)
    requires x in PrintJobs(db, skip, n, Some(f)) && y in PrintJobs(db, skip + n, m, Some(f))
    ensures x.printTime >= y.printTime
  {
    var all := Ordered(db, f);
    var i := Seqs.PageIndex(all, skip, n, x);
    var j := Seqs.PageIndex(all, skip + n, m, y);
    assert NewestFirst(all[i], all[j]);
  }

  /** Pages of consecutive offsets put together are one longer page. */
  lemma PagesConcatenate(db: Db, f: PrintJobFilter, skip: nat, n: nat, m: nat)
    ensures PrintJobs(db, skip, n, Some(f)) + PrintJobs(db, skip + n, m, Some(f)) == PrintJobs(db, skip, n + m, Some(f))
  {
    Seqs.PagesConcatenate(Ordered(db, f), skip, n, m);
  }

  /** A wildcard-free user filter is a case-insensitive substring test. */
  lemma UsernameFilterIsSubstring(db: Db, f: PrintJobFilter, x: PrintJob)
    requires f.username.Some? && f.username.value != "" && Like.NoWildcards(f.username.value)
    requires x in PrintJobs(db, 0, -1, Some(f))
    ensures Text.Contains(Text.Lower(x.username), Text.Lower(f.username.value))
  {
    Like.ILikeIsContains(x.username, f.username.value);
  }

  // The statistics of `get_print_job_statistics`.

  /** The jobs the statistics cover. */
  predicate InPeriod(db: Db, j: PrintJob, start: Option<int>, end: Option<int>, siteId: Option<string>)
  {
    && (start.Some? ==> j.printTime >= start.value)
    && (end.Some? ==> j.printTime <= end.value)
    && (siteId.Some? && siteId.value != "" ==> AtSite(db, j, siteId.value))
  }

  function Selection(db: Db, start: Option<int>, end: Option<int>, siteId: Option<string>): seq<PrintJob>
  {
    Seqs.Filter(db.jobs, (j: PrintJob) => InPeriod(db, j, start, end, siteId))
  }

  function TotalPages(j: PrintJob): int { j.totalPages }

  function AsInt(b: bool): int { if b then 1 else 0 }

  /** `total_pages * is_color` and `total_pages * (1 - is_color)`, and the
      same for duplex. */
  function ColorPages(j: PrintJob): int { j.totalPages * AsInt(j.isColor) }

  function BwPages(j: PrintJob): int { j.totalPages * (1 - AsInt(j.isColor)) }

  function DuplexPages(j: PrintJob): int { j.totalPages * AsInt(j.isDuplex) }

  function SinglePages(j: PrintJob): int { j.totalPages * (1 - AsInt(j.isDuplex)) }

  /** `coalesce(sum(f(job)), 0)`. */
  function Sum(js: seq<PrintJob>, f: PrintJob -> int): int
    decreases |js|
  {
    if |js| == 0 then 0 else Sum(js[..|js| - 1], f) + f(js[|js| - 1])
  }

  /** Colour and black-and-white pages make up the total, and so do duplex
      and single-sided pages. */
  lemma {:induction false} SumsSplit(js: seq<PrintJob>)
    ensures Sum(js, ColorPages) + Sum(js, BwPages) == Sum(js, TotalPages)
    ensures Sum(js, DuplexPages) + Sum(js, SinglePages) == Sum(js, TotalPages)
    decreases |js|
  {
    if |js| > 0 {
      SumsSplit(js[..|js| - 1]);
    }
  }

  /** `count(distinct column)`. */
  function Usernames(js: seq<PrintJob>): set<string>
  {
    set j | j in js :: j.username
  }

  function PrinterNames(js: seq<PrintJob>): set<string>
  {
    set j | j in js :: j.printerName
  }

  /** At most as many distinct values as jobs. */
  lemma DistinctAtMost(js: seq<PrintJob>)
    ensures |Usernames(js)| <= |js| && |PrinterNames(js)| <= |js|
  {
    UsernamesAtMost(js);
    PrinterNamesAtMost(js);
  }

  lemma {:induction false} UsernamesAtMost(js: seq<PrintJob>)
    ensures |Usernames(js)| <= |js|
    decreases |js|
  {
    if |js| > 0 {
      var init, last := js[..|js| - 1], js[|js| - 1];
      UsernamesAtMost(init);
      assert js == init + [last];
      assert Usernames(js) == Usernames(init) + {last.username};
    }
  }

  lemma {:induction false} PrinterNamesAtMost(js: seq<PrintJob>)
    ensures |PrinterNames(js)| <= |js|
    decreases |js|
  {
    if |js| > 0 {
      var init, last := js[..|js| - 1], js[|js| - 1];
      PrinterNamesAtMost(init);
      assert js == init + [last];
      assert PrinterNames(js) == PrinterNames(init) + {last.printerName};
    }
  }

  datatype PrintJobStats = PrintJobStats(
    totalJobs: nat, totalPages: int, colorPages: int, bwPages: int,
    duplexPages: int, singleSidedPages: int, uniqueUsers: nat, uniquePrinters: nat,
    periodStart: Option<int>, periodEnd: Option<int>)

  /** `get_print_job_statistics`. */
  function Statistics(db: Db, start: Option<int> := None, end: Option<int> := None, siteId: Option<string> := None): (s: PrintJobStats)
    ensures s.colorPages + s.bwPages == s.totalPages
    ensures s.duplexPages + s.singleSidedPages == s.totalPages
    ensures s.uniqueUsers <= s.totalJobs && s.uniquePrinters <= s.totalJobs
    ensures s.totalJobs == |Selection(db, start, end, siteId)|
    ensures s.totalJobs == 0 ==> s.totalPages == 0 && s.colorPages == 0 && s.bwPages == 0
                                 && s.duplexPages == 0 && s.singleSidedPages == 0 && s.uniqueUsers == 0
    ensures s.periodStart == start && s.periodEnd == end
  {
    var js := Selection(db, start, end, siteId);
    SumsSplit(js);
    DistinctAtMost(js);
    PrintJobStats(|js|, Sum(js, TotalPages), Sum(js, ColorPages), Sum(js, BwPages),
                  Sum(js, DuplexPages), Sum(js, SinglePages), |Usernames(js)|, |PrinterNames(js)|,
                  start, end)
  }

  predicate IsColorJob(j: PrintJob) { j.isColor }

  /** Colour pages are the total pages of the colour jobs. */
  lemma {:induction false} ColorPagesOfColorJobs(js: seq<PrintJob>)
    ensures Sum(js, ColorPages) == Sum(Seqs.Filter(js, IsColorJob), TotalPages)
    decreases |js|
  {
    if |js| > 0 {
      var init, last := js[..|js| - 1], js[|js| - 1];
      ColorPagesOfColorJobs(init);
      assert js == init + [last];
      Seqs.FilterAppend(init, last, IsColorJob);
      var fi := Seqs.Filter(init, IsColorJob);
      assert Sum(js, ColorPages) == Sum(init, ColorPages) + ColorPages(last);
      if last.isColor {
        assert Seqs.Filter(js, IsColorJob) == fi + [last];
        assert (fi + [last])[..|fi|] == fi;
        assert ColorPages(last) == TotalPages(last);
      } else {
        assert Seqs.Filter(js, IsColorJob) == fi;
        assert ColorPages(last) == 0;
      }
    }
  }

  /** `query(PrintJob).filter(PrintJob.id == id).first()`. */
  function JobWithId(js: seq<PrintJob>, id: nat): Option<nat>
  {
    Seqs.FindFirst(js, (j: PrintJob) => j.id == id)
  }

  /** Deleting the first job with `id`. */
  function WithoutJob(db: Db, id: nat): (r: Db)
  {
    match JobWithId(db.jobs, id)
    case Some(k) => db.(jobs := RemoveAt(db.jobs, k))
    case None => db
  }

  /** Removing position `i` keeps the ids distinct and below the counter,
      removes the only job with that id, and keeps every other job. */
  function RemoveAt(js: seq<PrintJob>, i: nat): seq<PrintJob>
    requires i < |js|
  {
    js[..i] + js[i + 1..]
  }

  lemma RemoveAtAt(js: seq<PrintJob>, i: nat, k: nat)
    requires i < |js| && k < |js| - 1
    ensures |RemoveAt(js, i)| == |js| - 1
    ensures RemoveAt(js, i)[k] == if k < i then js[k] else js[k + 1]
  {
  }

  lemma RemoveAtFacts(js: seq<PrintJob>, nextId: nat, i: nat)
    requires JobIdsFresh(js, nextId) && i < |js|
    ensures JobIdsFresh(RemoveAt(js, i), nextId)
    ensures forall k :: 0 <= k < |RemoveAt(js, i)| ==> RemoveAt(js, i)[k].id != js[i].id
    ensures forall x :: x in js && x.id != js[i].id ==> x in RemoveAt(js, i)
  {
    var t := RemoveAt(js, i);
    forall k | 0 <= k < |t| ensures t[k].id < nextId && t[k].id != js[i].id {
      RemoveAtAt(js, i, k);
    }
    forall a, b | 0 <= a < b < |t| ensures t[a].id != t[b].id {
      RemoveAtAt(js, i, a);
      RemoveAtAt(js, i, b);
    }
    forall x | x in js && x.id != js[i].id ensures x in t {
      var k :| 0 <= k < |js| && js[k] == x;
      if k < i {
        RemoveAtAt(js, i, k);
      } else {
        RemoveAtAt(js, i, k - 1);
      }
    }
  }

  /** With distinct ids, deleting a job leaves no job with that id and every
      other job in place. */
  lemma WithoutJobFacts(db: Db, id: nat)
    requires ValidDb(db)
    ensures ValidDb(WithoutJob(db, id))
    ensures forall k :: 0 <= k < |WithoutJob(db, id).jobs| ==> WithoutJob(db, id).jobs[k].id != id
    ensures forall x :: x in db.jobs && x.id != id ==> x in WithoutJob(db, id).jobs
    ensures (exists k :: 0 <= k < |db.jobs| && db.jobs[k].id == id) <==> |WithoutJob(db, id).jobs| == |db.jobs| - 1
    ensures !(exists k :: 0 <= k < |db.jobs| && db.jobs[k].id == id) ==> WithoutJob(db, id) == db
  {
    match JobWithId(db.jobs, id)
    case Some(i) =>
      RemoveAtFacts(db.jobs, db.nextId, i);
    case None =>
  }

  /** One `create_print_job` call as the batch sees it: a success commits
      the new job, a failure on a working session aborts it, and a broken
      session refuses. */
  predicate CreateOutcome(before: SessionState, after: SessionState, j: PrintJobCreate, r: Result<PrintJob, ServiceError>)
  {
    && (r.Ok? ==> && !before.broken && Records(r.value, j) && after == Committed(after)
                  && after.work.jobs == before.work.jobs + [r.value])
    && (r.Err? && !before.broken ==> r.error == IntegrityError && after == Aborted(before))
    && (before.broken ==> r == Err(PendingRollback) && after == before)
  }

  /** What the batch loop keeps after `created` and `failed`, from `start`. */
  predicate BatchInv(start: SessionState, s: SessionState, jobs: seq<PrintJobCreate>,
                     created: seq<PrintJob>, failed: seq<FailedJob>)
  {
    && |created| + |failed| <= |jobs|
    && (forall k :: 0 <= k < |created| ==> Records(created[k], jobs[k]))
    && (forall k :: 0 <= k < |failed| ==> failed[k].jobData == jobs[|created| + k])
    && (forall k :: 1 <= k < |failed| ==> failed[k].error == PendingRollback)
    && (s.broken <==> start.broken || |failed| > 0)
    && (start.broken ==> created == [] && s == start)
    && (|created| > 0 ==> s.committed.jobs == start.work.jobs + created)
    && (!s.broken ==> if |created| > 0 then s.work == s.committed else s == start)
    && (|created| == 0 ==> s.committed == start.committed)
  }

  lemma BatchNext(start: SessionState, before: SessionState, after: SessionState, jobs: seq<PrintJobCreate>,
                  created: seq<PrintJob>, failed: seq<FailedJob>, r: Result<PrintJob, ServiceError>)
    requires BatchInv(start, before, jobs, created, failed) && |created| + |failed| < |jobs|
    requires CreateOutcome(before, after, jobs[|created| + |failed|], r)
    ensures r.Ok? ==> BatchInv(start, after, jobs, created + [r.value], failed)
    ensures r.Err? ==> BatchInv(start, after, jobs, created, failed + [FailedJob(jobs[|created| + |failed|], r.error)])
  {
  }

  class PrintJobService {
    const db: Session

    constructor (db: Session)
      ensures this.db == db
    {
      this.db := db;
    }

    /** `get_or_create_site`. */
    method GetOrCreateSite(siteId: string, companyName: string, now: int) returns (r: Result<Site, ServiceError>)
      requires db.Valid()
      modifies db
      ensures db.Valid()
      ensures db.state == Run(old(db.state), SiteStep(old(db.state).work, siteId, companyName, now))
      ensures r == Answer(old(db.state), SiteStep(old(db.state).work, siteId, companyName, now))
    {
      if db.state.broken {
        return Err(PendingRollback);
      }
      var work := db.state.work;
      var company: Company;
      var ci := CompanyNamed(work.companies, companyName);
      if ci.Some? {
        company := work.companies[ci.value];
      } else {
        company := NewCompany(work.nextId, now, companyName, Some(CompanyDomain(companyName)));
        var ok := db.Flush(WithCompany(work, company));
        if !ok {
          return Err(IntegrityError);
        }
        work := db.state.work;
      }
      var si := SiteOfCompany(work.sites, siteId, company.id);
      if si.Some? {
        return Ok(work.sites[si.value]);
      }
      var site := NewSite(work.nextId, now, siteId, "Site " + siteId, company.id);
      var ok := db.Flush(WithSite(work, site));
      if !ok {
        return Err(IntegrityError);
      }
      return Ok(site);
    }

    /** `get_or_create_user`. */
    method GetOrCreateUser(username: string, companyId: nat, now: int) returns (r: Result<User, ServiceError>)
      requires db.Valid()
      modifies db
      ensures db.Valid()
      ensures db.state == Run(old(db.state), UserStep(old(db.state).work, username, companyId, now))
      ensures r == Answer(old(db.state), UserStep(old(db.state).work, username, companyId, now))
    {
      if db.state.broken {
        return Err(PendingRollback);
      }
      var work := db.state.work;
      var ui := UserOfCompany(work.users, username, companyId);
      if ui.Some? {
        return Ok(work.users[ui.value]);
      }
      var user := NewServiceUser(work.nextId, now, username, companyId);
      var ok := db.Flush(WithUser(work, user));
      if !ok {
        return Err(IntegrityError);
      }
      return Ok(user);
    }

    /** `get_or_create_printer`. */
    method GetOrCreatePrinter(name: string, ip: Option<string>, siteId: nat, now: int) returns (r: Result<Printer, ServiceError>)
      requires db.Valid()
      modifies db
      ensures db.Valid()
      ensures db.state == Run(old(db.state), PrinterStep(old(db.state).work, name, ip, siteId, now))
      ensures r == Answer(old(db.state), PrinterStep(old(db.state).work, name, ip, siteId, now))
    {
      if db.state.broken {
        return Err(PendingRollback);
      }
      var work := db.state.work;
      var pi := PrinterAtSite(work.printers, name, siteId);
      if pi.Some? {
        return Ok(work.printers[pi.value]);
      }
      var printer := NewPrinter(work.nextId, now, name, Some(siteId)).(ipAddress := ip);
      var ok := db.Flush(WithPrinter(work, printer));
      if !ok {
        return Err(IntegrityError);
      }
      return Ok(printer);
    }

    /** `create_print_job`: the three lookups, then the job, committed. */
    method CreatePrintJob(j: PrintJobCreate, now: int) returns (r: Result<PrintJob, ServiceError>)
      requires db.Valid()
      modifies db
      ensures db.Valid()
      ensures r == Answer(old(db.state), CreateStep(old(db.state).work, j, now))
      ensures db.state == if r.Ok? then Committed(Run(old(db.state), CreateStep(old(db.state).work, j, now)))
                          else Run(old(db.state), CreateStep(old(db.state).work, j, now))
      ensures CreateOutcome(old(db.state), db.state, j, r)
    {
      ghost var s0 := db.state;
      var site := GetOrCreateSite(j.siteId, j.companyName, now);
      if site.Err? {
        assert !s0.broken ==> CreateStep(s0.work, j, now) == Err(IntegrityError);
        return Err(site.error);
      }
      ghost var st1 := SiteStep(s0.work, j.siteId, j.companyName, now).value;
      assert !s0.broken && db.state == s0.(work := st1.db) && site.value == st1.value;
      var user := GetOrCreateUser(j.username, site.value.companyId, now);
      if user.Err? {
        assert CreateStep(s0.work, j, now) == Err(IntegrityError);
        return Err(user.error);
      }
      ghost var st2 := UserStep(st1.db, j.username, st1.value.companyId, now).value;
      assert db.state == s0.(work := st2.db) && user.value == st2.value;
      var printer := GetOrCreatePrinter(j.printerName, j.printerIp, site.value.id, now);
      ghost var st3 := PrinterStep(st2.db, j.printerName, j.printerIp, st1.value.id, now).value;
      assert db.state == s0.(work := st3.db) && printer.value == st3.value;
      var work := db.state.work;
      var row := JobRecord(work.nextId, now, j, user.value.id, printer.value.id, site.value.id);
      assert CreateStep(s0.work, j, now) == Flush(WithJob(work, row), row);
      var ok := db.Flush(WithJob(work, row));
      if !ok {
        return Err(IntegrityError);
      }
      ok := db.Commit();
      return Ok(row);
    }

    /** `create_print_jobs_batch`: each job in turn, failures collected.  The
        loop never rolls back, so after the first failure the session is
        broken and every later job fails too. */
    method CreatePrintJobsBatch(jobs: seq<PrintJobCreate>, now: int) returns (result: BatchResult)
      requires db.Valid()
      modifies db
      ensures db.Valid()
      ensures result.processed == |result.createdJobs| && result.failed == |result.failedJobs|
      ensures result.processed + result.failed == |jobs|
      ensures forall k :: 0 <= k < |result.createdJobs| ==> Records(result.createdJobs[k], jobs[k])
      ensures forall k :: 0 <= k < |result.failedJobs| ==> result.failedJobs[k].jobData == jobs[result.processed + k]
      ensures forall k :: 1 <= k < |result.failedJobs| ==> result.failedJobs[k].error == PendingRollback
      ensures old(db.state).broken ==> result.processed == 0 && db.state == old(db.state)
      ensures db.state.broken <==> old(db.state).broken || result.failed > 0
      ensures result.processed > 0 ==> db.state.committed.jobs == old(db.state).work.jobs + result.createdJobs
      ensures result.processed == 0 ==> db.state.committed == old(db.state).committed
    {
      var created: seq<PrintJob> := [];
      var failed: seq<FailedJob> := [];
      ghost var start := db.state;
      var i := 0;
      while i < |jobs|
        invariant 0 <= i <= |jobs| && |created| + |failed| == i
        invariant db.Valid()
        invariant BatchInv(start, db.state, jobs, created, failed)
      {
        ghost var before := db.state;
        var r := CreatePrintJob(jobs[i], now);
        BatchNext(start, before, db.state, jobs, created, failed, r);
        if r.Ok? {
          created := created + [r.value];
        } else {
          failed := failed + [FailedJob(jobs[i], r.error)];
        }
        i := i + 1;
      }
      return BatchResult(|created|, |failed|, created, failed);
    }

    /** `delete_print_job`: true exactly when a job with `id` existed. */
    method DeletePrintJob(id: nat) returns (r: Result<bool, ServiceError>)
      requires db.Valid()
      modifies db
      ensures db.Valid()
      ensures old(db.state).broken ==> r == Err(PendingRollback) && db.state == old(db.state)
      ensures !old(db.state).broken ==>
                r == Ok(exists k :: 0 <= k < |old(db.state).work.jobs| && old(db.state).work.jobs[k].id == id)
      ensures !old(db.state).broken && r == Ok(true) ==>
                db.state == Committed(old(db.state).(work := WithoutJob(old(db.state).work, id)))
      ensures !old(db.state).broken && r == Ok(false) ==> db.state == old(db.state)
      ensures forall k :: 0 <= k < |db.state.work.jobs| && r == Ok(true) ==> db.state.work.jobs[k].id != id
    {
      if db.state.broken {
        return Err(PendingRollback);
      }
      var work := db.state.work;
      WithoutJobFacts(work, id);
      var k := JobWithId(work.jobs, id);
      if k.None? {
        return Ok(false);
      }
      var ok := db.Flush(WithoutJob(work, id));
      ok := db.Commit();
      return Ok(true);
    }
  }
}

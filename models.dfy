/** The portal's tables (backend/app/models/models.py) as records: each has
    the `id`, `created_at` and `updated_at` of `TimestampMixin`
    (backend/app/models/base.py); timestamps are integers from the caller's
    clock and ids are natural numbers.  Nullable columns that the services
    leave empty or may clear are `Option`s.  The `New...` functions build a
    row as SQLAlchemy does, filling in the column defaults. */
module Models {
  import opened Common

  datatype Company = Company(
    id: nat, createdAt: int, updatedAt: int,
    name: string, domain: Option<string>, logoUrl: Option<string>, isActive: bool)

  datatype Site = Site(
    id: nat, createdAt: int, updatedAt: int,
    siteId: string, name: string, address: Option<string>, contactEmail: Option<string>,
    contactPhone: Option<string>, companyId: nat, isActive: bool)

  datatype User = User(
    id: nat, createdAt: int, updatedAt: int,
    username: string, email: Option<string>, fullName: Option<string>,
    hashedPassword: Option<string>, role: Option<string>, isActive: Option<bool>,
    isLdapUser: bool, ldapDn: Option<string>, lastLogin: Option<int>, companyId: nat)

  datatype Agent = Agent(
    id: nat, createdAt: int, updatedAt: int,
    pcName: string, pcIp: Option<string>, username: string, agentVersion: Option<string>,
    osVersion: Option<string>, apiKey: string, status: string, lastSeen: int,
    lastJobSubmitted: Option<int>, totalJobsSubmitted: int, pendingJobs: int,
    configVersion: int, installedPrinters: Option<string>, siteId: nat)

  datatype Printer = Printer(
    id: nat, createdAt: int, updatedAt: int,
    name: string, ipAddress: Option<string>, location: Option<string>, model: Option<string>,
    isColor: bool, isDuplexCapable: bool, isActive: bool, siteId: Option<nat>)

  /** A print job.  `site_id` is required; the user, agent and printer links
      are optional. */
  datatype PrintJob = PrintJob(
    id: nat, createdAt: int, updatedAt: int,
    username: string, pcName: string, printerName: string, printerIp: Option<string>,
    documentName: string, pages: int, copies: int, totalPages: int,
    isDuplex: bool, isColor: bool, printTime: int,
    agentVersion: Option<string>, jobSizeBytes: Option<int>,
    userId: Option<nat>, agentId: Option<nat>, printerId: Option<nat>, siteId: nat)

  datatype SystemConfig = SystemConfig(
    id: nat, createdAt: int, updatedAt: int,
    key: string, value: Option<string>, description: Option<string>, isPublic: bool)

  /** A company row: `is_active` defaults to true. */
  function NewCompany(id: nat, now: int, name: string, domain: Option<string>): (c: Company)
    ensures c.id == id && c.createdAt == now && c.updatedAt == now
    ensures c.name == name && c.domain == domain && c.logoUrl == None && c.isActive
  {
    Company(id, now, now, name, domain, None, true)
  }

  /** A site row: `is_active` defaults to true. */
  function NewSite(id: nat, now: int, siteId: string, name: string, companyId: nat): (s: Site)
    ensures s.id == id && s.createdAt == now && s.updatedAt == now
    ensures s.siteId == siteId && s.name == name && s.companyId == companyId && s.isActive
    ensures s.address == None && s.contactEmail == None && s.contactPhone == None
  {
    Site(id, now, now, siteId, name, None, None, None, companyId, true)
  }

  /** A user row: role `user`, active, not from LDAP, unless given. */
  function NewUser(id: nat, now: int, username: string, companyId: nat): (u: User)
    ensures u.id == id && u.createdAt == now && u.updatedAt == now
    ensures u.username == username && u.companyId == companyId
    ensures u.role == Some("user") && u.isActive == Some(true) && !u.isLdapUser
    ensures u.email == None && u.fullName == None && u.hashedPassword == None
    ensures u.ldapDn == None && u.lastLogin == None
  {
    User(id, now, now, username, None, None, None, Some("user"), Some(true), false, None, None, companyId)
  }

  /** An agent row: status `offline`, no jobs, configuration version 1,
      last seen at creation. */
  function NewAgent(id: nat, now: int, pcName: string, username: string, apiKey: string, siteId: nat): (a: Agent)
    ensures a.id == id && a.createdAt == now && a.updatedAt == now
    ensures a.pcName == pcName && a.username == username && a.apiKey == apiKey && a.siteId == siteId
    ensures a.status == "offline" && a.totalJobsSubmitted == 0 && a.pendingJobs == 0 && a.configVersion == 1
    ensures a.lastSeen == now && a.lastJobSubmitted == None
    ensures a.pcIp == None && a.agentVersion == None && a.osVersion == None && a.installedPrinters == None
  {
    Agent(id, now, now, pcName, None, username, None, None, apiKey, "offline", now, None, 0, 0, 1, None, siteId)
  }

  /** A printer row: neither colour nor duplex, active. */
  function NewPrinter(id: nat, now: int, name: string, siteId: Option<nat>): (p: Printer)
    ensures p.id == id && p.createdAt == now && p.updatedAt == now
    ensures p.name == name && p.siteId == siteId
    ensures !p.isColor && !p.isDuplexCapable && p.isActive
    ensures p.ipAddress == None && p.location == None && p.model == None
  {
    Printer(id, now, now, name, None, None, None, false, false, true, siteId)
  }

  /** A print job row: one copy, neither duplex nor colour, no links but the
      site. */
  function NewPrintJob(id: nat, now: int, username: string, pcName: string, printerName: string,
                       documentName: string, pages: int, totalPages: int, printTime: int, siteId: nat): (j: PrintJob)
    ensures j.id == id && j.createdAt == now && j.updatedAt == now
    ensures j.username == username && j.pcName == pcName && j.printerName == printerName
    ensures j.documentName == documentName && j.pages == pages && j.totalPages == totalPages
    ensures j.printTime == printTime && j.siteId == siteId
    ensures j.copies == 1 && !j.isDuplex && !j.isColor
    ensures j.userId == None && j.agentId == None && j.printerId == None
    ensures j.printerIp == None && j.agentVersion == None && j.jobSizeBytes == None
  {
    PrintJob(id, now, now, username, pcName, printerName, None, documentName, pages, 1, totalPages,
             false, false, printTime, None, None, None, None, None, siteId)
  }

  /** A configuration entry: not public. */
  function NewSystemConfig(id: nat, now: int, key: string): (c: SystemConfig)
    ensures c.id == id && c.key == key && !c.isPublic && c.value == None && c.description == None
    ensures c.createdAt == now && c.updatedAt == now
  {
    SystemConfig(id, now, now, key, None, None, false)
  }

  /** The column names of each table, as `__table__.columns` lists them. */
  const TimestampColumns: set<string> := {"id", "created_at", "updated_at"}

  const CompanyColumns: set<string> :=
    TimestampColumns + {"name", "domain", "logo_url", "is_active"}

  const SiteColumns: set<string> :=
    TimestampColumns + {"site_id", "name", "address", "contact_email", "contact_phone", "company_id", "is_active"}

  const UserColumns: set<string> :=
    TimestampColumns + {"username", "email", "full_name", "hashed_password", "role", "is_active",
                        "is_ldap_user", "ldap_dn", "last_login", "company_id"}

  const AgentColumns: set<string> :=
    TimestampColumns + {"pc_name", "pc_ip", "username", "agent_version", "os_version", "api_key", "status",
                        "last_seen", "last_job_submitted", "total_jobs_submitted", "pending_jobs",
                        "config_version", "installed_printers", "site_id"}

  const PrinterColumns: set<string> :=
    TimestampColumns + {"name", "ip_address", "location", "model", "is_color", "is_duplex_capable",
                        "is_active", "site_id"}

  const PrintJobColumns: set<string> :=
    TimestampColumns + {"username", "pc_name", "printer_name", "printer_ip", "document_name", "pages",
                        "copies", "total_pages", "is_duplex", "is_color", "print_time", "agent_version",
                        "job_size_bytes", "user_id", "agent_id", "printer_id", "site_id"}

  const SystemConfigColumns: set<string> :=
    TimestampColumns + {"key", "value", "description", "is_public"}

  // The uniqueness constraints.  SQL lets several NULLs share a unique
  // column, so only present values must differ.

  predicate UniqueDomains(cs: seq<Company>)
  {
    forall i, j :: 0 <= i < j < |cs| && cs[i].domain.Some? ==> cs[i].domain != cs[j].domain
  }

  predicate UniqueSiteIds(ss: seq<Site>)
  {
    forall i, j :: 0 <= i < j < |ss| ==> ss[i].siteId != ss[j].siteId
  }

  predicate UniqueUsernames(us: seq<User>)
  {
    forall i, j :: 0 <= i < j < |us| ==> us[i].username != us[j].username
  }

  predicate UniqueEmails(us: seq<User>)
  {
    forall i, j :: 0 <= i < j < |us| && us[i].email.Some? ==> us[i].email != us[j].email
  }

  predicate UniqueApiKeys(as_: seq<Agent>)
  {
    forall i, j :: 0 <= i < j < |as_| ==> as_[i].apiKey != as_[j].apiKey
  }

  predicate UniqueConfigKeys(cs: seq<SystemConfig>)
  {
    forall i, j :: 0 <= i < j < |cs| ==> cs[i].key != cs[j].key
  }

  /** Appending a company keeps domains unique exactly when its domain is
      NULL or not yet taken. */
  lemma AppendCompanyUnique(cs: seq<Company>, c: Company)
    requires UniqueDomains(cs)
    ensures UniqueDomains(cs + [c]) <==> (c.domain.None? || forall k :: 0 <= k < |cs| ==> cs[k].domain != c.domain)
  {
    var t := cs + [c];
    if c.domain.Some? && !(forall k :: 0 <= k < |cs| ==> cs[k].domain != c.domain) {
      var k :| 0 <= k < |cs| && cs[k].domain == c.domain;
      assert t[k].domain.Some? && t[k].domain == t[|cs|].domain;
    }
  }

  /** Appending a site keeps `site_id` unique exactly when it is new. */
  lemma AppendSiteUnique(ss: seq<Site>, s: Site)
    requires UniqueSiteIds(ss)
    ensures UniqueSiteIds(ss + [s]) <==> forall k :: 0 <= k < |ss| ==> ss[k].siteId != s.siteId
  {
    var t := ss + [s];
    if !(forall k :: 0 <= k < |ss| ==> ss[k].siteId != s.siteId) {
      var k :| 0 <= k < |ss| && ss[k].siteId == s.siteId;
      assert t[k].siteId == t[|ss|].siteId;
    }
  }

  /** Appending a user keeps usernames unique exactly when the name is new,
      and e-mails unique exactly when the address is NULL or new. */
  lemma AppendUserUnique(us: seq<User>, u: User)
    requires UniqueUsernames(us) && UniqueEmails(us)
    ensures UniqueUsernames(us + [u]) <==> forall k :: 0 <= k < |us| ==> us[k].username != u.username
    ensures UniqueEmails(us + [u]) <==> (u.email.None? || forall k :: 0 <= k < |us| ==> us[k].email != u.email)
  {
    var t := us + [u];
    if !(forall k :: 0 <= k < |us| ==> us[k].username != u.username) {
      var k :| 0 <= k < |us| && us[k].username == u.username;
      assert t[k].username == t[|us|].username;
    }
    if u.email.Some? && !(forall k :: 0 <= k < |us| ==> us[k].email != u.email) {
      var k :| 0 <= k < |us| && us[k].email == u.email;
      assert t[k].email.Some? && t[k].email == t[|us|].email;
    }
  }
}

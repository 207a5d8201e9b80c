/** Agent registration (`register_agent` in
    backend/app/api/v1/endpoints/agents.py): the site is found by its
    `site_id` or created, with its company, and the agent is keyed by its PC
    name and site; a known agent is refreshed in place and keeps its API
    key, a new one gets the key `newKey` (the oracle standing for
    `secrets.token_urlsafe`).  Any failure rolls the session back. */
module AgentsEndpoint {
  import opened Common
  import opened Models
  import opened Database
  import Seqs
  import PrintJobService

  /** The registration body.  `installed_printers` is accepted but not
      stored. */
  datatype AgentRegistration = AgentRegistration(
    pcName: string, pcIp: string, username: string, siteId: string, companyName: string,
    agentVersion: string, osVersion: string, installedPrinters: seq<string>)

  /** The success response. */
  datatype Registered = Registered(status: string, message: string, agentId: nat, apiKey: string)

  const RegistrationFailed := Http(500, "Failed to register agent")

  function SiteWithId(ss: seq<Site>, siteId: string): Option<nat>
  {
    Seqs.FindFirst(ss, (s: Site) => s.siteId == siteId)
  }

  function AgentAt(as_: seq<Agent>, pcName: string, siteRowId: nat): Option<nat>
  {
    Seqs.FindFirst(as_, (a: Agent) => a.pcName == pcName && a.siteId == siteRowId)
  }

  function WithAgent(db: Db, a: Agent): Db
  {
    db.(agents := db.agents + [a], nextId := db.nextId + 1)
  }

  /** The site with `site_id`, or a new one named "Site {site_id}" under the
      first company named `company_name`, itself created (without a domain)
      when there is none.  It never fails: a company without a domain cannot
      clash with another, and the lookup shows the new `site_id` is free. */
  function SiteFor(db: Db, reg: AgentRegistration, now: int): (r: Result<Step<Site>, ServiceError>)
    requires ValidDb(db)
    ensures r.Ok?
    ensures r.Ok? ==> ValidDb(r.value.db) && r.value.db.jobs == db.jobs && r.value.db.agents == db.agents
                      && r.value.db.nextId >= db.nextId
    ensures r.Ok? ==> r.value.value.siteId == reg.siteId && SiteWithId(r.value.db.sites, reg.siteId).Some?
                      && r.value.value == r.value.db.sites[SiteWithId(r.value.db.sites, reg.siteId).value]
    ensures SiteWithId(db.sites, reg.siteId).Some? ==> r == Ok(Step(db, db.sites[SiteWithId(db.sites, reg.siteId).value]))
    ensures SiteWithId(db.sites, reg.siteId).None? && r.Ok? ==>
              && r.value.value.name == "Site " + reg.siteId
              && r.value.db.sites == db.sites + [r.value.value]
              && exists k :: 0 <= k < |r.value.db.companies| && r.value.db.companies[k].name == reg.companyName
                             && r.value.db.companies[k].id == r.value.value.companyId
  {
    match SiteWithId(db.sites, reg.siteId)
    case Some(i) => Ok(Step(db, db.sites[i]))
    case None =>
      match PrintJobService.CompanyStep(db, reg.companyName, None, now)
      case Err(e) => Err(e)
      case Ok(Step(db1, company)) =>
        var s := NewSite(db1.nextId, now, reg.siteId, "Site " + reg.siteId, company.id);
        AppendSiteUnique(db1.sites, s);
        Seqs.FindFirstAppend(db1.sites, s, (x: Site) => x.siteId == reg.siteId);
        assert db1.sites == db.sites;
        Flush(PrintJobService.WithSite(db1, s), s)
  }

  /** The refreshed fields of a known agent. */
  function Reregistered(a: Agent, reg: AgentRegistration, now: int): (b: Agent)
    ensures b.pcIp == Some(reg.pcIp) && b.username == reg.username && b.agentVersion == Some(reg.agentVersion)
    ensures b.osVersion == Some(reg.osVersion) && b.lastSeen == now && b.status == "online" && b.updatedAt == now
    ensures b.id == a.id && b.apiKey == a.apiKey && b.pcName == a.pcName && b.siteId == a.siteId
    ensures b.createdAt == a.createdAt && b.totalJobsSubmitted == a.totalJobsSubmitted
    ensures b.pendingJobs == a.pendingJobs && b.configVersion == a.configVersion
    ensures b.lastJobSubmitted == a.lastJobSubmitted && b.installedPrinters == a.installedPrinters
  {
    a.(pcIp := Some(reg.pcIp), username := reg.username, agentVersion := Some(reg.agentVersion),
       osVersion := Some(reg.osVersion), lastSeen := now, status := "online", updatedAt := now)
  }

  /** A new agent: online, seen now, with the key `apiKey`. */
  function NewRegisteredAgent(id: nat, now: int, reg: AgentRegistration, apiKey: string, siteRowId: nat): (a: Agent)
    ensures a.id == id && a.apiKey == apiKey && a.status == "online" && a.lastSeen == now
    ensures a.pcName == reg.pcName && a.siteId == siteRowId && a.username == reg.username
    ensures a.pcIp == Some(reg.pcIp) && a.agentVersion == Some(reg.agentVersion) && a.osVersion == Some(reg.osVersion)
    ensures a.totalJobsSubmitted == 0 && a.pendingJobs == 0 && a.configVersion == 1 && a.installedPrinters == None
  {
    NewAgent(id, now, reg.pcName, reg.username, apiKey, siteRowId).(
      pcIp := Some(reg.pcIp), agentVersion := Some(reg.agentVersion), osVersion := Some(reg.osVersion),
      status := "online")
  }

  /** Replacing an agent by one with the same key keeps the constraints. */
  lemma ReplaceAgentKeepsConstraints(db: Db, i: nat, a: Agent)
    requires Constraints(db) && i < |db.agents| && a.apiKey == db.agents[i].apiKey
    ensures Constraints(db.(agents := db.agents[i := a]))
  {
    var t := db.agents[i := a];
    forall x, y | 0 <= x < y < |t| ensures t[x].apiKey != t[y].apiKey {
      assert t[x].apiKey == db.agents[x].apiKey && t[y].apiKey == db.agents[y].apiKey;
    }
  }

  /** What the agent part of the registration does at `site`. */
  function AgentStep(db: Db, reg: AgentRegistration, site: Site, now: int, newKey: string): (r: Result<Step<Agent>, ServiceError>)
    requires ValidDb(db)
    ensures r.Err? ==> r.error == IntegrityError
    ensures r.Ok? ==> ValidDb(r.value.db) && r.value.db.jobs == db.jobs && r.value.db.sites == db.sites
                      && r.value.db.companies == db.companies
    ensures r.Ok? ==> AgentAt(r.value.db.agents, reg.pcName, site.id).Some?
                      && r.value.value == r.value.db.agents[AgentAt(r.value.db.agents, reg.pcName, site.id).value]
    ensures AgentAt(db.agents, reg.pcName, site.id).Some? ==> var i := AgentAt(db.agents, reg.pcName, site.id).value;
      r == Ok(Step(db.(agents := db.agents[i := Reregistered(db.agents[i], reg, now)]), Reregistered(db.agents[i], reg, now)))
    ensures AgentAt(db.agents, reg.pcName, site.id).None? ==>
              var a := NewRegisteredAgent(db.nextId, now, reg, newKey, site.id);
              (r.Ok? <==> forall k :: 0 <= k < |db.agents| ==> db.agents[k].apiKey != newKey)
              && (r.Ok? ==> r.value == Step(WithAgent(db, a), a))
  {
    var p := (x: Agent) => x.pcName == reg.pcName && x.siteId == site.id;
    match AgentAt(db.agents, reg.pcName, site.id)
    case Some(i) =>
      var a := Reregistered(db.agents[i], reg, now);
      ReplaceAgentKeepsConstraints(db, i, a);
      var t := db.agents[i := a];
      Seqs.FirstIsUnique(t, p, i);
      Flush(db.(agents := t), a)
    case None =>
      var a := NewRegisteredAgent(db.nextId, now, reg, newKey, site.id);
      var t := db.agents + [a];
      Seqs.FindFirstAppend(db.agents, a, p);
      AppendAgentUnique(db.agents, a);
      Flush(WithAgent(db, a), a)
  }

  /** A new agent keeps the api keys unique exactly when its key is new. */
  lemma AppendAgentUnique(agents: seq<Agent>, a: Agent)
    requires UniqueApiKeys(agents)
    ensures UniqueApiKeys(agents + [a]) <==> forall k :: 0 <= k < |agents| ==> agents[k].apiKey != a.apiKey
  {
    var t := agents + [a];
    if !(forall k :: 0 <= k < |agents| ==> agents[k].apiKey != a.apiKey) {
      var k :| 0 <= k < |agents| && agents[k].apiKey == a.apiKey;
      assert t[k].apiKey == t[|agents|].apiKey;
    } else {
      forall i, j | 0 <= i < j < |t| ensures t[i].apiKey != t[j].apiKey {
        assert t[i] == agents[i];
      }
    }
  }

  /** `register_agent` on the open transaction.  Only a new agent's API key
      can make it fail. */
  function RegisterStep(db: Db, reg: AgentRegistration, now: int, newKey: string): (r: Result<Step<Agent>, ServiceError>)
    requires ValidDb(db)
    ensures r.Err? ==> r.error == IntegrityError
    ensures r.Ok? ==> ValidDb(r.value.db) && r.value.db.jobs == db.jobs
    ensures var site := SiteFor(db, reg, now).value.value;
      r.Ok? <==> AgentAt(db.agents, reg.pcName, site.id).Some? || forall k :: 0 <= k < |db.agents| ==> db.agents[k].apiKey != newKey
  {
    var st := SiteFor(db, reg, now).value;
    AgentStep(st.db, reg, st.value, now, newKey)
  }

  /** A known agent at a known site is refreshed; its id and key stay. */
  lemma ReregistrationKeepsKey(db: Db, reg: AgentRegistration, now: int, newKey: string)
    requires ValidDb(db) && SiteWithId(db.sites, reg.siteId).Some?
    requires AgentAt(db.agents, reg.pcName, db.sites[SiteWithId(db.sites, reg.siteId).value].id).Some?
    ensures var i := AgentAt(db.agents, reg.pcName, db.sites[SiteWithId(db.sites, reg.siteId).value].id).value;
      RegisterStep(db, reg, now, newKey) == Ok(Step(db.(agents := db.agents[i := Reregistered(db.agents[i], reg, now)]),
                                                    Reregistered(db.agents[i], reg, now)))
  {
  }

  /** A second registration of the same PC at the same site returns the
      same agent id and API key, whatever key the generator offers. */
  lemma RegisterTwiceSameKey(db: Db, reg: AgentRegistration, now: int, later: int, key1: string, key2: string)
    requires ValidDb(db) && RegisterStep(db, reg, now, key1).Ok?
    ensures var first := RegisterStep(db, reg, now, key1).value;
      var second := RegisterStep(first.db, reg, later, key2);
      second.Ok? && second.value.value.id == first.value.id && second.value.value.apiKey == first.value.apiKey
  {
    var st := SiteFor(db, reg, now).value;
    var first := RegisterStep(db, reg, now, key1).value;
    assert first == AgentStep(st.db, reg, st.value, now, key1).value;
    assert first.db.sites == st.db.sites;
    assert SiteFor(first.db, reg, later) == Ok(Step(first.db, st.value));
  }

  /** A new PC at a known site gets the offered key when it is free. */
  lemma NewAgentGetsKey(db: Db, reg: AgentRegistration, now: int, newKey: string)
    requires ValidDb(db) && SiteWithId(db.sites, reg.siteId).Some?
    requires AgentAt(db.agents, reg.pcName, db.sites[SiteWithId(db.sites, reg.siteId).value].id).None?
    requires forall k :: 0 <= k < |db.agents| ==> db.agents[k].apiKey != newKey
    ensures var r := RegisterStep(db, reg, now, newKey);
      && r.Ok? && r.value.value.apiKey == newKey && r.value.value.status == "online"
      && r.value.db.agents == db.agents + [r.value.value] && r.value.db.sites == db.sites
  {
  }

  class AgentsEndpoint {
    const db: Session

    constructor (db: Session)
      ensures this.db == db
    {
      this.db := db;
    }

    /** The "find or create site" part of `register_agent`, flushing each
        new row; a failed flush leaves the session aborted. */
    method FindOrCreateSite(reg: AgentRegistration, now: int) returns (r: Result<Site, ServiceError>)
      requires db.Valid() && !db.state.broken
      modifies db
      ensures db.Valid()
      ensures r == Answer(old(db.state), SiteFor(old(db.state).work, reg, now))
      ensures db.state == Run(old(db.state), SiteFor(old(db.state).work, reg, now))
    {
      var work := db.state.work;
      var si := SiteWithId(work.sites, reg.siteId);
      if si.Some? {
        return Ok(work.sites[si.value]);
      }
      var company: Company;
      var ci := PrintJobService.CompanyNamed(work.companies, reg.companyName);
      if ci.Some? {
        company := work.companies[ci.value];
      } else {
        company := NewCompany(work.nextId, now, reg.companyName, None);
        var ok := db.Flush(PrintJobService.WithCompany(work, company));
        if !ok {
          return Err(IntegrityError);
        }
        work := db.state.work;
      }
      var site := NewSite(work.nextId, now, reg.siteId, "Site " + reg.siteId, company.id);
      var ok := db.Flush(PrintJobService.WithSite(work, site));
      if !ok {
        return Err(IntegrityError);
      }
      return Ok(site);
    }

    /** `register_agent`: the site, the agent, then `commit()`; any error
        rolls back and answers 500. */
    method RegisterAgent(reg: AgentRegistration, now: int, newKey: string) returns (r: Result<Registered, ServiceError>)
      requires db.Valid()
      modifies db
      ensures db.Valid()
      ensures r.Ok? <==> !old(db.state).broken && RegisterStep(old(db.state).work, reg, now, newKey).Ok?
      ensures r.Ok? ==> var st := RegisterStep(old(db.state).work, reg, now, newKey).value;
        && r.value == Registered("success", "Agent registered successfully", st.value.id, st.value.apiKey)
        && db.state == Committed(old(db.state).(work := st.db))
      ensures r.Err? ==> r.error == RegistrationFailed
                         && db.state == SessionState(old(db.state).committed, old(db.state).committed, false)
    {
      if db.state.broken {
        db.Rollback();
        return Err(RegistrationFailed);
      }
      // The site step never fails (`SiteFor`), so only the agent's flush
      // can end in the rollback below.
      var found := FindOrCreateSite(reg, now);
      var site := found.value;
      var work := db.state.work;
      var agent: Agent;
      var ai := AgentAt(work.agents, reg.pcName, site.id);
      var next: Db;
      if ai.Some? {
        agent := Reregistered(work.agents[ai.value], reg, now);
        next := work.(agents := work.agents[ai.value := agent]);
      } else {
        agent := NewRegisteredAgent(work.nextId, now, reg, newKey, site.id);
        next := WithAgent(work, agent);
      }
      assert AgentStep(work, reg, site, now, newKey) == Flush(next, agent);
      var ok := db.Flush(next);
      if !ok {
        db.Rollback();
        return Err(RegistrationFailed);
      }
      ok := db.Commit();
      return Ok(Registered("success", "Agent registered successfully", agent.id, agent.apiKey));
    }
  }
}

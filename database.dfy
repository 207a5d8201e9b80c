/** The portal's database as a session of backend/app/core/database.py
    (`autocommit=False, autoflush=False`) sees it: tables as sequences of rows in insertion order, one id
    counter for every table, the unique constraints of
    backend/app/models/models.py checked at each flush, and a session whose
    transaction is rolled back by a failed flush and that then refuses every
    operation until `rollback()`. */
module Database {
  import opened Common
  import opened Models

  datatype Db = Db(
    companies: seq<Company>, sites: seq<Site>, users: seq<User>, agents: seq<Agent>,
    printers: seq<Printer>, jobs: seq<PrintJob>, configs: seq<SystemConfig>,
    nextId: nat)

  /** The empty database. */
  const EmptyDb := Db([], [], [], [], [], [], [], 1)

  /** What the unique constraints of the schema demand. */
  predicate Constraints(db: Db)
  {
    && UniqueDomains(db.companies)
    && UniqueSiteIds(db.sites)
    && UniqueUsernames(db.users) && UniqueEmails(db.users)
    && UniqueApiKeys(db.agents)
    && UniqueConfigKeys(db.configs)
  }

  /** Print job ids are distinct and below the id counter. */
  predicate JobIdsFresh(jobs: seq<PrintJob>, nextId: nat)
  {
    && (forall k :: 0 <= k < |jobs| ==> jobs[k].id < nextId)
    && (forall i, j :: 0 <= i < j < |jobs| ==> jobs[i].id != jobs[j].id)
  }

  /** A database the session can hold. */
  predicate ValidDb(db: Db)
  {
    Constraints(db) && JobIdsFresh(db.jobs, db.nextId)
  }

  /** Errors the services raise: a constraint violated at a flush, an
      operation on a session whose transaction failed, and the HTTP errors
      the services raise themselves. */
  datatype ServiceError = IntegrityError | PendingRollback | Http(status: int, detail: string)

  /** A database after an operation, with the operation's value. */
  datatype Step<T> = Step(db: Db, value: T)

  /** `session.add(row); session.flush()` as a value: the new state when it
      meets the constraints, an integrity error otherwise. */
  function Flush<T>(next: Db, v: T): (r: Result<Step<T>, ServiceError>)
    ensures r.Ok? <==> Constraints(next)
    ensures r.Ok? ==> r.value == Step(next, v)
    ensures r.Err? ==> r.error == IntegrityError
  {
    if Constraints(next) then Ok(Step(next, v)) else Err(IntegrityError)
  }

  /** The committed database, the state inside the open transaction, and
      whether a failed flush is waiting for a rollback. */
  datatype SessionState = SessionState(committed: Db, work: Db, broken: bool)

  predicate ValidState(s: SessionState)
  {
    ValidDb(s.committed) && ValidDb(s.work) && (s.broken ==> s.work == s.committed)
  }

  /** A failed flush rolls the transaction back and leaves the session
      waiting for `rollback()`. */
  function Aborted(s: SessionState): (t: SessionState)
    ensures t.broken && t.committed == s.committed && t.work == s.committed
  {
    SessionState(s.committed, s.committed, true)
  }

  /** The session after an operation of a service whose effect on the open
      transaction is `r`: nothing happens on a broken session; an integrity
      error aborts; an HTTP error is raised before anything was added. */
  function Run<T>(s: SessionState, r: Result<Step<T>, ServiceError>): (t: SessionState)
  {
    if s.broken then s
    else match r
      case Ok(st) => s.(work := st.db)
      case Err(IntegrityError) => Aborted(s)
      case Err(_) => s
  }

  /** What that operation returns. */
  function Answer<T>(s: SessionState, r: Result<Step<T>, ServiceError>): (a: Result<T, ServiceError>)
    ensures s.broken ==> a == Err(PendingRollback)
    ensures !s.broken && r.Ok? ==> a == Ok(r.value.value)
    ensures !s.broken && r.Err? ==> a == Err(r.error)
  {
    if s.broken then Err(PendingRollback)
    else match r
      case Ok(st) => Ok(st.value)
      case Err(e) => Err(e)
  }

  /** `commit()` on a session that is not broken. */
  function Committed(s: SessionState): (t: SessionState)
    ensures !t.broken && t.committed == s.work && t.work == s.work
  {
    SessionState(s.work, s.work, false)
  }

  /** Every operation of a broken session fails and changes nothing. */
  lemma BrokenRefusesAll<T>(s: SessionState, r: Result<Step<T>, ServiceError>)
    requires s.broken
    ensures Run(s, r) == s && Answer(s, r) == Err(PendingRollback)
  {
  }

  /** A session keeps its invariant through any operation whose effect is a
      valid database. */
  lemma RunKeepsValid<T>(s: SessionState, r: Result<Step<T>, ServiceError>)
    requires ValidState(s)
    requires r.Ok? ==> ValidDb(r.value.db)
    ensures ValidState(Run(s, r))
    ensures Run(s, r).committed == s.committed
  {
  }

  class Session {
    var state: SessionState

    ghost predicate Valid()
      reads this
    {
      ValidState(state)
    }

    constructor (db: Db)
      requires ValidDb(db)
      ensures Valid() && state == SessionState(db, db, false)
    {
      state := SessionState(db, db, false);
    }

    /** `flush()` of `next`, the open transaction with new rows added. */
    method Flush(next: Db) returns (ok: bool)
      requires Valid() && !state.broken
      requires JobIdsFresh(next.jobs, next.nextId)
      modifies this
      ensures Valid()
      ensures ok == Constraints(next)
      ensures state == if ok then old(state).(work := next) else Aborted(old(state))
    {
      ok := Constraints(next);
      if ok {
        state := state.(work := next);
      } else {
        state := Aborted(state);
      }
    }

    /** `commit()`: a broken session refuses it. */
    method Commit() returns (ok: bool)
      requires Valid()
      modifies this
      ensures Valid()
      ensures ok == !old(state).broken
      ensures state == if ok then Committed(old(state)) else old(state)
    {
      ok := !state.broken;
      if ok {
        state := Committed(state);
      }
    }

    /** `rollback()`: back to the committed database, ready for work. */
    method Rollback()
      requires Valid()
      modifies this
      ensures Valid()
      ensures state == SessionState(old(state).committed, old(state).committed, false)
    {
      state := SessionState(state.committed, state.committed, false);
    }
  }
}

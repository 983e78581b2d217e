/**
 The cache as a protocol between processes: threads take the lock of their process and then
 the exclusive file lock, reload, update, write a temporary file and rename it. Steps of all
 threads interleave freely, any save may fail, and any process may crash at any step.
 */
module CacheProtocol {
  import opened CacheFile
  import opened Basics

  type Thread = nat
  type Process = nat

  /** An operation in progress: how many commits it started after, and its place in lock order. */
  datatype Session = Session(op: Op, since: nat, grant: nat)

  /** Where a thread stands. From Locked on it holds the file lock. */
  datatype Pc =
    | Idle
    | Entered(s: Session)   // holds the lock of its process
    | Locked(s: Session)
    | Loaded(s: Session)    // the table is the file
    | Updated(s: Session)   // the table is what the file shall be
    | Writing(s: Session)   // temporary file opened, partly written
    | Flushed(s: Session)   // temporary file complete and synced
    | Renamed(s: Session)

  datatype Temp = Partial | Whole(rows: seq<Row>)

  /** A get that returned: what it asked for, what it got, and between which commits. */
  datatype Read = Read(sha: string, since: nat, at: nat, result: Option<seq<Problem>>)

  datatype State = State(
    pcs: map<Thread, Pc>,
    alive: set<Process>,
    tables: map<Process, seq<Row>>,
    processLock: map<Process, Thread>,
    fileLock: Option<Thread>,
    disk: Content,
    temps: map<Thread, Temp>,
    grants: seq<Op>,      // operations in the order in which they got the file lock
    order: seq<nat>,      // positions in grants of the operations that committed
    log: seq<Op>,         // the committed operations themselves
    answers: seq<Read>)

  datatype Action =
    | Enter(t: Thread, op: Op)
    | Acquire(t: Thread)
    | Reload(t: Thread)
    | ReloadFails(t: Thread)
    | Respond(t: Thread)
    | Update(t: Thread)
    | Wipe(t: Thread)
    | OpenTemp(t: Thread)
    | Flush(t: Thread)
    | Rename(t: Thread)
    | SaveFails(t: Thread)
    | Release(t: Thread)
    | Crash(p: Process)
    | Start(p: Process)

  /** Which process each thread belongs to. */
  type Owners = map<Thread, Process>

  ghost predicate Init(o: Owners, c: Content, s: State) {
    && s.pcs.Keys == o.Keys && (forall t :: t in o ==> s.pcs[t] == Idle)
    && s.alive == {} && s.tables == map[] && s.processLock == map[] && s.fileLock == None
    && s.disk == c && s.temps == map[]
    && s.grants == [] && s.order == [] && s.log == [] && s.answers == []
  }

  predicate Critical(pc: Pc) {
    !pc.Idle? && !pc.Entered?
  }

  /** Leaving an operation: both locks are given back. */
  function Leave(o: Owners, s: State, t: Thread): State
    requires t in o && t in s.pcs
  {
    s.(pcs := s.pcs[t := Idle], processLock := s.processLock - {o[t]}, fileLock := None, temps := s.temps - {t})
  }

  /** The content a rename puts in place: a partly written file is not a cache. */
  function Installed(temp: Temp): Content {
    match temp
    case Partial => Malformed
    case Whole(rows) => Rows(rows)
  }

  ghost predicate Can(o: Owners, s: State, t: Thread) {
    t in o && t in s.pcs && o[t] in s.alive && o[t] in s.tables
  }

  ghost predicate Next(o: Owners, s: State, a: Action, s': State) {
    match a
    case Enter(t, op) =>
      && Can(o, s, t) && s.pcs[t].Idle? && o[t] !in s.processLock && (!op.Clear? ==> op.sha != "")
      && s' == s.(pcs := s.pcs[t := Entered(Session(op, |s.log|, 0))], processLock := s.processLock[o[t] := t])
    case Acquire(t) =>
      && Can(o, s, t) && s.pcs[t].Entered? && s.fileLock == None
      && s' == s.(pcs := s.pcs[t := Locked(s.pcs[t].s.(grant := |s.grants|))], fileLock := Some(t),
                  grants := s.grants + [s.pcs[t].s.op])
    case Reload(t) =>
      && Can(o, s, t) && s.pcs[t].Locked? && !s.pcs[t].s.op.Clear? && Load(s.disk).Some?
      && s' == s.(pcs := s.pcs[t := Loaded(s.pcs[t].s)], tables := s.tables[o[t] := Load(s.disk).value])
    case ReloadFails(t) =>
      && Can(o, s, t) && s.pcs[t].Locked? && !s.pcs[t].s.op.Clear? && Load(s.disk).None?
      && s' == Leave(o, s, t)
    case Respond(t) =>
      && Can(o, s, t) && s.pcs[t].Loaded? && s.pcs[t].s.op.Get?
      && var x := s.pcs[t].s;
      s' == Leave(o, s, t).(answers := s.answers + [Read(x.op.sha, x.since, |s.log|, Lookup(s.tables[o[t]], x.op.sha))])
    case Update(t) =>
      && Can(o, s, t) && s.pcs[t].Loaded? && s.pcs[t].s.op.Set?
      && var x := s.pcs[t].s;
      s' == s.(pcs := s.pcs[t := Updated(x)],
               tables := s.tables[o[t] := Put(s.tables[o[t]], x.op.sha, CleanProblems(x.op.problems))])
    case Wipe(t) =>
      && Can(o, s, t) && s.pcs[t].Locked? && s.pcs[t].s.op.Clear?
      && s' == s.(pcs := s.pcs[t := Updated(s.pcs[t].s)], tables := s.tables[o[t] := []])
    case OpenTemp(t) =>
      && Can(o, s, t) && s.pcs[t].Updated?
      && s' == s.(pcs := s.pcs[t := Writing(s.pcs[t].s)], temps := s.temps[t := Partial])
    case Flush(t) =>
      && Can(o, s, t) && s.pcs[t].Writing?
      && s' == s.(pcs := s.pcs[t := Flushed(s.pcs[t].s)], temps := s.temps[t := Whole(s.tables[o[t]])])
    case Rename(t) =>
      && Can(o, s, t) && s.pcs[t].Flushed? && t in s.temps
      && s' == s.(pcs := s.pcs[t := Renamed(s.pcs[t].s)], disk := Installed(s.temps[t]), temps := s.temps - {t},
                  order := s.order + [s.pcs[t].s.grant], log := s.log + [s.pcs[t].s.op])
    case SaveFails(t) =>
      && Can(o, s, t) && (s.pcs[t].Updated? || s.pcs[t].Writing? || s.pcs[t].Flushed?)
      && s' == Leave(o, s, t)
    case Release(t) =>
      && Can(o, s, t) && s.pcs[t].Renamed?
      && s' == Leave(o, s, t)
    case Crash(p) =>
      && p in s.alive
      && s' == s.(pcs := map t | t in s.pcs :: if t in o && o[t] == p then Idle else s.pcs[t],
                  alive := s.alive - {p}, tables := s.tables - {p}, processLock := s.processLock - {p},
                  fileLock := if s.fileLock.Some? && s.fileLock.value in o && o[s.fileLock.value] == p
                              then None else s.fileLock,
                  temps := map t | t in s.temps && !(t in o && o[t] == p) :: s.temps[t])
    case Start(p) =>
      && p !in s.alive && Load(s.disk).Some?
      && s' == s.(alive := s.alive + {p}, tables := s.tables[p := Load(s.disk).value])
  }

  // ---------- The invariant ----------

  /** Locks: whoever works holds the lock of its process, and only the file-lock holder is critical. */
  ghost predicate Locking(o: Owners, s: State) {
    && s.pcs.Keys == o.Keys
    && (forall t :: t in o && !s.pcs[t].Idle? ==> o[t] in s.alive && o[t] in s.processLock && s.processLock[o[t]] == t)
    && (forall p :: p in s.alive ==> p in s.tables)
    && (forall p :: p in s.processLock ==> p in s.alive)
    && (forall t :: t in o ==> (Critical(s.pcs[t]) <==> s.fileLock == Some(t)))
    && (s.fileLock.Some? ==> s.fileLock.value in o)
  }

  /** History: the log is the granted operations at increasing positions, and the file replays it. */
  ghost predicate Recorded(c: Content, s: State) {
    && |s.order| == |s.log|
    && (forall i :: 0 <= i < |s.order| ==> s.order[i] < |s.grants| && s.log[i] == s.grants[s.order[i]])
    && (forall i, j :: 0 <= i < j < |s.order| ==> s.order[i] < s.order[j])
    && s.disk == Replay(c, s.log)
  }

  /** A writer's table is what its operation makes of the file. */
  ghost predicate Prepared(s: State, op: Op, rows: seq<Row>) {
    && !op.Get? && (op.Set? ==> op.sha != "" && Load(s.disk).Some?)
    && Rows(rows) == Apply(s.disk, op)
  }

  ghost predicate ThreadOk(o: Owners, s: State, t: Thread)
    requires t in o && t in s.pcs
  {
    match s.pcs[t]
    case Idle => true
    case Entered(x) => x.since <= |s.log| && (!x.op.Clear? ==> x.op.sha != "")
    case Locked(x) => Granted(s, x) && Uncommitted(s)
    case Loaded(x) =>
      && Granted(s, x) && Uncommitted(s) && !x.op.Clear?
      && o[t] in s.tables && Load(s.disk) == Some(s.tables[o[t]])
    case Updated(x) => Granted(s, x) && Uncommitted(s) && o[t] in s.tables && Prepared(s, x.op, s.tables[o[t]])
    case Writing(x) => Granted(s, x) && Uncommitted(s) && o[t] in s.tables && Prepared(s, x.op, s.tables[o[t]])
    case Flushed(x) =>
      && Granted(s, x) && Uncommitted(s) && o[t] in s.tables && Prepared(s, x.op, s.tables[o[t]])
      && t in s.temps && s.temps[t] == Whole(s.tables[o[t]])
    case Renamed(x) => Granted(s, x)
  }

  /** The holder of the file lock is the last one to have got it. */
  ghost predicate Granted(s: State, x: Session) {
    && x.since <= |s.log| && (!x.op.Clear? ==> x.op.sha != "")
    && s.grants != [] && x.grant == |s.grants| - 1 && s.grants[x.grant] == x.op
  }

  ghost predicate Uncommitted(s: State) {
    s.order == [] || s.order[|s.order| - 1] < |s.grants| - 1
  }

  /** Every get answered from the state after some commit made between its start and its end. */
  ghost predicate ReadsOk(c: Content, s: State) {
    forall i :: 0 <= i < |s.answers| ==>
                  var r := s.answers[i];
                  && r.since <= r.at <= |s.log|
                  && Load(Replay(c, s.log[..r.at])).Some?
                  && r.result == Lookup(Load(Replay(c, s.log[..r.at])).value, r.sha)
  }

  ghost predicate Inv(o: Owners, c: Content, s: State) {
    && Locking(o, s) && Recorded(c, s) && ReadsOk(c, s)
    && forall t :: t in o ==> ThreadOk(o, s, t)
  }

  lemma {:induction false} InitInv(o: Owners, c: Content, s: State)
    requires Init(o, c, s)
    ensures Inv(o, c, s)
  {
  }

  // ---------- The shape of steps ----------

  predicate IsInside(a: Action) {
    a.Reload? || a.Update? || a.Wipe? || a.OpenTemp? || a.Flush? || a.Rename?
  }

  predicate IsLeaving(a: Action) {
    a.ReloadFails? || a.Respond? || a.SaveFails? || a.Release?
  }

  /** A step of the lock holder that keeps the lock: only its own program counter moves. */
  ghost predicate InsideShape(o: Owners, s: State, t: Thread, s': State) {
    && t in o && t in s.pcs && Critical(s.pcs[t])
    && s'.pcs.Keys == s.pcs.Keys && Critical(s'.pcs[t])
    && (forall u :: u in s.pcs && u != t ==> s'.pcs[u] == s.pcs[u])
    && s'.alive == s.alive && s'.tables.Keys == s.tables.Keys + {o[t]}
    && s'.processLock == s.processLock && s'.fileLock == s.fileLock
    && s'.grants == s.grants && s.log <= s'.log && s'.answers == s.answers
  }

  lemma {:induction false} InsideSteps(o: Owners, s: State, a: Action, s': State)
    requires IsInside(a) && Next(o, s, a, s')
    ensures InsideShape(o, s, a.t, s')
    ensures !a.Rename? ==> s'.log == s.log && s'.order == s.order && s'.disk == s.disk
  {
  }

  ghost predicate LeavingShape(o: Owners, s: State, t: Thread, s': State) {
    && t in o && t in s.pcs && Critical(s.pcs[t])
    && s'.pcs == s.pcs[t := Idle] && s'.processLock == s.processLock - {o[t]} && s'.fileLock == None
    && s'.alive == s.alive && s'.tables == s.tables && s'.disk == s.disk
    && s'.grants == s.grants && s'.order == s.order && s'.log == s.log
  }

  lemma {:induction false} LeavingSteps(o: Owners, s: State, a: Action, s': State)
    requires IsLeaving(a) && Next(o, s, a, s')
    ensures LeavingShape(o, s, a.t, s')
    ensures !a.Respond? ==> s'.answers == s.answers
  {
  }

  /** Everything that the invariant says about a thread in the middle of an operation. */
  ghost predicate SameView(o: Owners, s: State, s': State, t: Thread) {
    && t in o && t in s.pcs && t in s'.pcs && s'.pcs[t] == s.pcs[t]
    && s'.grants == s.grants && s'.order == s.order && s'.log == s.log && s'.disk == s.disk
    && (o[t] in s.tables ==> o[t] in s'.tables && s'.tables[o[t]] == s.tables[o[t]])
    && (t in s.temps ==> t in s'.temps && s'.temps[t] == s.temps[t])
  }

  lemma {:induction false} SameViewOk(o: Owners, s: State, s': State, t: Thread)
    requires SameView(o, s, s', t) && ThreadOk(o, s, t)
    ensures ThreadOk(o, s', t)
  {
  }

  lemma {:induction false} WaitingOk(o: Owners, s: State, s': State, t: Thread)
    requires t in o && t in s.pcs && t in s'.pcs && ThreadOk(o, s, t)
    requires !Critical(s.pcs[t]) && s'.pcs[t] == s.pcs[t] && |s.log| <= |s'.log|
    ensures ThreadOk(o, s', t)
  {
  }

  // ---------- Preservation: locks ----------

  lemma {:induction false} LockingInside(o: Owners, s: State, t: Thread, s': State)
    requires Locking(o, s) && InsideShape(o, s, t, s')
    ensures Locking(o, s')
  {
  }

  lemma {:induction false} LockingLeaving(o: Owners, s: State, t: Thread, s': State)
    requires Locking(o, s) && LeavingShape(o, s, t, s')
    ensures Locking(o, s')
  {
    assert s.fileLock == Some(t);
    forall u | u in o && !s'.pcs[u].Idle?
      ensures o[u] in s'.alive && o[u] in s'.processLock && s'.processLock[o[u]] == u
    {
      assert u != t && s.processLock[o[u]] == u && s.processLock[o[t]] == t;
    }
  }

  lemma {:induction false} LockingEnter(o: Owners, s: State, a: Action, s': State)
    requires Locking(o, s) && (a.Enter? || a.Acquire?) && Next(o, s, a, s')
    ensures Locking(o, s')
  {
  }

  lemma {:induction false} LockingCrash(o: Owners, s: State, a: Action, s': State)
    requires Locking(o, s) && a.Crash? && Next(o, s, a, s')
    ensures Locking(o, s')
  {
    forall t | t in o ensures Critical(s'.pcs[t]) <==> s'.fileLock == Some(t) {
      assert Critical(s.pcs[t]) <==> s.fileLock == Some(t);
    }
    forall t | t in o && !s'.pcs[t].Idle?
      ensures o[t] in s'.alive && o[t] in s'.processLock && s'.processLock[o[t]] == t
    {
      assert o[t] != a.p;
    }
  }

  lemma {:induction false} LockingStart(o: Owners, s: State, a: Action, s': State)
    requires Locking(o, s) && a.Start? && Next(o, s, a, s')
    ensures Locking(o, s')
  {
  }

  lemma {:induction false} LockingStep(o: Owners, s: State, a: Action, s': State)
    requires Locking(o, s) && Next(o, s, a, s')
    ensures Locking(o, s')
  {
    if IsInside(a) {
      InsideSteps(o, s, a, s');
      LockingInside(o, s, a.t, s');
    } else if IsLeaving(a) {
      LeavingSteps(o, s, a, s');
      LockingLeaving(o, s, a.t, s');
    } else if a.Crash? {
      LockingCrash(o, s, a, s');
    } else if a.Start? {
      LockingStart(o, s, a, s');
    } else {
      LockingEnter(o, s, a, s');
    }
  }

  // ---------- Preservation: history ----------

  /** The commit: the renamed file is what the operation makes of the replayed log. */
  lemma {:induction false} RenameCommits(o: Owners, c: Content, s: State, a: Action, s': State)
    requires Inv(o, c, s) && a.Rename? && Next(o, s, a, s')
    ensures s'.disk == Apply(s.disk, s.pcs[a.t].s.op) && s'.log == s.log + [s.pcs[a.t].s.op]
    ensures Recorded(c, s')
  {
    assert ThreadOk(o, s, a.t);
    Committed(c, s, s.pcs[a.t].s, s');
  }

  lemma {:induction false} Committed(c: Content, s: State, x: Session, s': State)
    requires Recorded(c, s) && Granted(s, x) && Uncommitted(s)
    requires s'.disk == Apply(s.disk, x.op) && s'.log == s.log + [x.op] && s'.order == s.order + [x.grant]
    requires s'.grants == s.grants
    ensures Recorded(c, s')
  {
    ReplayNext(c, s.log, x.op);
    forall i, j | 0 <= i < j < |s'.order| ensures s'.order[i] < s'.order[j] {
      if j == |s.order| && i < |s.order| - 1 {
        assert s.order[i] < s.order[|s.order| - 1];
      }
    }
  }

  lemma {:induction false} ReplayNext(c: Content, log: seq<Op>, op: Op)
    ensures Replay(c, log + [op]) == Apply(Replay(c, log), op)
  {
    assert (log + [op])[..|log|] == log;
  }

  lemma {:induction false} RecordedStep(o: Owners, c: Content, s: State, a: Action, s': State)
    requires Inv(o, c, s) && Next(o, s, a, s')
    ensures Recorded(c, s')
  {
    if a.Rename? {
      RenameCommits(o, c, s, a, s');
    } else if IsInside(a) {
      InsideSteps(o, s, a, s');
    } else if IsLeaving(a) {
      LeavingSteps(o, s, a, s');
    }
  }

  lemma {:induction false} ReadsRespond(o: Owners, c: Content, s: State, a: Action, s': State)
    requires Inv(o, c, s) && a.Respond? && Next(o, s, a, s')
    ensures ReadsOk(c, s')
  {
    assert ThreadOk(o, s, a.t);
    TakeAll(s.log);
  }

  /** Answers stay right when the log only grows. */
  lemma {:induction false} ReadsKept(c: Content, s: State, s': State)
    requires ReadsOk(c, s) && s.log <= s'.log && s'.answers == s.answers
    ensures ReadsOk(c, s')
  {
    forall i | 0 <= i < |s.answers| ensures s'.log[..s.answers[i].at] == s.log[..s.answers[i].at] {}
  }

  lemma {:induction false} ReadsStep(o: Owners, c: Content, s: State, a: Action, s': State)
    requires Inv(o, c, s) && Next(o, s, a, s')
    ensures ReadsOk(c, s')
  {
    if a.Respond? {
      ReadsRespond(o, c, s, a, s');
    } else {
      if IsInside(a) {
        InsideSteps(o, s, a, s');
      } else if IsLeaving(a) {
        LeavingSteps(o, s, a, s');
      }
      ReadsKept(c, s, s');
    }
  }

  // ---------- Preservation: threads ----------

  lemma {:induction false} ActorLoads(o: Owners, s: State, a: Action, s': State)
    requires (a.Reload? || a.Update? || a.Wipe?) && Next(o, s, a, s') && a.t in o && a.t in s.pcs && ThreadOk(o, s, a.t)
    ensures ThreadOk(o, s', a.t)
  {
  }

  lemma {:induction false} ActorSaves(o: Owners, s: State, a: Action, s': State)
    requires (a.OpenTemp? || a.Flush? || a.Rename?) && Next(o, s, a, s') && a.t in o && a.t in s.pcs
    requires ThreadOk(o, s, a.t)
    ensures ThreadOk(o, s', a.t)
  {
  }

  lemma {:induction false} ActorInside(o: Owners, s: State, a: Action, s': State)
    requires IsInside(a) && Next(o, s, a, s') && a.t in o && a.t in s.pcs && ThreadOk(o, s, a.t)
    ensures ThreadOk(o, s', a.t)
  {
    if a.Reload? || a.Update? || a.Wipe? {
      ActorLoads(o, s, a, s');
    } else {
      ActorSaves(o, s, a, s');
    }
  }

  lemma {:induction false} ThreadsInside(o: Owners, c: Content, s: State, a: Action, s': State, t: Thread)
    requires Inv(o, c, s) && IsInside(a) && Next(o, s, a, s') && t in o && t in s'.pcs
    ensures ThreadOk(o, s', t)
  {
    InsideSteps(o, s, a, s');
    assert ThreadOk(o, s, t);
    if t == a.t {
      ActorInside(o, s, a, s');
    } else {
      WaitingOk(o, s, s', t);
    }
  }

  lemma {:induction false} ThreadsLeaving(o: Owners, c: Content, s: State, a: Action, s': State, t: Thread)
    requires Inv(o, c, s) && IsLeaving(a) && Next(o, s, a, s') && t in o && t in s'.pcs
    ensures ThreadOk(o, s', t)
  {
    LeavingSteps(o, s, a, s');
    assert ThreadOk(o, s, t);
    if t != a.t {
      WaitingOk(o, s, s', t);
    }
  }

  lemma {:induction false} ThreadsEnter(o: Owners, c: Content, s: State, a: Action, s': State, t: Thread)
    requires Inv(o, c, s) && (a.Enter? || a.Acquire?) && Next(o, s, a, s') && t in o && t in s'.pcs
    ensures ThreadOk(o, s', t)
  {
    assert ThreadOk(o, s, t);
    if t != a.t {
      if a.Enter? {
        SameViewOk(o, s, s', t);
      } else {
        WaitingOk(o, s, s', t);
      }
    } else if a.Acquire? {
      assert s.order == [] || s.order[|s.order| - 1] < |s.grants|;
    }
  }

  lemma {:induction false} ThreadsCrash(o: Owners, c: Content, s: State, a: Action, s': State, t: Thread)
    requires Inv(o, c, s) && (a.Crash? || a.Start?) && Next(o, s, a, s') && t in o && t in s'.pcs
    ensures ThreadOk(o, s', t)
  {
    assert ThreadOk(o, s, t);
    if !s'.pcs[t].Idle? {
      SameViewOk(o, s, s', t);
    }
  }

  lemma {:induction false} ThreadStep(o: Owners, c: Content, s: State, a: Action, s': State, t: Thread)
    requires Inv(o, c, s) && Next(o, s, a, s') && t in o && t in s'.pcs
    ensures ThreadOk(o, s', t)
  {
    if IsInside(a) {
      ThreadsInside(o, c, s, a, s', t);
    } else if IsLeaving(a) {
      ThreadsLeaving(o, c, s, a, s', t);
    } else if a.Crash? || a.Start? {
      ThreadsCrash(o, c, s, a, s', t);
    } else {
      ThreadsEnter(o, c, s, a, s', t);
    }
  }

  lemma {:induction false} InvStep(o: Owners, c: Content, s: State, a: Action, s': State)
    requires Inv(o, c, s) && Next(o, s, a, s')
    ensures Inv(o, c, s')
  {
    LockingStep(o, s, a, s');
    RecordedStep(o, c, s, a, s');
    ReadsStep(o, c, s, a, s');
    forall t | t in o ensures ThreadOk(o, s', t) {
      ThreadStep(o, c, s, a, s', t);
    }
  }

  // ---------- Whole runs ----------

  ghost predicate IsRun(o: Owners, c: Content, states: seq<State>, actions: seq<Action>) {
    && |states| == |actions| + 1
    && Init(o, c, states[0])
    && forall i :: 0 <= i < |actions| ==> Next(o, states[i], actions[i], states[i + 1])
  }

  lemma {:induction false} RunInv(o: Owners, c: Content, states: seq<State>, actions: seq<Action>, i: nat)
    requires IsRun(o, c, states, actions) && i < |states|
    ensures Inv(o, c, states[i])
  {
    if i == 0 {
      InitInv(o, c, states[0]);
    } else {
      RunInv(o, c, states, actions, i - 1);
      InvStep(o, c, states[i - 1], actions[i - 1], states[i]);
    }
  }

  /**
   At every point of every run the file is the replay of the committed operations, and these
   are a subsequence of the operations in lock order. So nothing committed is lost, and a file
   that could be read at the start can always be read.
   */
  lemma {:induction false} FileReplaysCommits(o: Owners, c: Content, states: seq<State>, actions: seq<Action>, i: nat)
    requires IsRun(o, c, states, actions) && i < |states|
    ensures var s := states[i];
            && s.disk == Replay(c, s.log)
            && |s.order| == |s.log|
            && (forall k :: 0 <= k < |s.log| ==> s.order[k] < |s.grants| && s.log[k] == s.grants[s.order[k]])
            && (forall j, k :: 0 <= j < k < |s.log| ==> s.order[j] < s.order[k])
    ensures c != Malformed ==> states[i].disk != Malformed
  {
    RunInv(o, c, states, actions, i);
    Readable(c, states[i].log);
  }

  /** In every run, at most one thread is between taking and releasing the file lock. */
  lemma {:induction false} MutualExclusion(o: Owners, c: Content, states: seq<State>, actions: seq<Action>, i: nat,
                                           t: Thread, u: Thread)
    requires IsRun(o, c, states, actions) && i < |states|
    requires t in states[i].pcs && !states[i].pcs[t].Idle? && !states[i].pcs[t].Entered?
    requires u in states[i].pcs && !states[i].pcs[u].Idle? && !states[i].pcs[u].Entered?
    ensures t == u
  {
    RunInv(o, c, states, actions, i);
  }

  /** A malformed file is never overwritten by set: the only step that replaces it ends a clear. */
  lemma {:induction false} MalformedOnlyCleared(o: Owners, c: Content, states: seq<State>, actions: seq<Action>, i: nat)
    requires IsRun(o, c, states, actions) && i < |actions|
    requires states[i].disk == Malformed && states[i + 1].disk != Malformed
    ensures actions[i].Rename? && actions[i].t in states[i].pcs
    ensures states[i].pcs[actions[i].t].Flushed? && states[i].pcs[actions[i].t].s.op.Clear?
    ensures states[i + 1].disk == Rows([])
  {
    RunInv(o, c, states, actions, i);
    DiskStep(o, c, states[i], actions[i], states[i + 1]);
  }

  /** Only a rename touches the file, and it has the effect of the operation that it ends. */
  lemma {:induction false} DiskStep(o: Owners, c: Content, s: State, a: Action, s': State)
    requires Inv(o, c, s) && Next(o, s, a, s') && s'.disk != s.disk
    ensures a.Rename? && a.t in o && a.t in s.pcs && s.pcs[a.t].Flushed?
    ensures s'.disk == Apply(s.disk, s.pcs[a.t].s.op)
    ensures Load(s.disk).None? ==> s.pcs[a.t].s.op.Clear?
  {
    if a.Rename? {
      RenameCommits(o, c, s, a, s');
      assert ThreadOk(o, s, a.t);
    } else if IsInside(a) {
      InsideSteps(o, s, a, s');
    } else if IsLeaving(a) {
      LeavingSteps(o, s, a, s');
    }
  }

  /**
   At every point of every run, an entry that was committed and neither replaced nor cleared since is in
   the file, with all its problems and fields.
   */
  lemma {:induction false} CommittedIsOnDisk(o: Owners, c: Content, states: seq<State>, actions: seq<Action>, i: nat,
                                             k: nat)
    requires IsRun(o, c, states, actions) && i < |states| && c != Malformed
    requires var log := states[i].log;
             && k < |log| && log[k].Set? && log[k].sha != ""
             && forall j :: k < j < |log| ==> !log[j].Clear? && !(log[j].Set? && log[j].sha == log[k].sha)
    ensures states[i].disk.Rows?
    ensures var found := Lookup(states[i].disk.rows, states[i].log[k].sha);
            found.Some? && HoldsStored(states[i].log[k].problems, found.value)
  {
    RunInv(o, c, states, actions, i);
    NoLostUpdate(c, states[i].log, k);
  }

  /**
   Reads are linearisable: a get answers from the file as it stood after some prefix of the log
   that contains every operation committed before the get began. So an entry committed before,
   and not replaced or cleared within that prefix, is what the get returns, problem by problem.
   */
  lemma {:induction false} GetSeesEarlierSets(o: Owners, c: Content, states: seq<State>, actions: seq<Action>, i: nat,
                                              r: nat, k: nat)
    requires IsRun(o, c, states, actions) && i < |states|
    requires var s := states[i];
             && r < |s.answers| && k < s.answers[r].since && k < |s.log|
             && s.log[k].Set? && s.log[k].sha == s.answers[r].sha && s.answers[r].sha != ""
             && (c != Malformed || exists j :: 0 <= j < k && s.log[j].Clear?)
             && forall j :: k < j < s.answers[r].at && j < |s.log| ==>
                              !s.log[j].Clear? && !(s.log[j].Set? && s.log[j].sha == s.log[k].sha)
    ensures states[i].answers[r].result.Some?
    ensures HoldsStored(states[i].log[k].problems, states[i].answers[r].result.value)
  {
    RunInv(o, c, states, actions, i);
    var s := states[i];
    var seen := s.log[..s.answers[r].at];
    assert seen[..k] == s.log[..k];
    if j :| 0 <= j < k && s.log[j].Clear? {
      assert seen[j].Clear?;
    }
    NoLostUpdate(c, seen, k);
    CleanHoldsStored(s.log[k].problems);
  }

  // ---------- The protocol can do its work ----------

  /** A state in which process p is up and nothing is under way. */
  ghost predicate Quiet(o: Owners, s: State, t: Thread) {
    && Can(o, s, t) && s.pcs[t].Idle? && o[t] !in s.processLock && s.fileLock == None && s.disk != Malformed
  }

  /** Thread t holds both locks, with an operation under way that did not touch the file yet. */
  ghost predicate Working(o: Owners, s: State, before: State, t: Thread, x: Session) {
    && Can(o, s, t) && s.pcs[t] != Idle && s.pcs[t] != Entered(x) && s.pcs[t].s == x
    && s.processLock == before.processLock[o[t] := t] && s.fileLock == Some(t)
    && s.disk == before.disk && s.log == before.log && x.op.Set?
  }

  lemma {:induction false} CanLoad(o: Owners, s: State, t: Thread, op: Op) returns (s1: State, s2: State, s3: State,
                                                                                    x: Session)
    requires Quiet(o, s, t) && op.Set? && op.sha != ""
    ensures Next(o, s, Enter(t, op), s1) && Next(o, s1, Acquire(t), s2) && Next(o, s2, Reload(t), s3)
    ensures x.op == op && Working(o, s3, s, t, x) && s3.pcs[t] == Loaded(x)
    ensures s3.tables[o[t]] == Load(s.disk).value
  {
    s1 := s.(pcs := s.pcs[t := Entered(Session(op, |s.log|, 0))], processLock := s.processLock[o[t] := t]);
    x := Session(op, |s.log|, |s.grants|);
    s2 := s1.(pcs := s1.pcs[t := Locked(x)], fileLock := Some(t), grants := s.grants + [op]);
    s3 := s2.(pcs := s2.pcs[t := Loaded(x)], tables := s2.tables[o[t] := Load(s.disk).value]);
  }

  lemma {:induction false} CanWrite(o: Owners, before: State, s: State, t: Thread, x: Session)
    returns (s1: State, s2: State, s3: State)
    requires Working(o, s, before, t, x) && s.pcs[t] == Loaded(x)
    ensures Next(o, s, Update(t), s1) && Next(o, s1, OpenTemp(t), s2) && Next(o, s2, Flush(t), s3)
    ensures Working(o, s3, before, t, x) && s3.pcs[t] == Flushed(x) && t in s3.temps
    ensures s3.temps[t] == Whole(Put(s.tables[o[t]], x.op.sha, CleanProblems(x.op.problems)))
  {
    var rows := Put(s.tables[o[t]], x.op.sha, CleanProblems(x.op.problems));
    s1 := s.(pcs := s.pcs[t := Updated(x)], tables := s.tables[o[t] := rows]);
    s2 := s1.(pcs := s1.pcs[t := Writing(x)], temps := s1.temps[t := Partial]);
    s3 := s2.(pcs := s2.pcs[t := Flushed(x)], temps := s2.temps[t := Whole(rows)]);
  }

  lemma {:induction false} CanCommit(o: Owners, before: State, s: State, t: Thread, x: Session, rows: seq<Row>)
    returns (s1: State, s2: State)
    requires Quiet(o, before, t) && Working(o, s, before, t, x) && s.pcs[t] == Flushed(x)
    requires t in s.temps && s.temps[t] == Whole(rows)
    ensures Next(o, s, Rename(t), s1) && Next(o, s1, Release(t), s2)
    ensures Quiet(o, s2, t) && s2.disk == Rows(rows) && s2.log == before.log + [x.op]
  {
    s1 := s.(pcs := s.pcs[t := Renamed(x)], disk := Rows(rows), temps := s.temps - {t},
             order := s.order + [x.grant], log := s.log + [x.op]);
    s2 := Leave(o, s1, t);
  }

  /** From every quiet state a thread can carry out a set alone, and then the entry is in the file. */
  lemma {:induction false} SetCanFinish(o: Owners, s: State, t: Thread, sha: string, problems: seq<Problem>)
    returns (s1: State, s2: State, s3: State, s4: State, s5: State, s6: State, s7: State, s8: State)
    requires Quiet(o, s, t) && sha != ""
    ensures Next(o, s, Enter(t, Op.Set(sha, problems)), s1) && Next(o, s1, Acquire(t), s2) && Next(o, s2, Reload(t), s3)
    ensures Next(o, s3, Update(t), s4) && Next(o, s4, OpenTemp(t), s5) && Next(o, s5, Flush(t), s6)
    ensures Next(o, s6, Rename(t), s7) && Next(o, s7, Release(t), s8)
    ensures Quiet(o, s8, t) && s8.log == s.log + [Op.Set(sha, problems)] && s8.disk.Rows?
    ensures var found := Lookup(s8.disk.rows, sha); found.Some? && HoldsStored(problems, found.value)
  {
    var x;
    s1, s2, s3, x := CanLoad(o, s, t, Op.Set(sha, problems));
    s4, s5, s6 := CanWrite(o, s, s3, t, x);
    var rows := Put(Load(s.disk).value, sha, CleanProblems(problems));
    s7, s8 := CanCommit(o, s, s6, t, x, rows);
    FindPut(Load(s.disk).value, sha, CleanProblems(problems), sha);
    CleanHoldsStored(problems);
  }

  /** A process can come up whenever the file can be read, and it can crash at any time. */
  lemma {:induction false} CanStartAndCrash(o: Owners, s: State, p: Process) returns (s': State)
    requires p !in s.alive ==> s.disk != Malformed
    ensures if p in s.alive then Next(o, s, Crash(p), s') && p !in s'.alive
            else Next(o, s, Start(p), s') && p in s'.alive
  {
    if p in s.alive {
      s' := s.(pcs := map t | t in s.pcs :: if t in o && o[t] == p then Idle else s.pcs[t],
               alive := s.alive - {p}, tables := s.tables - {p}, processLock := s.processLock - {p},
               fileLock := if s.fileLock.Some? && s.fileLock.value in o && o[s.fileLock.value] == p
                           then None else s.fileLock,
               temps := map t | t in s.temps && !(t in o && o[t] == p) :: s.temps[t]);
    } else {
      s' := s.(alive := s.alive + {p}, tables := s.tables[p := Load(s.disk).value]);
    }
  }

  /** From every quiet state a thread can carry out a get alone, and it answers from the file. */
  lemma {:induction false} GetCanFinish(o: Owners, s: State, t: Thread, sha: string)
    returns (s1: State, s2: State, s3: State, s4: State)
    requires Quiet(o, s, t) && sha != ""
    ensures Next(o, s, Enter(t, Op.Get(sha)), s1) && Next(o, s1, Acquire(t), s2)
    ensures Next(o, s2, Reload(t), s3) && Next(o, s3, Respond(t), s4)
    ensures Quiet(o, s4, t) && s4.disk == s.disk && s4.log == s.log
    ensures s4.answers == s.answers + [Read(sha, |s.log|, |s.log|, Lookup(Load(s.disk).value, sha))]
  {
    var op := Op.Get(sha);
    s1 := s.(pcs := s.pcs[t := Entered(Session(op, |s.log|, 0))], processLock := s.processLock[o[t] := t]);
    var x := Session(op, |s.log|, |s.grants|);
    s2 := s1.(pcs := s1.pcs[t := Locked(x)], fileLock := Some(t), grants := s.grants + [op]);
    s3 := s2.(pcs := s2.pcs[t := Loaded(x)], tables := s2.tables[o[t] := Load(s.disk).value]);
    s4 := Leave(o, s3, t).(answers := s.answers + [Read(sha, |s.log|, |s.log|, Lookup(Load(s.disk).value, sha))]);
  }

  lemma {:induction false} CanWipe(o: Owners, s: State, t: Thread) returns (s1: State, s2: State, s3: State, x: Session)
    requires Can(o, s, t) && s.pcs[t].Idle? && o[t] !in s.processLock && s.fileLock == None
    ensures Next(o, s, Enter(t, Op.Clear), s1) && Next(o, s1, Acquire(t), s2) && Next(o, s2, Wipe(t), s3)
    ensures x.op == Op.Clear && Can(o, s3, t) && s3.pcs[t] == Updated(x) && s3.tables[o[t]] == [] && s3.log == s.log
  {
    s1 := s.(pcs := s.pcs[t := Entered(Session(Op.Clear, |s.log|, 0))], processLock := s.processLock[o[t] := t]);
    x := Session(Op.Clear, |s.log|, |s.grants|);
    s2 := s1.(pcs := s1.pcs[t := Locked(x)], fileLock := Some(t), grants := s.grants + [Op.Clear]);
    s3 := s2.(pcs := s2.pcs[t := Updated(x)], tables := s2.tables[o[t] := []]);
  }

  lemma {:induction false} CanSave(o: Owners, s: State, t: Thread, x: Session)
    returns (s1: State, s2: State, s3: State, s4: State)
    requires Can(o, s, t) && s.pcs[t] == Updated(x)
    ensures Next(o, s, OpenTemp(t), s1) && Next(o, s1, Flush(t), s2) && Next(o, s2, Rename(t), s3)
    ensures Next(o, s3, Release(t), s4) && s4.disk == Rows(s.tables[o[t]]) && s4.log == s.log + [x.op]
  {
    s1 := s.(pcs := s.pcs[t := Writing(x)], temps := s.temps[t := Partial]);
    s2 := s1.(pcs := s1.pcs[t := Flushed(x)], temps := s1.temps[t := Whole(s.tables[o[t]])]);
    s3 := s2.(pcs := s2.pcs[t := Renamed(x)], disk := Rows(s.tables[o[t]]), temps := s2.temps - {t},
              order := s.order + [x.grant], log := s.log + [x.op]);
    s4 := Leave(o, s3, t);
  }

  /** A clear can be carried out even on a file that cannot be read. */
  lemma {:induction false} ClearCanFinish(o: Owners, s: State, t: Thread)
    returns (s1: State, s2: State, s3: State, s4: State, s5: State, s6: State, s7: State)
    requires Can(o, s, t) && s.pcs[t].Idle? && o[t] !in s.processLock && s.fileLock == None
    ensures Next(o, s, Enter(t, Op.Clear), s1) && Next(o, s1, Acquire(t), s2) && Next(o, s2, Wipe(t), s3)
    ensures Next(o, s3, OpenTemp(t), s4) && Next(o, s4, Flush(t), s5) && Next(o, s5, Rename(t), s6)
    ensures Next(o, s6, Release(t), s7) && s7.disk == Rows([]) && s7.log == s.log + [Op.Clear]
  {
    var x;
    s1, s2, s3, x := CanWipe(o, s, t);
    s4, s5, s6, s7 := CanSave(o, s3, t, x);
  }
}

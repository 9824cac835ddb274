/** Waiting for rows and for database clients. A transaction keeps its client while it waits for
    a row, and the one that holds the row needs a second client to look up user and role. */
module WorkflowPool {
  import opened Collections
  import opened WorkflowLedger
  import opened Workflow

  // No database operation of these steps is rejected.
  predicate NothingRejected(steps: seq<Step>) {
    forall i :: 0 <= i < |steps| ==> !(steps[i].OfTx? && steps[i].txStep.Abort?)
  }

  // The steps of transaction t alone, none of them rejected.
  predicate Alone(steps: seq<Step>, t: TxId) {
    forall i :: 0 <= i < |steps| ==> steps[i].OfTx? && steps[i].tx == t && !steps[i].txStep.Abort?
  }

  // What transaction t runs into after its lock, or would with the row as it is: the lookups.
  predicate NeedsClient(registry: Registry, instances: map<Id, Instance>, tx: Tx) {
    match tx.stage
    case Waiting => tx.instanceId in instances && Checked(registry, tx, instances[tx.instanceId]).Goes?
    case Locked(row) => Checked(registry, tx, row).Goes?
    case Authorising(_) => true
    case Fetching(_, _) => true
    case _ => false
  }

  // ---- A transaction with a free client ends by itself ----

  function Rank(stage: Stage): nat {
    match stage
    case Waiting => 8
    case Locked(_) => 7
    case Authorising(_) => 6
    case Fetching(_, _) => 5
    case Permitted(_, _) => 4
    case Handled(_, _, _) => 3
    case Stepped(_, _, _, _) => 2
    case Saved(_, _, _, _) => 1
  }

  // It has the client it needs, now and in every later stage.
  predicate Served(s: State, t: TxId)
    requires t in s.txs
  {
    ClientFree(s) || !NeedsClient(s.registry, s.db.instances, s.txs[t])
  }

  // A transaction past its lock has a next step of its own.
  lemma OwnStep(s: State, t: TxId) returns (step: TxStep)
    requires t in s.txs && !s.txs[t].stage.Waiting? && TxFits(s.registry, s.txs[t]) && Served(s, t)
    ensures TxEnabled(s, t, step) && !step.Abort? && !step.Lock?
    ensures Next(s, t, step).Goes? ==> Rank(Next(s, t, step).stage) < Rank(s.txs[t].stage)
  {
    var id := FreshExists(s.issued);
    assert id !in s.issued;
    match s.txs[t].stage
    case Locked(_) => step := CheckRow;
    case Authorising(_) => step := FindUser;
    case Fetching(_, _) => step := FindRole;
    case Permitted(row, _) =>
      step := if s.txs[t].action == Reject then InsertStep(id)
              else if HandlerFails(s.registry, row) then HandlerThrows else RunHandler(id);
    case Handled(_, _, _) => step := InsertStep(id);
    case Stepped(_, _, _, _) => step := UpdateInstance;
    case Saved(_, _, _, _) => step := Commit;
  }

  lemma StageServed(s: State, t: TxId, step: TxStep)
    requires TxEnabled(s, t, step) && !step.Lock? && Served(s, t) && Next(s, t, step).Goes?
    ensures (var next := Next(s, t, step);
             && !next.stage.Waiting?
             && (ClientFree(s) || !NeedsClient(s.registry, s.db.instances, s.txs[t].(stage := next.stage, writes := next.writes))))
  {
  }

  // s1 is s after a step of transaction t alone, which ended it or left it with a client.
  predicate WentOn(s: State, t: TxId, s1: State) {
    && s1.txs - {t} == s.txs - {t} && s.db.instances.Keys <= s1.db.instances.Keys && s1.pool == s.pool
    && (t in s1.txs ==> !s1.txs[t].stage.Waiting? && Served(s1, t))
  }

  lemma OwnStepGoes(s: State, t: TxId, step: TxStep)
    requires TxEnabled(s, t, step) && !step.Lock? && Served(s, t) && Next(s, t, step).Goes?
    ensures (var s1 := ApplyTx(s, t, step);
             WentOn(s, t, s1) && t in s1.txs && s1.txs[t].stage == Next(s, t, step).stage)
  {
    StageServed(s, t, step);
    TxCount(s.txs, t, ApplyTx(s, t, step).txs[t]);
    RemovedKey(s.txs, t, t, ApplyTx(s, t, step).txs[t]);
    hide Next, NeedsClient, TxEnabled;
  }

  lemma OwnStepEnds(s: State, t: TxId, step: TxStep)
    requires TxEnabled(s, t, step) && Next(s, t, step).Ends?
    ensures WentOn(s, t, ApplyTx(s, t, step)) && t !in ApplyTx(s, t, step).txs
  {
    RemovedKey(s.txs, t, t, s.txs[t]);
    hide Next, Served, TxEnabled;
  }

  lemma TxStepIs(s: State, t: TxId, step: TxStep)
    requires TxEnabled(s, t, step)
    ensures Enabled(s, OfTx(t, step)) && Apply(s, OfTx(t, step)) == ApplyTx(s, t, step)
  {
    hide TxEnabled, ApplyTx;
  }

  // Taking its steps one after another, the transaction ends.
  lemma {:induction false} Finishes(s: State, t: TxId) returns (steps: seq<Step>, s': State)
    requires Inv(s) && t in s.txs && !s.txs[t].stage.Waiting? && Served(s, t)
    ensures Run(s, steps, s') && Inv(s') && Alone(steps, t)
    ensures WentOn(s, t, s') && t !in s'.txs
    decreases Rank(s.txs[t].stage)
  {
    hide Inv, Enabled, Apply, ApplyTx, TxEnabled, Rank, Served, Next;
    FitsAt(s, t);
    var step := OwnStep(s, t);
    var s1 := ApplyTx(s, t, step);
    TxInv(s, t, step);
    TxStepIs(s, t, step);
    if Next(s, t, step).Goes? {
      OwnStepGoes(s, t, step);
    } else {
      OwnStepEnds(s, t, step);
    }
    if t !in s1.txs {
      steps, s' := [OfTx(t, step)], s1;
      OneStep(s, OfTx(t, step));
    } else {
      var rest;
      rest, s' := Finishes(s1, t);
      steps := [OfTx(t, step)] + rest;
      assert steps[1..] == rest;
    }
  }

  lemma OneStep(s: State, step: Step)
    requires Enabled(s, step)
    ensures Run(s, [step], Apply(s, step))
  {
    hide Enabled, Apply;
    assert [step][1..] == [];
  }

  // ---- Without one it does not, ever ----

  // The pool is used up, and t is between its lock and its lookups with a row that passes.
  predicate Stuck(s: State, t: TxId) {
    && !ClientFree(s) && t in s.txs && !s.txs[t].stage.Waiting?
    && NeedsClient(s.registry, s.db.instances, s.txs[t])
  }

  lemma StuckStep(s: State, t: TxId, step: TxStep)
    requires Stuck(s, t) && TxEnabled(s, t, step) && !step.Abort?
    ensures Stuck(ApplyTx(s, t, step), t)
  {
    assert step.CheckRow?;
    TxCount(s.txs, t, ApplyTx(s, t, step).txs[t]);
  }

  lemma {:induction false} StuckAlone(s: State, steps: seq<Step>, s': State, t: TxId)
    requires Stuck(s, t) && Run(s, steps, s') && Alone(steps, t)
    ensures t in s'.txs
    decreases |steps|
  {
    hide TxEnabled, ApplyTx;
    if steps == [] {
      hide NeedsClient;
    } else {
      StuckStep(s, t, steps[0].txStep);
      hide Stuck;
      forall i | 0 <= i < |steps[1..]| ensures steps[1..][i].OfTx? && steps[1..][i].tx == t && !steps[1..][i].txStep.Abort? {
        assert steps[1..][i] == steps[i + 1];
      }
      StuckAlone(Apply(s, steps[0]), steps[1..], s', t);
    }
  }

  ghost predicate EndsAlone(s: State, t: TxId) {
    exists steps, s' :: Run(s, steps, s') && Alone(steps, t) && t !in s'.txs
  }

  // Whoever holds a row can end by its own steps, none of them rejected, exactly if a client is
  // free or it needs no further one: its row is refused, or its lookups are behind it.
  lemma HolderEndsIff(s: State, t: TxId)
    requires Inv(s) && t in s.txs && !s.txs[t].stage.Waiting?
    ensures EndsAlone(s, t) <==> ClientFree(s) || !NeedsClient(s.registry, s.db.instances, s.txs[t])
  {
    hide Inv, NeedsClient;
    if ClientFree(s) || !NeedsClient(s.registry, s.db.instances, s.txs[t]) {
      var steps, s' := Finishes(s, t);
    } else {
      forall steps, s' | Run(s, steps, s') && Alone(steps, t) ensures t in s'.txs {
        StuckAlone(s, steps, s', t);
      }
    }
  }

  // ---- Who waits for a row gets it, unless every client is caught ----

  predicate WaitsForLock(s: State, t: TxId)
    requires t in s.txs
  {
    s.txs[t].stage.Waiting? && s.txs[t].instanceId in s.locks
  }

  // A transaction that cannot end without a client: its row is locked, or it needs the lookups.
  predicate Caught(s: State, t: TxId)
    requires t in s.txs
  {
    || WaitsForLock(s, t)
    || NeedsClient(s.registry, s.db.instances, s.txs[t])
  }

  ghost predicate Deadlocked(s: State) {
    !ClientFree(s) && forall t :: t in s.txs ==> Caught(s, t)
  }

  // The calls under way are still under way.
  ghost predicate SameCalls(s: State, s': State) {
    forall t :: t in s.txs ==> t in s'.txs && s'.txs[t].instanceId == s.txs[t].instanceId
  }

  // Rows with locks exist.
  ghost predicate LocksOnRows(s: State) {
    forall i :: i in s.locks ==> i in s.db.instances
  }

  lemma LockedRowsExist(s: State)
    requires Inv(s)
    ensures LocksOnRows(s)
  {
    hide TxsFit, IdsApart, Replay;
  }

  lemma CaughtStep(s: State, t: TxId, step: TxStep)
    requires Deadlocked(s) && LocksOnRows(s) && TxEnabled(s, t, step) && !step.Abort?
    ensures step.Lock? || step.CheckRow?
    ensures Next(s, t, step).Goes?
    ensures (var next := Next(s, t, step);
             NeedsClient(s.registry, s.db.instances, s.txs[t].(stage := next.stage, writes := next.writes)))
    ensures step.Lock? ==> s.txs[t].instanceId !in s.locks && s.txs[t].instanceId in s.db.instances
  {
    assert Caught(s, t);
    hide Deadlocked;
  }

  lemma DeadlockTx(s: State, t: TxId, step: TxStep)
    requires Deadlocked(s) && LocksOnRows(s) && TxEnabled(s, t, step) && !step.Abort?
    ensures (var s1 := ApplyTx(s, t, step);
             Deadlocked(s1) && LocksOnRows(s1) && s.locks.Keys <= s1.locks.Keys && SameCalls(s, s1))
  {
    hide Next, TxEnabled, NeedsClient, WaitsForLock, ApplyTx;
    CaughtStep(s, t, step);
    GoesIs(s, t, step);
    TxCount(s.txs, t, ApplyTx(s, t, step).txs[t]);
    forall u | u in s.txs && u != t ensures Caught(ApplyTx(s, t, step), u) {
      CaughtStays(s, t, step, u);
    }
  }

  lemma GoesIs(s: State, t: TxId, step: TxStep)
    requires TxEnabled(s, t, step) && Next(s, t, step).Goes?
    ensures (var s1, next := ApplyTx(s, t, step), Next(s, t, step);
             && t in s.txs && s1.txs == s.txs[t := s.txs[t].(stage := next.stage, writes := next.writes)]
             && s1.pool == s.pool && s1.registry == s.registry && s1.db == s.db
             && s1.locks == if step.Lock? then s.locks[s.txs[t].instanceId := t] else s.locks)
  {
    hide Next;
  }

  // The others' rows stay locked, and the instances as they are.
  lemma CaughtStays(s: State, t: TxId, step: TxStep, u: TxId)
    requires Deadlocked(s) && TxEnabled(s, t, step) && Next(s, t, step).Goes? && u in s.txs && u != t
    ensures u in ApplyTx(s, t, step).txs && Caught(ApplyTx(s, t, step), u)
  {
    assert Caught(s, u);
    hide Next, TxEnabled, NeedsClient, Deadlocked;
  }

  // Nothing but a rejected operation undoes it: no call begins, none ends, no lock is freed.
  lemma DeadlockStep(s: State, step: Step)
    requires Deadlocked(s) && LocksOnRows(s) && Enabled(s, step) && !(step.OfTx? && step.txStep.Abort?)
    ensures Deadlocked(Apply(s, step)) && LocksOnRows(Apply(s, step))
    ensures s.locks.Keys <= Apply(s, step).locks.Keys && SameCalls(s, Apply(s, step))
  {
    if step.OfTx? {
      DeadlockTx(s, step.tx, step.txStep);
      hide Deadlocked, ApplyTx, TxEnabled;
    } else {
      assert step.AssignRole? || step.PutRole?;
      forall t | t in s.txs ensures Caught(Apply(s, step), t) {
        assert Caught(s, t);
      }
      hide NeedsClient;
    }
  }

  lemma {:induction false} DeadlockLasts(s: State, steps: seq<Step>, s': State)
    requires Deadlocked(s) && LocksOnRows(s) && Run(s, steps, s') && NothingRejected(steps)
    ensures Deadlocked(s') && s.locks.Keys <= s'.locks.Keys && SameCalls(s, s')
    decreases |steps|
  {
    hide Deadlocked, LocksOnRows, Enabled, Apply;
    if steps != [] {
      DeadlockStep(s, steps[0]);
      forall i | 0 <= i < |steps[1..]| ensures !(steps[1..][i].OfTx? && steps[1..][i].txStep.Abort?) {
        assert steps[1..][i] == steps[i + 1];
      }
      DeadlockLasts(Apply(s, steps[0]), steps[1..], s');
    }
  }

  // A transaction that has the client it needs and whose row nobody else holds ends by itself.
  lemma FreeOneEnds(s: State, t: TxId) returns (steps: seq<Step>, s': State)
    requires Inv(s) && t in s.txs && !WaitsForLock(s, t) && Served(s, t)
    ensures Run(s, steps, s') && Inv(s') && Alone(steps, t)
    ensures WentOn(s, t, s') && t !in s'.txs
  {
    hide Inv, NeedsClient, Enabled, Apply, ApplyTx, TxEnabled;
    if !s.txs[t].stage.Waiting? {
      steps, s' := Finishes(s, t);
    } else if s.txs[t].instanceId !in s.db.instances {
      s' := NothingFound(s, t);
      steps := [OfTx(t, FindNothing)];
    } else {
      var s1 := LockTaken(s, t);
      var rest;
      rest, s' := Finishes(s1, t);
      steps := [OfTx(t, Lock)] + rest;
      assert steps[1..] == rest;
    }
  }

  lemma NothingFound(s: State, t: TxId) returns (s': State)
    requires Inv(s) && t in s.txs && s.txs[t].stage.Waiting? && s.txs[t].instanceId !in s.db.instances
    ensures Run(s, [OfTx(t, FindNothing)], s') && Inv(s') && WentOn(s, t, s') && t !in s'.txs
  {
    hide Inv;
    s' := ApplyTx(s, t, FindNothing);
    TxInv(s, t, FindNothing);
    OwnStepEnds(s, t, FindNothing);
    OneStep(s, OfTx(t, FindNothing));
  }

  lemma LockTaken(s: State, t: TxId) returns (s1: State)
    requires Inv(s) && t in s.txs && s.txs[t].stage.Waiting? && s.txs[t].instanceId in s.db.instances
    requires !WaitsForLock(s, t) && Served(s, t)
    ensures Enabled(s, OfTx(t, Lock)) && Apply(s, OfTx(t, Lock)) == s1 && Inv(s1)
    ensures WentOn(s, t, s1) && t in s1.txs
  {
    hide Inv;
    s1 := ApplyTx(s, t, Lock);
    TxInv(s, t, Lock);
    TxCount(s.txs, t, s1.txs[t]);
    RemovedKey(s.txs, t, t, s1.txs[t]);
  }

  lemma RunJoins(s: State, before: seq<Step>, s1: State, after: seq<Step>, s2: State)
    requires Run(s, before, s1) && Run(s1, after, s2)
    ensures Run(s, before + after, s2)
    decreases |before|
  {
    hide Enabled, Apply;
    if before == [] {
      assert before + after == after;
    } else {
      RunJoins(Apply(s, before[0]), before[1..], s1, after, s2);
      assert (before + after)[1..] == before[1..] + after;
    }
  }

  lemma HolderOf(s: State, id: Id)
    requires Inv(s) && id in s.locks
    ensures s.locks[id] in s.txs && !s.txs[s.locks[id]].stage.Waiting? && s.txs[s.locks[id]].instanceId == id
    ensures id in s.db.instances
  {
    hide TxsFit, IdsApart, Replay;
  }

  // A row has one lock holder, so with the holder gone nobody holds it.
  lemma RowFree(s: State, s': State, id: Id)
    requires Inv(s) && Inv(s') && id in s.locks && s'.txs == s.txs - {s.locks[id]}
    ensures id !in s'.locks
  {
    hide RowsCurrent, TxsFit, IdsApart, Replay;
  }

  lemma AloneIsNothingRejected(steps: seq<Step>, t: TxId)
    requires Alone(steps, t)
    ensures NothingRejected(steps)
  {
  }

  lemma WaitsNoLonger(s: State, s': State, t: TxId, holder: TxId)
    requires t in s.txs && s.txs[t].stage.Waiting? && s.txs[t].instanceId in s.db.instances && t != holder
    requires s'.txs == s.txs - {holder} && s.db.instances.Keys <= s'.db.instances.Keys && s.txs[t].instanceId !in s'.locks
    ensures TxEnabled(s', t, Lock)
  {
    assert t in s'.txs && s'.txs[t] == s.txs[t];
  }

  // With a free client the holder of the row ends, and the row is there for who waits for it.
  lemma HolderGivesWay(s: State, t: TxId) returns (steps: seq<Step>, s': State)
    requires Inv(s) && t in s.txs && s.txs[t].stage.Waiting? && s.txs[t].instanceId in s.locks && ClientFree(s)
    ensures Run(s, steps, s') && NothingRejected(steps) && TxEnabled(s', t, Lock)
  {
    hide Inv, NeedsClient, TxEnabled, Run, Alone, NothingRejected;
    var id := s.txs[t].instanceId;
    HolderOf(s, id);
    steps, s' := Finishes(s, s.locks[id]);
    RowFree(s, s', id);
    AloneIsNothingRejected(steps, s.locks[id]);
    WaitsNoLonger(s, s', t, s.locks[id]);
  }

  lemma RowThere(s: State, t: TxId)
    requires Inv(s) && t in s.txs && s.txs[t].stage.Waiting? && s.txs[t].instanceId in s.db.instances
    ensures s.txs[t].instanceId in s.locks || TxEnabled(s, t, Lock)
  {
  }

  lemma WaiterServed(s: State, t: TxId) returns (steps: seq<Step>, s': State)
    requires Inv(s) && t in s.txs && s.txs[t].stage.Waiting? && s.txs[t].instanceId in s.locks && !Deadlocked(s)
    ensures Run(s, steps, s') && NothingRejected(steps) && TxEnabled(s', t, Lock)
  {
    hide Inv, Run, NeedsClient, TxEnabled;
    if ClientFree(s) {
      steps, s' := HolderGivesWay(s, t);
    } else {
      var u :| u in s.txs && !Caught(s, u);
      var before, s1 := FreeOneEnds(s, u);
      FewerClients(s, s1, u);
      HolderOf(s, s.txs[t].instanceId);
      assert t in s1.txs && s1.txs[t] == s.txs[t];
      RowThere(s1, t);
      if TxEnabled(s1, t, Lock) {
        steps, s' := before, s1;
      } else {
        var after;
        after, s' := HolderGivesWay(s1, t);
        RunJoins(s, before, s1, after, s');
        steps := before + after;
      }
    }
  }

  lemma FewerClients(s: State, s': State, u: TxId)
    requires Inv(s) && u in s.txs && s'.txs == s.txs - {u} && s'.pool == s.pool
    ensures ClientFree(s')
  {
    hide LocksHeld, RowsCurrent, TxsFit, IdsApart, Replay;
    TxCount(s.txs, u, s.txs[u]);
  }

  ghost predicate GetsRow(s: State, t: TxId) {
    exists steps, s' :: Run(s, steps, s') && NothingRejected(steps) && TxEnabled(s', t, Lock)
  }

  // Exactly when waiting for a row can end without a rejected operation: unless every client is
  // with a transaction that waits for a locked row or needs a second client.
  lemma WaiterGetsTheRow(s: State, t: TxId)
    requires Inv(s) && t in s.txs && s.txs[t].stage.Waiting? && s.txs[t].instanceId in s.locks
    ensures GetsRow(s, t) <==> !Deadlocked(s)
  {
    hide Inv, Deadlocked;
    if Deadlocked(s) {
      LockedRowsExist(s);
      forall steps, s' | Run(s, steps, s') && NothingRejected(steps) ensures !TxEnabled(s', t, Lock) {
        DeadlockLasts(s, steps, s');
      }
    } else {
      var steps, s' := WaiterServed(s, t);
    }
  }

  // ---- Exactly when some call can end ----

  ghost predicate SomeCallEnds(s: State) {
    exists steps, s', t :: Run(s, steps, s') && NothingRejected(steps) && t in s.txs && t !in s'.txs
  }

  lemma SomeoneFree(s: State) returns (t: TxId)
    requires Inv(s) && s.txs != map[] && !Deadlocked(s)
    ensures t in s.txs && !WaitsForLock(s, t) && Served(s, t)
  {
    hide Inv, NeedsClient;
    if u :| u in s.txs && !Caught(s, u) {
      t := u;
    } else {
      t :| t in s.txs;
      if WaitsForLock(s, t) {
        HolderOf(s, s.txs[t].instanceId);
        t := s.locks[s.txs[t].instanceId];
      }
    }
  }

  // Some call under way can end without a rejected operation, whatever the others do, unless
  // the pool is used up by calls that wait for a locked row or need a second client.
  lemma SomeCallEndsIff(s: State)
    requires Inv(s) && s.txs != map[]
    ensures SomeCallEnds(s) <==> !Deadlocked(s)
  {
    hide Inv, Deadlocked;
    if Deadlocked(s) {
      LockedRowsExist(s);
      forall steps, s', t | Run(s, steps, s') && NothingRejected(steps) && t in s.txs ensures t in s'.txs {
        DeadlockLasts(s, steps, s');
      }
    } else {
      var t := SomeoneFree(s);
      var steps, s' := FreeOneEnds(s, t);
      AloneIsNothingRejected(steps, t);
    }
  }

  // ---- The calls that use the pool up ----

  const ASKER: Id := 0
  const APPROVER: Id := 1

  // n calls of approve on the same pending instance: the first has the row, the others wait.
  function Callers(row: Instance, n: nat): (txs: map<TxId, Tx>)
    requires n > 0
    ensures |txs| == n && forall t: TxId :: t in txs <==> t < n
    ensures forall t :: t in txs ==> txs[t] == Tx(Approve, 0, APPROVER, if t == 0 then Locked(row) else Waiting, NO_ROWS)
  {
    if n == 1 then map[][0 := Tx(Approve, 0, APPROVER, Locked(row), NO_ROWS)]
    else Callers(row, n - 1)[n - 1 := Tx(Approve, 0, APPROVER, Waiting, NO_ROWS)]
  }

  function Crowd(registry: Registry, kind: string, pool: nat, n: nat): State
    requires n > 0
  {
    var row := Requested(kind, Other(0), 0, ASKER);
    State(pool, NO_ROWS.(instances := map[0 := row]), registry, map[], map[], Callers(row, n), map[0 := 0], {}, map[],
          [Create(0, kind, Other(0), 0, ASKER)])
  }

  lemma FirstCall(registry: Registry, kind: string, pool: nat) returns (steps: seq<Step>)
    requires kind in registry && pool > 0
    ensures Run(Initial(registry, pool), steps, Crowd(registry, kind, pool, 1))
  {
    var s0 := Initial(registry, pool);
    var create, begin, lock := CreateInstance(0, kind, Other(0), 0, ASKER), Begin(0, Approve, 0, APPROVER), OfTx(0, Lock);
    var s1 := Apply(s0, create);
    var s2 := Apply(s1, begin);
    assert Enabled(s2, lock) && Apply(s2, lock) == Crowd(registry, kind, pool, 1);
    hide Enabled, Apply, Crowd, Initial;
    OneStep(s0, create);
    OneStep(s1, begin);
    OneStep(s2, lock);
    RunJoins(s0, [create], s1, [begin], s2);
    RunJoins(s0, [create] + [begin], s2, [lock], Apply(s2, lock));
    steps := [create] + [begin] + [lock];
  }

  lemma {:induction false} CallsGather(registry: Registry, kind: string, pool: nat, n: nat) returns (steps: seq<Step>)
    requires kind in registry && 0 < n <= pool
    ensures Run(Initial(registry, pool), steps, Crowd(registry, kind, pool, n))
  {
    if n == 1 {
      steps := FirstCall(registry, kind, pool);
    } else {
      var before := CallsGather(registry, kind, pool, n - 1);
      var s, begin := Crowd(registry, kind, pool, n - 1), Begin(n - 1, Approve, 0, APPROVER);
      assert Enabled(s, begin) && Apply(s, begin) == Crowd(registry, kind, pool, n);
      hide Enabled, Apply, Crowd, Initial;
      OneStep(s, begin);
      RunJoins(Initial(registry, pool), before, s, [begin], Apply(s, begin));
      steps := before + [begin];
    }
  }

  // As many calls of approve on one pending instance as there are clients can lock each other
  // out, even a single call if there is one client: from there on none of them ever ends.
  lemma PoolDeadlock(registry: Registry, kind: string, pool: nat) returns (s: State)
    requires kind in registry && pool > 0
    ensures Reachable(registry, s) && s.pool == pool && |s.txs| == pool && Deadlocked(s) && !SomeCallEnds(s)
    ensures forall t :: t in s.txs ==> s.txs[t].action == Approve && s.txs[t].instanceId == 0 && s.txs[t].approverId == APPROVER
    ensures 0 in s.db.instances && s.db.instances[0].status == Pending && s.db.instances[0].requestedBy == ASKER
  {
    var steps := CallsGather(registry, kind, pool, pool);
    s := Crowd(registry, kind, pool, pool);
    assert Deadlocked(s);
    InitialInv(registry, pool);
    InvRun(Initial(registry, pool), steps, s);
    assert 0 in s.txs;
    SomeCallEndsIff(s);
    hide Run, Initial, Inv, SomeCallEnds;
  }
}

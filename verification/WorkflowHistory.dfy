/** Where the role of a committed decision came from: the tables of users and roles may change at
    any time, and each decision rests on what they held when its own transaction looked. */
module WorkflowHistory {
  import opened Collections
  import opened WorkflowLedger
  import opened Workflow

  /** A run with all its states: steps[i] leads from trail[i] to trail[i + 1]. */
  ghost predicate Trail(registry: Registry, trail: seq<State>, steps: seq<Step>) {
    && |trail| == |steps| + 1 && trail[0] == Initial(registry, trail[0].pool)
    && (forall i :: 0 <= i < |steps| ==> Enabled(trail[i], steps[i]) && trail[i + 1] == Apply(trail[i], steps[i]))
  }

  predicate HadRole(s: State, userId: Id, roleId: Id) {
    userId in s.users && s.users[userId] == Some(roleId)
  }

  predicate RoleStored(s: State, roleId: Id, role: Role) {
    roleId in s.roles && s.roles[roleId] == role
  }

  // Step i is the given step of transaction t.
  predicate Took(steps: seq<Step>, i: int, t: TxId, step: TxStep) {
    0 <= i < |steps| && steps[i] == OfTx(t, step)
  }

  ghost predicate TookLock(steps: seq<Step>, t: TxId) {
    exists a :: Took(steps, a, t, Lock)
  }

  // Transaction t locked its row, then looked up the user, who had this role id at that moment.
  ghost predicate SawUser(trail: seq<State>, steps: seq<Step>, t: TxId, userId: Id, roleId: Id) {
    exists a, i :: a < i < |trail| && Took(steps, a, t, Lock) && Took(steps, i, t, FindUser) && HadRole(trail[i], userId, roleId)
  }

  // And then looked up that role id, which held this role at that later moment.
  ghost predicate SawRole(trail: seq<State>, steps: seq<Step>, t: TxId, userId: Id, role: Role) {
    exists a, i, j, roleId ::
      && a < i < j < |trail|
      && Took(steps, a, t, Lock) && Took(steps, i, t, FindUser) && Took(steps, j, t, FindRole)
      && HadRole(trail[i], userId, roleId) && RoleStored(trail[j], roleId, role)
  }

  ghost predicate StageSeen(trail: seq<State>, steps: seq<Step>, t: TxId, approverId: Id, stage: Stage) {
    match stage
    case Waiting => true
    case Locked(_) => TookLock(steps, t)
    case Authorising(_) => TookLock(steps, t)
    case Fetching(_, roleId) => SawUser(trail, steps, t, approverId, roleId)
    case Permitted(_, role) => SawRole(trail, steps, t, approverId, role)
    case Handled(_, role, _) => SawRole(trail, steps, t, approverId, role)
    case Stepped(_, role, _, _) => SawRole(trail, steps, t, approverId, role)
    case Saved(_, role, _, _) => SawRole(trail, steps, t, approverId, role)
  }

  ghost predicate TxsSeen(trail: seq<State>, steps: seq<Step>, txs: map<TxId, Tx>) {
    forall t :: t in txs ==> StageSeen(trail, steps, t, txs[t].approverId, txs[t].stage)
  }

  // Call k of the log is the commit of a transaction at step b, which saw the role before b.
  ghost predicate CommittedAt(trail: seq<State>, steps: seq<Step>, b: int, t: TxId, k: nat, op: Op) {
    && Took(steps, b, t, Commit) && b < |trail| && |trail[b].log| == k
    && op.Decide? && SawRole(trail[..b + 1], steps[..b], t, op.approverId, op.role)
  }

  ghost predicate LogSeen(trail: seq<State>, steps: seq<Step>, log: seq<Op>) {
    forall k :: 0 <= k < |log| && log[k].Decide? ==> exists b, t :: CommittedAt(trail, steps, b, t, k, log[k])
  }

  // ---- What was seen stays seen ----

  lemma TookStill(steps: seq<Step>, step: Step, i: int, t: TxId, k: TxStep)
    requires Took(steps, i, t, k)
    ensures Took(steps + [step], i, t, k)
  {
  }

  lemma UserStillSeen(trail: seq<State>, steps: seq<Step>, s: State, step: Step, t: TxId, userId: Id, roleId: Id)
    requires SawUser(trail, steps, t, userId, roleId)
    ensures SawUser(trail + [s], steps + [step], t, userId, roleId)
  {
    var a, i :| a < i < |trail| && Took(steps, a, t, Lock) && Took(steps, i, t, FindUser) && HadRole(trail[i], userId, roleId);
    TookStill(steps, step, a, t, Lock);
    TookStill(steps, step, i, t, FindUser);
    assert HadRole((trail + [s])[i], userId, roleId);
  }

  lemma RoleStillSeen(trail: seq<State>, steps: seq<Step>, s: State, step: Step, t: TxId, userId: Id, role: Role)
    requires SawRole(trail, steps, t, userId, role)
    ensures SawRole(trail + [s], steps + [step], t, userId, role)
  {
    var a, i, j, roleId :|
      && a < i < j < |trail|
      && Took(steps, a, t, Lock) && Took(steps, i, t, FindUser) && Took(steps, j, t, FindRole)
      && HadRole(trail[i], userId, roleId) && RoleStored(trail[j], roleId, role);
    TookStill(steps, step, a, t, Lock);
    TookStill(steps, step, i, t, FindUser);
    TookStill(steps, step, j, t, FindRole);
    assert HadRole((trail + [s])[i], userId, roleId) && RoleStored((trail + [s])[j], roleId, role);
  }

  lemma LockStillTaken(steps: seq<Step>, step: Step, t: TxId)
    requires TookLock(steps, t)
    ensures TookLock(steps + [step], t)
  {
    var a :| Took(steps, a, t, Lock);
    TookStill(steps, step, a, t, Lock);
  }

  lemma StageStillSeen(trail: seq<State>, steps: seq<Step>, s: State, step: Step, t: TxId, approverId: Id, stage: Stage)
    requires StageSeen(trail, steps, t, approverId, stage)
    ensures StageSeen(trail + [s], steps + [step], t, approverId, stage)
  {
    hide TookLock, SawUser, SawRole;
    match stage
    case Waiting =>
    case Locked(_) => LockStillTaken(steps, step, t);
    case Authorising(_) => LockStillTaken(steps, step, t);
    case Fetching(_, roleId) => UserStillSeen(trail, steps, s, step, t, approverId, roleId);
    case Permitted(_, role) => RoleStillSeen(trail, steps, s, step, t, approverId, role);
    case Handled(_, role, _) => RoleStillSeen(trail, steps, s, step, t, approverId, role);
    case Stepped(_, role, _, _) => RoleStillSeen(trail, steps, s, step, t, approverId, role);
    case Saved(_, role, _, _) => RoleStillSeen(trail, steps, s, step, t, approverId, role);
  }

  lemma LogStillSeen(trail: seq<State>, steps: seq<Step>, s: State, step: Step, log: seq<Op>)
    requires |trail| == |steps| + 1 && LogSeen(trail, steps, log)
    ensures LogSeen(trail + [s], steps + [step], log)
  {
    hide SawRole;
    forall k | 0 <= k < |log| && log[k].Decide?
      ensures exists b, t :: CommittedAt(trail + [s], steps + [step], b, t, k, log[k])
    {
      var b, t :| CommittedAt(trail, steps, b, t, k, log[k]);
      TookStill(steps, step, b, t, Commit);
      assert (trail + [s])[..b + 1] == trail[..b + 1] && (steps + [step])[..b] == steps[..b];
      assert CommittedAt(trail + [s], steps + [step], b, t, k, log[k]);
    }
  }

  // ---- What a step sees ----

  lemma LocksNow(steps: seq<Step>, t: TxId)
    ensures TookLock(steps + [OfTx(t, Lock)], t)
  {
    assert Took(steps + [OfTx(t, Lock)], |steps|, t, Lock);
  }

  lemma SeesUserNow(trail: seq<State>, steps: seq<Step>, s: State, t: TxId, userId: Id, roleId: Id)
    requires |trail| == |steps| + 1 && TookLock(steps, t) && HadRole(trail[|steps|], userId, roleId)
    ensures SawUser(trail + [s], steps + [OfTx(t, FindUser)], t, userId, roleId)
  {
    var a :| Took(steps, a, t, Lock);
    var longer, i := steps + [OfTx(t, FindUser)], |steps|;
    TookStill(steps, OfTx(t, FindUser), a, t, Lock);
    assert Took(longer, i, t, FindUser) && HadRole((trail + [s])[i], userId, roleId);
  }

  lemma SeesRoleNow(trail: seq<State>, steps: seq<Step>, s: State, t: TxId, userId: Id, roleId: Id)
    requires |trail| == |steps| + 1 && SawUser(trail, steps, t, userId, roleId) && roleId in trail[|steps|].roles
    ensures SawRole(trail + [s], steps + [OfTx(t, FindRole)], t, userId, trail[|steps|].roles[roleId])
  {
    var a, i :| a < i < |trail| && Took(steps, a, t, Lock) && Took(steps, i, t, FindUser) && HadRole(trail[i], userId, roleId);
    var longer, j := steps + [OfTx(t, FindRole)], |steps|;
    TookStill(steps, OfTx(t, FindRole), a, t, Lock);
    TookStill(steps, OfTx(t, FindRole), i, t, FindUser);
    assert Took(longer, j, t, FindRole);
    assert HadRole((trail + [s])[i], userId, roleId);
    assert RoleStored((trail + [s])[j], roleId, trail[|steps|].roles[roleId]);
  }

  // A transaction that goes on has seen what its next stage says.
  lemma NextSeen(trail: seq<State>, steps: seq<Step>, s: State, t: TxId, step: TxStep, s': State)
    requires |trail| == |steps| + 1 && trail[|steps|] == s && TxEnabled(s, t, step) && Next(s, t, step).Goes?
    requires StageSeen(trail, steps, t, s.txs[t].approverId, s.txs[t].stage)
    ensures StageSeen(trail + [s'], steps + [OfTx(t, step)], t, s.txs[t].approverId, Next(s, t, step).stage)
  {
    hide TookLock, SawUser, SawRole;
    var tx := s.txs[t];
    StageStillSeen(trail, steps, s', OfTx(t, step), t, tx.approverId, tx.stage);
    if step.Lock? {
      LocksNow(steps, t);
    } else if step.FindUser? {
      SeesUserNow(trail, steps, s', t, tx.approverId, s.users[tx.approverId].value);
    } else if step.FindRole? {
      SeesRoleNow(trail, steps, s', t, tx.approverId, tx.stage.roleId);
    }
  }

  lemma CommitSeen(trail: seq<State>, steps: seq<Step>, s: State, t: TxId, s': State)
    requires |trail| == |steps| + 1 && trail[|steps|] == s && TxEnabled(s, t, Commit) && TxsSeen(trail, steps, s.txs)
    ensures CommittedAt(trail + [s'], steps + [OfTx(t, Commit)], |steps|, t, |s.log|, OpOf(s.txs[t]))
  {
    hide SawRole;
    assert StageSeen(trail, steps, t, s.txs[t].approverId, s.txs[t].stage);
    var b, longer := |steps|, steps + [OfTx(t, Commit)];
    assert (trail + [s'])[..b + 1] == trail && longer[..b] == steps;
    assert Took(longer, b, t, Commit);
  }

  lemma TxsStepSeen(trail: seq<State>, steps: seq<Step>, s: State, step: Step)
    requires |trail| == |steps| + 1 && trail[|steps|] == s && Enabled(s, step) && TxsSeen(trail, steps, s.txs)
    ensures TxsSeen(trail + [Apply(s, step)], steps + [step], Apply(s, step).txs)
  {
    var s' := Apply(s, step);
    hide StageSeen, Next;
    if step.OfTx? && Next(s, step.tx, step.txStep).Goes? {
      NextSeen(trail, steps, s, step.tx, step.txStep, s');
    }
    forall t | t in s'.txs ensures StageSeen(trail + [s'], steps + [step], t, s'.txs[t].approverId, s'.txs[t].stage) {
      if step.Begin? && step.tx == t {
        BegunSeen(trail + [s'], steps + [step], t, s'.txs[t]);
      } else if !(step.OfTx? && step.tx == t) {
        StageStillSeen(trail, steps, s', step, t, s.txs[t].approverId, s.txs[t].stage);
      }
    }
  }

  lemma BegunSeen(trail: seq<State>, steps: seq<Step>, t: TxId, tx: Tx)
    requires tx.stage.Waiting?
    ensures StageSeen(trail, steps, t, tx.approverId, tx.stage)
  {
  }

  lemma LogStepSeen(trail: seq<State>, steps: seq<Step>, s: State, step: Step)
    requires |trail| == |steps| + 1 && trail[|steps|] == s && Enabled(s, step)
    requires TxsSeen(trail, steps, s.txs) && LogSeen(trail, steps, s.log)
    ensures LogSeen(trail + [Apply(s, step)], steps + [step], Apply(s, step).log)
  {
    var s' := Apply(s, step);
    LogStillSeen(trail, steps, s', step, s.log);
    if step.OfTx? && step.txStep.Commit? {
      CommitSeen(trail, steps, s, step.tx, s');
      assert s'.log == s.log + [OpOf(s.txs[step.tx])];
    }
    hide CommittedAt, Next, TxsSeen;
  }

  lemma {:induction false} TrailSeen(registry: Registry, trail: seq<State>, steps: seq<Step>)
    requires Trail(registry, trail, steps)
    ensures TxsSeen(trail, steps, trail[|steps|].txs) && LogSeen(trail, steps, trail[|steps|].log)
    decreases |steps|
  {
    hide Enabled, Apply, TxsSeen, LogSeen;
    if steps == [] {
      StartSeen(registry, trail);
    } else {
      var n := |steps| - 1;
      var before := trail[..n + 1];
      TrailSeen(registry, before, steps[..n]);
      TxsStepSeen(before, steps[..n], trail[n], steps[n]);
      LogStepSeen(before, steps[..n], trail[n], steps[n]);
      assert trail == before + [trail[n + 1]] && steps == steps[..n] + [steps[n]];
    }
  }

  lemma StartSeen(registry: Registry, trail: seq<State>)
    requires trail != [] && trail[0] == Initial(registry, trail[0].pool)
    ensures TxsSeen(trail, [], trail[0].txs) && LogSeen(trail, [], trail[0].log)
  {
  }

  // For every committed decision of any run: it is the commit of one transaction, and between its
  // lock and its commit that transaction looked up the approver, who had a role id at that moment,
  // and then that id, which held at that moment the role the decision was checked with; and that
  // role is of the instance's tenant and holds the permission registered for its type.
  lemma DecisionRestsOnStoredRole(registry: Registry, trail: seq<State>, steps: seq<Step>, k: nat)
    requires Trail(registry, trail, steps) && k < |trail[|steps|].log| && trail[|steps|].log[k].Decide?
    ensures (var op := trail[|steps|].log[k];
             && (exists b, t :: CommittedAt(trail, steps, b, t, k, op))
             && (var before := Replay(registry, trail[|steps|].log[..k]);
                 && before.Some? && op.id in before.value.instances
                 && (var row := before.value.instances[op.id];
                     row.kind in registry && RoleAllows(op.role, row.tenantId, registry[row.kind].permission))))
  {
    TrailSeen(registry, trail, steps);
    TrailIsRun(registry, trail, steps);
    DecisionsWereAllowed(registry, trail[|steps|], k);
    hide CommittedAt, Replay, Reachable, Trail, RoleAllows;
  }

  lemma TrailIsRun(registry: Registry, trail: seq<State>, steps: seq<Step>)
    requires Trail(registry, trail, steps)
    ensures Reachable(registry, trail[|steps|])
  {
    RunFrom(trail, steps);
    InitialInv(registry, trail[0].pool);
    InvRun(trail[0], steps, trail[|steps|]);
    hide Enabled, Apply, Inv;
  }

  lemma {:induction false} RunFrom(trail: seq<State>, steps: seq<Step>)
    requires |trail| == |steps| + 1
    requires forall i :: 0 <= i < |steps| ==> Enabled(trail[i], steps[i]) && trail[i + 1] == Apply(trail[i], steps[i])
    ensures Run(trail[0], steps, trail[|steps|])
    decreases |steps|
  {
    hide Enabled, Apply;
    if steps != [] {
      forall i | 0 <= i < |steps[1..]|
        ensures Enabled(trail[1..][i], steps[1..][i]) && trail[1..][i + 1] == Apply(trail[1..][i], steps[1..][i])
      {
        assert trail[1..][i] == trail[i + 1] && steps[1..][i] == steps[i + 1] && trail[1..][i + 1] == trail[i + 2];
      }
      RunFrom(trail[1..], steps[1..]);
    }
  }
}

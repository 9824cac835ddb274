/** Who is let through: what each check of an approval decides, and that a pending row is the
    row that was created. */
module WorkflowDecisions {
  import opened Collections
  import opened WorkflowLedger
  import opened Workflow

  // The approver has a role of the instance's tenant that holds the permission of its type.
  predicate Qualified(users: map<Id, Option<Id>>, roles: map<Id, Role>, registry: Registry, row: Instance, userId: Id) {
    && userId in users && users[userId].Some? && users[userId].value in roles
    && row.kind in registry && RoleAllows(roles[users[userId].value], row.tenantId, registry[row.kind].permission)
  }

  // What the code asks of the row itself.
  predicate Open(registry: Registry, row: Instance, action: Action, approverId: Id) {
    && row.status == Pending && row.kind in registry && (action == Approve ==> approverId != row.requestedBy)
  }

  // The transaction goes on from its check of the row exactly if the row is open to the approver.
  lemma RowPassesIff(s: State, t: TxId)
    requires TxEnabled(s, t, CheckRow)
    ensures (var tx, s' := s.txs[t], ApplyTx(s, t, CheckRow);
             && (t in s'.txs <==> Open(s.registry, tx.stage.row, tx.action, tx.approverId))
             && (t in s'.txs ==> s'.txs[t] == tx.(stage := Authorising(tx.stage.row)))
             && s'.db == s.db)
  {
  }

  // From the lookup of the user, exactly if the user has a role id, and with that role id.
  lemma UserPassesIff(s: State, t: TxId)
    requires TxEnabled(s, t, FindUser)
    ensures (var tx, s' := s.txs[t], ApplyTx(s, t, FindUser);
             && (t in s'.txs <==> tx.approverId in s.users && s.users[tx.approverId].Some?)
             && (t in s'.txs ==> s'.txs[t] == tx.(stage := Fetching(tx.stage.row, s.users[tx.approverId].value)))
             && (t !in s'.txs ==> s'.ended == s.ended[t := Forbidden] && s'.db == s.db))
  {
  }

  // From the lookup of the role, exactly if the role exists, is of the instance's tenant, and has
  // the registered permission among whatever else it has.
  lemma RolePassesIff(s: State, t: TxId)
    requires Inv(s) && TxEnabled(s, t, FindRole)
    ensures (var tx, s' := s.txs[t], ApplyTx(s, t, FindRole);
             var id, row := tx.stage.roleId, tx.stage.row;
             && (t in s'.txs <==>
                   id in s.roles && row.kind in s.registry
                   && RoleAllows(s.roles[id], row.tenantId, s.registry[row.kind].permission))
             && (t in s'.txs ==> id in s.roles && s'.txs[t] == tx.(stage := Permitted(row, s.roles[id])))
             && (t !in s'.txs ==> s'.ended == s.ended[t := Forbidden] && s'.db == s.db))
  {
    hide Inv;
  }

  // ---- A pending row is as it was ----

  lemma PendingStep(s: State, step: Step, id: Id)
    requires Inv(s) && Enabled(s, step) && id in s.db.instances
    ensures (var s' := Apply(s, step);
             id in s'.db.instances && (s'.db.instances[id].status == Pending ==> s'.db.instances[id] == s.db.instances[id]))
  {
    hide Inv;
    if step.OfTx? && step.txStep.Commit? {
      CommitIsSerial(s, step.tx);
      SerialPending(s.registry, s.db, OpOf(s.txs[step.tx]), id);
    }
    hide Merged, Next, Serial, Allowed, OpOf;
  }

  lemma SerialPending(registry: Registry, db: Tables, op: Op, id: Id)
    requires Allowed(db, registry, op) && id in db.instances
    ensures (var db' := Serial(db, registry, op);
             id in db'.instances && (db'.instances[id].status == Pending ==> db'.instances[id] == db.instances[id]))
  {
  }

  // A row that is still pending at the end of a run is the row it was at the start.
  lemma {:induction false} PendingRun(s: State, steps: seq<Step>, t: State, id: Id)
    requires Inv(s) && Run(s, steps, t) && id in s.db.instances
    ensures id in t.db.instances && (t.db.instances[id].status == Pending ==> t.db.instances[id] == s.db.instances[id])
    decreases |steps|
  {
    hide Inv, Enabled, Apply;
    if steps != [] {
      PendingStep(s, steps[0], id);
      InvStep(s, steps[0]);
      PendingRun(Apply(s, steps[0]), steps[1..], t, id);
      if t.db.instances[id].status == Pending {
        PendingBefore(s, steps[0], steps[1..], t, id);
      }
    }
  }

  lemma PendingBefore(s: State, step: Step, rest: seq<Step>, t: State, id: Id)
    requires Inv(s) && Enabled(s, step) && Run(Apply(s, step), rest, t)
    requires id in s.db.instances && id in t.db.instances && t.db.instances[id].status == Pending
    ensures id in Apply(s, step).db.instances && Apply(s, step).db.instances[id].status == Pending
  {
    hide Inv, Enabled, Apply, Run;
    PendingStep(s, step, id);
    InvStep(s, step);
    if Apply(s, step).db.instances[id].status != Pending {
      TerminalIsAbsorbing(Apply(s, step), rest, t, id);
      assert false;
    }
  }

  // A transaction past its checks holds the row as it was, if it was there, when the call began.
  lemma HeldRowIsOld(s0: State, steps: seq<Step>, s: State, t: TxId)
    requires Inv(s0) && Run(s0, steps, s) && Inv(s) && t in s.txs && s.txs[t].stage.Permitted?
    ensures (var id := s.txs[t].instanceId; id in s0.db.instances ==> s.txs[t].stage.row == s0.db.instances[id])
  {
    hide Run, Inv;
    HeldRow(s, t);
    var id := s.txs[t].instanceId;
    if id in s0.db.instances {
      PendingRun(s0, steps, s, id);
    }
  }

  lemma HeldRow(s: State, t: TxId)
    requires Inv(s) && t in s.txs && s.txs[t].stage.Permitted?
    ensures (var tx := s.txs[t];
             && tx.instanceId in s.db.instances && s.db.instances[tx.instanceId] == tx.stage.row
             && tx.stage.row.status == Pending)
  {
    assert TxFits(s.registry, s.txs[t]);
    hide LocksHeld, IdsApart, Replay;
  }
}

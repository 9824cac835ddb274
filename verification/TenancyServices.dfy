/** TenantContext, the interceptor and the subscriber as the program writes them: one store that
    run sets and restores, and that a continuation finds as it was when it was created. */
module TenancyServices {
  import opened Collections
  import opened Tenancy

  /** The module-level AsyncLocalStorage. */
  class TenantContext {
    var store: Option<string>

    constructor ()
      ensures store == None
    {
      store := None;
    }

    method GetTenantId() returns (tenantId: Result<string, ()>)
      ensures tenantId == if store.Some? then Ok(store.value) else Err(())
    {
      tenantId := if store.None? then Err(()) else Ok(store.value);
    }

    function TryGetTenantId(): Option<string>
      reads this
    {
      store
    }
  }

  class DataSource {
    var subscribers: seq<TenantScopedSubscriber>

    constructor ()
      ensures subscribers == []
    {
      subscribers := [];
    }

    // TypeORM calls afterLoad of every subscriber; the first that throws fails the load.
    method Broadcast(entity: Loaded) returns (ok: bool)
      ensures ok <==> forall k :: 0 <= k < |subscribers| ==> Shown(entity, subscribers[k].context.store)
    {
      for k := 0 to |subscribers|
        invariant forall j :: 0 <= j < k ==> Shown(entity, subscribers[j].context.store)
      {
        ok := subscribers[k].AfterLoad(entity);
        if !ok {
          return;
        }
      }
      ok := true;
    }
  }

  class TenantScopedSubscriber {
    const context: TenantContext

    // Registers on both data sources, twice if they are the same one.
    constructor (context: TenantContext, defaultDataSource: DataSource, replicaDataSource: DataSource)
      modifies defaultDataSource, replicaDataSource
      ensures this.context == context
      ensures defaultDataSource != replicaDataSource ==>
                && defaultDataSource.subscribers == old(defaultDataSource.subscribers) + [this]
                && replicaDataSource.subscribers == old(replicaDataSource.subscribers) + [this]
      ensures defaultDataSource == replicaDataSource ==>
                defaultDataSource.subscribers == old(defaultDataSource.subscribers) + [this, this]
    {
      this.context := context;
      new;
      defaultDataSource.subscribers := defaultDataSource.subscribers + [this];
      replicaDataSource.subscribers := replicaDataSource.subscribers + [this];
    }

    // false: it throws ForbiddenException.
    method AfterLoad(entity: Loaded) returns (ok: bool)
      ensures ok <==> Shown(entity, context.store)
    {
      ok := true;
      if entity.OfTenant? {
        var currentTenantId := context.TryGetTenantId();
        if currentTenantId.Some? && currentTenantId.value != "" && entity.tenantId != currentTenantId.value {
          ok := false;
        }
      }
    }
  }

  // Tasks and answers grew by what ran, which threw or not.
  ghost predicate Grew(tasks: multiset<Task>, answers: seq<Answer>, tasks': multiset<Task>, answers': seq<Answer>,
                       threw: bool, ran: Ran)
  {
    tasks' == tasks + ran.tasks && answers' == answers + ran.answers && threw == ran.threw
  }

  lemma GrewThen(t0: multiset<Task>, a0: seq<Answer>, t1: multiset<Task>, a1: seq<Answer>,
                 t2: multiset<Task>, a2: seq<Answer>, threw: bool, first: Ran, second: Ran)
    requires Grew(t0, a0, t1, a1, false, first) && Grew(t1, a1, t2, a2, threw, second)
    ensures Grew(t0, a0, t2, a2, threw, Then(first, second))
  {
  }

  lemma GrewIsLeaving(s: State, t: State, threw: bool, ran: Ran)
    requires t == s.(tasks := t.tasks, answers := t.answers)
    requires Grew(s.tasks, s.answers, t.tasks, t.answers, threw, ran)
    ensures t == Leaving(s, ran)
  {
  }

  // The load t waited for brought entity, or was refused.
  function Settled(s: State, t: Task, entity: Loaded): State {
    var receipt := Receipt(t.request, t.scope, entity);
    if Shown(entity, Innermost(t.scope)) then s.(received := s.received + [receipt])
    else s.(blocked := s.blocked + [receipt])
  }

  lemma DispatchedIsSettled(s: State, t: Task, entity: Loaded)
    ensures (var rest, ran := s.(tasks := s.tasks - multiset{t}), Lexical(t.request, t.scope, t.work.code);
             && (!t.work.Deliver? ==> Dispatched(s, t, entity) == Leaving(rest, ran))
             && (t.work.Deliver? ==>
                   Dispatched(s, t, entity)
                   == if Shown(entity, Innermost(t.scope)) then Leaving(Settled(rest, t, entity), ran)
                      else Settled(rest, t, entity)))
  {
    hide Lexical, Shown, Innermost, Leaving;
  }

  /** One process: its context, its two data sources, and the continuations waiting for the event
      loop. */
  class Process {
    const context: TenantContext
    const defaultDataSource: DataSource
    const replicaDataSource: DataSource
    var requests: map<RequestId, Option<string>>
    var handlers: map<RequestId, Code>
    var tasks: multiset<Task>
    var received: seq<Receipt>
    var blocked: seq<Receipt>
    var answers: seq<Answer>

    // Each data source has the subscriber, and nothing else listens with another context.
    ghost predicate Registered()
      reads this, defaultDataSource, replicaDataSource
    {
      && defaultDataSource.subscribers != [] && replicaDataSource.subscribers != []
      && (forall x :: x in defaultDataSource.subscribers ==> x.context == context)
      && (forall x :: x in replicaDataSource.subscribers ==> x.context == context)
    }

    // Between two turns of the event loop nothing is bound.
    ghost predicate Idle()
      reads this, defaultDataSource, replicaDataSource, context
    {
      Registered() && context.store == None
    }

    function View(): State
      reads this
    {
      State(requests, handlers, tasks, received, blocked, answers)
    }

    constructor ()
      ensures Idle() && View() == IDLE
      ensures fresh(context) && fresh(defaultDataSource) && fresh(replicaDataSource)
    {
      var theContext := new TenantContext();
      var primary := new DataSource();
      var replica := new DataSource();
      var subscriber := new TenantScopedSubscriber(theContext, primary, replica);
      context, defaultDataSource, replicaDataSource := theContext, primary, replica;
      requests, handlers, tasks := map[], map[], multiset{};
      received, blocked, answers := [], [], [];
    }

    // What is created now captures the store as it is now.
    method Schedule(request: RequestId, scope: seq<string>, work: Work)
      modifies this`tasks
      ensures tasks == old(tasks) + multiset{Task(request, scope, context.store, work)}
    {
      tasks := tasks + multiset{Task(request, scope, context.store, work)};
    }

    /** TenantContext.run, on code that may throw. */
    method Bind(request: RequestId, scope: seq<string>, tenantId: string, body: Code) returns (threw: bool)
      requires context.store == Innermost(scope)
      modifies this`tasks, this`answers, context
      ensures context.store == old(context.store)
      ensures Grew(old(tasks), old(answers), tasks, answers, threw, Lexical(request, scope + [tenantId], body))
      decreases body, 1
    {
      hide Lexical, Grew;
      var saved := context.store;
      context.store := Some(tenantId);
      threw := Execute(request, scope + [tenantId], body);
      context.store := saved;
    }

    /** Runs code until its first awaits. scope is what is written around the code; the code
        itself sees only the store. */
    method Execute(request: RequestId, scope: seq<string>, code: Code) returns (threw: bool)
      requires context.store == Innermost(scope)
      modifies this`tasks, this`answers, context
      ensures context.store == old(context.store)
      ensures Grew(old(tasks), old(answers), tasks, answers, threw, Lexical(request, scope, code))
      decreases code, 0
    {
      threw := false;
      ghost var t0, a0 := tasks, answers;
      match code {
        case Done =>
        case Await(next) =>
          Schedule(request, scope, Resume(next));
        case Load(fromReplica, next) =>
          Schedule(request, scope, Deliver(fromReplica, next));
        case Ask(next) =>
          var tenantId := context.GetTenantId();
          if tenantId.Err? {
            return true;
          }
          answers := answers + [Answer(request, scope, tenantId.value)];
          ghost var t1, a1 := tasks, answers;
          threw := Execute(request, scope, next);
          GrewThen(t0, a0, t1, a1, tasks, answers, threw,
                   Ran(multiset{}, [Answer(request, scope, tenantId.value)], false), Lexical(request, scope, next));
        case Run(tenantId, body, next) =>
          threw := Bind(request, scope, tenantId, body);
          if !threw {
            ghost var t1, a1 := tasks, answers;
            threw := Execute(request, scope, next);
            GrewThen(t0, a0, t1, a1, tasks, answers, threw,
                     Lexical(request, scope + [tenantId], body), Lexical(request, scope, next));
          }
        case Spawn(body, next) =>
          Schedule(request, scope, Resume(body));
          ghost var t1, a1 := tasks, answers;
          threw := Execute(request, scope, next);
          GrewThen(t0, a0, t1, a1, tasks, answers, threw,
                   Started(request, scope, Resume(body)), Lexical(request, scope, next));
      }
    }

    /** intercept: binds the user's tenant around the call of the handler. */
    method Intercept(request: RequestId, user: Option<string>, handler: Code) returns (threw: bool)
      requires Idle()
      modifies this, context
      ensures Idle() && View() == Arrived(old(View()), request, user, handler)
    {
      requests, handlers := requests[request := user], handlers[request := handler];
      if user.None? || user.value == "" {
        threw := Execute(request, [], handler);
      } else {
        threw := Bind(request, [], user.value, handler);
        assert [] + [user.value] == [user.value];
      }
    }

    // The load resolves, or rejects and ends the code that awaits it.
    method Settle(task: Task, entity: Loaded, fromReplica: bool) returns (ok: bool)
      requires Registered() && context.store == Innermost(task.scope)
      modifies this`received, this`blocked
      ensures ok <==> Shown(entity, Innermost(task.scope))
      ensures View() == Settled(old(View()), task, entity)
    {
      hide Shown;
      if fromReplica {
        ok := replicaDataSource.Broadcast(entity);
        assert replicaDataSource.subscribers[0].context == context;
      } else {
        ok := defaultDataSource.Broadcast(entity);
        assert defaultDataSource.subscribers[0].context == context;
      }
      var receipt := Receipt(task.request, task.scope, entity);
      if ok {
        received := received + [receipt];
      } else {
        blocked := blocked + [receipt];
      }
    }

    /** One turn of the event loop: a continuation runs with the store it captured. entity is what
        the load it waits for brings, if it waits for one. */
    method Turn(task: Task, entity: Loaded)
      requires Idle() && task in tasks && task.store == Innermost(task.scope)
      modifies this, context
      ensures Idle() && View() == Dispatched(old(View()), task, entity)
    {
      hide Lexical, Shown, Innermost, Leaving, Dispatched, Settled;
      DispatchedIsSettled(View(), task, entity);
      tasks := tasks - multiset{task};
      context.store := task.store;
      var ok := true;
      if task.work.Deliver? {
        ok := Settle(task, entity, task.work.fromReplica);
      }
      if ok {
        Continue(task);
      }
      context.store := None;
    }

    // The rest of the code, from where it waited.
    method Continue(task: Task)
      requires context.store == Innermost(task.scope)
      modifies this`tasks, this`answers, context
      ensures context.store == old(context.store)
      ensures View() == Leaving(old(View()), Lexical(task.request, task.scope, task.work.code))
    {
      hide Lexical, Grew, Leaving;
      ghost var before := View();
      var threw := Execute(task.request, task.scope, task.work.code);
      GrewIsLeaving(before, View(), threw, Lexical(task.request, task.scope, task.work.code));
    }

    // Any events, one after another; those that are not enabled are passed over.
    method Serve(events: seq<Event>) returns (ghost taken: seq<Event>)
      requires Idle() && Inv(View())
      modifies this, context
      ensures Idle() && Inv(View()) && Reached(old(View()), taken, View())
    {
      taken := [];
      ghost var s0 := View();
      hide Inv, Lexical, Shown;
      for k := 0 to |events|
        invariant Idle() && Inv(View()) && Reached(s0, taken, View())
      {
        var e := events[k];
        if e.Arrive? && e.request !in requests && e.tenantId != Some("") {
          StepInv(View(), e);
          ReachedMore(s0, taken, View(), e);
          var threw := Intercept(e.request, e.tenantId, e.handler);
          taken := taken + [e];
        } else if e.Dispatch? && e.task in tasks {
          StepInv(View(), e);
          StoreIsInnermost(View(), e.task);
          ReachedMore(s0, taken, View(), e);
          Turn(e.task, e.entity);
          taken := taken + [e];
        }
      }
    }
  }

  lemma StoreIsInnermost(s: State, t: Task)
    requires Inv(s) && t in s.tasks
    ensures t.store == Innermost(t.scope)
  {
    assert TaskFits(s.requests, s.handlers, t);
  }

  lemma {:induction false} ReachedMore(s: State, events: seq<Event>, t: State, e: Event)
    requires Reached(s, events, t) && Enabled(t, e)
    ensures Reached(s, events + [e], Apply(t, e))
    decreases |events|
  {
    hide Apply;
    if events == [] {
      assert (events + [e])[1..] == [];
    } else {
      assert (events + [e])[1..] == events[1..] + [e];
      ReachedMore(Apply(s, events[0]), events[1..], t, e);
    }
  }
}

/** The tenant context under concurrent requests: what a handler may do, and which tenant binds
    it. Here the binding is lexical, read off the code; TenancyServices has the mechanism of the
    program, one mutable store that every continuation captures and restores. */
module Tenancy {
  import opened Collections

  type RequestId = nat

  // What TypeORM hands to afterLoad, as far as the check looks at it.
  datatype Loaded =
    | NotAnObject
    | NoTenantField
    | TenantNotAString
    | OfTenant(tenantId: string)

  /** A handler: it loads entities, asks for its tenant, awaits, starts further asynchronous work,
      and may open a scope of its own. A load is awaited; what it brings is the database's. */
  datatype Code =
    | Done
    | Await(next: Code)
    | Load(fromReplica: bool, next: Code)
    | Ask(next: Code)
    | Run(tenantId: string, body: Code, next: Code)
    | Spawn(body: Code, next: Code)

  datatype Work = Resume(code: Code) | Deliver(fromReplica: bool, code: Code)

  /** A continuation: the tenants bound around its code, outermost first, and the store it
      captured when it was created. */
  datatype Task = Task(request: RequestId, scope: seq<string>, store: Option<string>, work: Work)

  datatype Receipt = Receipt(request: RequestId, scope: seq<string>, entity: Loaded)

  // An answer of getTenantId.
  datatype Answer = Answer(request: RequestId, scope: seq<string>, tenantId: string)

  function Innermost(scope: seq<string>): Option<string> {
    if scope == [] then None else Some(scope[|scope| - 1])
  }

  // afterLoad lets the entity through. An empty tenant counts as no tenant.
  predicate Shown(entity: Loaded, bound: Option<string>) {
    entity.OfTenant? && bound.Some? && bound.value != "" ==> entity.tenantId == bound.value
  }

  /** What running code until its first awaits leaves behind. */
  datatype Ran = Ran(tasks: multiset<Task>, answers: seq<Answer>, threw: bool)

  function Then(first: Ran, second: Ran): Ran {
    Ran(first.tasks + second.tasks, first.answers + second.answers, second.threw)
  }

  function Started(request: RequestId, scope: seq<string>, work: Work): Ran {
    Ran(multiset{Task(request, scope, Innermost(scope), work)}, [], false)
  }

  // The synchronous part of code under the bindings written around it.
  function Lexical(request: RequestId, scope: seq<string>, code: Code): Ran
    decreases code
  {
    match code
    case Done => Ran(multiset{}, [], false)
    case Await(next) => Started(request, scope, Resume(next))
    case Load(fromReplica, next) => Started(request, scope, Deliver(fromReplica, next))
    case Ask(next) =>
      if scope == [] then Ran(multiset{}, [], true)
      else Then(Ran(multiset{}, [Answer(request, scope, scope[|scope| - 1])], false), Lexical(request, scope, next))
    case Run(tenantId, body, next) =>
      var inner := Lexical(request, scope + [tenantId], body);
      if inner.threw then inner else Then(inner, Lexical(request, scope, next))
    case Spawn(body, next) => Then(Started(request, scope, Resume(body)), Lexical(request, scope, next))
  }

  // user.tenantId for a request whose token was validated, None for one without a user.
  datatype State = State(
    requests: map<RequestId, Option<string>>,
    handlers: map<RequestId, Code>,
    tasks: multiset<Task>,
    received: seq<Receipt>,
    blocked: seq<Receipt>,
    answers: seq<Answer>)

  const IDLE := State(map[], map[], multiset{}, [], [], [])

  function Leaving(s: State, ran: Ran): State {
    s.(tasks := s.tasks + ran.tasks, answers := s.answers + ran.answers)
  }

  // The interceptor binds the user's tenant, unless there is none.
  function ScopeOf(tenantId: Option<string>): seq<string> {
    if tenantId.None? || tenantId.value == "" then [] else [tenantId.value]
  }

  function Arrived(s: State, request: RequestId, tenantId: Option<string>, handler: Code): State {
    Leaving(s.(requests := s.requests[request := tenantId], handlers := s.handlers[request := handler]),
            Lexical(request, ScopeOf(tenantId), handler))
  }

  // entity is what the load brings, if t waits for one.
  function Dispatched(s: State, t: Task, entity: Loaded): State {
    var rest := s.(tasks := s.tasks - multiset{t});
    match t.work
    case Resume(code) => Leaving(rest, Lexical(t.request, t.scope, code))
    case Deliver(_, code) =>
      var receipt := Receipt(t.request, t.scope, entity);
      if Shown(entity, Innermost(t.scope))
      then Leaving(rest.(received := s.received + [receipt]), Lexical(t.request, t.scope, code))
      else rest.(blocked := s.blocked + [receipt])
  }

  // A refused load ends the code that awaited it: nothing of it runs on, nothing is handed over.
  lemma RefusedLoadEnds(s: State, t: Task, entity: Loaded)
    requires t in s.tasks && t.work.Deliver? && !Shown(entity, Innermost(t.scope))
    ensures Dispatched(s, t, entity).tasks == s.tasks - multiset{t}
    ensures Dispatched(s, t, entity).received == s.received && Dispatched(s, t, entity).answers == s.answers
    ensures Dispatched(s, t, entity).blocked == s.blocked + [Receipt(t.request, t.scope, entity)]
  {
    hide Lexical;
  }

  // JwtStrategy lets no token without a tenant through, so a user has one.
  datatype Event =
    | Arrive(request: RequestId, tenantId: Option<string>, handler: Code)
    | Dispatch(task: Task, entity: Loaded)

  ghost predicate Enabled(s: State, e: Event) {
    match e
    case Arrive(request, tenantId, _) => request !in s.requests && tenantId != Some("")
    case Dispatch(task, _) => task in s.tasks
  }

  function Apply(s: State, e: Event): State {
    match e
    case Arrive(request, tenantId, handler) => Arrived(s, request, tenantId, handler)
    case Dispatch(task, entity) => Dispatched(s, task, entity)
  }

  // Any interleaving of requests and continuations.
  ghost predicate Reached(s: State, events: seq<Event>, t: State)
    decreases |events|
  {
    if events == [] then s == t else Enabled(s, events[0]) && Reached(Apply(s, events[0]), events[1..], t)
  }

  // ---- The invariant ----

  // The handler opens no scope of its own.
  predicate Flat(code: Code) {
    match code
    case Done => true
    case Await(next) => Flat(next)
    case Load(_, next) => Flat(next)
    case Ask(next) => Flat(next)
    case Run(_, _, _) => false
    case Spawn(body, next) => Flat(body) && Flat(next)
  }

  // Every load of the code lies in an innermost scope of tenant own; bound is the tenant bound
  // around the code.
  predicate LoadsOwn(own: string, bound: string, code: Code)
    decreases code
  {
    match code
    case Done => true
    case Await(next) => LoadsOwn(own, bound, next)
    case Load(_, next) => bound == own && LoadsOwn(own, bound, next)
    case Ask(next) => LoadsOwn(own, bound, next)
    case Run(tenantId, body, next) => LoadsOwn(own, tenantId, body) && LoadsOwn(own, bound, next)
    case Spawn(body, next) => LoadsOwn(own, bound, body) && LoadsOwn(own, bound, next)
  }

  // The loads a continuation may still make, its own included.
  predicate WorkOwn(own: string, bound: string, work: Work) {
    LoadsOwn(own, bound, work.code) && (work.Deliver? ==> bound == own)
  }

  // The request has a validated token, and all loads of its handler are of its own tenant.
  predicate Proper(requests: map<RequestId, Option<string>>, handlers: map<RequestId, Code>, request: RequestId) {
    && request in requests && request in handlers && requests[request].Some?
    && LoadsOwn(requests[request].value, requests[request].value, handlers[request])
  }

  function Bound(scope: seq<string>): string {
    if scope == [] then "" else scope[|scope| - 1]
  }

  // Whatever runs for a request has its tenant outermost, and nothing else if the handler is flat.
  ghost predicate Owned(requests: map<RequestId, Option<string>>, handlers: map<RequestId, Code>,
                        request: RequestId, scope: seq<string>)
  {
    && request in requests && request in handlers
    && (requests[request].Some? ==> scope != [] && scope[0] == requests[request].value && scope[0] != "")
    && (Flat(handlers[request]) ==> scope == ScopeOf(requests[request]))
  }

  ghost predicate TaskFits(requests: map<RequestId, Option<string>>, handlers: map<RequestId, Code>, t: Task) {
    && t.store == Innermost(t.scope)
    && Owned(requests, handlers, t.request, t.scope)
    && (Flat(handlers[t.request]) ==> Flat(t.work.code))
    && (Proper(requests, handlers, t.request) ==> WorkOwn(requests[t.request].value, Bound(t.scope), t.work))
  }

  ghost predicate TasksFit(requests: map<RequestId, Option<string>>, handlers: map<RequestId, Code>, tasks: multiset<Task>) {
    forall t :: t in tasks ==> TaskFits(requests, handlers, t)
  }

  ghost predicate ReceiptsFit(requests: map<RequestId, Option<string>>, handlers: map<RequestId, Code>,
                              receipts: seq<Receipt>, shown: bool)
  {
    forall r :: r in receipts ==>
      && Owned(requests, handlers, r.request, r.scope) && Shown(r.entity, Innermost(r.scope)) == shown
      && (Proper(requests, handlers, r.request) ==> Bound(r.scope) == requests[r.request].value)
  }

  ghost predicate AnswersFit(requests: map<RequestId, Option<string>>, handlers: map<RequestId, Code>, answers: seq<Answer>) {
    forall a :: a in answers ==>
      Owned(requests, handlers, a.request, a.scope) && Some(a.tenantId) == Innermost(a.scope)
  }

  ghost predicate Inv(s: State) {
    && TasksFit(s.requests, s.handlers, s.tasks)
    && ReceiptsFit(s.requests, s.handlers, s.received, true)
    && ReceiptsFit(s.requests, s.handlers, s.blocked, false)
    && AnswersFit(s.requests, s.handlers, s.answers)
  }

  ghost predicate RanFits(requests: map<RequestId, Option<string>>, handlers: map<RequestId, Code>, ran: Ran) {
    TasksFit(requests, handlers, ran.tasks) && AnswersFit(requests, handlers, ran.answers)
  }

  lemma {:induction false} LexicalFits(requests: map<RequestId, Option<string>>, handlers: map<RequestId, Code>,
                                       request: RequestId, scope: seq<string>, code: Code)
    requires Owned(requests, handlers, request, scope)
    requires Flat(handlers[request]) ==> Flat(code)
    requires Proper(requests, handlers, request) ==> LoadsOwn(requests[request].value, Bound(scope), code)
    ensures RanFits(requests, handlers, Lexical(request, scope, code))
    decreases code
  {
    match code
    case Done =>
    case Await(next) =>
    case Load(_, next) =>
    case Ask(next) =>
      if scope != [] {
        LexicalFits(requests, handlers, request, scope, next);
      }
    case Run(tenantId, body, next) =>
      LexicalFits(requests, handlers, request, scope + [tenantId], body);
      LexicalFits(requests, handlers, request, scope, next);
    case Spawn(body, next) =>
      LexicalFits(requests, handlers, request, scope, next);
  }

  lemma LeavingInv(s: State, ran: Ran)
    requires Inv(s) && RanFits(s.requests, s.handlers, ran)
    ensures Inv(Leaving(s, ran))
  {
    hide ReceiptsFit, TaskFits, Owned;
  }

  // A request that was not known before changes nothing for the others.
  lemma NewRequest(s: State, request: RequestId, tenantId: Option<string>, handler: Code)
    requires Inv(s) && request !in s.requests
    ensures Inv(s.(requests := s.requests[request := tenantId], handlers := s.handlers[request := handler]))
  {
    hide Shown, Flat;
  }

  lemma ArriveInv(s: State, e: Event)
    requires Inv(s) && Enabled(s, e) && e.Arrive?
    ensures Inv(Apply(s, e))
  {
    var known := s.(requests := s.requests[e.request := e.tenantId], handlers := s.handlers[e.request := e.handler]);
    NewRequest(s, e.request, e.tenantId, e.handler);
    LexicalFits(known.requests, known.handlers, e.request, ScopeOf(e.tenantId), e.handler);
    hide Lexical, Inv, RanFits, Leaving;
    LeavingInv(known, Lexical(e.request, ScopeOf(e.tenantId), e.handler));
  }

  lemma ReceiptInv(s: State, t: Task, entity: Loaded)
    requires Inv(s) && TaskFits(s.requests, s.handlers, t) && t.work.Deliver?
    ensures (var receipt := Receipt(t.request, t.scope, entity);
             if Shown(entity, Innermost(t.scope)) then Inv(s.(received := s.received + [receipt]))
             else Inv(s.(blocked := s.blocked + [receipt])))
  {
    hide TasksFit, AnswersFit, Owned, Shown;
  }

  lemma DispatchInv(s: State, t: Task, entity: Loaded)
    requires Inv(s) && t in s.tasks
    ensures Inv(Dispatched(s, t, entity))
  {
    assert TaskFits(s.requests, s.handlers, t);
    LexicalFits(s.requests, s.handlers, t.request, t.scope, t.work.code);
    var rest, ran := s.(tasks := s.tasks - multiset{t}), Lexical(t.request, t.scope, t.work.code);
    assert Inv(rest);
    hide Lexical, Inv, RanFits, TaskFits, Leaving, Shown;
    match t.work
    case Resume(_) => LeavingInv(rest, ran);
    case Deliver(_, _) =>
      ReceiptInv(rest, t, entity);
      if Shown(entity, Innermost(t.scope)) {
        LeavingInv(rest.(received := rest.received + [Receipt(t.request, t.scope, entity)]), ran);
      }
  }

  lemma {:induction false} ReachedInv(s: State, events: seq<Event>, t: State)
    requires Inv(s) && Reached(s, events, t)
    ensures Inv(t)
    decreases |events|
  {
    hide Inv, Apply;
    if events != [] {
      StepInv(s, events[0]);
      ReachedInv(Apply(s, events[0]), events[1..], t);
    }
  }

  lemma StepInv(s: State, e: Event)
    requires Inv(s) && Enabled(s, e)
    ensures Inv(Apply(s, e))
  {
    hide Inv;
    if e.Arrive? {
      ArriveInv(s, e);
    } else {
      DispatchInv(s, e.task, e.entity);
    }
  }

  // ---- Main results ----

  // Isolation: whatever requests run meanwhile, every entity a request with a validated token
  // receives has no tenant or the innermost tenant bound around the code that loaded it, which
  // for a handler that binds none itself is the token's own.
  lemma TenantIsolation(events: seq<Event>, s: State, r: Receipt)
    requires Reached(IDLE, events, s) && r in s.received
    requires r.request in s.requests && s.requests[r.request].Some?
    ensures r.request in s.handlers && r.scope != [] && r.scope[0] == s.requests[r.request].value
    ensures r.entity.OfTenant? ==>
              r.entity.tenantId == r.scope[|r.scope| - 1] || r.scope[|r.scope| - 1] == ""
    ensures r.entity.OfTenant? && Flat(s.handlers[r.request]) ==> r.entity.tenantId == s.requests[r.request].value
  {
    ReachedInv(IDLE, events, s);
    hide Reached, TasksFit, Flat;
  }

  // A load is refused exactly when it crosses tenants: nothing a request may see is withheld.
  lemma OnlyCrossTenantBlocked(events: seq<Event>, s: State, r: Receipt)
    requires Reached(IDLE, events, s) && r in s.blocked
    ensures r.entity.OfTenant? && r.scope != []
    ensures r.scope[|r.scope| - 1] != "" && r.entity.tenantId != r.scope[|r.scope| - 1]
  {
    ReachedInv(IDLE, events, s);
    hide Reached, TasksFit, Owned;
  }

  // getTenantId answers with the innermost tenant of the request that asks, never another's.
  lemma AnswersAreOwn(events: seq<Event>, s: State, a: Answer)
    requires Reached(IDLE, events, s) && a in s.answers
    requires a.request in s.requests && s.requests[a.request].Some?
    ensures a.request in s.handlers && a.scope != [] && a.scope[0] == s.requests[a.request].value && a.tenantId == a.scope[|a.scope| - 1]
    ensures Flat(s.handlers[a.request]) ==> a.tenantId == s.requests[a.request].value
  {
    ReachedInv(IDLE, events, s);
    hide Reached, TasksFit, Flat;
  }

  // ---- Exactly which handlers never see another tenant's entity ----

  // Whenever a request with a validated token of tenant own runs this handler, whatever else runs
  // and whatever the database holds, each entity it receives has no tenant or that tenant.
  ghost predicate AlwaysOwn(own: string, handler: Code) {
    forall events, s, r ::
      Reached(IDLE, events, s) && r in s.received && ServedFor(s, r.request, own, handler) && r.entity.OfTenant? ==>
        r.entity.tenantId == own
  }

  predicate ServedFor(s: State, request: RequestId, own: string, handler: Code) {
    && request in s.requests && s.requests[request] == Some(own)
    && request in s.handlers && s.handlers[request] == handler
  }

  // Inside a scope nothing that asks for its tenant throws.
  lemma {:induction false} ScopedRuns(request: RequestId, scope: seq<string>, code: Code)
    requires scope != []
    ensures !Lexical(request, scope, code).threw
    decreases code
  {
    match code
    case Done =>
    case Await(_) =>
    case Load(_, _) =>
    case Ask(next) => ScopedRuns(request, scope, next);
    case Run(tenantId, body, next) =>
      ScopedRuns(request, scope + [tenantId], body);
      ScopedRuns(request, scope, next);
    case Spawn(body, next) => ScopedRuns(request, scope, next);
  }

  // Another tenant whose entities the check lets through under this binding.
  function Stranger(own: string, bound: string): (other: string)
    ensures bound != own ==> other != own && Shown(OfTenant(other), Some(bound))
  {
    if bound == "" then own + "x" else bound
  }

  // Code with a load outside its own tenant, once started, can be run on to receive an entity of
  // another tenant.
  lemma {:induction false} Leaks(s: State, request: RequestId, scope: seq<string>, code: Code, own: string)
    returns (events: seq<Event>, t: State, r: Receipt)
    requires scope != [] && !LoadsOwn(own, Bound(scope), code)
    requires Lexical(request, scope, code).tasks <= s.tasks
    ensures Reached(s, events, t) && r in t.received && r.request == request
    ensures r.entity.OfTenant? && r.entity.tenantId != own
    ensures t.requests == s.requests && t.handlers == s.handlers
    decreases code, 0
  {
    hide Apply, Dispatched;
    match code
    case Await(next) =>
      events, t, r := LeaksAfter(s, Task(request, scope, Innermost(scope), Resume(next)), NotAnObject, scope, next, own);
    case Load(fromReplica, next) =>
      var task := Task(request, scope, Innermost(scope), Deliver(fromReplica, next));
      if Bound(scope) != own {
        events, t, r := LeaksNow(s, task, own);
      } else {
        events, t, r := LeaksAfter(s, task, NoTenantField, scope, next, own);
      }
    case Ask(next) =>
      events, t, r := Leaks(s, request, scope, next, own);
    case Run(tenantId, body, next) =>
      ScopedRuns(request, scope + [tenantId], body);
      if !LoadsOwn(own, tenantId, body) {
        events, t, r := Leaks(s, request, scope + [tenantId], body, own);
      } else {
        events, t, r := Leaks(s, request, scope, next, own);
      }
    case Spawn(body, next) =>
      if !LoadsOwn(own, Bound(scope), body) {
        events, t, r := LeaksAfter(s, Task(request, scope, Innermost(scope), Resume(body)), NotAnObject, scope, body, own);
      } else {
        events, t, r := Leaks(s, request, scope, next, own);
      }
  }

  // The load brings the entity of a tenant the check does not tell from the bound one.
  lemma LeaksNow(s: State, task: Task, own: string) returns (events: seq<Event>, t: State, r: Receipt)
    requires task in s.tasks && task.work.Deliver? && task.scope != [] && Bound(task.scope) != own
    ensures Reached(s, events, t) && r in t.received && r.request == task.request
    ensures r.entity.OfTenant? && r.entity.tenantId != own
    ensures t.requests == s.requests && t.handlers == s.handlers
  {
    var entity := OfTenant(Stranger(own, Bound(task.scope)));
    events, t, r := [Dispatch(task, entity)], Dispatched(s, task, entity), Receipt(task.request, task.scope, entity);
    assert events[1..] == [];
    hide Lexical, Stranger;
  }

  // The continuation runs, and then the rest leaks.
  lemma {:induction false} LeaksAfter(s: State, task: Task, entity: Loaded, scope: seq<string>, code: Code, own: string)
    returns (events: seq<Event>, t: State, r: Receipt)
    requires task in s.tasks && task.scope == scope && task.work.code == code && (task.work.Deliver? ==> entity.NoTenantField?)
    requires scope != [] && !LoadsOwn(own, Bound(scope), code)
    ensures Reached(s, events, t) && r in t.received && r.request == task.request
    ensures r.entity.OfTenant? && r.entity.tenantId != own
    ensures t.requests == s.requests && t.handlers == s.handlers
    decreases code, 1
  {
    var s1 := Dispatched(s, task, entity);
    assert Lexical(task.request, scope, code).tasks <= s1.tasks;
    var rest;
    rest, t, r := Leaks(s1, task.request, scope, code, own);
    events := [Dispatch(task, entity)] + rest;
    assert events[1..] == rest && Apply(s, Dispatch(task, entity)) == s1;
    hide Lexical, LoadsOwn, Dispatched;
  }

  // Exactly the handlers all of whose loads lie in an innermost scope of the request's own tenant
  // keep to that tenant, over all interleavings and all contents of the database.
  lemma KeepsToItsTenantIff(own: string, handler: Code)
    requires own != ""
    ensures AlwaysOwn(own, handler) <==> LoadsOwn(own, own, handler)
  {
    hide Reached, LoadsOwn;
    if LoadsOwn(own, own, handler) {
      forall events, s, r
        | Reached(IDLE, events, s) && r in s.received && ServedFor(s, r.request, own, handler) && r.entity.OfTenant?
        ensures r.entity.tenantId == own
      {
        ReachedInv(IDLE, events, s);
        ReceivedOwn(s, r);
      }
    } else {
      var arrive := Arrive(0, Some(own), handler);
      var s1 := Apply(IDLE, arrive);
      var rest, t, r := Leaks(s1, 0, [own], handler, own);
      Prepended(IDLE, arrive, rest, t);
      assert ServedFor(t, r.request, own, handler);
    }
  }

  lemma Prepended(s: State, e: Event, rest: seq<Event>, t: State)
    requires Enabled(s, e) && Reached(Apply(s, e), rest, t)
    ensures Reached(s, [e] + rest, t)
  {
    hide Apply;
    assert ([e] + rest)[1..] == rest;
  }

  lemma ReceivedOwn(s: State, r: Receipt)
    requires Inv(s) && r in s.received && Proper(s.requests, s.handlers, r.request) && r.entity.OfTenant?
    ensures r.entity.tenantId == s.requests[r.request].value
  {
    hide TasksFit, AnswersFit, Flat, LoadsOwn;
  }

  // A handler that opens no scope keeps to its tenant.
  lemma {:induction false} FlatLoadsOwn(own: string, code: Code)
    requires Flat(code)
    ensures LoadsOwn(own, own, code)
    decreases code
  {
    match code
    case Done =>
    case Await(next) => FlatLoadsOwn(own, next);
    case Load(_, next) => FlatLoadsOwn(own, next);
    case Ask(next) => FlatLoadsOwn(own, next);
    case Spawn(body, next) =>
      FlatLoadsOwn(own, body);
      FlatLoadsOwn(own, next);
  }

  // So a load in a scope of another tenant, or of the empty one, can bring a stranger's entity.
  lemma OtherScopeIsOpen(own: string, other: string)
    requires own != "" && own != other
    ensures !AlwaysOwn(own, Run(other, Load(false, Done), Done))
  {
    KeepsToItsTenantIff(own, Run(other, Load(false, Done), Done));
    hide AlwaysOwn;
  }

  lemma EmptyScopeIsOpen() returns (events: seq<Event>, s: State, r: Receipt)
    ensures Reached(IDLE, events, s) && r in s.received
    ensures r.request in s.requests && s.requests[r.request] == Some("a")
    ensures r.entity == OfTenant("b")
  {
    var load := Load(false, Done);
    var first := Arrive(0, Some("a"), Run("", load, Done));
    var t := Task(0, ["a", ""], Some(""), Deliver(false, Done));
    var s1 := Apply(IDLE, first);
    assert Lexical(0, ["a"] + [""], load) == Ran(multiset{t}, [], false) by {
      assert ["a"] + [""] == ["a", ""];
    }
    assert t in s1.tasks;
    var second := Dispatch(t, OfTenant("b"));
    events, s, r := [first, second], Apply(s1, second), Receipt(0, ["a", ""], OfTenant("b"));
    assert events[1..] == [second] && events[1..][1..] == [];
    assert Reached(s1, [second], s);
  }
}

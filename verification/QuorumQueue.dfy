/** The main queue as the consumer declares it: a RabbitMQ quorum queue with a delivery
    limit and a dead-letter exchange. Every copy routed to the queue has its own Mid, so
    two copies of one event are two messages. */
module QuorumQueue {

  type Mid = nat

  datatype Payload = Payload(eventId: nat, eventType: string, taskId: nat)

  datatype Body = Event(payload: Payload) | Unparseable

  // A channel is one connection epoch of one process; a tag numbers a delivery on it.
  datatype Chan = Chan(process: nat, epoch: nat)
  datatype Tag = Tag(chan: Chan, n: nat)

  // What a consumer sends on its channel; it reaches the broker only if the channel lasts.
  datatype Frame = Ack | NackRequeue | NackDrop

  /** limit is x-delivery-limit and count the queue's x-delivery-count. deliveries is a
      history count. dead is the content of the dead-letter queue, lost what was
      dead-lettered while nothing was bound to the dead-letter exchange. */
  datatype Queue = Queue(
    limit: nat,
    body: map<Mid, Body>,
    count: map<Mid, nat>,
    deliveries: map<Mid, nat>,
    ready: set<Mid>,
    unacked: map<Tag, Mid>,
    acked: set<Mid>,
    dead: set<Mid>,
    lost: set<Mid>)
  {
    function Count(m: Mid): nat {
      if m in count then count[m] else 0
    }

    function Deliveries(m: Mid): nat {
      if m in deliveries then deliveries[m] else 0
    }

    ghost function Outstanding(): set<Mid> {
      set t | t in unacked :: unacked[t]
    }

    ghost function Held(tags: set<Tag>): set<Mid>
      requires tags <= unacked.Keys
    {
      set t | t in tags :: unacked[t]
    }
  }

  function Empty(limit: nat): Queue {
    Queue(limit, map[], map[], map[], {}, map[], {}, {}, {})
  }

  /** The five places are disjoint, together they hold every message ever routed, and no
      message is outstanding under two tags. */
  ghost predicate Conserved(q: Queue) {
    && q.body.Keys == q.ready + q.Outstanding() + q.acked + q.dead + q.lost
    && q.ready !! q.Outstanding() !! q.acked !! q.dead !! q.lost
    && (forall t, u :: t in q.unacked && u in q.unacked && q.unacked[t] == q.unacked[u] ==> t == u)
  }

  ghost predicate Counted(q: Queue) {
    && q.count.Keys == q.body.Keys
    && q.deliveries.Keys == q.body.Keys
    && (forall m :: m in q.ready && m in q.body ==> q.deliveries[m] == q.count[m] <= q.limit)
    && (forall t :: t in q.unacked && q.unacked[t] in q.body ==>
          q.deliveries[q.unacked[t]] == q.count[q.unacked[t]] + 1 <= q.limit + 1)
    && (forall m :: m in q.body ==> q.deliveries[m] <= q.limit + 1)
  }

  ghost predicate Valid(q: Queue) {
    Conserved(q) && Counted(q)
  }

  function Enqueue(q: Queue, m: Mid, b: Body): Queue {
    q.(body := q.body[m := b], count := q.count[m := 0], deliveries := q.deliveries[m := 0],
       ready := q.ready + {m})
  }

  function Deliver(q: Queue, t: Tag, m: Mid): Queue {
    q.(deliveries := q.deliveries[m := q.Deliveries(m) + 1], ready := q.ready - {m},
       unacked := q.unacked[t := m])
  }

  function Acknowledge(q: Queue, t: Tag): Queue
    requires t in q.unacked
  {
    q.(unacked := q.unacked - {t}, acked := q.acked + {q.unacked[t]})
  }

  // nack with requeue false; bound says whether the dead-letter queue is bound.
  function Reject(q: Queue, t: Tag, bound: bool): Queue
    requires t in q.unacked
  {
    var m := q.unacked[t];
    q.(unacked := q.unacked - {t},
       dead := if bound then q.dead + {m} else q.dead,
       lost := if bound then q.lost else q.lost + {m})
  }

  // nack with requeue true, or the loss of the channel: every message held under tags comes
  // back, and those whose count now exceeds the limit are dead-lettered instead.
  function Return(q: Queue, tags: set<Tag>, bound: bool): Queue
    requires tags <= q.unacked.Keys
  {
    var back := set t | t in tags :: q.unacked[t];
    var over := set m | m in back && q.Count(m) >= q.limit;
    q.(count := map m | m in q.count :: if m in back then q.count[m] + 1 else q.count[m],
       ready := q.ready + (back - over),
       unacked := q.unacked - tags,
       dead := if bound then q.dead + over else q.dead,
       lost := if bound then q.lost else q.lost + over)
  }

  function AfterAnswer(q: Queue, t: Tag, frame: Frame, bound: bool): Queue {
    if t !in q.unacked then q
    else
      match frame
      case Ack => Acknowledge(q, t)
      case NackRequeue => Return(q, {t}, bound)
      case NackDrop => Reject(q, t, bound)
  }

  lemma EnqueueValid(q: Queue, m: Mid, b: Body)
    requires Valid(q) && m !in q.body
    ensures Valid(Enqueue(q, m, b))
  {
    var q' := Enqueue(q, m, b);
    assert q'.Outstanding() == q.Outstanding();
  }

  lemma DeliverValid(q: Queue, t: Tag, m: Mid)
    requires Valid(q) && m in q.ready && t !in q.unacked
    ensures Valid(Deliver(q, t, m))
    ensures Deliver(q, t, m).Outstanding() == q.Outstanding() + {m}
  {
    var q' := Deliver(q, t, m);
    forall x | x in q.Outstanding() + {m} ensures x in q'.Outstanding() {
      if x == m {
        assert q'.unacked[t] == m;
      } else {
        var u :| u in q.unacked && q.unacked[u] == x;
        assert q'.unacked[u] == x;
      }
    }
    assert q'.Outstanding() == q.Outstanding() + {m};
    forall u | u in q.unacked ensures q.unacked[u] in q.Outstanding() {}
  }

  // Taking tags off the outstanding map takes exactly their messages off Outstanding().
  lemma Release(q: Queue, tags: set<Tag>, q': Queue)
    requires Conserved(q) && tags <= q.unacked.Keys && q'.unacked == q.unacked - tags
    ensures q'.Outstanding() == q.Outstanding() - q.Held(tags)
    ensures q.Held(tags) <= q.Outstanding()
  {
    forall x | x in q.Outstanding() - q.Held(tags) ensures x in q'.Outstanding() {
      var u :| u in q.unacked && q.unacked[u] == x;
      assert u !in tags;
      assert q'.unacked[u] == x;
    }
  }

  lemma AcknowledgeValid(q: Queue, t: Tag)
    requires Valid(q) && t in q.unacked
    ensures Valid(Acknowledge(q, t))
  {
    Release(q, {t}, Acknowledge(q, t));
    assert q.Held({t}) == {q.unacked[t]};
  }

  lemma RejectValid(q: Queue, t: Tag, bound: bool)
    requires Valid(q) && t in q.unacked
    ensures Valid(Reject(q, t, bound))
  {
    Release(q, {t}, Reject(q, t, bound));
    assert q.Held({t}) == {q.unacked[t]};
  }

  lemma OutstandingRouted(q: Queue)
    requires Conserved(q)
    ensures forall t :: t in q.unacked ==> q.unacked[t] in q.body && q.unacked[t] in q.Outstanding()
  {}

  lemma ReturnValid(q: Queue, tags: set<Tag>, bound: bool)
    requires Valid(q) && tags <= q.unacked.Keys
    ensures Valid(Return(q, tags, bound))
  {
    OutstandingRouted(q);
    var q' := Return(q, tags, bound);
    Release(q, tags, q');
    var back := q.Held(tags);
    var over := set m | m in back && q.Count(m) >= q.limit;
    assert back == (back - over) + over;
    assert Conserved(q');
    forall t | t in q.unacked && q.unacked[t] in back ensures t in tags {
      var u :| u in tags && q.unacked[u] == q.unacked[t];
    }
    forall m | m in back ensures q.deliveries[m] == q.count[m] + 1 {
      var u :| u in tags && q.unacked[u] == m;
    }
  }

  /** Number of copies of b among the messages ms. */
  ghost function Copies(q: Queue, ms: set<Mid>, b: Body): nat {
    |set m | m in ms && m in q.body && q.body[m] == b|
  }

  lemma CopiesOfUnion(q: Queue, xs: set<Mid>, ys: set<Mid>, b: Body)
    requires xs !! ys
    ensures Copies(q, xs + ys, b) == Copies(q, xs, b) + Copies(q, ys, b)
  {
    var cx := set m | m in xs && m in q.body && q.body[m] == b;
    var cy := set m | m in ys && m in q.body && q.body[m] == b;
    assert (set m | m in xs + ys && m in q.body && q.body[m] == b) == cx + cy;
  }

  // Conservation by content: for every body, the routed copies are the ready, outstanding,
  // acknowledged, dead-lettered and lost ones together.
  lemma ConservedByContent(q: Queue, b: Body)
    requires Conserved(q)
    ensures Copies(q, q.body.Keys, b)
         == Copies(q, q.ready, b) + Copies(q, q.Outstanding(), b) + Copies(q, q.acked, b)
            + Copies(q, q.dead, b) + Copies(q, q.lost, b)
  {
    CopiesOfUnion(q, q.ready, q.Outstanding(), b);
    CopiesOfUnion(q, q.ready + q.Outstanding(), q.acked, b);
    CopiesOfUnion(q, q.ready + q.Outstanding() + q.acked, q.dead, b);
    CopiesOfUnion(q, q.ready + q.Outstanding() + q.acked + q.dead, q.lost, b);
  }
}

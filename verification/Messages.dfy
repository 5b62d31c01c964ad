/** Messages between workflows in the in-memory store: one vector for all destinations and topics, from which
    each receive takes the oldest message of its own channel. */
module Messages {
  import opened Types
  import opened Sequences
  import opened StoreSpec

  datatype Op = Send(m: WorkflowMessage) | Recv(destination: string, topic: string)

  /** The vector, and what was sent and delivered so far. */
  datatype Mail = Mail(messages: seq<WorkflowMessage>, sent: seq<WorkflowMessage>, delivered: seq<WorkflowMessage>)

  predicate Enabled(op: Op) {
    op.Send? ==> !op.m.consumed
  }

  function Step(s: Mail, op: Op): Mail {
    match op
    case Send(m) => Mail(s.messages + [m], s.sent + [m], s.delivered)
    case Recv(destination, topic) =>
      var (messages', r) := RecvMessage(s.messages, destination, topic);
      Mail(messages', s.sent, if r.Some? then s.delivered + [r.value.(consumed := false)] else s.delivered)
  }

  function Run(s: Mail, ops: seq<Op>): Mail
    decreases |ops|
  {
    if ops == [] then s else Run(Step(s, ops[0]), ops[1..])
  }

  function OnChannel(destination: string, topic: string): WorkflowMessage -> bool {
    (m: WorkflowMessage) => m.destinationId == destination && m.topic == topic
  }

  function Waiting(destination: string, topic: string): WorkflowMessage -> bool {
    (m: WorkflowMessage) => Deliverable(m, destination, topic)
  }

  /** On one channel: what was sent is what was delivered, in order, followed by what still waits. */
  ghost predicate Conserved(s: Mail, destination: string, topic: string) {
    Filter(s.sent, OnChannel(destination, topic))
    == Filter(s.delivered, OnChannel(destination, topic)) + Filter(s.messages, Waiting(destination, topic))
  }

  lemma {:induction false} FilterUpdate<T>(s: seq<T>, i: nat, x: T, keep: T -> bool)
    requires i < |s|
    ensures Filter(s, keep) == Filter(s[..i], keep) + Filter([s[i]], keep) + Filter(s[i + 1..], keep)
    ensures Filter(s[i := x], keep) == Filter(s[..i], keep) + Filter([x], keep) + Filter(s[i + 1..], keep)
  {
    assert s == s[..i] + [s[i]] + s[i + 1..];
    assert s[i := x] == s[..i] + [x] + s[i + 1..];
    FilterConcat(s[..i] + [s[i]], s[i + 1..], keep);
    FilterConcat(s[..i], [s[i]], keep);
    FilterConcat(s[..i] + [x], s[i + 1..], keep);
    FilterConcat(s[..i], [x], keep);
  }

  /** A receive takes the first waiting message of its channel and leaves every channel else as it was. */
  lemma RecvTakesTheFirstWaiting(messages: seq<WorkflowMessage>, d: string, t: string, destination: string, topic: string)
    ensures var (messages', r) := RecvMessage(messages, d, t);
            var waiting := Filter(messages, Waiting(destination, topic));
            && (r.None? <==> Filter(messages, Waiting(d, t)) == [])
            && (r.Some? ==> r.value.(consumed := false) == Filter(messages, Waiting(d, t))[0])
            && Filter(messages', Waiting(destination, topic))
               == if r.Some? && d == destination && t == topic then waiting[1..] else waiting
  {
    var i := FirstDeliverable(messages, d, t);
    if i == |messages| {
      FilterNone(messages, Waiting(d, t));
    } else {
      var taken := messages[i].(consumed := true);
      FilterUpdate(messages, i, taken, Waiting(d, t));
      FilterUpdate(messages, i, taken, Waiting(destination, topic));
      FilterNone(messages[..i], Waiting(d, t));
    }
  }

  lemma StepConserves(s: Mail, op: Op, destination: string, topic: string)
    requires Enabled(op) && Conserved(s, destination, topic)
    ensures Conserved(Step(s, op), destination, topic)
  {
    match op
    case Send(m) =>
      FilterConcat(s.sent, [m], OnChannel(destination, topic));
      FilterConcat(s.messages, [m], Waiting(destination, topic));
    case Recv(d, t) =>
      RecvTakesTheFirstWaiting(s.messages, d, t, destination, topic);
      var (messages', r) := RecvMessage(s.messages, d, t);
      if r.Some? {
        FilterConcat(s.delivered, [r.value.(consumed := false)], OnChannel(destination, topic));
      }
  }

  /** For every interleaving of sends and receives on any channels: first in, first out, nothing lost and nothing
      delivered twice. */
  lemma {:induction false} MessagesConserved(s: Mail, ops: seq<Op>, destination: string, topic: string)
    requires Conserved(s, destination, topic)
    requires forall op :: op in ops ==> Enabled(op)
    ensures Conserved(Run(s, ops), destination, topic)
    decreases |ops|
  {
    if ops != [] {
      assert ops[0] in ops;
      StepConserves(s, ops[0], destination, topic);
      MessagesConserved(Step(s, ops[0]), ops[1..], destination, topic);
    }
  }

  lemma FifoFromEmpty(ops: seq<Op>, destination: string, topic: string)
    requires forall op :: op in ops ==> Enabled(op)
    ensures var s := Run(Mail([], [], []), ops);
            && Filter(s.delivered, OnChannel(destination, topic)) <= Filter(s.sent, OnChannel(destination, topic))
            && (RecvMessage(s.messages, destination, topic).1.None? <==>
                  Filter(s.delivered, OnChannel(destination, topic)) == Filter(s.sent, OnChannel(destination, topic)))
  {
    MessagesConserved(Mail([], [], []), ops, destination, topic);
    var s := Run(Mail([], [], []), ops);
    RecvTakesTheFirstWaiting(s.messages, destination, topic, destination, topic);
  }
}

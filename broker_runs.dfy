/** Sequences of broker calls made one after another on one registry, and the
    properties of queue_broker.go that relate several calls: FIFO delivery,
    the capacity bound, and a registry that only grows by names put to. */
module BrokerRuns {
  import opened BrokerSpec

  datatype Op = PutOp(name: string, message: string) | GetOp(name: string)

  datatype Reply = PutReply(put: PutResult) | GetReply(get: GetResult)

  /** One call on the registry. */
  function Apply(c: Config, reg: Registry, op: Op): Step<Reply> {
    match op
    case PutOp(name, message) =>
      var s := Put(c, reg, name, message);
      Step(PutReply(s.result), s.registry)
    case GetOp(name) =>
      var s := Get(reg, name);
      Step(GetReply(s.result), s.registry)
  }

  /** The replies to `ops`, in order, and the registry after the last call. */
  function Run(c: Config, reg: Registry, ops: seq<Op>): (s: Step<seq<Reply>>)
    ensures |s.result| == |ops|
    decreases ops
  {
    if ops == [] then
      Step([], reg)
    else
      var first := Apply(c, reg, ops[0]);
      var rest := Run(c, first.registry, ops[1..]);
      Step([first.result] + rest.result, rest.registry)
  }

  /** One put of each message of `messages` to `name`, in order. */
  function Puts(name: string, messages: seq<string>): seq<Op> {
    if messages == [] then [] else [PutOp(name, messages[0])] + Puts(name, messages[1..])
  }

  /** `k` gets from `name`. */
  function Gets(name: string, k: nat): seq<Op> {
    if k == 0 then [] else [GetOp(name)] + Gets(name, k - 1)
  }

  /** `k` successful put replies. */
  function AllOk(k: nat): seq<Reply> {
    if k == 0 then [] else [PutReply(PutOk)] + AllOk(k - 1)
  }

  /** The get replies that deliver `messages`, in order. */
  function Delivered(messages: seq<string>): seq<Reply> {
    if messages == [] then [] else [GetReply(Got(messages[0]))] + Delivered(messages[1..])
  }

  /** The names the puts of `ops` target. */
  function PutNames(ops: seq<Op>): set<string> {
    if ops == [] then {}
    else (if ops[0].PutOp? then {ops[0].name} else {}) + PutNames(ops[1..])
  }

  /** The names any call of `ops` targets. */
  function Names(ops: seq<Op>): set<string> {
    if ops == [] then {} else {ops[0].name} + Names(ops[1..])
  }

  /** Running `a` then `b` is running `a + b`. */
  lemma {:induction false} RunAppend(c: Config, reg: Registry, a: seq<Op>, b: seq<Op>)
    ensures var first := Run(c, reg, a);
            var second := Run(c, first.registry, b);
            Run(c, reg, a + b) == Step(first.result + second.result, second.registry)
    decreases a
  {
    if a == [] {
      assert a + b == b;
      assert Run(c, reg, a) == Step([], reg);
      assert [] + Run(c, reg, b).result == Run(c, reg, b).result;
    } else {
      assert (a + b)[0] == a[0];
      assert (a + b)[1..] == a[1..] + b;
      var step := Apply(c, reg, a[0]);
      RunAppend(c, step.registry, a[1..], b);
      var tail := Run(c, step.registry, a[1..]);
      var second := Run(c, tail.registry, b);
      assert [step.result] + (tail.result + second.result)
          == ([step.result] + tail.result) + second.result;
    }
  }

  /** Every sequence of calls keeps the broker invariant: capacity per queue
      and the ceiling on the number of queues. */
  lemma {:induction false} RunPreservesValid(c: Config, reg: Registry, ops: seq<Op>)
    requires Valid(c, reg)
    ensures Valid(c, Run(c, reg, ops).registry)
    decreases ops
  {
    if ops != [] {
      var step := Apply(c, reg, ops[0]);
      if ops[0].PutOp? {
        PutKeepsValid(c, reg, ops[0].name, ops[0].message);
      }
      RunPreservesValid(c, step.registry, ops[1..]);
    }
  }

  /** The registry never loses a name, and only puts add names to it. */
  lemma {:induction false} RunKeys(c: Config, reg: Registry, ops: seq<Op>)
    ensures reg.Keys <= Run(c, reg, ops).registry.Keys
    ensures Run(c, reg, ops).registry.Keys <= reg.Keys + PutNames(ops)
    decreases ops
  {
    if ops != [] {
      var step := Apply(c, reg, ops[0]);
      RunKeys(c, step.registry, ops[1..]);
    }
  }

  /** A queue that no call of `ops` names is neither created nor changed. */
  lemma {:induction false} RunLeavesOthers(c: Config, reg: Registry, ops: seq<Op>, name: string)
    requires name !in Names(ops)
    ensures var after := Run(c, reg, ops).registry;
            (name in after <==> name in reg) && Lookup(after, name) == Lookup(reg, name)
    decreases ops
  {
    if ops != [] {
      var step := Apply(c, reg, ops[0]);
      RunLeavesOthers(c, step.registry, ops[1..], name);
    }
  }

  /** Running `[op] + ops` is one call followed by the run of `ops`. */
  lemma RunCons(c: Config, reg: Registry, op: Op, ops: seq<Op>)
    ensures var first := Apply(c, reg, op);
            var rest := Run(c, first.registry, ops);
            Run(c, reg, [op] + ops) == Step([first.result] + rest.result, rest.registry)
  {
  }

  /** A put to a name that is registered or still has room, on a queue that is
      not full, is accepted and grows that queue by the message. */
  lemma PutAccepted(c: Config, reg: Registry, name: string, message: string)
    requires name in reg || |reg| < c.maxQueues
    requires |Lookup(reg, name)| < c.maxQueueSize
    ensures var s := Put(c, reg, name, message);
            s.result == PutOk && name in s.registry
            && Lookup(s.registry, name) == Lookup(reg, name) + [message]
  {
  }

  /** Puts that fit in the channel all succeed and append their messages, in
      order, at the tail. */
  lemma {:induction false} PutsAppend(c: Config, reg: Registry, name: string, messages: seq<string>)
    requires name in reg || |reg| < c.maxQueues
    requires |Lookup(reg, name)| + |messages| <= c.maxQueueSize
    ensures Run(c, reg, Puts(name, messages)).result == AllOk(|messages|)
    ensures Lookup(Run(c, reg, Puts(name, messages)).registry, name) == Lookup(reg, name) + messages
    decreases messages
  {
    if messages != [] {
      var head, tail := messages[0], messages[1..];
      var step := Put(c, reg, name, head);
      PutAccepted(c, reg, name, head);
      assert Apply(c, reg, PutOp(name, head)) == Step(PutReply(PutOk), step.registry);
      PutsAppend(c, step.registry, name, tail);
      var rest := Run(c, step.registry, Puts(name, tail));
      RunCons(c, reg, PutOp(name, head), Puts(name, tail));
      assert Puts(name, messages) == [PutOp(name, head)] + Puts(name, tail);
      assert Run(c, reg, Puts(name, messages)) == Step([PutReply(PutOk)] + rest.result, rest.registry);
      assert AllOk(|messages|) == [PutReply(PutOk)] + AllOk(|tail|);
      assert (Lookup(reg, name) + [head]) + tail == Lookup(reg, name) + messages;
    }
  }

  /** `k` gets from a queue holding at least `k` messages deliver its first
      `k` messages, oldest first, and leave the rest. */
  lemma {:induction false} GetsPop(c: Config, reg: Registry, name: string, k: nat)
    requires name in reg && k <= |reg[name]|
    ensures Run(c, reg, Gets(name, k)).result == Delivered(reg[name][..k])
    ensures var after := Run(c, reg, Gets(name, k)).registry;
            name in after && after[name] == reg[name][k..]
    decreases k
  {
    if k > 0 {
      var ops := Gets(name, k);
      assert ops[0] == GetOp(name) && ops[1..] == Gets(name, k - 1);
      var step := Get(reg, name);
      GetsPop(c, step.registry, name, k - 1);
      var queue := reg[name];
      assert step.registry[name] == queue[1..];
      assert queue[..k][0] == queue[0] && queue[..k][1..] == queue[1..][..k - 1];
      assert queue[1..][k - 1..] == queue[k..];
    }
  }

  /** FIFO: after puts of `messages` that fit, as many gets as the queue then
      holds return what it held before, then `messages`, in put order, with
      nothing lost or repeated, and leave the queue empty. */
  lemma {:induction false} Fifo(c: Config, reg: Registry, name: string, messages: seq<string>)
    requires name in reg || |reg| < c.maxQueues
    requires |Lookup(reg, name)| + |messages| <= c.maxQueueSize
    ensures var n := |Lookup(reg, name)| + |messages|;
            var s := Run(c, reg, Puts(name, messages) + Gets(name, n));
            s.result == AllOk(|messages|) + Delivered(Lookup(reg, name) + messages)
            && Lookup(s.registry, name) == []
  {
    var held := Lookup(reg, name) + messages;
    var n := |held|;
    var puts := Puts(name, messages);
    RunAppend(c, reg, puts, Gets(name, n));
    PutsAppend(c, reg, name, messages);
    var middle := Run(c, reg, puts).registry;
    if n > 0 {
      assert name in middle;
      GetsPop(c, middle, name, n);
      assert middle[name][..n] == held;
    } else {
      assert Gets(name, n) == [];
      assert Delivered(held) == [];
    }
  }

  /** The message a call adds to the queue `name`: the one it put there, if
      the put was accepted. */
  function AcceptedBy(op: Op, reply: Reply, name: string): seq<string> {
    if op.PutOp? && op.name == name && reply == PutReply(PutOk) then [op.message] else []
  }

  /** The message a call takes from the queue `name`: the one it got, if any. */
  function ReceivedBy(op: Op, reply: Reply, name: string): seq<string> {
    if op.GetOp? && op.name == name && reply.GetReply? && reply.get.Got? then [reply.get.message] else []
  }

  /** The messages accepted into `name` over a run, in call order. */
  function AcceptedInto(ops: seq<Op>, replies: seq<Reply>, name: string): seq<string>
    requires |replies| == |ops|
  {
    if ops == [] then [] else AcceptedBy(ops[0], replies[0], name) + AcceptedInto(ops[1..], replies[1..], name)
  }

  /** The messages delivered from `name` over a run, in call order. */
  function ReceivedFrom(ops: seq<Op>, replies: seq<Reply>, name: string): seq<string>
    requires |replies| == |ops|
  {
    if ops == [] then [] else ReceivedBy(ops[0], replies[0], name) + ReceivedFrom(ops[1..], replies[1..], name)
  }

  /** A put adds at most its own message, at the tail of `name`, and only
      when it is accepted into that queue. */
  lemma PutOnlyAppends(c: Config, reg: Registry, target: string, message: string, name: string)
    ensures var s := Put(c, reg, target, message);
            Lookup(s.registry, name)
            == Lookup(reg, name) + (if target == name && s.result == PutOk then [message] else [])
  {
    var s := Put(c, reg, target, message);
    if target == name && s.result == PutOk {
      assert Lookup(s.registry, name) == Lookup(reg, name) + [message];
    } else if target == name {
      assert Lookup(s.registry, name) == Lookup(reg, name);
    } else if name in reg {
      assert s.registry[name] == reg[name];
    } else {
      assert name !in s.registry;
    }
  }

  /** A get takes at most the head of `name`, and only when it targets it. */
  lemma GetOnlyPops(reg: Registry, target: string, name: string)
    ensures var s := Get(reg, target);
            (if target == name && s.result.Got? then [s.result.message] else []) + Lookup(s.registry, name)
            == Lookup(reg, name)
  {
    var s := Get(reg, target);
    if target == name && s.result.Got? {
      assert Lookup(reg, name) == [s.result.message] + s.registry[name];
    } else if target == name {
      assert s.registry == reg;
    } else if name in reg {
      assert s.registry[name] == reg[name];
    }
  }

  /** One call keeps the queue `name` a FIFO: what it takes from the head,
      followed by what is left, is what was there followed by what it adds. */
  lemma StepFifo(c: Config, reg: Registry, op: Op, name: string)
    ensures var s := Apply(c, reg, op);
            ReceivedBy(op, s.result, name) + Lookup(s.registry, name)
            == Lookup(reg, name) + AcceptedBy(op, s.result, name)
  {
    match op
    case PutOp(target, message) =>
      PutOnlyAppends(c, reg, target, message, name);
      assert [] + Lookup(Put(c, reg, target, message).registry, name)
          == Lookup(Put(c, reg, target, message).registry, name);
    case GetOp(target) =>
      GetOnlyPops(reg, target, name);
      assert Lookup(reg, name) + [] == Lookup(reg, name);
  }

  /** Chaining two FIFO steps: the first call's balance and the rest of the
      run's balance give the balance of the whole run. */
  lemma ChainFifo(start: seq<string>, middle: seq<string>, left: seq<string>,
                  took: seq<string>, added: seq<string>, later: seq<string>, laterAdded: seq<string>)
    requires took + middle == start + added
    requires later + left == middle + laterAdded
    ensures (took + later) + left == start + (added + laterAdded)
  {
    calc {
      (took + later) + left;
      took + (later + left);
      took + (middle + laterAdded);
      (took + middle) + laterAdded;
      (start + added) + laterAdded;
    }
  }

  /** FIFO under any interleaving of calls: the messages delivered from `name`,
      followed by what the queue still holds, are exactly what it held at the
      start followed by every message accepted into it, in put order. So no
      message is lost, duplicated or overtaken, whatever the other calls. */
  lemma {:induction false} FifoAnyRun(c: Config, reg: Registry, ops: seq<Op>, name: string)
    ensures var s := Run(c, reg, ops);
            ReceivedFrom(ops, s.result, name) + Lookup(s.registry, name)
            == Lookup(reg, name) + AcceptedInto(ops, s.result, name)
    decreases ops
  {
    if ops != [] {
      var s := Run(c, reg, ops);
      var step := Apply(c, reg, ops[0]);
      var rest := Run(c, step.registry, ops[1..]);
      assert s.result[0] == step.result && s.result[1..] == rest.result && s.registry == rest.registry;
      StepFifo(c, reg, ops[0], name);
      FifoAnyRun(c, step.registry, ops[1..], name);
      var took, added := ReceivedBy(ops[0], step.result, name), AcceptedBy(ops[0], step.result, name);
      var later, laterAdded := ReceivedFrom(ops[1..], rest.result, name), AcceptedInto(ops[1..], rest.result, name);
      assert ReceivedFrom(ops, s.result, name) == took + later;
      assert AcceptedInto(ops, s.result, name) == added + laterAdded;
      ChainFifo(Lookup(reg, name), Lookup(step.registry, name), Lookup(rest.registry, name),
                took, added, later, laterAdded);
    }
  }

  /** Capacity: once the puts have filled the channel, the next put to it
      fails with "queue is full" and leaves its contents alone. */
  lemma {:induction false} PutBeyondCapacity(c: Config, reg: Registry, name: string, messages: seq<string>, extra: string)
    requires name in reg || |reg| < c.maxQueues
    requires |Lookup(reg, name)| + |messages| == c.maxQueueSize
    ensures var s := Run(c, reg, Puts(name, messages) + [PutOp(name, extra)]);
            s.result == AllOk(|messages|) + [PutReply(QueueFull)]
            && Lookup(s.registry, name) == Lookup(reg, name) + messages
  {
    var puts := Puts(name, messages);
    RunAppend(c, reg, puts, [PutOp(name, extra)]);
    PutsAppend(c, reg, name, messages);
    var middle := Run(c, reg, puts).registry;
    assert name in middle || |middle| < c.maxQueues by {
      if messages != [] {
        assert Lookup(middle, name) != [];
      } else {
        assert middle == reg;
      }
    }
    var last := Put(c, middle, name, extra);
    assert last.result == QueueFull;
    assert [PutOp(name, extra)][1..] == [];
  }
}

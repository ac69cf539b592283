/** The broker of queue_broker.go seen as values: the registry maps each queue
    name to the messages buffered in its channel, head first. Each operation is
    a function from the registry before the call to the result and the registry
    after it; the class in module Broker is proved against these functions. */
module BrokerSpec {

  /** The configuration NewQueueBroker stores: the buffer size of every channel
      the broker makes, the ceiling on distinct queue names, and the default
      wait (which only the HTTP front end reads). */
  datatype Config = Config(maxQueueSize: nat, maxQueues: int, defaultTimeout: int)

  /** Queue name to buffered messages, oldest first. */
  type Registry = map<string, seq<string>>

  /** PutMessage's outcome: nil, "maximum number of queues reached", "queue is full". */
  datatype PutResult = PutOk | QueueLimit | QueueFull

  /** GetMessage's outcome: a message, "queue does not exist", "not found". */
  datatype GetResult = Got(message: string) | QueueMissing | Timeout

  /** What a call answers, together with the registry it leaves behind. */
  datatype Step<R> = Step(result: R, registry: Registry)

  /** The number of names the registry can ever hold: the check `len >= maxQueues`
      refuses every new name once maxQueues <= 0. */
  function Ceiling(c: Config): nat {
    if c.maxQueues < 0 then 0 else c.maxQueues
  }

  /** The broker invariant: no channel holds more than its capacity and the
      registry never exceeds its ceiling. */
  ghost predicate Valid(c: Config, reg: Registry) {
    && (forall name :: name in reg ==> |reg[name]| <= c.maxQueueSize)
    && |reg| <= Ceiling(c)
  }

  /** The buffer under `name`, or the empty buffer a first put would create. */
  function Lookup(reg: Registry, name: string): seq<string> {
    if name in reg then reg[name] else []
  }

  /** PutMessage: refuse a new name at the ceiling, otherwise register the name
      (with an empty channel) if needed and push without blocking. */
  function Put(c: Config, reg: Registry, name: string, message: string): (s: Step<PutResult>)
    // only an unregistered name can hit the ceiling, and then nothing changes
    ensures s.result == QueueLimit <==> name !in reg && |reg| >= c.maxQueues
    ensures s.result == QueueLimit ==> s.registry == reg
    // past the ceiling check the name stays registered, even if the push fails
    ensures s.result != QueueLimit ==> s.registry.Keys == reg.Keys + {name}
    ensures s.result == QueueFull <==>
              (name in reg || |reg| < c.maxQueues) && |Lookup(reg, name)| >= c.maxQueueSize
    ensures s.result == PutOk ==> s.registry[name] == Lookup(reg, name) + [message]
    ensures s.result == QueueFull ==> s.registry[name] == Lookup(reg, name)
    // no other queue changes
    ensures forall other :: other in reg && other != name ==>
              other in s.registry && s.registry[other] == reg[other]
  {
    if name !in reg && |reg| >= c.maxQueues then
      Step(QueueLimit, reg)
    else
      var queue := Lookup(reg, name);
      var registered := reg[name := queue];
      assert registered.Keys == reg.Keys + {name};
      if |queue| < c.maxQueueSize then
        Step(PutOk, registered[name := queue + [message]])
      else
        Step(QueueFull, registered)
  }

  /** A put keeps every queue within its capacity and the registry within its
      ceiling: a name is only added below `maxQueues`, and a message only
      pushed below `maxQueueSize`. */
  lemma PutKeepsValid(c: Config, reg: Registry, name: string, message: string)
    requires Valid(c, reg)
    ensures Valid(c, Put(c, reg, name, message).registry)
  {
  }

  /** GetMessage, with every call atomic: an unknown name fails at once, a
      non-empty channel yields its head, and an empty one waits out the timer. */
  function Get(reg: Registry, name: string): (s: Step<GetResult>)
    // a get never registers or drops a name
    ensures s.registry.Keys == reg.Keys
    ensures s.result == QueueMissing <==> name !in reg
    ensures s.result == Timeout <==> name in reg && reg[name] == []
    ensures s.result.Got? ==> name in reg && reg[name] == [s.result.message] + s.registry[name]
    ensures !s.result.Got? ==> s.registry == reg
    // no other queue changes, and no queue grows
    ensures forall other :: other in reg && other != name ==> s.registry[other] == reg[other]
    ensures forall c :: Valid(c, reg) ==> Valid(c, s.registry)
  {
    if name !in reg then
      Step(QueueMissing, reg)
    else if reg[name] == [] then
      Step(Timeout, reg)
    else
      Step(Got(reg[name][0]), reg[name := reg[name][1..]])
  }
}

/** The QueueBroker object of queue_broker.go: a registry of bounded channels
    that PutMessage and GetMessage change in place. Each call is taken as
    atomic (the source serialises the registry behind a mutex). */
module Broker {
  import opened BrokerSpec

  class QueueBroker {
    /** Queue name to the messages in its channel, oldest first. */
    var queues: Registry
    const maxQueueSize: nat
    const maxQueues: int
    const defaultTimeout: int

    /** The configuration fixed at construction. */
    function Settings(): Config {
      Config(maxQueueSize, maxQueues, defaultTimeout)
    }

    ghost predicate Valid()
      reads this
    {
      BrokerSpec.Valid(Settings(), queues)
    }

    /** NewQueueBroker: an empty registry and the three settings as given. */
    constructor (maxQueueSize: nat, maxQueues: int, defaultTimeout: int)
      ensures queues == map[]
      ensures this.maxQueueSize == maxQueueSize
      ensures this.maxQueues == maxQueues
      ensures this.defaultTimeout == defaultTimeout
      ensures Valid()
    {
      this.queues := map[];
      this.maxQueueSize := maxQueueSize;
      this.maxQueues := maxQueues;
      this.defaultTimeout := defaultTimeout;
    }

    /** Registers `queueName` on first use, unless the registry is at its
        ceiling, then pushes `message` without blocking. */
    method PutMessage(queueName: string, message: string) returns (r: PutResult)
      requires Valid()
      modifies this
      ensures Valid()
      ensures Step(r, queues) == Put(Settings(), old(queues), queueName, message)
    {
      ghost var spec := Put(Settings(), queues, queueName, message);
      PutKeepsValid(Settings(), queues, queueName, message);
      if |queues| >= maxQueues && queueName !in queues {
        return QueueLimit;
      }
      if queueName !in queues {
        queues := queues[queueName := []];
      }
      var queue := queues[queueName];
      assert queue == Lookup(old(queues), queueName);
      if |queue| < maxQueueSize {
        queues := queues[queueName := queue + [message]];
        r := PutOk;
      } else {
        r := QueueFull;
      }
      assert spec == Step(r, queues);
    }

    /** Fails at once on an unknown name; otherwise pops the head, or reports
        "not found" when the channel is empty (the wait for `timeout` seconds
        is not modelled: nothing else runs during an atomic call). */
    method GetMessage(queueName: string, timeout: int) returns (r: GetResult)
      requires Valid()
      modifies this
      ensures Valid()
      ensures Step(r, queues) == Get(old(queues), queueName)
    {
      if queueName !in queues {
        return QueueMissing;
      }
      var queue := queues[queueName];
      if queue == [] {
        r := Timeout;
      } else {
        r := Got(queue[0]);
        queues := queues[queueName := queue[1..]];
      }
    }
  }

  /** A message put into a fresh broker comes back from the same queue name. */
  method PutThenGet() returns (put: PutResult, got: GetResult)
    ensures put == PutOk && got == Got("test message")
  {
    var qb := new QueueBroker(100, 10, 10);
    put := qb.PutMessage("testQueue", "test message");
    got := qb.GetMessage("testQueue", 1);
  }

  /** A get on a name nobody has put to fails without creating the queue, and
      only a queue that exists but is empty answers "not found". */
  method MissingThenTimeout() returns (missing: GetResult, put: PutResult, got: GetResult, drained: GetResult)
    ensures missing == QueueMissing
    ensures put == PutOk && got == Got("data")
    ensures drained == Timeout
  {
    var qb := new QueueBroker(100, 10, 10);
    missing := qb.GetMessage("pet", 5);
    put := qb.PutMessage("pet", "data");
    got := qb.GetMessage("pet", 5);
    drained := qb.GetMessage("pet", 1);
  }

  /** With room for one queue, a second name is refused while the first name
      keeps accepting messages. */
  method OneQueueCeiling() returns (first: PutResult, second: PutResult, again: PutResult)
    ensures first == PutOk && second == QueueLimit && again == PutOk
  {
    var qb := new QueueBroker(100, 1, 10);
    first := qb.PutMessage("queue1", "message1");
    second := qb.PutMessage("queue2", "message2");
    again := qb.PutMessage("queue1", "message3");
  }

  /** With capacity one, a second put fails until a get makes room again. */
  method CapacityOne() returns (a: PutResult, b: PutResult, got: GetResult, c: PutResult)
    ensures a == PutOk && b == QueueFull && got == Got("a") && c == PutOk
  {
    var qb := new QueueBroker(1, 10, 10);
    a := qb.PutMessage("q", "a");
    b := qb.PutMessage("q", "b");
    got := qb.GetMessage("q", 1);
    c := qb.PutMessage("q", "c");
  }
}

/** The dimensional-metrics emitter: requests are queued by Send, the processor (the
    forward-request consumer, the registered-request consumer and the registration
    workers) is started lazily on the first Send, and the forward-request consumer drains
    the queue, sending each dataset down the register or the no-register path.
    Goroutines are recorded as the tasks started; the two dataset paths are recorded as
    the calls made to them; cancellation is a nondeterministic choice at each point where
    the consumer checks its context. */
module DmEmitter {
  import opened Protocol

  const DefaultRegisterWorkersAmnt: nat := 4
  const DefaultRegisterBatchSize: nat := 100
  /** Size limit of one registration call's payload (1MB). */
  const DefaultRegisterBatchBytesSize: nat := 1000 * 1000
  const DefaultRegisterBatchSecs: nat := 1
  const DefaultRequestsQueueLen: nat := 1000
  const DefaultRequestsToRegisterQueueLen: nat := 1000
  const DefaultRequestsRegisteredQueueLen: nat := 1000

  /** What every registration worker is configured with. Durations are in seconds. */
  datatype WorkerConfig = WorkerConfig(
    maxBatchSize: nat,
    maxBatchSizeBytes: nat,
    maxBatchDurationSecs: nat,
    maxRetryBoSecs: int,
    verboseLogLevel: int)

  /** A goroutine the processor starts. */
  datatype Task = FwReqConsumer | RegisteredConsumer | RegisterWorker(config: WorkerConfig)

  /** The two ways a dataset leaves the forward-request consumer. */
  datatype Path = NoRegister | Register

  /** One call to processDatasetNoRegister or processDatasetRegister. */
  datatype Dispatch = Dispatch(path: Path, integration: IntegrationMetadata, meta: FwRequestMeta, dataSet: Dataset)

  /** The tasks one start of the processor launches, in launch order. */
  function StartedTasks(workers: nat, config: WorkerConfig): seq<Task>
  {
    [FwReqConsumer, RegisteredConsumer] + seq(workers, _ => RegisterWorker(config))
  }

  /** Where one dataset of a request goes: the no-register path iff it ignores its entity. */
  function RouteDataset(req: FwRequest, ds: Dataset): Dispatch
  {
    Dispatch(if ds.ignoreEntity then NoRegister else Register, req.data.integration, req.meta, ds)
  }

  /** The dispatches for one request: its datasets in order. */
  function RouteRequest(req: FwRequest): seq<Dispatch>
  {
    seq(|req.data.dataSets|, i requires 0 <= i < |req.data.dataSets| => RouteDataset(req, req.data.dataSets[i]))
  }

  /** The dispatches for a queue of requests consumed without interruption. */
  function RouteAll(q: seq<FwRequest>): seq<Dispatch>
  {
    if q == [] then [] else RouteAll(q[..|q| - 1]) + RouteRequest(q[|q| - 1])
  }

  /** All datasets of a queue of requests, request by request. */
  function AllDataSets(q: seq<FwRequest>): seq<Dataset>
  {
    if q == [] then [] else AllDataSets(q[..|q| - 1]) + q[|q| - 1].data.dataSets
  }

  predicate IsPrefix<T(==)>(a: seq<T>, b: seq<T>) {
    |a| <= |b| && b[..|a|] == a
  }

  /** How the queue and the dispatch log may have moved from (`q0`, `d0`) to (`q`, `d`)
      while the consumer ran: the requests taken are a prefix of the queue; what was
      dispatched is a prefix of their routing, and covers every taken request but the
      last in full, so only the request in progress can be cut short. */
  ghost predicate ConsumedInOrder(q0: seq<FwRequest>, d0: seq<Dispatch>, q: seq<FwRequest>, d: seq<Dispatch>)
  {
    && |q| <= |q0| && q == q0[|q0| - |q|..]
    && var consumed := q0[..|q0| - |q|];
       && IsPrefix(d0, d)
       && IsPrefix(d[|d0|..], RouteAll(consumed))
       && (consumed != [] ==> IsPrefix(d0 + RouteAll(consumed[..|consumed| - 1]), d))
  }

  class Emitter {
    /** Whether the processor has been started and its consumer has not exited. */
    var isProcessing: bool
    /** The requests queue, oldest first. */
    var reqsQueue: seq<FwRequest>
    /** The calls made so far to the two dataset paths, in order. */
    var dispatched: seq<Dispatch>
    /** The goroutines started so far, in order. */
    var started: seq<Task>

    const reqsQueueLen: nat
    const reqsToRegisterQueueLen: nat
    const reqsRegisteredQueueLen: nat
    const registerWorkers: nat
    const registerMaxBatchSize: nat
    const registerMaxBatchBytesSize: nat
    const registerMaxBatchSecs: nat
    const maxRetryBoSecs: int
    const verboseLogLevel: int

    /** A new emitter with the default queue lengths, worker count and batch limits; the
        retry cap and the log level come from the agent's configuration. */
    constructor (registerMaxRetryBoSecs: int, verbose: int)
      ensures !isProcessing && reqsQueue == [] && dispatched == [] && started == []
      ensures reqsQueueLen == DefaultRequestsQueueLen
      ensures reqsToRegisterQueueLen == DefaultRequestsToRegisterQueueLen
      ensures reqsRegisteredQueueLen == DefaultRequestsRegisteredQueueLen
      ensures registerWorkers == DefaultRegisterWorkersAmnt
      ensures registerMaxBatchSize == DefaultRegisterBatchSize
      ensures registerMaxBatchBytesSize == DefaultRegisterBatchBytesSize
      ensures registerMaxBatchSecs == DefaultRegisterBatchSecs
      ensures maxRetryBoSecs == registerMaxRetryBoSecs && verboseLogLevel == verbose
    {
      isProcessing := false;
      reqsQueue := [];
      dispatched := [];
      started := [];
      reqsQueueLen := DefaultRequestsQueueLen;
      reqsToRegisterQueueLen := DefaultRequestsToRegisterQueueLen;
      reqsRegisteredQueueLen := DefaultRequestsRegisteredQueueLen;
      registerWorkers := DefaultRegisterWorkersAmnt;
      registerMaxBatchSize := DefaultRegisterBatchSize;
      registerMaxBatchBytesSize := DefaultRegisterBatchBytesSize;
      registerMaxBatchSecs := DefaultRegisterBatchSecs;
      maxRetryBoSecs := registerMaxRetryBoSecs;
      verboseLogLevel := verbose;
    }

    /** The configuration each registration worker is started with. */
    function WorkerConfiguration(): WorkerConfig
    {
      WorkerConfig(registerMaxBatchSize, registerMaxBatchBytesSize, registerMaxBatchSecs,
                   maxRetryBoSecs, verboseLogLevel)
    }

    /** Queues a request and makes sure the processor runs. While the queue is full the
        call does not complete: that is reported as `blocked`, with nothing changed. */
    method Send(req: FwRequest) returns (blocked: bool)
      modifies this
      ensures blocked <==> |old(reqsQueue)| >= reqsQueueLen
      ensures blocked ==> unchanged(this)
      ensures !blocked ==> reqsQueue == old(reqsQueue) + [req] && isProcessing
                           && dispatched == old(dispatched)
                           && started == old(started)
                                         + (if old(isProcessing) then []
                                            else StartedTasks(registerWorkers, WorkerConfiguration()))
    {
      blocked := |reqsQueue| >= reqsQueueLen;
      if blocked {
        return;
      }
      reqsQueue := reqsQueue + [req];
      LazyLoadProcessor();
    }

    /** Starts the processor unless it is running: both consumers, then one registration
        worker per configured worker, all with the same configuration. */
    method LazyLoadProcessor()
      modifies this`isProcessing, this`started
      ensures isProcessing
      ensures old(isProcessing) ==> started == old(started)
      ensures !old(isProcessing) ==>
                started == old(started) + StartedTasks(registerWorkers, WorkerConfiguration())
    {
      if !isProcessing {
        isProcessing := true;
        started := started + [FwReqConsumer];
        started := started + [RegisteredConsumer];
        for w := 0 to registerWorkers
          invariant isProcessing
          invariant started == old(started) + StartedTasks(w, WorkerConfiguration())
        {
          var config := WorkerConfiguration();
          started := started + [RegisterWorker(config)];
        }
      }
    }

    /** The no-register path: a dataset whose entity is ignored. */
    method ProcessDatasetNoRegister(integration: IntegrationMetadata, meta: FwRequestMeta, ds: Dataset)
      modifies this`dispatched
      ensures dispatched == old(dispatched) + [Dispatch(NoRegister, integration, meta, ds)]
    {
      dispatched := dispatched + [Dispatch(NoRegister, integration, meta, ds)];
    }

    /** The register path: a dataset whose entity needs an identifier. */
    method ProcessDatasetRegister(integration: IntegrationMetadata, meta: FwRequestMeta, ds: Dataset)
      modifies this`dispatched
      ensures dispatched == old(dispatched) + [Dispatch(Register, integration, meta, ds)]
    {
      dispatched := dispatched + [Dispatch(Register, integration, meta, ds)];
    }

    /** The dataset loop of the forward-request consumer for one request: each dataset in
        order goes down the path its IgnoreEntity flag selects, and a cancellation seen
        before a dataset stops the loop there. `routed` counts the datasets dispatched. */
    method RouteDataSets(req: FwRequest) returns (cancelled: bool, ghost routed: nat)
      modifies this`dispatched
      ensures routed <= |req.data.dataSets|
      ensures dispatched == old(dispatched) + RouteRequest(req)[..routed]
      ensures !cancelled ==> routed == |req.data.dataSets|
    {
      var dataSets := req.data.dataSets;
      for i := 0 to |dataSets|
        invariant dispatched == old(dispatched) + RouteRequest(req)[..i]
      {
        var done: bool := *;
        if done {
          return true, i;
        }
        var ds := dataSets[i];
        if ds.ignoreEntity {
          ProcessDatasetNoRegister(req.data.integration, req.meta, ds);
        } else {
          ProcessDatasetRegister(req.data.integration, req.meta, ds);
        }
        assert RouteRequest(req)[..i + 1] == RouteRequest(req)[..i] + [RouteDataset(req, ds)];
      }
      return false, |dataSets|;
    }

    /** The forward-request consumer. It takes requests off the queue and routes their
        datasets in order, checking for cancellation before taking each request and before
        each dataset, and while idle on an empty queue; on cancellation it clears the
        processing flag and returns. When the queue is empty and no cancellation is seen,
        the consumer would wait for the next request: the model stops there. */
    method RunFwReqConsumer() returns (cancelled: bool)
      modifies this`reqsQueue, this`dispatched, this`isProcessing
      ensures ConsumedInOrder(old(reqsQueue), old(dispatched), reqsQueue, dispatched)
      ensures !cancelled ==> reqsQueue == [] && isProcessing == old(isProcessing)
                             && dispatched == old(dispatched) + RouteAll(old(reqsQueue))
      ensures cancelled ==> !isProcessing
    {
      ghost var q0 := reqsQueue;
      ghost var d0 := dispatched;
      ghost var taken: nat := 0;
      while reqsQueue != []
        invariant taken <= |q0| && reqsQueue == q0[taken..]
        invariant dispatched == d0 + RouteAll(q0[..taken])
        invariant isProcessing == old(isProcessing)
        decreases |reqsQueue|
      {
        var done: bool := *;
        if done {
          cancelled := true;
          isProcessing := false;
          StopAtRequest(q0, taken, d0);
          return;
        }
        var req := reqsQueue[0];
        reqsQueue := reqsQueue[1..];
        taken := taken + 1;
        RouteAllSnoc(q0, taken);
        ghost var routed: nat;
        cancelled, routed := RouteDataSets(req);
        if cancelled {
          isProcessing := false;
          StopInRequest(q0, taken, routed, d0);
          return;
        }
        assert RouteRequest(req)[..routed] == RouteRequest(req);
      }
      assert q0[..taken] == q0;
      StopAtRequest(q0, taken, d0);
      // With the queue drained the consumer idles in its select until the context is done.
      var done: bool := *;
      if done {
        cancelled := true;
        isProcessing := false;
      } else {
        cancelled := false;
      }
    }
  }

  lemma RouteAllSnoc(q: seq<FwRequest>, n: nat)
    requires 0 < n <= |q|
    ensures RouteAll(q[..n]) == RouteAll(q[..n - 1]) + RouteRequest(q[n - 1])
  {
    assert q[..n][..n - 1] == q[..n - 1];
  }

  /** The consumer stopped before taking request `taken`: it dispatched the requests before it. */
  lemma StopAtRequest(q: seq<FwRequest>, taken: nat, d0: seq<Dispatch>)
    requires taken <= |q|
    ensures ConsumedInOrder(q, d0, q[taken..], d0 + RouteAll(q[..taken]))
  {
    var d := d0 + RouteAll(q[..taken]);
    assert |q| - |q[taken..]| == taken;
    assert d[|d0|..] == RouteAll(q[..taken]);
    if taken > 0 {
      RouteAllSnoc(q, taken);
      assert q[..taken][..taken - 1] == q[..taken - 1];
    }
  }

  /** The consumer stopped before dataset `i` of request `taken`, which it had taken. */
  lemma StopInRequest(q: seq<FwRequest>, taken: nat, i: nat, d0: seq<Dispatch>)
    requires 0 < taken <= |q| && i <= |q[taken - 1].data.dataSets|
    ensures ConsumedInOrder(q, d0, q[taken..],
                            d0 + RouteAll(q[..taken - 1]) + RouteRequest(q[taken - 1])[..i])
  {
    var d := d0 + RouteAll(q[..taken - 1]) + RouteRequest(q[taken - 1])[..i];
    assert |q| - |q[taken..]| == taken;
    RouteAllSnoc(q, taken);
    assert q[..taken][..taken - 1] == q[..taken - 1];
    assert d[|d0|..] == RouteAll(q[..taken - 1]) + RouteRequest(q[taken - 1])[..i];
  }

  /** Each dataset of a request is dispatched once, in its place, to the no-register path
      iff it ignores its entity and to the register path otherwise. */
  lemma RouteRequestSpec(req: FwRequest)
    ensures |RouteRequest(req)| == |req.data.dataSets|
    ensures forall i :: 0 <= i < |req.data.dataSets| ==>
              && RouteRequest(req)[i].dataSet == req.data.dataSets[i]
              && (RouteRequest(req)[i].path == NoRegister <==> req.data.dataSets[i].ignoreEntity)
              && RouteRequest(req)[i].integration == req.data.integration
              && RouteRequest(req)[i].meta == req.meta
  {
  }

  /** Consuming two queues one after the other dispatches what each does on its own. */
  lemma {:induction false} RouteAllAppend(a: seq<FwRequest>, b: seq<FwRequest>)
    ensures RouteAll(a + b) == RouteAll(a) + RouteAll(b)
  {
    if b == [] {
      assert a + b == a;
    } else {
      var init := b[..|b| - 1];
      var last := b[|b| - 1];
      assert a + b == (a + init) + [last];
      RouteAllAppend(a, init);
      RouteAllLast(a + init, last);
      RouteAllLast(init, last);
      assert init + [last] == b;
    }
  }

  lemma RouteAllLast(q: seq<FwRequest>, req: FwRequest)
    ensures RouteAll(q + [req]) == RouteAll(q) + RouteRequest(req)
  {
    assert (q + [req])[..|q|] == q;
  }

  /** An uninterrupted consumer dispatches every dataset of every request exactly once, in
      queue order, each to the path its IgnoreEntity flag selects. */
  lemma {:induction false} RouteAllSpec(q: seq<FwRequest>)
    ensures |RouteAll(q)| == |AllDataSets(q)|
    ensures forall i :: 0 <= i < |RouteAll(q)| ==>
              && RouteAll(q)[i].dataSet == AllDataSets(q)[i]
              && (RouteAll(q)[i].path == NoRegister <==> AllDataSets(q)[i].ignoreEntity)
  {
    if q != [] {
      var init := q[..|q| - 1];
      RouteAllSpec(init);
      RouteRequestSpec(q[|q| - 1]);
      var r := RouteAll(q);
      var all := AllDataSets(q);
      forall i | 0 <= i < |r|
        ensures r[i].dataSet == all[i] && (r[i].path == NoRegister <==> all[i].ignoreEntity)
      {
        if i < |RouteAll(init)| {
          assert r[i] == RouteAll(init)[i] && all[i] == AllDataSets(init)[i];
        } else {
          var k := i - |RouteAll(init)|;
          assert r[i] == RouteRequest(q[|q| - 1])[k];
          assert all[i] == q[|q| - 1].data.dataSets[k];
        }
      }
    }
  }

  /** One start launches the two consumers and `workers` registration workers, all
      workers alike. */
  lemma StartedTasksSpec(workers: nat, config: WorkerConfig)
    ensures var tasks := StartedTasks(workers, config);
            && |tasks| == 2 + workers
            && tasks[0] == FwReqConsumer && tasks[1] == RegisteredConsumer
            && forall i :: 2 <= i < |tasks| ==> tasks[i] == RegisterWorker(config)
  {
  }

  /** Two sends on a new emitter start the processor once: the default two consumers and
      four workers, and both requests are queued. */
  method SendTwiceStartsOnce(a: FwRequest, b: FwRequest)
  {
    var e := new Emitter(30, 0);
    var blocked := e.Send(a);
    assert !blocked;
    blocked := e.Send(b);
    assert !blocked;
    assert e.reqsQueue == [a, b];
    assert e.started == StartedTasks(4, WorkerConfig(100, 1000 * 1000, 1, 30, 0));
    assert |e.started| == 6;
  }
}

/**
 * `attack_from_queue`: one pool worker. It binds itself to a device, then
 * pops items from the input queue until the queue is empty, pushing exactly
 * one message per item to the output queue; an exception is pushed as an
 * `Error` message and ends the worker.
 */
module Worker {
  import opened Types
  import opened Queues
  import opened EnvSetup

  /**
   * The device index of the pool process with the given identity number.
   * The initial pool's identities are 2 .. n + 1, so they map to indices 0 .. n - 1.
   */
  function GpuId(identity: int): (d: int)
    ensures d >= 0 <==> identity >= 2
    ensures d < identity
  {
    identity - 2
  }

  /** The devices used by a pool of `n` processes, whose identities are `2 .. n + 1`. */
  function PoolDevices(n: nat): set<int>
  {
    set id | 2 <= id < n + 2 :: GpuId(id)
  }

  /** A pool of `n` processes is bound to exactly the devices `0 .. n - 1`. */
  lemma PoolDevicesAreTheDeviceRange(n: nat)
    ensures forall d :: d in PoolDevices(n) <==> 0 <= d < n
  {
    forall d | 0 <= d < n
      ensures d in PoolDevices(n)
    {
      assert GpuId(d + 2) == d;
    }
  }

  /**
   * Two workers with different identities that both start from an environment
   * without a device selection end up with different `CUDA_VISIBLE_DEVICES`.
   */
  lemma DistinctWorkersSelectDistinctDevices(env: map<string, string>, a: int, b: int,
                                             passwdHome: Option<string>)
    requires a != b
    requires CudaVisibleDevices !in env
    ensures WithDefaults(env, GpuId(a), passwdHome)[CudaVisibleDevices]
         != WithDefaults(env, GpuId(b), passwdHome)[CudaVisibleDevices]
  {
    if WithDefaults(env, GpuId(a), passwdHome)[CudaVisibleDevices]
       == WithDefaults(env, GpuId(b), passwdHome)[CudaVisibleDevices]
    {
      IntToStringInjective(GpuId(a), GpuId(b));
    }
  }

  /** The messages a worker pushes for the pending `items`. */
  function Attack(items: seq<Item>, process: Item -> Message): (out: seq<Message>)
    ensures |out| <= |items|
    decreases |items|
  {
    if items == [] then []
    else
      var r := process(items[0]);
      if r.Error? then [r] else [r] + Attack(items[1..], process)
  }

  /**
   * A worker pushes one message per item, in order, each the processor's
   * answer for that item, up to and including the first exception; it stops
   * before the queue is empty only because of an exception.
   */
  lemma {:induction false} AttackOnePerItemUntilError(items: seq<Item>, process: Item -> Message)
    ensures var out := Attack(items, process);
            && |out| <= |items|
            && (forall i :: 0 <= i < |out| ==> out[i] == process(items[i]))
            && (forall i :: 0 <= i < |out| - 1 ==> !out[i].Error?)
            && (|out| < |items| ==> out != [] && out[|out| - 1].Error?)
    decreases |items|
  {
    if items != [] && !process(items[0]).Error? {
      AttackOnePerItemUntilError(items[1..], process);
    }
  }

  /** The four properties in `Attack`'s contract determine its result. */
  lemma AttackDeterminedByContract(items: seq<Item>, process: Item -> Message, out: seq<Message>)
    requires |out| <= |items|
    requires forall i :: 0 <= i < |out| ==> out[i] == process(items[i])
    requires forall i :: 0 <= i < |out| - 1 ==> !out[i].Error?
    requires |out| < |items| ==> out != [] && out[|out| - 1].Error?
    ensures out == Attack(items, process)
  {
    AttackOnePerItemUntilError(items, process);
  }

  datatype WorkerStatus =
    | Exhausted  // the input queue was found empty
    | Failed     // an exception was pushed and the worker exited

  /** Unfolds `Attack` once for an item that did not raise. */
  lemma AttackStep(items: seq<Item>, process: Item -> Message)
    requires items != [] && !process(items[0]).Error?
    ensures Attack(items, process) == [process(items[0])] + Attack(items[1..], process)
  {
  }

  /** The loop of `attack_from_queue`: drain the input queue into the output queue. */
  method ProcessQueue(inQueue: Queue<Item>, outQueue: Queue<Message>, process: Item -> Message)
    returns (status: WorkerStatus)
    modifies inQueue, outQueue
    ensures var produced := Attack(old(inQueue.items), process);
            && inQueue.items == old(inQueue.items)[|produced|..]
            && outQueue.items == old(outQueue.items) + produced
            && (status == Failed <==> produced != [] && produced[|produced| - 1].Error?)
  {
    ghost var pending := inQueue.items;
    ghost var done: seq<Message> := [];
    var empty := inQueue.Empty();
    while !empty
      invariant empty <==> inQueue.items == []
      invariant |done| <= |pending| && inQueue.items == pending[|done|..]
      invariant NoErrors(done)
      invariant Attack(pending, process) == done + Attack(inQueue.items, process)
      invariant outQueue.items == old(outQueue.items) + done
      decreases |inQueue.items|
    {
      ghost var rest := inQueue.items;
      var item := inQueue.Get();
      var result := process(item);
      outQueue.Put(result);
      if result.Error? {
        assert Attack(rest, process) == [result];
        done := done + [result];
        status := Failed;
        return;
      }
      AttackStep(rest, process);
      assert done + Attack(rest, process) == (done + [result]) + Attack(rest[1..], process);
      done := done + [result];
      empty := inQueue.Empty();
    }
    status := Exhausted;
  }

  /**
   * `attack_from_queue`: select the device from the process identity, apply
   * the environment defaults, then run the queue loop.
   */
  method AttackFromQueue(identity: int, env: ProcessEnvironment, passwdHome: Option<string>,
                         inQueue: Queue<Item>, outQueue: Queue<Message>,
                         process: Item -> Message)
    returns (gpuId: int, status: WorkerStatus)
    modifies env, inQueue, outQueue
    ensures gpuId == GpuId(identity)
    ensures env.vars == WithDefaults(old(env.vars), gpuId, passwdHome)
    ensures var produced := Attack(old(inQueue.items), process);
            && inQueue.items == old(inQueue.items)[|produced|..]
            && outQueue.items == old(outQueue.items) + produced
            && (status == Failed <==> produced != [] && produced[|produced| - 1].Error?)
  {
    gpuId := GpuId(identity);
    env.SetEnvVariables(gpuId, passwdHome);
    status := ProcessQueue(inQueue, outQueue, process);
  }
}

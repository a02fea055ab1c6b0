/**
 * The coordinating half of `main`: fill the input queue with `Target`
 * dataset items (`num_examples`, or none when it is not positive), then
 * pop results from the output queue one at a time, re-raising exceptions,
 * logging everything else, advancing `num_results` unless a skipped result
 * must be replaced by a fresh dataset item, and logging the summary once
 * `num_results` is no longer below `num_examples`.
 *
 * The workers run concurrently with this loop; here the output queue's
 * contents are given up front, in the order the queue delivers them, which
 * stands for any interleaving of the workers.
 */
module Coordination {
  import opened Types
  import opened Queues

  /** `num_examples`, `attack_n`, and the items `next(dataset)` yields, in order. */
  datatype Config = Config(numExamples: int, attackN: bool, dataset: seq<Item>)

  /**
   * How many items the fill loop takes and how many results the drain loop
   * waits for: `range(num_examples)` is empty when `num_examples` is not
   * positive, and then `num_results < num_examples` fails at once.
   */
  function Target(cfg: Config): nat
  {
    if cfg.numExamples > 0 then cfg.numExamples else 0
  }

  /** The coordinator's state between two steps. */
  datatype Snapshot = Snapshot(
    cursor: nat,             // how many items have been taken from the dataset
    inQueue: seq<Item>,
    outQueue: seq<Message>,
    numResults: nat,
    logged: seq<Message>,    // the arguments of `log_result`, in call order
    summarized: bool)        // `log_summary` and `flush` have been called

  datatype RunOutcome =
    | Finished               // `num_results` is no longer below `num_examples`; summary logged
    | Raised(cause: string)  // a worker's exception was re-raised
    | DatasetExhausted       // `next(dataset)` raised StopIteration
    | Waiting                // the output queue is empty: the blocking get never returns

  /** Whether a result that is not an exception advances `num_results`. */
  predicate Counts(attackN: bool, r: Message)
  {
    !attackN || !r.Skipped?
  }

  /** How many of `ms` advance `num_results`. */
  function CountOf(attackN: bool, ms: seq<Message>): nat
    decreases |ms|
  {
    if ms == [] then 0
    else CountOf(attackN, ms[..|ms| - 1]) + (if Counts(attackN, ms[|ms| - 1]) then 1 else 0)
  }

  datatype StepResult =
    | Continue(state: Snapshot)
    | Stop(outcome: RunOutcome, state: Snapshot)

  /**
   * One pass of the loop body once a result has been popped: re-raise an
   * exception, otherwise log the result, then either count it or replace it
   * with a fresh dataset item.
   */
  function Step(cfg: Config, s: Snapshot): (st: StepResult)
    requires s.outQueue != []
    ensures st.state.outQueue == s.outQueue[1..]
    ensures st.state.summarized == s.summarized
  {
    var r := s.outQueue[0];
    var rest := s.outQueue[1..];
    if r.Error? then Stop(Raised(r.cause), s.(outQueue := rest))
    else if Counts(cfg.attackN, r) then
      Continue(s.(outQueue := rest, logged := s.logged + [r], numResults := s.numResults + 1))
    else if s.cursor >= |cfg.dataset| then
      Stop(DatasetExhausted, s.(outQueue := rest, logged := s.logged + [r]))
    else
      Continue(s.(outQueue := rest, logged := s.logged + [r], cursor := s.cursor + 1,
                  inQueue := s.inQueue + [cfg.dataset[s.cursor]]))
  }

  /** The drain loop, from state `s` until it stops. */
  function Drain(cfg: Config, s: Snapshot): (r: (RunOutcome, Snapshot))
    ensures |r.1.outQueue| <= |s.outQueue|
    decreases |s.outQueue|
  {
    if s.numResults >= cfg.numExamples then (Finished, s.(summarized := true))
    else if s.outQueue == [] then (Waiting, s)
    else
      match Step(cfg, s)
      case Stop(o, t) => (o, t)
      case Continue(t) => Drain(cfg, t)
  }

  /** The whole coordination: the initial fill, then the drain loop over `results`. */
  function Run(cfg: Config, results: seq<Message>): (r: (RunOutcome, Snapshot))
    ensures r.1.summarized <==> r.0.Finished?
  {
    if |cfg.dataset| < Target(cfg) then
      (DatasetExhausted, Snapshot(|cfg.dataset|, cfg.dataset, results, 0, [], false))
    else
      var s0 := Snapshot(Target(cfg), cfg.dataset[..Target(cfg)], results, 0, [], false);
      DrainKeepsAccounting(cfg, s0);
      Drain(cfg, s0)
  }

  // ---------------------------------------------------------------------
  // Counting

  lemma {:induction false} CountOfAtMostLength(attackN: bool, ms: seq<Message>)
    ensures CountOf(attackN, ms) <= |ms|
    decreases |ms|
  {
    if ms != [] {
      CountOfAtMostLength(attackN, ms[..|ms| - 1]);
    }
  }

  lemma {:induction false} CountOfCons(attackN: bool, r: Message, ms: seq<Message>)
    ensures CountOf(attackN, [r] + ms) == (if Counts(attackN, r) then 1 else 0) + CountOf(attackN, ms)
    decreases |ms|
  {
    if ms != [] {
      assert ([r] + ms)[..|ms|] == [r] + ms[..|ms| - 1];
      CountOfCons(attackN, r, ms[..|ms| - 1]);
    }
  }

  lemma CountOfSnoc(attackN: bool, ms: seq<Message>, r: Message)
    ensures CountOf(attackN, ms + [r]) == CountOf(attackN, ms) + (if Counts(attackN, r) then 1 else 0)
  {
    assert (ms + [r])[..|ms|] == ms;
  }

  // ---------------------------------------------------------------------
  // One step

  /**
   * What one step does with the popped result `r`: an exception stops the
   * loop and is not logged; any other result is logged; a counting result
   * advances `num_results` and leaves the input queue alone; a skipped result
   * that must be replaced leaves `num_results` alone and appends exactly the
   * next dataset item to the input queue, or stops the run when there is none.
   */
  lemma StepFacts(cfg: Config, s: Snapshot)
    requires s.outQueue != []
    ensures var r, st := s.outQueue[0], Step(cfg, s);
            var t := st.state;
            && t.summarized == s.summarized
            && (st.Stop? <==> r.Error? || (!Counts(cfg.attackN, r) && s.cursor >= |cfg.dataset|))
            && (r.Error? ==> st.outcome == Raised(r.cause) && t.logged == s.logged
                             && t.numResults == s.numResults && t.cursor == s.cursor
                             && t.inQueue == s.inQueue)
            && (!r.Error? ==> t.logged == s.logged + [r])
            && (!r.Error? && Counts(cfg.attackN, r) ==>
                  t.numResults == s.numResults + 1 && t.cursor == s.cursor && t.inQueue == s.inQueue)
            && (!r.Error? && !Counts(cfg.attackN, r) ==> t.numResults == s.numResults)
            && (!r.Error? && !Counts(cfg.attackN, r) && s.cursor < |cfg.dataset| ==>
                  t.cursor == s.cursor + 1 && t.inQueue == s.inQueue + [cfg.dataset[s.cursor]])
            && (st.Stop? && !r.Error? ==>
                  st.outcome == DatasetExhausted && t.cursor == s.cursor && t.inQueue == s.inQueue)
  {
  }

  lemma NoErrorsCons(r: Message, ms: seq<Message>)
    ensures NoErrors([r] + ms) <==> !r.Error? && NoErrors(ms)
  {
    var rms := [r] + ms;
    assert rms[0] == r;
    assert forall i :: 0 <= i < |ms| ==> rms[i + 1] == ms[i];
    assert forall i :: 0 < i < |rms| ==> rms[i] == ms[i - 1];
  }

  // ---------------------------------------------------------------------
  // Accounting: every item taken from the dataset is either logged or still
  // in flight, and `num_results` counts the logged results that count.

  ghost predicate Accounted(cfg: Config, s: Snapshot)
  {
    && s.numResults <= Target(cfg)
    && s.cursor <= |cfg.dataset|
    && s.inQueue == cfg.dataset[..s.cursor]
    && |s.logged| + Target(cfg) == s.cursor + s.numResults
    && NoErrors(s.logged)
    && s.numResults == CountOf(cfg.attackN, s.logged)
  }

  lemma StepKeepsAccounting(cfg: Config, s: Snapshot)
    requires Accounted(cfg, s) && s.numResults < Target(cfg) && s.outQueue != []
    ensures var st := Step(cfg, s);
            (st.Continue? || st.outcome.Raised?) ==> Accounted(cfg, st.state)
  {
    var r := s.outQueue[0];
    StepFacts(cfg, s);
    if !r.Error? {
      CountOfSnoc(cfg.attackN, s.logged, r);
      if !Counts(cfg.attackN, r) && s.cursor < |cfg.dataset| {
        assert cfg.dataset[..s.cursor + 1] == cfg.dataset[..s.cursor] + [cfg.dataset[s.cursor]];
      }
    }
  }

  /**
   * The drain loop keeps the accounting, never decreases `num_results` nor
   * takes it past `Target` (`num_examples`, or 0 when it is not positive),
   * stops with `Finished` exactly when `num_results` equals `Target` (and
   * then nothing is in flight and the summary is logged), and runs out of
   * data only on a skipped result.
   */
  lemma {:induction false} DrainKeepsAccounting(cfg: Config, s: Snapshot)
    requires Accounted(cfg, s)
    ensures var (o, t) := Drain(cfg, s);
            && s.numResults <= t.numResults <= Target(cfg)
            && (o.Finished? <==> t.numResults == Target(cfg))
            && (o.Finished? ==> t.cursor == |t.logged| && t.summarized)
            && (!o.Finished? ==> t.summarized == s.summarized)
            && (!o.DatasetExhausted? ==> Accounted(cfg, t))
            && (o.DatasetExhausted? ==>
                  cfg.attackN && t.cursor == |cfg.dataset| && |t.logged| > 0
                  && t.logged[|t.logged| - 1].Skipped?)
    decreases |s.outQueue|
  {
    if s.numResults < cfg.numExamples && s.outQueue != [] {
      StepFacts(cfg, s);
      StepKeepsAccounting(cfg, s);
      var st := Step(cfg, s);
      if st.Continue? {
        assert Drain(cfg, s) == Drain(cfg, st.state);
        DrainKeepsAccounting(cfg, st.state);
      } else {
        assert Drain(cfg, s) == (st.outcome, st.state);
      }
    } else if s.numResults >= cfg.numExamples {
      assert Drain(cfg, s) == (Finished, s.(summarized := true));
      assert s.numResults == Target(cfg);
    } else {
      assert Drain(cfg, s) == (Waiting, s);
    }
  }

  /**
   * The drain loop consumes a prefix of the output queue in order and logs
   * exactly the consumed results, except a final exception, which is not
   * logged; it stops `Waiting` only on an empty output queue.
   */
  lemma {:induction false} DrainConsumesInOrder(cfg: Config, s: Snapshot)
    ensures var (o, t) := Drain(cfg, s);
            var k := |s.outQueue| - |t.outQueue|;
            && t.outQueue == s.outQueue[k..]
            && (o.Raised? ==>
                  k > 0 && s.outQueue[k - 1] == Error(o.cause)
                  && t.logged == s.logged + s.outQueue[..k - 1])
            && (!o.Raised? ==> t.logged == s.logged + s.outQueue[..k])
            && (o.Waiting? ==> t.outQueue == [])
    decreases |s.outQueue|
  {
    var rs := s.outQueue;
    if s.numResults < cfg.numExamples && rs != [] {
      var st := Step(cfg, s);
      var n := st.state;
      StepFacts(cfg, s);
      if st.Continue? {
        assert Drain(cfg, s) == Drain(cfg, n);
        DrainConsumesInOrder(cfg, n);
        var t := Drain(cfg, n).1;
        var k := |rs| - |t.outQueue|;
        ShiftPrefix(rs, s.logged, k);
        if k > 1 {
          ShiftPrefix(rs, s.logged, k - 1);
        }
      } else {
        assert Drain(cfg, s) == (st.outcome, n);
        assert rs[..1] == [rs[0]] && rs[..0] == [];
      }
    } else {
      assert rs[0..] == rs && rs[..0] == [];
    }
  }

  /** Sequence bookkeeping for moving one result from the queue to the log. */
  lemma ShiftPrefix(rs: seq<Message>, logged: seq<Message>, k: int)
    requires 0 < k <= |rs|
    ensures rs[1..][k - 1..] == rs[k..]
    ensures (logged + [rs[0]]) + rs[1..][..k - 1] == logged + rs[..k]
  {
    PrefixSplitsAtHead(rs, k);
  }

  /**
   * The drain loop takes dataset items in order and appends exactly those
   * to the input queue.
   */
  lemma {:induction false} DrainTakesDatasetInOrder(cfg: Config, s: Snapshot)
    requires s.cursor <= |cfg.dataset|
    ensures var t := Drain(cfg, s).1;
            && s.cursor <= t.cursor <= |cfg.dataset|
            && t.inQueue == s.inQueue + cfg.dataset[s.cursor..t.cursor]
    decreases |s.outQueue|
  {
    if s.numResults < cfg.numExamples && s.outQueue != [] {
      StepFacts(cfg, s);
      var st := Step(cfg, s);
      var n := st.state;
      if st.Continue? {
        DrainTakesDatasetInOrder(cfg, n);
        var t := Drain(cfg, n).1;
        if n.cursor != s.cursor {
          assert cfg.dataset[s.cursor..t.cursor]
              == [cfg.dataset[s.cursor]] + cfg.dataset[n.cursor..t.cursor];
        }
      }
    }
  }

  // ---------------------------------------------------------------------
  // When does the drain loop finish? An independent description: after the
  // first k results, none of which was an exception, exactly enough results
  // have counted (the k-th one counting), and the dataset had an item for
  // every skipped result that had to be replaced.

  ghost predicate FinishesAt(cfg: Config, s: Snapshot, k: nat)
  {
    var rs := s.outQueue;
    && k <= |rs|
    && NoErrors(rs[..k])
    && s.numResults + CountOf(cfg.attackN, rs[..k]) == Target(cfg)
    && (k == 0 || Counts(cfg.attackN, rs[k - 1]))
    && s.cursor + (k - CountOf(cfg.attackN, rs[..k])) <= |cfg.dataset|
  }

  /** A non-empty prefix is its first element followed by a prefix of the rest. */
  lemma PrefixSplitsAtHead(rs: seq<Message>, k: nat)
    requires 0 < k <= |rs|
    ensures rs[..k] == [rs[0]] + rs[1..][..k - 1]
  {
    assert forall i :: 0 <= i < k ==> rs[..k][i] == ([rs[0]] + rs[1..][..k - 1])[i];
  }

  /** How `FinishesAt` moves across one consumed result. */
  lemma FinishesAtStep(cfg: Config, s: Snapshot, k: nat)
    requires s.numResults < Target(cfg) && s.outQueue != [] && Step(cfg, s).Continue?
    requires 0 < k <= |s.outQueue|
    ensures FinishesAt(cfg, s, k) <==> FinishesAt(cfg, Step(cfg, s).state, k - 1)
  {
    StepFacts(cfg, s);
    var rs, r, n := s.outQueue, s.outQueue[0], Step(cfg, s).state;
    assert n.outQueue == rs[1..];
    PrefixSplitsAtHead(rs, k);
    CountOfCons(cfg.attackN, r, rs[1..][..k - 1]);
    CountOfAtMostLength(cfg.attackN, rs[1..][..k - 1]);
    NoErrorsCons(r, rs[1..][..k - 1]);
    if k > 1 {
      assert rs[k - 1] == rs[1..][k - 2];
    } else {
      assert CountOf(cfg.attackN, rs[1..][..0]) == 0;
    }
  }

  lemma {:induction false} DrainFinishedAtConsumed(cfg: Config, s: Snapshot)
    requires s.numResults <= Target(cfg) && s.cursor <= |cfg.dataset|
    requires Drain(cfg, s).0.Finished?
    ensures FinishesAt(cfg, s, |s.outQueue| - |Drain(cfg, s).1.outQueue|)
    decreases |s.outQueue|
  {
    if s.numResults < Target(cfg) {
      StepFacts(cfg, s);
      var n := Step(cfg, s).state;
      DrainFinishedAtConsumed(cfg, n);
      FinishesAtStep(cfg, s, |s.outQueue| - |Drain(cfg, s).1.outQueue|);
    }
  }

  lemma {:induction false} FinishesAtDrains(cfg: Config, s: Snapshot, k: nat)
    requires s.numResults <= Target(cfg)
    requires FinishesAt(cfg, s, k)
    ensures Drain(cfg, s).0.Finished?
    ensures |Drain(cfg, s).1.outQueue| == |s.outQueue| - k
    decreases k
  {
    var rs := s.outQueue;
    if s.numResults < Target(cfg) {
      assert k > 0;
      var r := rs[0];
      assert rs[..k][0] == r;
      CountOfCons(cfg.attackN, r, rs[1..][..k - 1]);
      CountOfAtMostLength(cfg.attackN, rs[1..][..k - 1]);
      PrefixSplitsAtHead(rs, k);
      StepFacts(cfg, s);
      FinishesAtStep(cfg, s, k);
      FinishesAtDrains(cfg, Step(cfg, s).state, k - 1);
    }
  }

  /** The drain loop finishes exactly when some prefix of the results finishes it. */
  lemma DrainFinishesIff(cfg: Config, s: Snapshot)
    requires s.numResults <= Target(cfg) && s.cursor <= |cfg.dataset|
    ensures Drain(cfg, s).0.Finished? <==> exists k: nat :: FinishesAt(cfg, s, k)
  {
    if Drain(cfg, s).0.Finished? {
      DrainFinishedAtConsumed(cfg, s);
    }
    if k: nat :| FinishesAt(cfg, s, k) {
      FinishesAtDrains(cfg, s, k);
    }
  }

  // ---------------------------------------------------------------------
  // Whole runs

  /**
   * The run finishes after consuming the first k results: none of them is an
   * exception, exactly `Target` of them count, the k-th counts when k > 0, and the
   * dataset holds an item for each of them (the initial fill plus one
   * replacement per skipped result).
   */
  ghost predicate RunFinishesAfter(cfg: Config, results: seq<Message>, k: nat)
  {
    && k <= |results|
    && NoErrors(results[..k])
    && CountOf(cfg.attackN, results[..k]) == Target(cfg)
    && (k == 0 || Counts(cfg.attackN, results[k - 1]))
    && k <= |cfg.dataset|
  }

  lemma RunFinishesIff(cfg: Config, results: seq<Message>)
    ensures Run(cfg, results).0.Finished? <==> exists k: nat :: RunFinishesAfter(cfg, results, k)
  {
    if Target(cfg) <= |cfg.dataset| {
      var s0 := Snapshot(Target(cfg), cfg.dataset[..Target(cfg)], results, 0, [], false);
      DrainFinishesIff(cfg, s0);
      forall k: nat
        ensures FinishesAt(cfg, s0, k) <==> RunFinishesAfter(cfg, results, k)
      {
        if k <= |results| {
          CountOfAtMostLength(cfg.attackN, results[..k]);
        }
      }
    } else {
      forall k: nat | RunFinishesAfter(cfg, results, k)
        ensures false
      {
        CountOfAtMostLength(cfg.attackN, results[..k]);
      }
    }
  }

  /**
   * A finished run consumed k results, logged exactly those in arrival order,
   * took exactly k dataset items, all of which went to the input queue in
   * dataset order, and logged the summary.
   */
  lemma RunFinishedState(cfg: Config, results: seq<Message>)
    requires Run(cfg, results).0.Finished?
    ensures var t := Run(cfg, results).1;
            var k := |results| - |t.outQueue|;
            && 0 <= k
            && RunFinishesAfter(cfg, results, k)
            && t.logged == results[..k]
            && t.numResults == Target(cfg)
            && t.cursor == k && t.inQueue == cfg.dataset[..k]
            && t.summarized
  {
    var n := Target(cfg);
    var s0 := Snapshot(n, cfg.dataset[..n], results, 0, [], false);
    assert n <= |cfg.dataset|;
    assert Run(cfg, results) == Drain(cfg, s0);
    DrainKeepsAccounting(cfg, s0);
    DrainConsumesInOrder(cfg, s0);
    DrainFinishedAtConsumed(cfg, s0);
    var t := Drain(cfg, s0).1;
    var k := |results| - |t.outQueue|;
    assert t.logged == results[..k];
    assert FinishesAt(cfg, s0, k);
    CountOfAtMostLength(cfg.attackN, results[..k]);
    assert RunFinishesAfter(cfg, results, k);
    assert t.cursor == k && t.inQueue == cfg.dataset[..k];
  }

  /**
   * A run that re-raises a worker's exception raises the first exception in
   * the results, logs exactly the results before it, never reaches
   * `Target` and never logs the summary.
   */
  lemma RunRaisedState(cfg: Config, results: seq<Message>)
    requires Run(cfg, results).0.Raised?
    ensures var (o, t) := Run(cfg, results);
            var k := |results| - |t.outQueue|;
            && 0 < k && results[k - 1] == Error(o.cause)
            && NoErrors(results[..k - 1])
            && t.logged == results[..k - 1]
            && t.numResults < Target(cfg)
            && !t.summarized
  {
    var s0 := Snapshot(Target(cfg), cfg.dataset[..Target(cfg)], results, 0, [], false);
    assert Run(cfg, results) == Drain(cfg, s0);
    DrainKeepsAccounting(cfg, s0);
    DrainConsumesInOrder(cfg, s0);
    var t := Drain(cfg, s0).1;
    var k := |results| - |t.outQueue|;
    assert t.logged == results[..k - 1];
    assert Accounted(cfg, t);
  }

  /**
   * A `num_examples` that is not positive fills nothing, pops nothing and
   * logs the summary at once, whatever the results and the dataset.
   */
  lemma RunNonPositiveFinishesAtOnce(cfg: Config, results: seq<Message>)
    requires cfg.numExamples <= 0
    ensures Run(cfg, results) == (Finished, Snapshot(0, [], results, 0, [], true))
  {
    assert cfg.dataset[..0] == [];
  }

  /**
   * With `attack_n` set, a skipped first result is logged and replaced by the
   * next dataset item; the run then finishes on the three counting results.
   */
  lemma ScenarioSkippedResultIsReplaced()
    ensures var a, b, c, d, e := Item(0, "A"), Item(1, "B"), Item(0, "C"), Item(1, "D"), Item(0, "E");
            var results := [Skipped(a), Normal(b), Normal(c), Normal(d)];
            Run(Config(3, true, [a, b, c, d, e]), results)
            == (Finished, Snapshot(4, [a, b, c, d], [], 3, results, true))
  {
    var a, b, c, d, e := Item(0, "A"), Item(1, "B"), Item(0, "C"), Item(1, "D"), Item(0, "E");
    var results := [Skipped(a), Normal(b), Normal(c), Normal(d)];
    var cfg := Config(3, true, [a, b, c, d, e]);
    var s0 := Snapshot(3, [a, b, c], results, 0, [], false);
    assert cfg.dataset[..3] == [a, b, c];
    var s1 := Snapshot(4, [a, b, c, d], results[1..], 0, [Skipped(a)], false);
    assert Step(cfg, s0) == Continue(s1);
    var s2 := Snapshot(4, [a, b, c, d], results[2..], 1, results[..2], false);
    assert Step(cfg, s1) == Continue(s2);
    var s3 := Snapshot(4, [a, b, c, d], results[3..], 2, results[..3], false);
    assert Step(cfg, s2) == Continue(s3);
    var s4 := Snapshot(4, [a, b, c, d], [], 3, results, false);
    assert Step(cfg, s3) == Continue(s4);
    assert Drain(cfg, s4) == (Finished, s4.(summarized := true));
    assert Drain(cfg, s3) == Drain(cfg, s4);
    assert Drain(cfg, s2) == Drain(cfg, s3);
    assert Drain(cfg, s1) == Drain(cfg, s2);
    assert Drain(cfg, s0) == Drain(cfg, s1);
    assert Run(cfg, results) == Drain(cfg, s0);
  }

  /** A single example whose worker raised: the exception surfaces, nothing is logged. */
  lemma ScenarioWorkerException()
    ensures var a := Item(1, "A");
            Run(Config(1, false, [a]), [Error("device unavailable")])
            == (Raised("device unavailable"), Snapshot(1, [a], [], 0, [], false))
  {
    var a := Item(1, "A");
    var cfg := Config(1, false, [a]);
    var s0 := Snapshot(1, [a], [Error("device unavailable")], 0, [], false);
    assert cfg.dataset[..1] == [a];
    assert Step(cfg, s0) == Stop(Raised("device unavailable"), s0.(outQueue := []));
  }

  // ---------------------------------------------------------------------
  // The coordinator as the source runs it

  class Coordinator {
    const config: Config
    const inQueue: Queue<Item>
    const outQueue: Queue<Message>
    var cursor: nat          // items taken from the dataset so far
    var numResults: nat
    var logged: seq<Message> // what the result logger received
    var summarized: bool     // the result logger's summary was logged and flushed

    ghost predicate Valid()
      reads this
    {
      cursor <= |config.dataset|
    }

    function State(): Snapshot
      reads this, inQueue, outQueue
    {
      Snapshot(cursor, inQueue.items, outQueue.items, numResults, logged, summarized)
    }

    constructor (config: Config, inQueue: Queue<Item>, outQueue: Queue<Message>)
      ensures Valid()
      ensures this.config == config && this.inQueue == inQueue && this.outQueue == outQueue
      ensures cursor == 0 && numResults == 0 && logged == [] && !summarized
    {
      this.config := config;
      this.inQueue := inQueue;
      this.outQueue := outQueue;
      cursor := 0;
      numResults := 0;
      logged := [];
      summarized := false;
    }

    /** `next(dataset)`: None where the dataset raises StopIteration. */
    method NextItem() returns (item: Option<Item>)
      requires Valid()
      modifies this`cursor
      ensures Valid()
      ensures old(cursor) < |config.dataset| ==>
                item == Some(config.dataset[old(cursor)]) && cursor == old(cursor) + 1
      ensures old(cursor) == |config.dataset| ==> item == None && cursor == old(cursor)
    {
      if cursor < |config.dataset| {
        item := Some(config.dataset[cursor]);
        cursor := cursor + 1;
      } else {
        item := None;
      }
    }

    /**
     * The initial fill: push the next `Target` dataset items, in order;
     * `false` when the dataset runs out first (after pushing what it had).
     */
    method Fill() returns (ok: bool)
      requires Valid()
      modifies this`cursor, inQueue
      ensures Valid()
      ensures ok <==> old(cursor) + Target(config) <= |config.dataset|
      ensures cursor == if ok then old(cursor) + Target(config) else |config.dataset|
      ensures inQueue.items == old(inQueue.items) + config.dataset[old(cursor)..cursor]
    {
      for i := 0 to Target(config)
        invariant Valid()
        invariant cursor == old(cursor) + i
        invariant inQueue.items == old(inQueue.items) + config.dataset[old(cursor)..cursor]
      {
        var item := NextItem();
        if item.None? {
          return false;
        }
        inQueue.Put(item.value);
      }
      ok := true;
    }

    /**
     * The loop body once `result` has been popped. Some(outcome) when the run
     * stops here; None when the loop goes on.
     */
    method HandleResult(result: Message) returns (stop: Option<RunOutcome>)
      requires Valid()
      modifies this`cursor, this`numResults, this`logged, inQueue
      ensures Valid()
      ensures result.Error? ==>
                stop == Some(Raised(result.cause)) && logged == old(logged)
                && numResults == old(numResults) && cursor == old(cursor)
                && inQueue.items == old(inQueue.items)
      ensures !result.Error? ==> logged == old(logged) + [result]
      ensures !result.Error? && Counts(config.attackN, result) ==>
                stop == None && numResults == old(numResults) + 1
                && cursor == old(cursor) && inQueue.items == old(inQueue.items)
      ensures !result.Error? && !Counts(config.attackN, result) ==>
                numResults == old(numResults)
                && (old(cursor) < |config.dataset| ==>
                      stop == None && cursor == old(cursor) + 1
                      && inQueue.items == old(inQueue.items) + [config.dataset[old(cursor)]])
                && (old(cursor) == |config.dataset| ==>
                      stop == Some(DatasetExhausted) && cursor == old(cursor)
                      && inQueue.items == old(inQueue.items))
    {
      if result.Error? {
        return Some(Raised(result.cause));
      }
      logged := logged + [result];
      if !config.attackN || !result.Skipped? {
        numResults := numResults + 1;
        stop := None;
      } else {
        var item := NextItem();
        if item.None? {
          return Some(DatasetExhausted);
        }
        inQueue.Put(item.value);
        stop := None;
      }
    }

    /** The drain loop, then the summary once `num_results` is no longer below `num_examples`. */
    method CollectResults() returns (outcome: RunOutcome)
      requires Valid()
      modifies this`cursor, this`numResults, this`logged, this`summarized, inQueue, outQueue
      ensures Valid()
      ensures (outcome, State()) == Drain(config, old(State()))
    {
      while numResults < config.numExamples
        invariant Valid()
        invariant Drain(config, State()) == Drain(config, old(State()))
        decreases |outQueue.items|
      {
        var empty := outQueue.Empty();
        if empty {
          return Waiting;  // `out_queue.get(block=True)` would never return
        }
        ghost var before := State();
        var result := outQueue.Get();
        var stop := HandleResult(result);
        if stop.Some? {
          return stop.value;
        }
        assert Step(config, before) == Continue(State());
      }
      summarized := true;
      outcome := Finished;
    }
  }

  /**
   * `main` from the fill to the summary, with the workers' messages given in
   * the order the output queue delivers them.
   */
  method RunAttackParallel(config: Config, results: seq<Message>)
    returns (outcome: RunOutcome, final: Snapshot)
    ensures (outcome, final) == Run(config, results)
  {
    var inQueue := new Queue<Item>();
    var outQueue := new Queue<Message>();
    outQueue.items := results;
    var coordinator := new Coordinator(config, inQueue, outQueue);
    var ok := coordinator.Fill();
    if !ok {
      assert config.dataset[0..|config.dataset|] == config.dataset;
      assert coordinator.inQueue.items == config.dataset;
      assert coordinator.outQueue.items == results;
      assert coordinator.numResults == 0 && coordinator.logged == [] && !coordinator.summarized;
      return DatasetExhausted, coordinator.State();
    }
    assert config.dataset[0..Target(config)] == config.dataset[..Target(config)];
    assert coordinator.State()
        == Snapshot(Target(config), config.dataset[..Target(config)], results, 0, [], false);
    outcome := coordinator.CollectResults();
    final := coordinator.State();
  }
}

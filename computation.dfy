/**
 * The trace builders of `computation.rs`: memoised Fibonacci, which threads
 * a mutable memo table and appends to a mutable trace, and a five-round
 * hash chain.
 */
module Computation {
  import opened Encoding
  import opened Crypto
  import opened Types
  import opened Fibonacci

  predicate IsCompute(s: TraceStep) {
    s.operation == "fib_compute"
  }

  /** Every step records its own position. */
  ghost predicate StepsIndexed(steps: seq<TraceStep>) {
    forall i :: 0 <= i < |steps| ==> steps[i].step == i
  }

  /** Every step, lookup or computation, records Fib of its input. */
  ghost predicate StepsCorrect(steps: seq<TraceStep>) {
    forall i :: 0 <= i < |steps| ==> steps[i].output == Fib(steps[i].input)
  }

  /** The inputs of the `fib_compute` steps of a trace. */
  ghost function ComputedInputs(steps: seq<TraceStep>): set<u64> {
    if steps == [] then {}
    else
      var last := steps[|steps| - 1];
      ComputedInputs(steps[..|steps| - 1]) + if IsCompute(last) then {last.input} else {}
  }

  /** No input is computed twice. */
  ghost predicate ComputedOnce(steps: seq<TraceStep>) {
    forall i, j :: 0 <= i < j < |steps| && IsCompute(steps[i]) && IsCompute(steps[j]) ==>
      steps[i].input != steps[j].input
  }

  ghost predicate MemoCorrect(memo: map<u64, u64>) {
    forall k :: k in memo ==> memo[k] == Fib(k)
  }

  /** What holds between the memo table and the trace before and after every call. */
  ghost predicate MemoTraceInv(memo: map<u64, u64>, steps: seq<TraceStep>) {
    && MemoCorrect(memo)
    && StepsIndexed(steps)
    && StepsCorrect(steps)
    && ComputedInputs(steps) == memo.Keys
    && ComputedOnce(steps)
  }

  lemma AppendLookup(memo: map<u64, u64>, steps: seq<TraceStep>, s: TraceStep)
    requires MemoTraceInv(memo, steps)
    requires s.step == |steps| && s.output == Fib(s.input) && !IsCompute(s)
    ensures MemoTraceInv(memo, steps + [s])
  {
    var steps' := steps + [s];
    assert steps'[..|steps|] == steps;
  }

  lemma AppendCompute(memo: map<u64, u64>, steps: seq<TraceStep>, s: TraceStep)
    requires MemoTraceInv(memo, steps)
    requires s.step == |steps| && s.output == Fib(s.input) && IsCompute(s)
    requires s.input !in memo
    ensures MemoTraceInv(memo[s.input := s.output], steps + [s])
  {
    var steps' := steps + [s];
    assert steps'[..|steps|] == steps;
    forall i | 0 <= i < |steps| && IsCompute(steps[i])
      ensures steps[i].input != s.input
    {
      ComputedInputsHas(steps, i);
    }
  }

  /** Every `fib_compute` step of a trace contributes its input. */
  lemma {:induction false} ComputedInputsHas(steps: seq<TraceStep>, i: nat)
    requires i < |steps| && IsCompute(steps[i])
    ensures steps[i].input in ComputedInputs(steps)
    decreases |steps|
  {
    if i < |steps| - 1 {
      var init := steps[..|steps| - 1];
      assert init[i] == steps[i];
      ComputedInputsHas(init, i);
    }
  }

  /**
   * `fib_memo`. The memo table is passed in and handed back, as the `&mut`
   * borrow of the source does; the trace is updated in place. A memo hit
   * records a `memo_lookup` step; a miss is `FibCompute`.
   */
  method FibMemo(num: u64, memo: map<u64, u64>, trace: ProofTrace, depth: nat)
    returns (result: u64, memo': map<u64, u64>)
    requires Fib(num) < U64Limit
    requires MemoTraceInv(memo, trace.steps)
    modifies trace
    ensures result == Fib(num)
    ensures MemoTraceInv(memo', trace.steps)
    ensures num in memo' && memo.Keys <= memo'.Keys
    ensures forall k :: k in memo' ==> k in memo || k <= num
    ensures old(trace.steps) < trace.steps
    ensures trace.steps[|trace.steps| - 1] ==
      TraceStep(|trace.steps| - 1, if num in memo then "memo_lookup" else "fib_compute", num, result, depth)
    ensures num in memo || num <= 1 ==> |trace.steps| == |old(trace.steps)| + 1
    ensures memo == map[] ==>
      memo'.Keys == ComputedSet(num) && |trace.steps| == |old(trace.steps)| + StepCount(num)
    ensures trace.inputs == old(trace.inputs) && trace.outputs == old(trace.outputs)
    decreases num, 2
  {
    if num in memo {
      result := memo[num];
      var lookup := TraceStep(|trace.steps|, "memo_lookup", num, result, depth);
      AppendLookup(memo, trace.steps, lookup);
      trace.AddStep(lookup);
      memo' := memo;
    } else {
      result, memo' := FibCompute(num, memo, trace, depth);
    }
  }

  /** The miss branch of `fib_memo`: a base case or `FibRecurse`, then record the result. */
  method FibCompute(num: u64, memo: map<u64, u64>, trace: ProofTrace, depth: nat)
    returns (result: u64, memo': map<u64, u64>)
    requires Fib(num) < U64Limit
    requires MemoTraceInv(memo, trace.steps)
    requires num !in memo
    modifies trace
    ensures result == Fib(num)
    ensures MemoTraceInv(memo', trace.steps)
    ensures num in memo' && memo.Keys <= memo'.Keys
    ensures forall k :: k in memo' ==> k in memo || k <= num
    ensures old(trace.steps) < trace.steps
    ensures trace.steps[|trace.steps| - 1] == TraceStep(|trace.steps| - 1, "fib_compute", num, result, depth)
    ensures num <= 1 ==> |trace.steps| == |old(trace.steps)| + 1
    ensures memo == map[] ==>
      memo'.Keys == ComputedSet(num) && |trace.steps| == |old(trace.steps)| + StepCount(num)
    ensures trace.inputs == old(trace.inputs) && trace.outputs == old(trace.outputs)
    decreases num, 1
  {
    var value: u64;
    if num <= 1 {
      value := num;
      memo' := memo;
    } else {
      value, memo' := FibRecurse(num, memo, trace, depth);
    }
    var computed := TraceStep(|trace.steps|, "fib_compute", num, value, depth);
    AppendCompute(memo', trace.steps, computed);
    ghost var before := memo';
    memo' := memo'[num := value];
    if memo == map[] {
      assert forall k :: k in memo' <==> k in before || k == num;
      KeysAreComputedSet(memo', num);
    }
    trace.AddStep(computed);
    result := value;
  }

  /**
   * The two recursive calls of `fib_memo` for num >= 2, n-1 first; the
   * second always finds n-2 in the table when the first started from an
   * empty one.
   */
  method FibRecurse(num: u64, memo: map<u64, u64>, trace: ProofTrace, depth: nat)
    returns (value: u64, memo': map<u64, u64>)
    requires 2 <= num && Fib(num) < U64Limit
    requires MemoTraceInv(memo, trace.steps)
    requires num !in memo
    modifies trace
    ensures value == Fib(num) && num !in memo'
    ensures MemoTraceInv(memo', trace.steps)
    ensures memo.Keys <= memo'.Keys
    ensures forall k :: k in memo' ==> k in memo || k < num
    ensures old(trace.steps) < trace.steps
    ensures memo == map[] ==>
      (forall k :: k in memo' <==> 0 <= k < num) && |trace.steps| == |old(trace.steps)| + StepCount(num) - 1
    ensures trace.inputs == old(trace.inputs) && trace.outputs == old(trace.outputs)
    decreases num, 0
  {
    FibMonotonic(num - 1, num);
    FibMonotonic(num - 2, num);
    var a, m1 := FibMemo(num - 1, memo, trace, depth + 1);
    ghost var mid := |trace.steps|;
    var b, m2 := FibMemo(num - 2, m1, trace, depth + 1);
    value := a + b;
    memo' := m2;
    if memo == map[] {
      assert num - 2 in m1 || num - 2 <= 1;
      assert |trace.steps| == mid + 1;
      forall k ensures k in m2 <==> 0 <= k < num {
        if 0 <= k < num && k != num - 2 {
          assert k in m1;
        }
      }
    }
  }

  lemma KeysAreComputedSet(memo: map<u64, u64>, n: nat)
    requires forall k :: k in memo <==> (if n == 1 then k == 1 else 0 <= k <= n)
    ensures memo.Keys == ComputedSet(n)
  {
  }

  /**
   * `fibonacci_with_trace`. The source panics for n > 100, and its `u64`
   * addition panics (in a debug build) once Fib(n) no longer fits; both
   * are preconditions here.
   */
  method FibonacciWithTrace(n: u64) returns (result: u64, trace: ProofTrace)
    requires n <= 100
    requires Fib(n) < U64Limit
    ensures fresh(trace)
    ensures result == Fib(n)
    ensures trace.inputs == map["n" := n] && trace.outputs == map["result" := result]
    ensures StepsIndexed(trace.steps) && StepsCorrect(trace.steps)
    ensures ComputedOnce(trace.steps) && ComputedInputs(trace.steps) == ComputedSet(n)
    ensures |trace.steps| == StepCount(n)
    ensures trace.steps[|trace.steps| - 1] == TraceStep(|trace.steps| - 1, "fib_compute", n, result, 0)
  {
    trace := new ProofTrace();
    trace.SetInput("n", n);
    var memo: map<u64, u64> := map[];
    result, memo := FibMemo(n, memo, trace, 0);
    trace.SetOutput("result", result);
  }

  /** `current` after `rounds` rounds of re-hashing. */
  function HashChain(sha: HashFn, start: string, rounds: nat): (h: string)
    ensures rounds > 0 ==> |h| == 64 && IsLowerHex(h)
  {
    if rounds == 0 then start else HashString(sha, HashChain(sha, start, rounds - 1))
  }

  /**
   * `hash_computation_with_trace`: five rounds of hashing the previous
   * digest, starting from the hex numeral of the input; each step records
   * the digest length.
   */
  method HashComputationWithTrace(sha: HashFn, input: u64) returns (digest: string, trace: ProofTrace)
    ensures fresh(trace)
    ensures digest == HashChain(sha, HexNumeral(input), 5)
    ensures |digest| == 64 && IsLowerHex(digest)
    ensures trace.inputs == map["input" := input] && trace.outputs == map[]
    ensures |trace.steps| == 5
    ensures forall i :: 0 <= i < 5 ==>
      trace.steps[i] == TraceStep(i, "hash_round_" + Decimal(i), input, 64, i)
  {
    trace := new ProofTrace();
    trace.SetInput("input", input);
    var current := HexNumeral(input);
    for i := 0 to 5
      invariant |trace.steps| == i
      invariant current == HashChain(sha, HexNumeral(input), i)
      invariant forall j :: 0 <= j < i ==>
        trace.steps[j] == TraceStep(j, "hash_round_" + Decimal(j), input, 64, j)
      invariant trace.inputs == map["input" := input] && trace.outputs == map[]
    {
      var output := HashString(sha, current);
      trace.AddStep(TraceStep(i, "hash_round_" + Decimal(i), input, |output|, i));
      current := output;
    }
    digest := current;
  }
}

/**
 * The Python prover of `prover.py`: a memoised Fibonacci whose inner closure
 * appends to a step list and fills a memo dict, then a proof dictionary
 * built from the trace commitment, the reduced outputs, the challenge and
 * three hashed folding ("FRI") layers.
 */
module PyProver {
  import opened Encoding
  import opened Lists
  import opened Crypto
  import opened Fibonacci
  import opened PyValues

  /** One dict of `trace_steps`, with keys step, operation, input, output and depth. */
  datatype PyTraceStep = PyTraceStep(step: int, operation: string, input: int, output: int, depth: int)

  /** The `ProofTrace` dataclass. */
  datatype PyProofTrace = PyProofTrace(steps: seq<PyTraceStep>, inputs: map<string, int>, outputs: map<string, int>)

  /** `json.dumps(trace.to_dict(), sort_keys=True)`, supplied by the caller. */
  type TraceSerializer = PyProofTrace -> string

  /** What `compute_fibonacci` returns when it does not raise. */
  datatype FibRun = FibRun(result: int, trace: PyProofTrace)

  /** Every step records its own position. */
  ghost predicate StepsIndexed(steps: seq<PyTraceStep>) {
    forall i :: 0 <= i < |steps| ==> steps[i].step == i
  }

  /** Every step, lookup or computation, records Fib of its (non-negative) input. */
  ghost predicate StepsCorrect(steps: seq<PyTraceStep>) {
    forall i :: 0 <= i < |steps| ==> steps[i].input >= 0 && steps[i].output == Fib(steps[i].input)
  }

  ghost predicate MemoCorrect(memo: map<int, int>) {
    && (forall k :: k in memo ==> k >= 0)
    && (forall k :: k in memo ==> memo[k] == Fib(k))
  }

  /**
   * The variables the `fib_with_trace` closure shares with
   * `compute_fibonacci`: the `trace_steps` list and the `memo` dict.
   */
  class FibRecorder {
    var traceSteps: seq<PyTraceStep>
    var memo: map<int, int>

    ghost predicate Valid()
      reads this
    {
      MemoCorrect(memo) && StepsIndexed(traceSteps) && StepsCorrect(traceSteps)
    }

    constructor ()
      ensures traceSteps == [] && memo == map[]
      ensures Valid()
    {
      traceSteps := [];
      memo := map[];
    }

    /**
     * `fib_with_trace`: a memo hit appends a `memo_lookup` step; otherwise
     * the value is computed (recursing on num - 1, then num - 2), stored in
     * the memo and recorded as a `fib_compute` step. From an empty memo the
     * computed inputs are exactly `ComputedSet(num)` and the run records
     * `StepCount(num)` steps.
     */
    method FibWithTrace(num: nat, depth: int) returns (result: int)
      requires Valid()
      modifies this
      ensures Valid()
      ensures result == Fib(num)
      ensures num in memo && old(memo).Keys <= memo.Keys
      ensures forall k :: k in memo ==> k in old(memo) || k <= num
      ensures old(traceSteps) < traceSteps
      ensures traceSteps[|traceSteps| - 1] ==
        PyTraceStep(|traceSteps| - 1, if num in old(memo) then "memo_lookup" else "fib_compute", num, result, depth)
      ensures num in old(memo) || num <= 1 ==> |traceSteps| == |old(traceSteps)| + 1
      ensures old(memo) == map[] ==>
        memo.Keys == ComputedSet(num) && |traceSteps| == |old(traceSteps)| + StepCount(num)
      decreases num, 1
    {
      if num in memo {
        var lookup := PyTraceStep(|traceSteps|, "memo_lookup", num, memo[num], depth);
        AppendStep(traceSteps, lookup);
        traceSteps := traceSteps + [lookup];
        return memo[num];
      }
      ghost var memo0 := memo;
      if num == 0 {
        result := 0;
      } else if num == 1 {
        result := 1;
      } else {
        result := SumOfPrevious(num, depth);
      }
      memo := memo[num := result];
      var computed := PyTraceStep(|traceSteps|, "fib_compute", num, result, depth);
      AppendStep(traceSteps, computed);
      traceSteps := traceSteps + [computed];
      if memo0 == map[] {
        KeysAreComputedSet(memo, num);
      }
    }

    /**
     * `fib_with_trace(num - 1, depth + 1) + fib_with_trace(num - 2, depth + 1)`,
     * left operand first. From an empty memo the second call is a lookup
     * unless num - 2 is a base case, and the keys become 0..num-1.
     */
    method SumOfPrevious(num: nat, depth: int) returns (sum: int)
      requires 2 <= num && num !in memo
      requires Valid()
      modifies this
      ensures Valid()
      ensures sum == Fib(num) && num !in memo
      ensures old(memo).Keys <= memo.Keys
      ensures forall k :: k in memo ==> k in old(memo) || k < num
      ensures old(traceSteps) < traceSteps
      ensures old(memo) == map[] ==>
        (forall k :: k in memo <==> 0 <= k < num) && |traceSteps| == |old(traceSteps)| + StepCount(num) - 1
      decreases num, 0
    {
      ghost var memo0 := memo;
      var a := FibWithTrace(num - 1, depth + 1);
      ghost var memo1 := memo;
      ghost var mid := |traceSteps|;
      var b := FibWithTrace(num - 2, depth + 1);
      sum := a + b;
      if memo0 == map[] {
        assert num - 2 in memo1 || num - 2 <= 1;
        assert |traceSteps| == mid + 1;
        RecursionKeys(memo1, memo, num);
      }
    }
  }

  /** Appending a step that records its own position and Fib of its input keeps the trace correct. */
  lemma AppendStep(steps: seq<PyTraceStep>, s: PyTraceStep)
    requires StepsIndexed(steps) && StepsCorrect(steps)
    requires s.step == |steps| && s.input >= 0 && s.output == Fib(s.input)
    ensures StepsIndexed(steps + [s]) && StepsCorrect(steps + [s])
  {
  }

  /**
   * From an empty memo, the first recursive call leaves `ComputedSet(num - 1)`
   * and the second adds only num - 2: the keys become 0..num-1.
   */
  lemma RecursionKeys(memo1: map<int, int>, memo2: map<int, int>, num: nat)
    requires 2 <= num
    requires memo1.Keys == ComputedSet(num - 1) && memo1.Keys <= memo2.Keys && num - 2 in memo2
    requires forall k :: k in memo2 ==> k in memo1 || k <= num - 2
    requires MemoCorrect(memo2)
    ensures forall k :: k in memo2 <==> 0 <= k < num
  {
    forall k ensures k in memo2 <==> 0 <= k < num {
      if 0 <= k < num && k != num - 2 {
        assert k in ComputedSet(num - 1);
      }
    }
  }

  lemma KeysAreComputedSet(memo: map<int, int>, n: nat)
    requires forall k :: k in memo <==> (if n == 1 then k == 1 else 0 <= k <= n)
    ensures memo.Keys == ComputedSet(n)
  {
  }

  /** `2 ** security_level`: the modulus of the Python constraint values, with no cap. */
  function ConstraintValues(securityLevel: nat, steps: seq<PyTraceStep>): (evals: seq<int>)
    ensures |evals| == |steps|
    ensures forall i :: 0 <= i < |steps| ==> evals[i] == steps[i].output % Pow2(securityLevel)
    ensures forall i :: 0 <= i < |evals| ==> 0 <= evals[i] < Pow2(securityLevel)
  {
    if steps == [] then []
    else ConstraintValues(securityLevel, steps[..|steps| - 1]) + [steps[|steps| - 1].output % Pow2(securityLevel)]
  }

  /** `json.dumps([str(e) for e in values])`: a JSON array of quoted decimal strings. */
  function LayerString(values: seq<int>): string {
    "[" + Join(", ", Map((e: int) => "\"" + IntString(e) + "\"", values)) + "]"
  }

  /** `current[::2] if len(current) > 1 else current`. */
  function Halve(s: seq<int>): (r: seq<int>)
    ensures |s| > 1 ==> |r| < |s|
    ensures |s| <= 1 ==> r == s
    ensures |s| > 1 ==> |r| == (|s| + 1) / 2
  {
    if |s| > 1 then EveryOther(s) else s
  }

  /**
   * The layers `_fri_commit` emits with `rounds` rounds left: one hash per
   * round whatever the list holds, over its first five values and the
   * challenge, with no round index.
   */
  function FriLayers(sha: HashFn, current: seq<int>, challenge: string, rounds: nat): (layers: seq<string>)
    ensures |layers| == rounds
    ensures forall i :: 0 <= i < |layers| ==> |layers[i]| == 64 && IsLowerHex(layers[i])
    decreases rounds
  {
    if rounds == 0 then []
    else
      [LayerHash(sha, current, challenge)]
      + FriLayers(sha, Halve(current), challenge, rounds - 1)
  }

  /** One round's hash: the first five values as a JSON array of strings, then the challenge. */
  function LayerHash(sha: HashFn, current: seq<int>, challenge: string): (h: string)
    ensures |h| == 64 && IsLowerHex(h)
  {
    HashString(sha, LayerString(Take(current, 5)) + challenge)
  }

  /** Without a round index, a list of at most one value gives the same hash every round. */
  lemma {:induction false} ShortListRepeatsLayer(sha: HashFn, current: seq<int>, challenge: string, rounds: nat)
    requires |current| <= 1
    ensures forall i :: 0 <= i < rounds ==>
      FriLayers(sha, current, challenge, rounds)[i] == HashString(sha, LayerString(current) + challenge)
  {
    if rounds > 0 {
      ShortListRepeatsLayer(sha, current, challenge, rounds - 1);
    }
  }

  /** The proof values of a list of integers and of a list of strings. */
  function JInts(values: seq<int>): (items: seq<Json>)
    ensures |items| == |values|
    ensures forall i :: 0 <= i < |values| ==> items[i] == JInt(values[i])
  {
    Map((e: int) => JInt(e), values)
  }

  function JStrs(values: seq<string>): (items: seq<Json>)
    ensures |items| == |values|
    ensures forall i :: 0 <= i < |values| ==> items[i] == JStr(values[i])
  {
    Map((e: string) => JStr(e), values)
  }

  /** The keys of every proof `generate_proof` builds. */
  const ProofKeys: set<string> := {"version", "computation", "result", "trace_commitment",
    "constraint_evaluations", "challenge", "fri_layers", "timestamp", "security_bits"}

  /** A proof dictionary with the given value under each of the nine keys. */
  function ProofMap(version: Json, computation: Json, result: Json, traceCommitment: Json,
                    constraintEvaluations: Json, challenge: Json, friLayers: Json,
                    timestamp: Json, securityBits: Json): (proof: map<string, Json>)
    ensures proof.Keys == ProofKeys
    ensures proof["version"] == version && proof["computation"] == computation
    ensures proof["result"] == result && proof["trace_commitment"] == traceCommitment
    ensures proof["constraint_evaluations"] == constraintEvaluations && proof["challenge"] == challenge
    ensures proof["fri_layers"] == friLayers && proof["timestamp"] == timestamp
    ensures proof["security_bits"] == securityBits
  {
    map[
      "version" := version,
      "computation" := computation,
      "result" := result,
      "trace_commitment" := traceCommitment,
      "constraint_evaluations" := constraintEvaluations,
      "challenge" := challenge,
      "fri_layers" := friLayers,
      "timestamp" := timestamp,
      "security_bits" := securityBits
    ]
  }

  /**
   * The dictionary `generate_proof` returns: the name is always
   * "fibonacci", the published constraint values are the first ten of the
   * list the layers fold in full, and the timestamp is the clock reading,
   * passed in.
   */
  function ProofDict(sha: HashFn, serialize: TraceSerializer, securityLevel: nat,
                     computationResult: int, trace: PyProofTrace, timestamp: real): (proof: map<string, Json>)
    ensures proof.Keys == ProofKeys
    ensures proof["version"] == JStr("1.0") && proof["computation"] == JStr("fibonacci")
    ensures proof["result"] == JInt(computationResult) && proof["timestamp"] == JFloat(timestamp)
    ensures proof["security_bits"] == JInt(securityLevel)
    ensures proof["trace_commitment"] == JStr(HashString(sha, serialize(trace)))
    ensures proof["challenge"] == JStr(Crypto.GenerateChallenge(sha, proof["trace_commitment"].s, securityLevel))
    ensures proof["constraint_evaluations"] == JList(JInts(Take(ConstraintValues(securityLevel, trace.steps), 10)))
    ensures proof["fri_layers"] == JList(JStrs(FriLayers(sha, ConstraintValues(securityLevel, trace.steps),
                                                       proof["challenge"].s, 3)))
  {
    var traceCommitment := HashString(sha, serialize(trace));
    var constraintEvals := ConstraintValues(securityLevel, trace.steps);
    var challenge := GenerateChallenge(sha, traceCommitment, securityLevel);
    var friLayers := FriLayers(sha, constraintEvals, challenge, 3);
    ProofMap(JStr("1.0"), JStr("fibonacci"), JInt(computationResult), JStr(traceCommitment),
             JList(JInts(Take(constraintEvals, 10))), JStr(challenge), JList(JStrs(friLayers)),
             JFloat(timestamp), JInt(securityLevel))
  }

  /**
   * What `generate_proof` publishes of the constraint values: the first
   * ten (fewer for a shorter trace), each a step's output reduced modulo
   * 2^level.
   */
  lemma PublishedEvaluations(securityLevel: nat, steps: seq<PyTraceStep>)
    ensures var items := JInts(Take(ConstraintValues(securityLevel, steps), 10));
      && |items| == Min(|steps|, 10)
      && forall i :: 0 <= i < |items| ==>
           items[i] == JInt(steps[i].output % Pow2(securityLevel)) && 0 <= items[i].i < Pow2(securityLevel)
  {
    var values := ConstraintValues(securityLevel, steps);
    var published := Take(values, 10);
    assert forall i :: 0 <= i < |published| ==> published[i] == values[i];
  }

  /** `STARKProver`: the security level and the last proof generated. */
  class STARKProver {
    const securityLevel: nat
    var proofData: map<string, Json>

    /** `__init__`. */
    constructor (securityLevel: nat)
      ensures this.securityLevel == securityLevel && proofData == map[]
    {
      this.securityLevel := securityLevel;
      proofData := map[];
    }

    /**
     * `compute_fibonacci`: `ValueError` for a negative `n`; otherwise Fib(n)
     * and a trace whose steps are indexed, each correct, `StepCount(n)` in
     * number, ending with the `fib_compute` step of `n` at depth 0.
     */
    method ComputeFibonacci(n: int) returns (r: Outcome<FibRun>)
      ensures n < 0 ==> r == Raised(ValueError("n must be non-negative"))
      ensures n >= 0 ==> r.Ok? && r.value.result == Fib(n)
      ensures n >= 0 ==>
        var trace := r.value.trace;
        && trace.inputs == map["n" := n] && trace.outputs == map["result" := Fib(n)]
        && StepsIndexed(trace.steps) && StepsCorrect(trace.steps)
        && |trace.steps| == StepCount(n)
        && trace.steps[|trace.steps| - 1] == PyTraceStep(|trace.steps| - 1, "fib_compute", n, Fib(n), 0)
    {
      if n < 0 {
        return Raised(ValueError("n must be non-negative"));
      }
      var recorder := new FibRecorder();
      var result := recorder.FibWithTrace(n, 0);
      var proofTrace := PyProofTrace(recorder.traceSteps, map["n" := n], map["result" := result]);
      r := Ok(FibRun(result, proofTrace));
    }

    /** `_commit_to_trace`: the hash of the serialised trace. */
    function CommitToTrace(sha: HashFn, serialize: TraceSerializer, trace: PyProofTrace): (c: string)
      ensures |c| == 64 && IsLowerHex(c)
      ensures FromHex(c) == sha(Utf8(serialize(trace)))
    {
      HashString(sha, serialize(trace))
    }

    /** `_evaluate_constraints`: one reduced output per step, in order. */
    method EvaluateConstraints(trace: PyProofTrace) returns (evaluations: seq<int>)
      ensures evaluations == ConstraintValues(securityLevel, trace.steps)
    {
      evaluations := [];
      for i := 0 to |trace.steps|
        invariant evaluations == ConstraintValues(securityLevel, trace.steps[..i])
      {
        var constraintValue := trace.steps[i].output % Pow2(securityLevel);
        evaluations := evaluations + [constraintValue];
        assert trace.steps[..i + 1][..i] == trace.steps[..i];
      }
      assert trace.steps[..|trace.steps|] == trace.steps;
    }

    /** `_generate_challenge`: the same derivation as the Rust `generate_challenge`. */
    function GenerateChallenge(sha: HashFn, commitment: string): (c: string)
      ensures |c| == 16 && IsLowerHex(c)
      ensures c == Crypto.GenerateChallenge(sha, commitment, securityLevel)
    {
      HashString(sha, commitment + IntString(securityLevel))[..16]
    }

    /** `_fri_commit`: always three rounds, halving only while more than one value is left. */
    method FriCommit(sha: HashFn, evaluations: seq<int>, challenge: string) returns (layers: seq<string>)
      ensures layers == FriLayers(sha, evaluations, challenge, 3)
    {
      layers := [];
      var currentEvals := evaluations;
      for layerIdx := 0 to 3
        invariant layers + FriLayers(sha, currentEvals, challenge, 3 - layerIdx)
                  == FriLayers(sha, evaluations, challenge, 3)
      {
        var layerHash := LayerHash(sha, currentEvals, challenge);
        layers := layers + [layerHash];
        currentEvals := Halve(currentEvals);
      }
    }

    /** `generate_proof`: builds the proof dictionary and keeps it in `proof_data`. */
    method GenerateProof(sha: HashFn, serialize: TraceSerializer, computationResult: int,
                         trace: PyProofTrace, timestamp: real) returns (proof: map<string, Json>)
      modifies this
      ensures proof == ProofDict(sha, serialize, securityLevel, computationResult, trace, timestamp)
      ensures proofData == proof
    {
      var traceCommitment := CommitToTrace(sha, serialize, trace);
      var constraintEvals := EvaluateConstraints(trace);
      var challenge := GenerateChallenge(sha, traceCommitment);
      var friLayers := FriCommit(sha, constraintEvals, challenge);
      proof := ProofMap(JStr("1.0"), JStr("fibonacci"), JInt(computationResult), JStr(traceCommitment),
                        JList(JInts(Take(constraintEvals, 10))), JStr(challenge), JList(JStrs(friLayers)),
                        JFloat(timestamp), JInt(securityLevel));
      proofData := proof;
    }

    /** `get_proof`: the proof kept by the last `generate_proof`. */
    function GetProof(): map<string, Json>
      reads this
    {
      proofData
    }
  }
}

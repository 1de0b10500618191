/**
 * The Rust prover of `prover.rs`: commit to the trace, reduce every step's
 * output modulo a power of two, derive the challenge, hash three folding
 * ("FRI") layers and assemble the proof.
 */
module Prover {
  import opened Encoding
  import opened Lists
  import opened Crypto
  import opened Types

  /** `serde_json::to_string` of a trace, supplied by the caller. */
  type Serializer = TraceData -> string

  /** `STARKProver`: only the security level; `STARKProver::new` is the constructor. */
  datatype STARKProver = STARKProver(securityLevel: u32)

  /** `1u64 << security_level.min(32)`: the shift never exceeds 32. */
  function ConstraintModulus(securityLevel: u32): (m: nat)
    ensures 1 <= m <= Pow2(32)
    ensures securityLevel <= 32 ==> m == Pow2(securityLevel)
  {
    Pow2Monotonic(Min(securityLevel, 32), 32);
    Pow2(Min(securityLevel, 32))
  }

  /** `commit_to_trace`: the hash of the serialised trace. */
  function CommitToTrace(sha: HashFn, serialize: Serializer, trace: TraceData): (c: string)
    ensures |c| == 64 && IsLowerHex(c)
    ensures FromHex(c) == sha(Utf8(serialize(trace)))
  {
    HashString(sha, serialize(trace))
  }

  /** `evaluate_constraints`: one reduced output per step, in step order. */
  function EvaluateConstraints(securityLevel: u32, steps: seq<TraceStep>): (evals: seq<u64>)
    ensures |evals| == |steps|
    ensures forall i :: 0 <= i < |steps| ==> evals[i] == steps[i].output % ConstraintModulus(securityLevel)
    ensures forall i :: 0 <= i < |evals| ==> evals[i] < ConstraintModulus(securityLevel)
  {
    if steps == [] then []
    else
      var m := ConstraintModulus(securityLevel);
      var rest := EvaluateConstraints(securityLevel, steps[1..]);
      ModBelow(steps[0].output, m);
      [steps[0].output % m] + rest
  }

  lemma ModBelow(x: nat, m: nat)
    requires 1 <= m
    ensures x % m < m && x % m <= x
  {
    if x < m {
      assert x % m == x;
    }
  }

  /**
   * What one layer hashes: the first (at most) five current values in
   * decimal joined by commas, then the challenge, then the round index.
   */
  function LayerData(current: seq<u64>, challenge: string, layerIdx: nat): string {
    Join(",", Map((e: u64) => Decimal(e), Take(current, 5))) + challenge + Decimal(layerIdx)
  }

  /**
   * The layers `create_fri_layers` emits from round `layerIdx` on, with
   * `rounds` rounds left: none once the working list is empty, otherwise
   * one hash per round, keeping every second value between rounds.
   */
  function FriLayers(sha: HashFn, current: seq<u64>, challenge: string, layerIdx: nat, rounds: nat)
    : (layers: seq<string>)
    ensures |layers| == if current == [] then 0 else rounds
    ensures forall i :: 0 <= i < |layers| ==> |layers[i]| == 64 && IsLowerHex(layers[i])
    decreases rounds
  {
    if rounds == 0 || current == [] then []
    else
      [HashString(sha, LayerData(current, challenge, layerIdx))]
      + FriLayers(sha, EveryOther(current), challenge, layerIdx + 1, rounds - 1)
  }

  /**
   * The three layers of a non-empty list: round `i` hashes the list halved
   * `i` times together with the index `i`.
   */
  lemma FriLayersOfThreeRounds(sha: HashFn, evaluations: seq<u64>, challenge: string)
    requires evaluations != []
    ensures var once := EveryOther(evaluations);
            var twice := EveryOther(once);
            FriLayers(sha, evaluations, challenge, 0, 3)
            == [HashString(sha, LayerData(evaluations, challenge, 0)),
                HashString(sha, LayerData(once, challenge, 1)),
                HashString(sha, LayerData(twice, challenge, 2))]
  {
    var once := EveryOther(evaluations);
    var twice := EveryOther(once);
    assert FriLayers(sha, EveryOther(twice), challenge, 3, 0) == [];
  }

  /** `create_fri_layers`: three rounds, stopping early once the list is empty. */
  method CreateFriLayers(sha: HashFn, evaluations: seq<u64>, challenge: string) returns (layers: seq<string>)
    ensures layers == FriLayers(sha, evaluations, challenge, 0, 3)
    ensures |layers| == if evaluations == [] then 0 else 3
  {
    layers := [];
    var currentEvals := evaluations;
    for layerIdx := 0 to 3
      invariant layers + FriLayers(sha, currentEvals, challenge, layerIdx, 3 - layerIdx)
                == FriLayers(sha, evaluations, challenge, 0, 3)
    {
      if currentEvals == [] {
        break;
      }
      var layerData := LayerData(currentEvals, challenge, layerIdx);
      var layerHash := HashString(sha, layerData);
      layers := layers + [layerHash];
      currentEvals := EveryOther(currentEvals);
    }
  }

  /**
   * `prove`. The proof's timestamp is the clock reading, passed in; the
   * trace is the borrowed `ProofTrace`, as a value.
   */
  function Prove(sha: HashFn, serialize: Serializer, prover: STARKProver, computationName: string,
                 result: u64, trace: TraceData, timestamp: u64): (p: Proof)
    ensures p.version == "1.0" && p.computation == computationName && p.result == result
    ensures p.securityBits == prover.securityLevel && p.timestamp == timestamp
    ensures p.traceCommitment == CommitToTrace(sha, serialize, trace)
    ensures p.constraintEvaluations == EvaluateConstraints(prover.securityLevel, trace.steps)
    ensures p.challenge == GenerateChallenge(sha, p.traceCommitment, prover.securityLevel)
    ensures VerifyChallenge(sha, p.traceCommitment, p.securityBits, p.challenge)
    ensures p.friLayers == FriLayers(sha, p.constraintEvaluations, p.challenge, 0, 3)
    ensures |p.friLayers| == if trace.steps == [] then 0 else 3
  {
    var traceCommitment := CommitToTrace(sha, serialize, trace);
    var constraintEvaluations := EvaluateConstraints(prover.securityLevel, trace.steps);
    var challenge := GenerateChallenge(sha, traceCommitment, prover.securityLevel);
    var friLayers := FriLayers(sha, constraintEvaluations, challenge, 0, 3);
    NewProof(computationName, result, traceCommitment, constraintEvaluations, challenge,
             friLayers, prover.securityLevel, timestamp)
  }
}

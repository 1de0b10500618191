/**
 * The records of `types.rs`: trace steps, the append-only proof trace,
 * the proof and the verification result.
 */
module Types {
  import opened Encoding

  /** One recorded computation event (`usize` fields are modelled as `nat`). */
  datatype TraceStep = TraceStep(step: nat, operation: string, input: u64, output: u64, depth: nat)

  /** A read-only view of a `ProofTrace`: what the prover borrows. */
  datatype TraceData = TraceData(steps: seq<TraceStep>, inputs: map<string, u64>, outputs: map<string, u64>)

  /** `ProofTrace`: steps are only ever appended; inputs and outputs are named values. */
  class ProofTrace {
    var steps: seq<TraceStep>
    var inputs: map<string, u64>
    var outputs: map<string, u64>

    /** `ProofTrace::new`. */
    constructor ()
      ensures steps == [] && inputs == map[] && outputs == map[]
    {
      steps := [];
      inputs := map[];
      outputs := map[];
    }

    /** `add_step`: append at the end; nothing else changes. */
    method AddStep(step: TraceStep)
      modifies this
      ensures steps == old(steps) + [step]
      ensures inputs == old(inputs) && outputs == old(outputs)
    {
      steps := steps + [step];
    }

    /** `set_input`: bind (or rebind) one name; nothing else changes. */
    method SetInput(name: string, value: u64)
      modifies this
      ensures inputs == old(inputs)[name := value]
      ensures steps == old(steps) && outputs == old(outputs)
    {
      inputs := inputs[name := value];
    }

    /** `set_output`: bind (or rebind) one name; nothing else changes. */
    method SetOutput(name: string, value: u64)
      modifies this
      ensures outputs == old(outputs)[name := value]
      ensures steps == old(steps) && inputs == old(inputs)
    {
      outputs := outputs[name := value];
    }

    function Snapshot(): TraceData
      reads this
    {
      TraceData(steps, inputs, outputs)
    }
  }

  /** `Proof`. The timestamp is informational and never checked. */
  datatype Proof = Proof(
    version: string,
    computation: string,
    result: u64,
    traceCommitment: string,
    constraintEvaluations: seq<u64>,
    challenge: string,
    friLayers: seq<string>,
    timestamp: u64,
    securityBits: u32)

  const ProofVersion: string := "1.0"

  /**
   * `Proof::new`: the version tag is fixed and every other argument is
   * stored unchanged. The clock reading is passed in as `timestamp`.
   */
  function NewProof(computation: string, result: u64, traceCommitment: string,
                    constraintEvaluations: seq<u64>, challenge: string,
                    friLayers: seq<string>, securityBits: u32, timestamp: u64): (p: Proof)
    ensures p.version == "1.0"
    ensures p.computation == computation && p.result == result
    ensures p.traceCommitment == traceCommitment && p.constraintEvaluations == constraintEvaluations
    ensures p.challenge == challenge && p.friLayers == friLayers
    ensures p.securityBits == securityBits && p.timestamp == timestamp
  {
    Proof(ProofVersion, computation, result, traceCommitment, constraintEvaluations,
          challenge, friLayers, timestamp, securityBits)
  }

  /** `VerificationResult` (the Python dataclass of the same name has the same four fields). */
  datatype VerificationResult = VerificationResult(
    valid: bool,
    message: string,
    checksPassed: seq<string>,
    checksFailed: seq<string>)

  /** `VerificationResult::valid`: valid, with no failed checks. */
  function ValidResult(message: string, checksPassed: seq<string>): (r: VerificationResult)
    ensures r.valid && r.checksFailed == []
    ensures r.message == message && r.checksPassed == checksPassed
  {
    VerificationResult(true, message, checksPassed, [])
  }

  /** `VerificationResult::invalid`: invalid, with no passed checks. */
  function InvalidResult(message: string, checksFailed: seq<string>): (r: VerificationResult)
    ensures !r.valid && r.checksPassed == []
    ensures r.message == message && r.checksFailed == checksFailed
  {
    VerificationResult(false, message, [], checksFailed)
  }
}

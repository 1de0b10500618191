/**
 * The Rust verifier of `verifier.rs`: a structure check that ends
 * verification on failure, then five checks whose outcomes are collected
 * into passed and failed lists, and a verdict that is valid exactly when
 * nothing failed.
 */
module Verifier {
  import opened Encoding
  import opened Lists
  import opened Crypto
  import opened Types
  import opened Prover
  import opened Fibonacci
  import opened Computation

  /** `STARKVerifier`: only the expected security level; `STARKVerifier::new` is the constructor. */
  datatype STARKVerifier = STARKVerifier(securityLevel: u32)

  /** `check_proof_structure`: the six text and list fields are non-empty. */
  predicate CheckProofStructure(p: Proof) {
    && p.version != []
    && p.computation != []
    && p.traceCommitment != []
    && p.constraintEvaluations != []
    && p.challenge != []
    && p.friLayers != []
  }

  /**
   * The hash-string test of the commitment and FRI checks: `String::len`
   * counts UTF-8 bytes, and every character must pass
   * `char::is_ascii_hexdigit`, which admits either letter case.
   */
  predicate IsHashString(s: string) {
    |Utf8(s)| == 64 && forall i :: 0 <= i < |s| ==> IsAsciiHexDigit(s[i])
  }

  /** `verify_trace_commitment`. */
  predicate VerifyTraceCommitment(p: Proof) {
    IsHashString(p.traceCommitment)
  }

  /** `verify_constraints`: non-empty, and every value below the modulus the prover reduces by. */
  predicate VerifyConstraints(v: STARKVerifier, p: Proof) {
    && p.constraintEvaluations != []
    && forall i :: 0 <= i < |p.constraintEvaluations| ==>
         p.constraintEvaluations[i] < ConstraintModulus(v.securityLevel)
  }

  /** `verify_fri_layers`: one to ten layers, each a hash string; nothing is recomputed. */
  predicate VerifyFriLayers(p: Proof) {
    && 1 <= |p.friLayers| <= 10
    && forall i :: 0 <= i < |p.friLayers| ==> IsHashString(p.friLayers[i])
  }

  /** `verify_challenge_consistency`: the challenge is recomputed from the proof's own fields. */
  predicate VerifyChallengeConsistency(sha: HashFn, p: Proof) {
    VerifyChallenge(sha, p.traceCommitment, p.securityBits, p.challenge)
  }

  /** Check 6 of `verify`. */
  predicate SecurityAdequate(v: STARKVerifier, p: Proof) {
    p.securityBits >= v.securityLevel
  }

  /** The messages `verify` records, one for each outcome of each check. */
  const ValidMsg: string := "Proof is VALID"
  const InvalidMsg: string := "Proof is INVALID"
  const StructureFailureMessage: string := "Proof structure validation failed"
  const StructureOkMsg: string := "Proof structure is valid"
  const StructureFailedMsg: string := "Invalid proof structure"
  const CommitmentOkMsg: string := "Trace commitment verified"
  const CommitmentFailedMsg: string := "Trace commitment verification failed"
  const ConstraintsOkMsg: string := "Constraint evaluations verified"
  const ConstraintsFailedMsg: string := "Constraint evaluation verification failed"
  const FriOkMsg: string := "FRI proof layers verified"
  const FriFailedMsg: string := "FRI proof layer verification failed"
  const ChallengeOkMsg: string := "Challenge generation verified"
  const ChallengeFailedMsg: string := "Challenge verification failed"

  /** The security messages quote the proof's level as its caller renders it. */
  function SecurityOkMsg(bits: string): string {
    "Security level adequate (" + bits + " bits)"
  }

  function SecurityFailedMsg(bits: string): string {
    "Insufficient security level (" + bits + " bits)"
  }

  /** The two lists `verify` builds. */
  datatype CheckLists = CheckLists(passed: seq<string>, failed: seq<string>)

  /** One check: its message goes onto the list its outcome selects; nothing else changes. */
  function Push(l: CheckLists, ok: bool, passedMsg: string, failedMsg: string): (l': CheckLists)
    ensures |l'.passed| + |l'.failed| == |l.passed| + |l.failed| + 1
    ensures l'.failed == [] <==> l.failed == [] && ok
  {
    if ok then CheckLists(l.passed + [passedMsg], l.failed)
    else CheckLists(l.passed, l.failed + [failedMsg])
  }

  /** The lists after the six checks, in the order `verify` runs them. */
  function RunChecks(v: STARKVerifier, sha: HashFn, p: Proof): CheckLists {
    var afterStructure := Push(CheckLists([], []), CheckProofStructure(p), StructureOkMsg, StructureFailedMsg);
    var afterCommitment := Push(afterStructure, VerifyTraceCommitment(p), CommitmentOkMsg, CommitmentFailedMsg);
    var afterConstraints := Push(afterCommitment, VerifyConstraints(v, p), ConstraintsOkMsg, ConstraintsFailedMsg);
    var afterFri := Push(afterConstraints, VerifyFriLayers(p), FriOkMsg, FriFailedMsg);
    var afterChallenge := Push(afterFri, VerifyChallengeConsistency(sha, p), ChallengeOkMsg, ChallengeFailedMsg);
    Push(afterChallenge, SecurityAdequate(v, p), SecurityOkMsg(Decimal(p.securityBits)), SecurityFailedMsg(Decimal(p.securityBits)))
  }

  /** What `verify` returns. */
  function Report(v: STARKVerifier, sha: HashFn, p: Proof): VerificationResult {
    if !CheckProofStructure(p) then
      InvalidResult(StructureFailureMessage, [StructureFailedMsg])
    else
      var lists := RunChecks(v, sha, p);
      if lists.failed == [] then ValidResult(ValidMsg, lists.passed)
      else VerificationResult(false, InvalidMsg, lists.passed, lists.failed)
  }

  /** One `if ... { checks_passed.push(..) } else { checks_failed.push(..) }` of `verify`. */
  method RecordCheck(ok: bool, passedMsg: string, failedMsg: string,
                     checksPassed: seq<string>, checksFailed: seq<string>)
    returns (passed': seq<string>, failed': seq<string>)
    ensures CheckLists(passed', failed') == Push(CheckLists(checksPassed, checksFailed), ok, passedMsg, failedMsg)
  {
    passed', failed' := checksPassed, checksFailed;
    if ok {
      passed' := passed' + [passedMsg];
    } else {
      failed' := failed' + [failedMsg];
    }
  }

  /** `verify`: each check pushes onto one of two lists; a structure failure returns at once. */
  method Verify(v: STARKVerifier, sha: HashFn, p: Proof) returns (r: VerificationResult)
    ensures r == Report(v, sha, p)
  {
    var checksPassed: seq<string> := [];
    var checksFailed: seq<string> := [];

    if CheckProofStructure(p) {
      checksPassed := checksPassed + [StructureOkMsg];
    } else {
      checksFailed := checksFailed + [StructureFailedMsg];
      return InvalidResult(StructureFailureMessage, checksFailed);
    }

    checksPassed, checksFailed :=
      RecordCheck(VerifyTraceCommitment(p), CommitmentOkMsg, CommitmentFailedMsg, checksPassed, checksFailed);
    checksPassed, checksFailed :=
      RecordCheck(VerifyConstraints(v, p), ConstraintsOkMsg, ConstraintsFailedMsg, checksPassed, checksFailed);
    checksPassed, checksFailed :=
      RecordCheck(VerifyFriLayers(p), FriOkMsg, FriFailedMsg, checksPassed, checksFailed);
    checksPassed, checksFailed :=
      RecordCheck(VerifyChallengeConsistency(sha, p), ChallengeOkMsg, ChallengeFailedMsg, checksPassed, checksFailed);
    checksPassed, checksFailed :=
      RecordCheck(p.securityBits >= v.securityLevel, SecurityOkMsg(Decimal(p.securityBits)), SecurityFailedMsg(Decimal(p.securityBits)),
                  checksPassed, checksFailed);

    var isValid := |checksFailed| == 0;
    var message := if isValid then ValidMsg else InvalidMsg;
    if isValid {
      r := ValidResult(message, checksPassed);
    } else {
      r := VerificationResult(isValid, message, checksPassed, checksFailed);
    }
  }

  // ---------------------------------------------------------------------
  // What the verdict means

  /** A proof with an empty field is rejected by the structure check alone. */
  lemma StructureFailureShortCircuits(v: STARKVerifier, sha: HashFn, p: Proof)
    requires !CheckProofStructure(p)
    ensures !Report(v, sha, p).valid
    ensures Report(v, sha, p).checksPassed == []
    ensures Report(v, sha, p).checksFailed == [StructureFailedMsg]
  {
  }

  /** Past the structure check, the two lists hold one entry per check: six in all. */
  lemma SixEntries(v: STARKVerifier, sha: HashFn, p: Proof)
    requires CheckProofStructure(p)
    ensures |Report(v, sha, p).checksPassed| + |Report(v, sha, p).checksFailed| == 6
  {
  }

  /** The verdict is valid exactly when no check failed. */
  lemma ValidIffNothingFailed(v: STARKVerifier, sha: HashFn, p: Proof)
    ensures Report(v, sha, p).valid <==> Report(v, sha, p).checksFailed == []
  {
  }

  /** The verdict is valid exactly when all six checks pass. */
  lemma ValidIffAllChecks(v: STARKVerifier, sha: HashFn, p: Proof)
    ensures Report(v, sha, p).valid <==>
      && CheckProofStructure(p)
      && VerifyTraceCommitment(p)
      && VerifyConstraints(v, p)
      && VerifyFriLayers(p)
      && VerifyChallengeConsistency(sha, p)
      && p.securityBits >= v.securityLevel
  {
  }

  /** Neither the claimed result nor the timestamp is ever looked at. */
  lemma ResultAndTimestampIgnored(v: STARKVerifier, sha: HashFn, p: Proof, result: u64, timestamp: u64)
    ensures Report(v, sha, p.(result := result, timestamp := timestamp)) == Report(v, sha, p)
  {
    var q := p.(result := result, timestamp := timestamp);
    SameChecks(v, sha, p, q);
  }

  /** Two proofs that agree on every field a check reads get the same report. */
  lemma SameChecks(v: STARKVerifier, sha: HashFn, p: Proof, q: Proof)
    requires CheckProofStructure(p) == CheckProofStructure(q)
    requires VerifyTraceCommitment(p) == VerifyTraceCommitment(q)
    requires VerifyConstraints(v, p) == VerifyConstraints(v, q)
    requires VerifyFriLayers(p) == VerifyFriLayers(q)
    requires VerifyChallengeConsistency(sha, p) == VerifyChallengeConsistency(sha, q)
    requires p.securityBits == q.securityBits
    ensures Report(v, sha, p) == Report(v, sha, q)
  {
    assert RunChecks(v, sha, p) == RunChecks(v, sha, q);
  }

  /** Any challenge other than the recomputed one makes the proof invalid. */
  lemma TamperedChallengeRejected(v: STARKVerifier, sha: HashFn, p: Proof)
    requires p.challenge != GenerateChallenge(sha, p.traceCommitment, p.securityBits)
    ensures !Report(v, sha, p).valid
  {
    ValidIffAllChecks(v, sha, p);
  }

  /**
   * The FRI layers are checked for shape only: swapping them for any one
   * to ten hash strings leaves the whole report unchanged.
   */
  lemma FriLayersNotRecomputed(v: STARKVerifier, sha: HashFn, p: Proof, layers: seq<string>)
    requires p.friLayers != [] && VerifyFriLayers(p)
    requires 1 <= |layers| <= 10 && forall i :: 0 <= i < |layers| ==> IsHashString(layers[i])
    ensures Report(v, sha, p.(friLayers := layers)) == Report(v, sha, p)
  {
    SameChecks(v, sha, p, p.(friLayers := layers));
  }

  /** `is_ascii_hexdigit` lets uppercase digests through. */
  lemma {:induction false} HashStringIff(s: string)
    ensures IsHashString(s) <==> |s| == 64 && forall i :: 0 <= i < |s| ==> IsAsciiHexDigit(s[i])
  {
    if forall i :: 0 <= i < |s| ==> IsAsciiHexDigit(s[i]) {
      assert IsAscii(s);
      Utf8Ascii(s);
    }
  }

  /** A commitment in uppercase hexadecimal passes the commitment check. */
  lemma UppercaseCommitmentAccepted(p: Proof)
    requires p.traceCommitment == seq(64, _ => 'A')
    ensures VerifyTraceCommitment(p)
  {
    HashStringIff(p.traceCommitment);
  }

  /** Every digest the prover emits is a hash string. */
  lemma LowerHexIsHashString(s: string)
    requires |s| == 64 && IsLowerHex(s)
    ensures IsHashString(s)
  {
    HashStringIff(s);
  }

  // ---------------------------------------------------------------------
  // Round trip

  /**
   * A proof of a non-empty trace under a non-empty name verifies when the
   * prover's level is the verifier's, or when both are at least 32 (the
   * range check caps its exponent there) and the prover's is the larger.
   */
  lemma RoundTrip(sha: HashFn, serialize: Serializer, prover: STARKProver, v: STARKVerifier,
                  computationName: string, result: u64, trace: TraceData, timestamp: u64)
    requires computationName != [] && trace.steps != []
    requires prover.securityLevel == v.securityLevel || 32 <= v.securityLevel <= prover.securityLevel
    ensures Report(v, sha, Prove(sha, serialize, prover, computationName, result, trace, timestamp)).valid
  {
    var p := Prove(sha, serialize, prover, computationName, result, trace, timestamp);
    LowerHexIsHashString(p.traceCommitment);
    forall i | 0 <= i < |p.friLayers|
      ensures IsHashString(p.friLayers[i])
    {
      LowerHexIsHashString(p.friLayers[i]);
    }
    assert ConstraintModulus(prover.securityLevel) == ConstraintModulus(v.securityLevel);
    ValidIffAllChecks(v, sha, p);
  }

  /** A verifier that demands more than the prover's level rejects its proofs. */
  lemma HigherDemandRejected(sha: HashFn, serialize: Serializer, prover: STARKProver, v: STARKVerifier,
                             computationName: string, result: u64, trace: TraceData, timestamp: u64)
    requires v.securityLevel > prover.securityLevel
    ensures !Report(v, sha, Prove(sha, serialize, prover, computationName, result, trace, timestamp)).valid
  {
    ValidIffAllChecks(v, sha, Prove(sha, serialize, prover, computationName, result, trace, timestamp));
  }

  /**
   * The scenario of the verifier's own test: prove fibonacci(10) at level
   * 128 and verify at level 128. The trace has 19 steps and the proof is
   * valid.
   */
  method ProveAndVerifyFibonacci(sha: HashFn, serialize: Serializer, timestamp: u64)
    returns (result: u64, stepCount: nat, r: VerificationResult)
    ensures result == 55 && stepCount == 19
    ensures r.valid && r.checksFailed == [] && |r.checksPassed| == 6
  {
    assert Fib(10) == 55;
    var trace: ProofTrace;
    result, trace := FibonacciWithTrace(10);
    stepCount := |trace.steps|;
    var prover := STARKProver(128);
    var proof := Prove(sha, serialize, prover, "fibonacci", result, trace.Snapshot(), timestamp);
    var verifier := STARKVerifier(128);
    RoundTrip(sha, serialize, prover, verifier, "fibonacci", result, trace.Snapshot(), timestamp);
    SixEntries(verifier, sha, proof);
    r := Verify(verifier, sha, proof);
  }
}

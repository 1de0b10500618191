/**
 * The Python verifier of `verifier.py`. The proof is a dictionary of JSON
 * values, so every check is written against Python's own semantics: a
 * missing key falls back to a default, `len` and iteration depend on the
 * value's type, and a `TypeError` raised inside the `try` is turned into an
 * invalid result that names the exception.
 */
module PyVerifier {
  import opened Encoding
  import opened Lists
  import opened Crypto
  import opened Fibonacci
  import opened Types
  import opened PyValues
  import opened PyProver
  import Verifier

  // ---------------------------------------------------------------------
  // Check 1: structure

  /** The keys `_check_proof_structure` requires, in the order it tests them. */
  const RequiredFields: seq<string> := ["version", "computation", "result", "trace_commitment",
    "constraint_evaluations", "challenge", "fri_layers", "security_bits"]

  /** Every required key is present, and the evaluations and layers are lists. */
  predicate StructureOk(proof: map<string, Json>) {
    && (forall i :: 0 <= i < |RequiredFields| ==> RequiredFields[i] in proof)
    && "constraint_evaluations" in proof && proof["constraint_evaluations"].JList?
    && "fri_layers" in proof && proof["fri_layers"].JList?
  }

  // ---------------------------------------------------------------------
  // Check 2: trace commitment

  /** `all(c in '0123456789abcdef' for c in s)` for a string: each character is searched for. */
  predicate InHexChars(s: string) {
    forall i :: 0 <= i < |s| ==> IsSubstring([s[i]], HexChars)
  }

  /** Searching one character at a time accepts exactly the lowercase hex strings. */
  lemma InHexCharsIff(s: string)
    ensures InHexChars(s) <==> IsLowerHex(s)
  {
    forall i | 0 <= i < |s| {
      HexCharsMembership(s[i]);
    }
  }

  /**
   * The same `all(...)` over a list: false at the first string that does
   * not occur in the digit string, `TypeError` at the first element that
   * is not a string.
   */
  function AllInHexChars(items: seq<Json>): (r: Outcome<bool>)
    ensures r == Ok(true) <==> forall i :: 0 <= i < |items| ==> items[i].JStr? && IsSubstring(items[i].s, HexChars)
    ensures r.Raised? ==> r.error.TypeError? && exists i :: 0 <= i < |items| && !items[i].JStr?
  {
    if items == [] then Ok(true)
    else if !items[0].JStr? then
      Raised(TypeError("'in <string>' requires string as left operand, not " + TypeName(items[0])))
    else if !IsSubstring(items[0].s, HexChars) then Ok(false)
    else
      var rest := AllInHexChars(items[1..]);
      assert forall i :: 1 <= i < |items| ==> items[i] == items[1..][i - 1];
      rest
  }

  /**
   * `_verify_trace_commitment`: `len` of the value under "trace_commitment"
   * (default '') must be 64 and every character, element or key must occur
   * in the digit string. Uppercase is rejected.
   */
  function VerifyTraceCommitment(proof: map<string, Json>): (r: Outcome<bool>)
    ensures var c := Get(proof, "trace_commitment", JStr(""));
      c.JStr? ==> r == Ok(|c.s| == 64 && IsLowerHex(c.s))
    ensures r.Raised? ==> r.error.TypeError?
  {
    var commitment := Get(proof, "trace_commitment", JStr(""));
    match Len(commitment)
    case Raised(e) => Raised(e)
    case Ok(n) =>
      if n != 64 then Ok(false)
      else
        match commitment
        case JStr(s) => InHexCharsIff(s); Ok(InHexChars(s))
        case JList(items) => AllInHexChars(items)
        case JObject(fields) => Ok(forall k :: k in fields ==> IsSubstring(k, HexChars))
        case _ => Ok(false)
  }

  // ---------------------------------------------------------------------
  // Check 3: constraint evaluations

  /**
   * What `_verify_constraints` returns for the value under
   * "constraint_evaluations" (default []): false when it is falsy; for a
   * list, whether every element is an `int` (a `bool` counts) in
   * [0, 2^level); a non-empty string or dict yields a non-int first
   * element; anything else truthy cannot be iterated.
   */
  function ConstraintsOutcome(securityLevel: nat, evaluations: Json): (r: Outcome<bool>)
    ensures r.Raised? <==> Truthy(evaluations) && !IsSized(evaluations)
    ensures evaluations.JList? ==>
      (r == Ok(true) <==>
        && evaluations.items != []
        && forall i :: 0 <= i < |evaluations.items| ==>
             IsInt(evaluations.items[i]) && 0 <= IntValue(evaluations.items[i]) < Pow2(securityLevel))
  {
    if !Truthy(evaluations) then Ok(false)
    else
      match evaluations
      case JList(items) =>
        Ok(forall i :: 0 <= i < |items| ==> IsInt(items[i]) && 0 <= IntValue(items[i]) < Pow2(securityLevel))
      case JStr(_) => Ok(false)
      case JObject(_) => Ok(false)
      case _ => Raised(TypeError("'" + TypeName(evaluations) + "' object is not iterable"))
  }

  // ---------------------------------------------------------------------
  // Check 4: FRI layers

  /** A layer `_verify_fri_layers` accepts: 64 characters, each in the digit string. */
  predicate IsPyHash(s: string) {
    |s| == 64 && InHexChars(s)
  }

  /**
   * What `_verify_fri_layers` returns for the value under "fri_layers"
   * (default []): false when it is falsy; for a list, whether every element
   * is a 64-character lowercase hex string, with no upper bound on the
   * count; a non-empty string yields one-character elements; `len` raises
   * on anything else truthy that is not a container.
   */
  function FriOutcome(layers: Json): (r: Outcome<bool>)
    ensures r.Raised? <==> Truthy(layers) && !IsSized(layers)
    ensures layers.JList? ==>
      (r == Ok(true) <==>
        && layers.items != []
        && forall i :: 0 <= i < |layers.items| ==> layers.items[i].JStr? && IsPyHash(layers.items[i].s))
  {
    if !Truthy(layers) then Ok(false)
    else
      match Len(layers)
      case Raised(e) => Raised(e)
      case Ok(n) =>
        if n < 1 then Ok(false)
        else
          match layers
          case JList(items) => Ok(forall i :: 0 <= i < |items| ==> items[i].JStr? && IsPyHash(items[i].s))
          case JObject(fields) => Ok(forall k :: k in fields ==> IsPyHash(k))
          case _ => Ok(false)
  }

  /** A Python layer check accepts exactly the 64-character lowercase hex strings. */
  lemma IsPyHashIff(s: string)
    ensures IsPyHash(s) <==> |s| == 64 && IsLowerHex(s)
  {
    InHexCharsIff(s);
  }

  // ---------------------------------------------------------------------
  // Check 5: challenge

  /** `trace_commitment + str(security_bits)`: only a string left operand concatenates. */
  function ChallengeInput(repr: Repr, commitment: Json, bits: Json): (r: Outcome<string>)
    ensures r.Ok? <==> commitment.JStr?
    ensures commitment.JStr? ==> r.value == commitment.s + Str(repr, bits)
  {
    match commitment
    case JStr(s) => Ok(s + Str(repr, bits))
    case JList(_) => Raised(TypeError("can only concatenate list (not \"str\") to list"))
    case _ => Raised(TypeError("unsupported operand type(s) for +: '" + TypeName(commitment) + "' and 'str'"))
  }

  /**
   * `_verify_challenge`: recompute the challenge from the commitment and
   * the claimed security bits (defaults '', 0) and compare; a value of
   * another type is never equal to the recomputed string.
   */
  function ChallengeOutcome(sha: HashFn, repr: Repr, proof: map<string, Json>): (r: Outcome<bool>)
    ensures r.Raised? <==> !Get(proof, "trace_commitment", JStr("")).JStr?
    ensures var c := Get(proof, "trace_commitment", JStr(""));
            var bits := Get(proof, "security_bits", JInt(0));
      c.JStr? && bits.JInt? && bits.i >= 0 ==>
        r == Ok(Get(proof, "challenge", JStr("")) == JStr(GenerateChallenge(sha, c.s, bits.i)))
  {
    var challenge := Get(proof, "challenge", JStr(""));
    var traceCommitment := Get(proof, "trace_commitment", JStr(""));
    var securityBits := Get(proof, "security_bits", JInt(0));
    match ChallengeInput(repr, traceCommitment, securityBits)
    case Raised(e) => Raised(e)
    case Ok(challengeInput) => Ok(challenge == JStr(HashString(sha, challengeInput)[..16]))
  }

  // ---------------------------------------------------------------------
  // Check 6: security level

  /** `security_bits >= self.security_level`: only numbers compare with an `int`. */
  function SecurityOutcome(securityLevel: nat, bits: Json): (r: Outcome<bool>)
    ensures r.Raised? <==> !(IsInt(bits) || bits.JFloat?)
    ensures IsInt(bits) ==> r == Ok(IntValue(bits) >= securityLevel)
  {
    match bits
    case JInt(i) => Ok(i >= securityLevel)
    case JBool(b) => Ok((if b then 1 else 0) >= securityLevel)
    case JFloat(x) => Ok(x >= securityLevel as real)
    case _ => Raised(TypeError("'>=' not supported between instances of '" + TypeName(bits) + "' and 'int'"))
  }

  // ---------------------------------------------------------------------
  // The verdict

  /** The two lists of `verify`, and whether an exception ended the checks, with its text. */
  datatype Run = Running(lists: Verifier.CheckLists) | Stopped(lists: Verifier.CheckLists, msg: string)

  /** One check inside the `try`: an exception stops the run; otherwise the message goes onto its list. */
  function Step(run: Run, outcome: Outcome<bool>, passedMsg: string, failedMsg: string): (run': Run)
    ensures run.Stopped? ==> run' == run
    ensures run'.Running? ==> run.Running? && outcome.Ok?
    ensures run'.Running? ==>
      |run'.lists.passed| + |run'.lists.failed| == |run.lists.passed| + |run.lists.failed| + 1
    ensures (run'.Running? && run'.lists.failed == []) <==>
      (run.Running? && run.lists.failed == [] && outcome == Ok(true))
  {
    match run
    case Stopped(_, _) => run
    case Running(lists) =>
      match outcome
      case Raised(e) => Stopped(lists, e.msg)
      case Ok(ok) => Running(Verifier.Push(lists, ok, passedMsg, failedMsg))
  }

  /** The run after check 2, once the structure check has passed. */
  function AfterCommitment(proof: map<string, Json>): Run {
    Step(Running(Verifier.CheckLists([Verifier.StructureOkMsg], [])), VerifyTraceCommitment(proof),
      Verifier.CommitmentOkMsg, Verifier.CommitmentFailedMsg)
  }

  /** ... after check 3. */
  function AfterConstraints(securityLevel: nat, proof: map<string, Json>): Run {
    Step(AfterCommitment(proof), ConstraintsOutcome(securityLevel, Get(proof, "constraint_evaluations", JList([]))),
      Verifier.ConstraintsOkMsg, Verifier.ConstraintsFailedMsg)
  }

  /** ... after check 4. */
  function AfterFri(securityLevel: nat, proof: map<string, Json>): Run {
    Step(AfterConstraints(securityLevel, proof), FriOutcome(Get(proof, "fri_layers", JList([]))),
      Verifier.FriOkMsg, Verifier.FriFailedMsg)
  }

  /** ... after check 5. */
  function AfterChallenge(securityLevel: nat, sha: HashFn, repr: Repr, proof: map<string, Json>): Run {
    Step(AfterFri(securityLevel, proof), ChallengeOutcome(sha, repr, proof),
      Verifier.ChallengeOkMsg, Verifier.ChallengeFailedMsg)
  }

  /** The run after all six checks; the security messages quote `str` of the claimed bits. */
  function Checks(securityLevel: nat, sha: HashFn, repr: Repr, proof: map<string, Json>): Run {
    var bits := Get(proof, "security_bits", JInt(0));
    Step(AfterChallenge(securityLevel, sha, repr, proof), SecurityOutcome(securityLevel, bits),
      Verifier.SecurityOkMsg(Str(repr, bits)), Verifier.SecurityFailedMsg(Str(repr, bits)))
  }

  /** The `except` clause: the exception is named in the message and put first among the failures. */
  function ExceptionResult(msg: string, checksPassed: seq<string>, checksFailed: seq<string>): (r: VerificationResult)
    ensures !r.valid && r.checksFailed != []
  {
    VerificationResult(false, "Verification error: " + msg, checksPassed, ["Exception: " + msg] + checksFailed)
  }

  /** What `verify` returns. */
  function Report(securityLevel: nat, sha: HashFn, repr: Repr, proof: map<string, Json>): VerificationResult {
    if !StructureOk(proof) then
      InvalidResult(Verifier.StructureFailureMessage, [Verifier.StructureFailedMsg])
    else
      match Checks(securityLevel, sha, repr, proof)
      case Running(lists) =>
        var isValid := lists.failed == [];
        VerificationResult(isValid, if isValid then Verifier.ValidMsg else Verifier.InvalidMsg,
                           lists.passed, lists.failed)
      case Stopped(lists, msg) => ExceptionResult(msg, lists.passed, lists.failed)
  }

  /** `verify` reaches its end, and logs its result, exactly when the structure holds and nothing raises. */
  predicate Completes(securityLevel: nat, sha: HashFn, repr: Repr, proof: map<string, Json>) {
    StructureOk(proof) && Checks(securityLevel, sha, repr, proof).Running?
  }

  /** `STARKVerifier`: the expected security level and the log of completed verifications. */
  class STARKVerifier {
    const securityLevel: nat
    var verificationLog: seq<VerificationResult>

    /** `__init__`. */
    constructor (securityLevel: nat)
      ensures this.securityLevel == securityLevel && verificationLog == []
    {
      this.securityLevel := securityLevel;
      verificationLog := [];
    }

    /** `_check_proof_structure`: the key loop, then the two type tests. */
    method CheckProofStructure(proof: map<string, Json>) returns (ok: bool)
      ensures ok == StructureOk(proof)
    {
      for i := 0 to |RequiredFields|
        invariant forall j :: 0 <= j < i ==> RequiredFields[j] in proof
      {
        if RequiredFields[i] !in proof {
          return false;
        }
      }
      assert RequiredFields[4] == "constraint_evaluations" && RequiredFields[6] == "fri_layers";
      if !proof["constraint_evaluations"].JList? {
        return false;
      }
      if !proof["fri_layers"].JList? {
        return false;
      }
      return true;
    }

    /** `_verify_constraints`: a loop for the type and sign, then a loop for the range. */
    method VerifyConstraints(proof: map<string, Json>) returns (r: Outcome<bool>)
      ensures r == ConstraintsOutcome(securityLevel, Get(proof, "constraint_evaluations", JList([])))
    {
      var evaluations := Get(proof, "constraint_evaluations", JList([]));
      if !Truthy(evaluations) {
        return Ok(false);
      }
      match evaluations {
        case JList(items) =>
          for i := 0 to |items|
            invariant forall j :: 0 <= j < i ==> IsInt(items[j]) && IntValue(items[j]) >= 0
          {
            if !IsInt(items[i]) || IntValue(items[i]) < 0 {
              return Ok(false);
            }
          }
          for i := 0 to |items|
            invariant forall j :: 0 <= j < i ==> IntValue(items[j]) < Pow2(securityLevel)
          {
            if IntValue(items[i]) >= Pow2(securityLevel) {
              return Ok(false);
            }
          }
          return Ok(true);
        case JStr(_) =>
          return Ok(false);
        case JObject(_) =>
          return Ok(false);
        case _ =>
          return Raised(TypeError("'" + TypeName(evaluations) + "' object is not iterable"));
      }
    }

    /** `_verify_fri_layers`: the emptiness and `len` test, then one pass over the layers. */
    method VerifyFriLayers(proof: map<string, Json>) returns (r: Outcome<bool>)
      ensures r == FriOutcome(Get(proof, "fri_layers", JList([])))
    {
      var friLayers := Get(proof, "fri_layers", JList([]));
      if !Truthy(friLayers) {
        return Ok(false);
      }
      var count := Len(friLayers);
      if count.Raised? {
        return Raised(count.error);
      }
      if count.value < 1 {
        return Ok(false);
      }
      match friLayers {
        case JList(items) =>
          for i := 0 to |items|
            invariant forall j :: 0 <= j < i ==> items[j].JStr? && IsPyHash(items[j].s)
          {
            if !items[i].JStr? {
              return Ok(false);
            }
            if |items[i].s| != 64 || !InHexChars(items[i].s) {
              return Ok(false);
            }
          }
          return Ok(true);
        case JObject(fields) =>
          return Ok(forall k :: k in fields ==> IsPyHash(k));
        case _ =>
          return Ok(false);
      }
    }

    /** The first three checks of the `try` body: commitment, constraints and FRI layers. */
    method FirstChecks(proof: map<string, Json>) returns (run: Run)
      requires StructureOk(proof)
      ensures run == AfterFri(securityLevel, proof)
    {
      var checksPassed: seq<string> := [Verifier.StructureOkMsg];
      var checksFailed: seq<string> := [];

      var commitment := VerifyTraceCommitment(proof);
      if commitment.Raised? {
        return Stopped(Verifier.CheckLists(checksPassed, checksFailed), commitment.error.msg);
      }
      checksPassed, checksFailed := Verifier.RecordCheck(commitment.value,
        Verifier.CommitmentOkMsg, Verifier.CommitmentFailedMsg, checksPassed, checksFailed);
      assert AfterCommitment(proof) == Running(Verifier.CheckLists(checksPassed, checksFailed));

      // The structure check has already established lists here, so neither can raise.
      var constraints := VerifyConstraints(proof);
      assert constraints.Ok?;
      checksPassed, checksFailed := Verifier.RecordCheck(constraints.value,
        Verifier.ConstraintsOkMsg, Verifier.ConstraintsFailedMsg, checksPassed, checksFailed);
      assert AfterConstraints(securityLevel, proof) == Running(Verifier.CheckLists(checksPassed, checksFailed));

      var fri := VerifyFriLayers(proof);
      assert fri.Ok?;
      checksPassed, checksFailed := Verifier.RecordCheck(fri.value,
        Verifier.FriOkMsg, Verifier.FriFailedMsg, checksPassed, checksFailed);
      run := Running(Verifier.CheckLists(checksPassed, checksFailed));
    }

    /**
     * The `try` body of `verify` after the structure check: the five checks in
     * order, each recorded on its list; the first exception stops the run.
     */
    method RunChecks(sha: HashFn, repr: Repr, proof: map<string, Json>) returns (run: Run)
      requires StructureOk(proof)
      ensures run == Checks(securityLevel, sha, repr, proof)
    {
      run := FirstChecks(proof);
      if run.Stopped? {
        return;
      }
      var checksPassed, checksFailed := run.lists.passed, run.lists.failed;

      var challenge := ChallengeOutcome(sha, repr, proof);
      if challenge.Raised? {
        return Stopped(Verifier.CheckLists(checksPassed, checksFailed), challenge.error.msg);
      }
      checksPassed, checksFailed := Verifier.RecordCheck(challenge.value,
        Verifier.ChallengeOkMsg, Verifier.ChallengeFailedMsg, checksPassed, checksFailed);
      assert AfterChallenge(securityLevel, sha, repr, proof) == Running(Verifier.CheckLists(checksPassed, checksFailed));

      var adequate := SecurityOutcome(securityLevel, Get(proof, "security_bits", JInt(0)));
      if adequate.Raised? {
        return Stopped(Verifier.CheckLists(checksPassed, checksFailed), adequate.error.msg);
      }
      assert RequiredFields[7] == "security_bits";
      var bits := Str(repr, proof["security_bits"]);
      checksPassed, checksFailed := Verifier.RecordCheck(adequate.value,
        Verifier.SecurityOkMsg(bits), Verifier.SecurityFailedMsg(bits), checksPassed, checksFailed);
      run := Running(Verifier.CheckLists(checksPassed, checksFailed));
    }

    /**
     * `verify`. A structure failure returns at once; an exception in a
     * later check returns the exception result; only a run that reaches the
     * end appends its result to the log.
     */
    method Verify(sha: HashFn, repr: Repr, proof: map<string, Json>) returns (r: VerificationResult)
      modifies this
      ensures r == Report(securityLevel, sha, repr, proof)
      ensures verificationLog ==
        old(verificationLog) + if Completes(securityLevel, sha, repr, proof) then [r] else []
    {
      var structureOk := CheckProofStructure(proof);
      if !structureOk {
        return VerificationResult(false, Verifier.StructureFailureMessage, [], [Verifier.StructureFailedMsg]);
      }
      var run := RunChecks(sha, repr, proof);
      match run
      case Stopped(lists, msg) =>
        r := ExceptionResult(msg, lists.passed, lists.failed);
      case Running(lists) =>
        var isValid := |lists.failed| == 0;
        var message := if isValid then Verifier.ValidMsg else Verifier.InvalidMsg;
        r := VerificationResult(isValid, message, lists.passed, lists.failed);
        verificationLog := verificationLog + [r];
    }

    /** `get_verification_log`. */
    function GetVerificationLog(): seq<VerificationResult>
      reads this
    {
      verificationLog
    }
  }

  // ---------------------------------------------------------------------
  // Properties of the verdict

  /** A structure failure: invalid, nothing passed, one failure, and nothing logged. */
  lemma StructureFailure(securityLevel: nat, sha: HashFn, repr: Repr, proof: map<string, Json>)
    requires !StructureOk(proof)
    ensures var r := Report(securityLevel, sha, repr, proof);
      !r.valid && r.checksPassed == [] && r.checksFailed == [Verifier.StructureFailedMsg]
    ensures !Completes(securityLevel, sha, repr, proof)
  {
  }

  /** A run that reaches the end has recorded each of the six checks exactly once. */
  lemma CompletedRunSixEntries(securityLevel: nat, sha: HashFn, repr: Repr, proof: map<string, Json>)
    requires Completes(securityLevel, sha, repr, proof)
    ensures var r := Report(securityLevel, sha, repr, proof);
      |r.checksPassed| + |r.checksFailed| == 6
  {
    assert AfterChallenge(securityLevel, sha, repr, proof).Running?;
    assert AfterFri(securityLevel, proof).Running?;
    assert AfterConstraints(securityLevel, proof).Running?;
    assert AfterCommitment(proof).Running?;
  }

  /** An exception inside the checks: invalid, named first among the failures, and not logged. */
  lemma ExceptionReported(securityLevel: nat, sha: HashFn, repr: Repr, proof: map<string, Json>)
    requires StructureOk(proof) && Checks(securityLevel, sha, repr, proof).Stopped?
    ensures var r := Report(securityLevel, sha, repr, proof);
            var msg := Checks(securityLevel, sha, repr, proof).msg;
      && !r.valid
      && r.message == "Verification error: " + msg
      && r.checksFailed[0] == "Exception: " + msg
    ensures !Completes(securityLevel, sha, repr, proof)
  {
  }

  /** Whatever path `verify` takes, the result is valid exactly when no check failed. */
  lemma ValidIffNothingFailed(securityLevel: nat, sha: HashFn, repr: Repr, proof: map<string, Json>)
    ensures var r := Report(securityLevel, sha, repr, proof);
      r.valid <==> r.checksFailed == []
  {
  }

  /** A proof is valid exactly when the structure holds and each of the five checks returns true. */
  lemma ValidIffAllChecks(securityLevel: nat, sha: HashFn, repr: Repr, proof: map<string, Json>)
    ensures Report(securityLevel, sha, repr, proof).valid <==>
      && StructureOk(proof)
      && VerifyTraceCommitment(proof) == Ok(true)
      && ConstraintsOutcome(securityLevel, Get(proof, "constraint_evaluations", JList([]))) == Ok(true)
      && FriOutcome(Get(proof, "fri_layers", JList([]))) == Ok(true)
      && ChallengeOutcome(sha, repr, proof) == Ok(true)
      && SecurityOutcome(securityLevel, Get(proof, "security_bits", JInt(0))) == Ok(true)
  {
    if StructureOk(proof) {
      var run := Checks(securityLevel, sha, repr, proof);
      assert Report(securityLevel, sha, repr, proof).valid <==> run.Running? && run.lists.failed == [];
    }
  }

  /** The keys a check reads; "result" only has to be present. */
  const CheckedKeys: seq<string> := ["version", "computation", "trace_commitment",
    "constraint_evaluations", "challenge", "fri_layers", "security_bits"]

  /** Two dictionaries that agree on the checked keys and on whether "result" is present get the same report. */
  lemma SameReport(securityLevel: nat, sha: HashFn, repr: Repr, p: map<string, Json>, q: map<string, Json>)
    requires forall i :: 0 <= i < |CheckedKeys| ==>
      (CheckedKeys[i] in p <==> CheckedKeys[i] in q) && (CheckedKeys[i] in p ==> p[CheckedKeys[i]] == q[CheckedKeys[i]])
    requires "result" in p <==> "result" in q
    ensures Report(securityLevel, sha, repr, p) == Report(securityLevel, sha, repr, q)
  {
    assert CheckedKeys[2] == "trace_commitment" && CheckedKeys[3] == "constraint_evaluations";
    assert CheckedKeys[4] == "challenge" && CheckedKeys[5] == "fri_layers" && CheckedKeys[6] == "security_bits";
    assert StructureOk(p) == StructureOk(q) by {
      assert CheckedKeys[0] == "version" && CheckedKeys[1] == "computation";
      assert forall i :: 0 <= i < |RequiredFields| ==> RequiredFields[i] == "result" || RequiredFields[i] in CheckedKeys;
    }
    assert Get(p, "trace_commitment", JStr("")) == Get(q, "trace_commitment", JStr(""));
    assert VerifyTraceCommitment(p) == VerifyTraceCommitment(q);
    assert AfterCommitment(p) == AfterCommitment(q);
    assert Get(p, "constraint_evaluations", JList([])) == Get(q, "constraint_evaluations", JList([]));
    assert AfterConstraints(securityLevel, p) == AfterConstraints(securityLevel, q);
    assert Get(p, "fri_layers", JList([])) == Get(q, "fri_layers", JList([]));
    assert AfterFri(securityLevel, p) == AfterFri(securityLevel, q);
    assert Get(p, "challenge", JStr("")) == Get(q, "challenge", JStr(""));
    assert ChallengeOutcome(sha, repr, p) == ChallengeOutcome(sha, repr, q);
    assert AfterChallenge(securityLevel, sha, repr, p) == AfterChallenge(securityLevel, sha, repr, q);
    assert Get(p, "security_bits", JInt(0)) == Get(q, "security_bits", JInt(0));
    assert Checks(securityLevel, sha, repr, p) == Checks(securityLevel, sha, repr, q);
  }

  /**
   * Rewriting a key that no check reads — the result, the timestamp or any
   * extra key — leaves the report unchanged, provided "result" stays present.
   */
  lemma UncheckedKeyIgnored(securityLevel: nat, sha: HashFn, repr: Repr, proof: map<string, Json>,
                            key: string, value: Json)
    requires key !in CheckedKeys
    requires key == "result" ==> key in proof
    ensures Report(securityLevel, sha, repr, proof[key := value]) == Report(securityLevel, sha, repr, proof)
  {
    SameReport(securityLevel, sha, repr, proof[key := value], proof);
  }

  /** The result is not read by any check: only its presence is. */
  lemma ResultIgnored(securityLevel: nat, sha: HashFn, repr: Repr, proof: map<string, Json>, result: Json)
    requires "result" in proof
    ensures Report(securityLevel, sha, repr, proof["result" := result]) == Report(securityLevel, sha, repr, proof)
  {
    UncheckedKeyIgnored(securityLevel, sha, repr, proof, "result", result);
  }

  /** The timestamp is not read by any check, nor even required. */
  lemma TimestampIgnored(securityLevel: nat, sha: HashFn, repr: Repr, proof: map<string, Json>, timestamp: Json)
    ensures Report(securityLevel, sha, repr, proof["timestamp" := timestamp]) == Report(securityLevel, sha, repr, proof)
  {
    UncheckedKeyIgnored(securityLevel, sha, repr, proof, "timestamp", timestamp);
  }

  /** Unlike the Rust verifier, an uppercase commitment fails the commitment check. */
  lemma UppercaseCommitmentRejected(proof: map<string, Json>)
    requires "trace_commitment" in proof && proof["trace_commitment"] == JStr(seq(64, _ => 'A'))
    ensures VerifyTraceCommitment(proof) == Ok(false)
  {
    var s := seq(64, _ => 'A');
    assert !IsLowerHexDigit(s[0]);
  }

  /** Unlike the Rust verifier, there is no upper bound on the number of layers. */
  lemma ManyLayersAccepted(layer: string, count: nat)
    requires |layer| == 64 && IsLowerHex(layer) && count >= 1
    ensures FriOutcome(JList(seq(count, _ => JStr(layer)))) == Ok(true)
  {
    IsPyHashIff(layer);
  }

  /** `bool` is a subclass of `int`, so `True` is accepted as the evaluation 1. */
  lemma BoolEvaluationAccepted(securityLevel: nat)
    requires securityLevel >= 1
    ensures ConstraintsOutcome(securityLevel, JList([JBool(true)])) == Ok(true)
  {
    Pow2Monotonic(0, securityLevel);
  }

  /** The evaluations the prover publishes pass the constraint check whenever there is a step. */
  lemma PublishedEvaluationsAccepted(securityLevel: nat, steps: seq<PyTraceStep>)
    requires steps != []
    ensures ConstraintsOutcome(securityLevel, JList(JInts(Take(ConstraintValues(securityLevel, steps), 10))))
            == Ok(true)
  {
    PublishedEvaluations(securityLevel, steps);
  }

  /** Any non-empty list of 64-character lowercase hex strings passes the layer check. */
  lemma HashListAccepted(layers: seq<string>)
    requires layers != []
    requires forall i :: 0 <= i < |layers| ==> |layers[i]| == 64 && IsLowerHex(layers[i])
    ensures FriOutcome(JList(JStrs(layers))) == Ok(true)
  {
    var items := JStrs(layers);
    forall i | 0 <= i < |items| ensures items[i].JStr? && IsPyHash(items[i].s) {
      IsPyHashIff(layers[i]);
    }
  }

  /** The three layers the prover publishes pass the layer check. */
  lemma PublishedLayersAccepted(sha: HashFn, values: seq<int>, challenge: string)
    ensures FriOutcome(JList(JStrs(FriLayers(sha, values, challenge, 3)))) == Ok(true)
  {
    HashListAccepted(FriLayers(sha, values, challenge, 3));
  }

  /** A 64-character lowercase hex commitment passes the commitment check. */
  lemma LowerHexCommitmentAccepted(proof: map<string, Json>, commitment: string)
    requires "trace_commitment" in proof && proof["trace_commitment"] == JStr(commitment)
    requires |commitment| == 64 && IsLowerHex(commitment)
    ensures VerifyTraceCommitment(proof) == Ok(true)
  {
  }

  /**
   * A dictionary of the prover's shape passes: a lowercase hex commitment,
   * the challenge derived from it and the level, in-range evaluations and
   * hash-shaped layers, both lists non-empty.
   */
  lemma WellFormedProofAccepted(securityLevel: nat, sha: HashFn, repr: Repr, proof: map<string, Json>,
                                commitment: string, evaluations: seq<int>, layers: seq<string>)
    requires proof.Keys == ProofKeys
    requires proof["trace_commitment"] == JStr(commitment) && |commitment| == 64 && IsLowerHex(commitment)
    requires proof["security_bits"] == JInt(securityLevel)
    requires proof["challenge"] == JStr(Crypto.GenerateChallenge(sha, commitment, securityLevel))
    requires proof["constraint_evaluations"] == JList(JInts(evaluations)) && evaluations != []
    requires forall i :: 0 <= i < |evaluations| ==> 0 <= evaluations[i] < Pow2(securityLevel)
    requires proof["fri_layers"] == JList(JStrs(layers)) && layers != []
    requires forall i :: 0 <= i < |layers| ==> |layers[i]| == 64 && IsLowerHex(layers[i])
    ensures Report(securityLevel, sha, repr, proof).valid && Completes(securityLevel, sha, repr, proof)
  {
    assert StructureOk(proof) by {
      forall i | 0 <= i < |RequiredFields| ensures RequiredFields[i] in proof {
        assert RequiredFields[i] in ProofKeys;
      }
    }
    LowerHexCommitmentAccepted(proof, commitment);
    HashListAccepted(layers);
    ValidIffAllChecks(securityLevel, sha, repr, proof);
    ValidIffNothingFailed(securityLevel, sha, repr, proof);
  }

  /**
   * A proof from the Python prover passes all six checks of a verifier of
   * the same security level whenever the trace is non-empty, and the run is
   * logged.
   */
  lemma RoundTrip(sha: HashFn, serialize: TraceSerializer, repr: Repr, securityLevel: nat,
                  computationResult: int, trace: PyProofTrace, timestamp: real)
    requires trace.steps != []
    ensures var proof := ProofDict(sha, serialize, securityLevel, computationResult, trace, timestamp);
            var r := Report(securityLevel, sha, repr, proof);
      && r.valid && r.checksFailed == [] && |r.checksPassed| == 6
      && Completes(securityLevel, sha, repr, proof)
  {
    var proof := ProofDict(sha, serialize, securityLevel, computationResult, trace, timestamp);
    var values := ConstraintValues(securityLevel, trace.steps);
    var published := Take(values, 10);
    assert published != [] && forall i :: 0 <= i < |published| ==> 0 <= published[i] < Pow2(securityLevel);
    WellFormedProofAccepted(securityLevel, sha, repr, proof, proof["trace_commitment"].s, published,
                            FriLayers(sha, values, proof["challenge"].s, 3));
    CompletedRunSixEntries(securityLevel, sha, repr, proof);
    ValidIffNothingFailed(securityLevel, sha, repr, proof);
  }

  /** A verifier that demands more bits than the prover used rejects the proof. */
  lemma HigherDemandRejected(sha: HashFn, serialize: TraceSerializer, repr: Repr, proverLevel: nat,
                             verifierLevel: nat, computationResult: int, trace: PyProofTrace, timestamp: real)
    requires verifierLevel > proverLevel
    ensures var proof := ProofDict(sha, serialize, proverLevel, computationResult, trace, timestamp);
      !Report(verifierLevel, sha, repr, proof).valid
  {
    var proof := ProofDict(sha, serialize, proverLevel, computationResult, trace, timestamp);
    assert SecurityOutcome(verifierLevel, Get(proof, "security_bits", JInt(0))) == Ok(false);
    ValidIffAllChecks(verifierLevel, sha, repr, proof);
  }

  /**
   * The first half of the demonstration of `main.py`: prove fibonacci(10)
   * at level 128. The trace has 19 steps, and the proof passes a verifier of
   * level 128 with all six checks.
   */
  method DemoProve(sha: HashFn, serialize: TraceSerializer, repr: Repr, timestamp: real)
    returns (result: int, stepCount: nat, proof: map<string, Json>)
    ensures result == 55 && stepCount == 19 && "result" in proof
    ensures var r := Report(128, sha, repr, proof);
      r.valid && r.checksFailed == [] && |r.checksPassed| == 6 && Completes(128, sha, repr, proof)
  {
    var prover := new STARKProver(128);
    var run := prover.ComputeFibonacci(10);
    assert Fib(10) == 55;
    result := run.value.result;
    var trace := run.value.trace;
    stepCount := |trace.steps|;
    proof := prover.GenerateProof(sha, serialize, result, trace, timestamp);
    RoundTrip(sha, serialize, repr, 128, result, trace, timestamp);
  }

  /**
   * The demonstration of `main.py`: prove fibonacci(10) at level 128, verify
   * at level 128, then verify a copy whose result is increased by one. Both
   * proofs are valid, so the altered result is not detected, and both runs
   * are logged.
   */
  method DemoFibonacci(sha: HashFn, serialize: TraceSerializer, repr: Repr, timestamp: real)
    returns (result: int, stepCount: nat, first: VerificationResult, tampered: VerificationResult,
             log: seq<VerificationResult>)
    ensures result == 55 && stepCount == 19
    ensures first.valid && first.checksFailed == [] && |first.checksPassed| == 6
    ensures tampered == first
    ensures log == [first, tampered]
  {
    var proof;
    result, stepCount, proof := DemoProve(sha, serialize, repr, timestamp);
    var verifier := new STARKVerifier(128);
    first := verifier.Verify(sha, repr, proof);

    var tamperedProof := proof["result" := JInt(result + 1)];
    ResultIgnored(128, sha, repr, proof, JInt(result + 1));
    tampered := verifier.Verify(sha, repr, tamperedProof);
    log := verifier.GetVerificationLog();
  }
}

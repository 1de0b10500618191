# A toy STARK prover and verifier, in Rust and in Python

The repository has two small pipelines that produce and check a "STARK proof" of
a Fibonacci computation. There is no polynomial or low-degree machinery in either
one. Each pipeline does the same deterministic string, list and integer work around
one primitive, SHA-256:

- it records a trace of a memoised Fibonacci computation;
- it commits to the trace by hashing its JSON serialisation;
- it reduces every step's output modulo a power of two (the "constraint evaluations");
- it derives a challenge from the commitment and the security level;
- it hash-chains three "FRI layers" over the evaluations, keeping every second value between rounds;
- a verifier then applies six checks and reports which of them passed and which failed.

This project models both pipelines in Dafny:

- the Rust crate (`crypto.rs`, `types.rs`, `computation.rs`, `prover.rs`, `verifier.rs`);
- the Python package (`prover.py`, `verifier.py`).

It proves what each component promises.

| file | module | models |
|---|---|---|
| `encoding.dfy` | `Encoding` | bytes, `u32`/`u64`, lowercase hex rendering and its inverse, decimal rendering, UTF-8 encoding, little-endian bytes |
| `lists.dfy` | `Lists` | `take`, `step_by(2)`, `join`, `map`, powers of two |
| `crypto.dfy` | `Crypto` | `hash_bytes`, `hash_string`, `hash_integers`, `generate_challenge`, `verify_challenge` |
| `types.dfy` | `Types` | `TraceStep`, `ProofTrace` (a class: `add_step`, `set_input` and `set_output` update it in place), `Proof::new`, `VerificationResult::{valid, invalid}` |
| `fibonacci.dfy` | `Fibonacci` | the mathematical Fibonacci function, and the exact set of inputs the memoised recursion computes |
| `computation.dfy` | `Computation` | `fibonacci_with_trace` / `fib_memo` (methods that thread the memo map and the trace object), `hash_computation_with_trace` (a loop) |
| `prover.dfy` | `Prover` | the Rust `STARKProver`: `commit_to_trace`, `evaluate_constraints`, `create_fri_layers` (a loop proved against `FriLayers`), `prove` |
| `verifier.dfy` | `Verifier` | the Rust `STARKVerifier`: the five check predicates, `verify` (a method proved against `Report`) |
| `pyvalues.dfy` | `PyValues` | the slice of Python's semantics the Python code relies on: JSON values, truthiness, `len`, `str`, `dict.get`, `in` on strings, `isinstance(x, int)`, exceptions as an outcome |
| `py_prover.dfy` | `PyProver` | the Python `STARKProver`: a class whose `proof_data` field `generate_proof` sets; `compute_fibonacci` with its recursive closure, modelled as a class `FibRecorder` whose `trace_steps` and `memo` fields the recursion updates; the `_evaluate_constraints` and `_fri_commit` loops |
| `py_verifier.dfy` | `PyVerifier` | the Python `STARKVerifier`: a class with its `verification_log`; the loop checks as methods; `verify` with its early return and its `try`/`except`; the demonstration of `main.py` |

The foreign pieces are parameters and are never assumed to behave in any
particular way:

- SHA-256 is `sha: HashFn`, any function from bytes to 32 bytes;
- the JSON serialisers of the trace (`serde_json::to_string` and `json.dumps(..., sort_keys=True)`) are `serialize`;
- Python's `str` of a float, list or dict is `repr`.

The clock readings (`SystemTime::now`, `time.time()`) are parameters `timestamp`.
Every property below therefore holds for every hash function, serialiser and clock.

Behaviour worth knowing:

- Both verifiers check the FRI layers for format only; they do not recompute them.
  `Verifier.FriLayersNotRecomputed` proves that any one to ten well-formed layers give the same report.
- Neither prover rejects any security level. A level matters only to the modulus of the constraint values and to the security check in `verify`.
- The Python proof carries only the first ten constraint evaluations (`constraint_evals[:10]`), so its Fibonacci(10) proof has 10 evaluations; the Rust proof carries all 19.
- The Rust commitment check accepts uppercase hex (`is_ascii_hexdigit`); the Python one does not.
  See `Verifier.UppercaseCommitmentAccepted` and `PyVerifier.UppercaseCommitmentRejected`.
- The Rust FRI check allows at most 10 layers; the Python one has no upper bound (`PyVerifier.ManyLayersAccepted`).
- For n = 1 the memoised recursion computes input 1 only, since the base case answers at once; for every other n it computes each of 0..n once. `Fibonacci.ComputedSet` states the exact set.

## Model

| member | source | states |
|---|---|---|
| Encoding.ToHex | stark_rust/src/crypto.rs:8 | the `{:x}` rendering of a digest has two lowercase hex characters per byte; `FromHexToHex` shows it loses nothing |
| Encoding.FromHexToHex | stark_rust/src/crypto.rs:8 | decoding the lowercase hex rendering of any byte string gives the bytes back, so the rendering loses nothing |
| Encoding.ToHexFromHex | stark_rust/src/crypto.rs:8 | every even-length lowercase hex string is the rendering of its own decoding |
| Encoding.Decimal | stark_rust/src/crypto.rs:29 | the decimal rendering of a number is non-empty, all digits, and starts with '0' only for 0 (which renders as "0") |
| Encoding.ParseDecimalOfDecimal | stark_rust/src/crypto.rs:29 | parsing the decimal rendering gives the number back, so different levels give different challenge inputs |
| Encoding.HexNumeral | stark_rust/src/computation.rs:60 | `format!("{:x}")` of a number is non-empty lowercase hex, starting with '0' only for 0 |
| Encoding.ParseHexOfHexNumeral | stark_rust/src/computation.rs:60 | reading the hexadecimal numeral back gives the number, so the hash chain starts from a string that denotes its input |
| Encoding.IntString | stark_prover_verifier/src/prover.py:149 | Python's `str` of a non-negative int is its decimal rendering |
| Encoding.Utf8Append | stark_rust/src/crypto.rs:12-14 | the UTF-8 encoding of a concatenation is the concatenation of the encodings |
| Encoding.Utf8Ascii | stark_rust/src/crypto.rs:12-14 | an ASCII string encodes to one byte per character, equal to its code point |
| Encoding.Utf8NonAscii | stark_rust/src/crypto.rs:12-14 | a string with a non-ASCII character encodes to more bytes than characters |
| Encoding.LeBytesRoundTrip | stark_rust/src/crypto.rs:19 | the little-endian bytes of a value below 256^width decode back to it |
| Encoding.U64ToLeBytes | stark_rust/src/crypto.rs:19 | `to_le_bytes` of a `u64` is 8 bytes that decode back to the value |
| Lists.Take | stark_rust/src/prover.rs:82 | `take(k)` keeps a prefix of length min(len, k) |
| Lists.EveryOther | stark_rust/src/prover.rs:94-98 | `step_by(2)` keeps ceil(len/2) elements, the i-th being element 2i of the input |
| Lists.Map | stark_rust/src/prover.rs:81-85 | mapping keeps the length and applies the function to each element in place |
| Crypto.HashBytes | stark_rust/src/crypto.rs:5-9 | the result is 64 lowercase hex characters that decode to exactly the digest of the data |
| Crypto.HashString | stark_rust/src/crypto.rs:12-14 | the result is 64 lowercase hex characters that decode to the digest of the UTF-8 bytes of the string |
| Crypto.IntegersBytes | stark_rust/src/crypto.rs:18-23 | the hashed input has 8 bytes per value, slot i holding the little-endian bytes of value i, in order |
| Crypto.IntegersBytesDecode | stark_rust/src/crypto.rs:18-23 | slot i of the hashed input decodes to value i, so no information is lost |
| Crypto.HashIntegers | stark_rust/src/crypto.rs:17-25 | the result is 64 lowercase hex characters decoding to the digest of the concatenated little-endian values |
| Crypto.GenerateChallenge | stark_rust/src/crypto.rs:28-32 | the challenge is 16 lowercase hex characters, a prefix of the hash of the commitment followed by the decimal security level |
| Crypto.VerifyChallenge | stark_rust/src/crypto.rs:35-38 | an accepted challenge is 16 lowercase hex characters, so any other length is rejected |
| Crypto.VerifyChallengeAcceptsGenerated | stark_rust/src/crypto.rs:35-38 | the generated challenge is always accepted for the same commitment and level |
| Crypto.VerifyChallengeExact | stark_rust/src/crypto.rs:35-38 | a challenge is accepted exactly when it equals the generated one |
| Types.ProofTrace.constructor | stark_rust/src/types.rs:25-31 | a new trace has no steps and empty input and output maps |
| Types.ProofTrace.AddStep | stark_rust/src/types.rs:34-36 | the step is appended at the end; earlier steps and both maps are unchanged |
| Types.ProofTrace.SetInput | stark_rust/src/types.rs:39-41 | the name maps to the value, overwriting; other inputs, the outputs and the steps are unchanged |
| Types.ProofTrace.SetOutput | stark_rust/src/types.rs:44-46 | the name maps to the value, overwriting; other outputs, the inputs and the steps are unchanged |
| Types.NewProof | stark_rust/src/types.rs:71-94 | the version is "1.0" and every argument lands unchanged in its field; the timestamp is the given clock reading |
| Types.ValidResult | stark_rust/src/types.rs:108-115 | a valid result with the given message and passed list and no failures |
| Types.InvalidResult | stark_rust/src/types.rs:118-125 | an invalid result with the given message and failed list and no passed checks |
| Fibonacci.ComputedSet | stark_rust/src/computation.rs:27-35 | the inputs that get a `fib_compute` step: {1} for n = 1, otherwise 0..n |
| Computation.AppendLookup | stark_rust/src/computation.rs:16-24 | appending a correct `memo_lookup` step keeps the trace indexed and correct, and every computed input recorded once |
| Computation.AppendCompute | stark_rust/src/computation.rs:35-42 | appending the `fib_compute` step of an input not yet in the memo keeps the invariant, with the memo extended by it |
| Computation.FibMemo | stark_rust/src/computation.rs:15-45 | returns Fib(num); keeps the memo and trace invariant; grows the memo by inputs up to num only; appends steps, the last being the lookup or the compute of num; from an empty memo it computes exactly ComputedSet(num) |
| Computation.FibCompute | stark_rust/src/computation.rs:27-44 | the not-memoised branch: Fib(num) is recorded in the memo and as the last `fib_compute` step, one step only for 0 and 1 |
| Computation.FibRecurse | stark_rust/src/computation.rs:32 | the two recursive calls sum to Fib(num) and, from an empty memo, leave exactly the inputs below num in the memo |
| Computation.FibonacciWithTrace | stark_rust/src/computation.rs:5-51 | returns Fib(n); inputs {"n": n}, outputs {"result": Fib(n)}; steps indexed by position and each correct; each computed input computed once, exactly ComputedSet(n); 2n-1 steps (1 for n <= 1), ending with the `fib_compute` step of n at depth 0 |
| Computation.HashChain | stark_rust/src/computation.rs:60-73 | after at least one round the chain value is a 64-character lowercase hex digest |
| Computation.HashComputationWithTrace | stark_rust/src/computation.rs:54-76 | returns the hash applied five times to the hex rendering of the input; five steps, step i with step = depth = i, the given input and output 64 |
| Prover.ConstraintModulus | stark_rust/src/prover.rs:63 | the modulus is between 1 and 2^32, and is 2^level for levels up to 32 |
| Prover.CommitToTrace | stark_rust/src/prover.rs:50-54 | the commitment is 64 lowercase hex characters decoding to the digest of the serialised trace |
| Prover.EvaluateConstraints | stark_rust/src/prover.rs:57-66 | one value per step, in order, equal to the output modulo 2^min(level, 32), hence below that modulus |
| Prover.LayerData | stark_rust/src/prover.rs:80-88 | what one layer hashes: at most the first five values in decimal joined by commas, then the challenge, then the round index; `FriLayersOfThreeRounds` gives the three inputs of a proof |
| Prover.FriLayers | stark_rust/src/prover.rs:69-102 | no layers for an empty list, otherwise one per round; every layer is 64 lowercase hex characters |
| Prover.FriLayersOfThreeRounds | stark_rust/src/prover.rs:80-98 | for a non-empty list, layer i hashes the first five values of the list halved i times, the challenge and the index i |
| Prover.CreateFriLayers | stark_rust/src/prover.rs:69-102 | the loop produces exactly `FriLayers` over three rounds: three layers for non-empty evaluations, none for empty ones |
| Prover.Prove | stark_rust/src/prover.rs:17-47 | the proof carries the name, result and level; the commitment and evaluations of the trace; the challenge generated from them, which `verify_challenge` accepts; and the layers over the evaluations |
| Verifier.CheckProofStructure | stark_rust/src/verifier.rs:94-101 | the six text and list fields are non-empty; `StructureFailureShortCircuits` shows that a failure ends verification with the structure failure alone |
| Verifier.VerifyTraceCommitment | stark_rust/src/verifier.rs:104-109 | by `HashStringIff`, holds exactly for 64 ASCII hex digits of either case (`UppercaseCommitmentAccepted`, `LowerHexIsHashString`) |
| Verifier.VerifyConstraints | stark_rust/src/verifier.rs:112-123 | non-empty, every value below 2^min(level, 32), the modulus the prover reduces by; `RoundTrip` shows the prover's evaluations pass it |
| Verifier.VerifyFriLayers | stark_rust/src/verifier.rs:126-135 | one to ten hash strings; `FriLayersNotRecomputed` shows their content beyond that format never matters |
| Verifier.VerifyChallengeConsistency | stark_rust/src/verifier.rs:137-144 | by `VerifyChallengeExact`, holds exactly when the challenge is the one regenerated from the proof's commitment and bits (`TamperedChallengeRejected`) |
| Verifier.Report | stark_rust/src/verifier.rs:17-91 | the result of `verify`; `ValidIffAllChecks`, `ValidIffNothingFailed`, `SixEntries` and `StructureFailureShortCircuits` characterise it, and `Verify` is proved to return it |
| Verifier.Push | stark_rust/src/verifier.rs:33-37 | each check adds exactly one entry, and the failed list stays empty exactly when it was empty and the check passed |
| Verifier.RecordCheck | stark_rust/src/verifier.rs:33-37 | the `if`/`push` of one check updates the two lists exactly as `Push` says |
| Verifier.Verify | stark_rust/src/verifier.rs:17-91 | the method returns exactly `Report`: the structure failure, or the six outcomes in order with the verdict |
| Verifier.StructureFailureShortCircuits | stark_rust/src/verifier.rs:22-30 | an empty required field gives an invalid result with no passed checks and only "Invalid proof structure" failed |
| Verifier.SixEntries | stark_rust/src/verifier.rs:22-71 | after a passed structure check the two lists hold exactly six entries |
| Verifier.ValidIffNothingFailed | stark_rust/src/verifier.rs:74-90 | the result is valid exactly when no check failed |
| Verifier.ValidIffAllChecks | stark_rust/src/verifier.rs:17-91 | the result is valid exactly when the structure and all five checks hold |
| Verifier.SameChecks | stark_rust/src/verifier.rs:17-91 | two proofs on which every check gives the same outcome and that claim the same level get the same report |
| Verifier.ResultAndTimestampIgnored | stark_rust/src/verifier.rs:173-187 | changing the result or the timestamp never changes the report |
| Verifier.TamperedChallengeRejected | stark_rust/src/verifier.rs:137-144 | any challenge other than the recomputed one makes the proof invalid |
| Verifier.FriLayersNotRecomputed | stark_rust/src/verifier.rs:126-135 | replacing accepted layers by any one to ten hash strings leaves the report unchanged |
| Verifier.HashStringIff | stark_rust/src/verifier.rs:133 | a hash string is 64 characters, each an ASCII hex digit of either case (byte length equals character length here) |
| Verifier.UppercaseCommitmentAccepted | stark_rust/src/verifier.rs:104-109 | 64 uppercase 'A's pass the commitment check |
| Verifier.LowerHexIsHashString | stark_rust/src/verifier.rs:104-109 | every 64-character lowercase hex string passes the hash-string test |
| Verifier.RoundTrip | stark_rust/src/verifier.rs:160-170 | a proof of a non-empty trace with a non-empty name is valid for a verifier of the prover's level, or of any level from 32 up to the prover's |
| Verifier.HigherDemandRejected | stark_rust/src/verifier.rs:61-71 | a verifier demanding more bits than the prover used rejects the proof |
| Verifier.ProveAndVerifyFibonacci | stark_rust/src/verifier.rs:160-170 | Fibonacci(10) proved and verified at level 128: result 55, 19 steps, valid with all six checks passed |
| PyValues.Len | stark_prover_verifier/src/verifier.py:137 | `len` succeeds exactly on strings, lists and dicts, gives 0 exactly for falsy ones, and otherwise raises the `TypeError` Python raises |
| PyValues.Get | stark_prover_verifier/src/verifier.py:134 | `dict.get` gives the stored value for a present key and the default otherwise |
| PyValues.IntValue | stark_prover_verifier/src/verifier.py:151 | `True` and `False` count as the ints 1 and 0 |
| PyValues.Str | stark_prover_verifier/src/verifier.py:184 | `str` is the identity on strings, the decimal rendering on non-negative ints, and "None" for `None` |
| PyValues.SingleCharSubstring | stark_prover_verifier/src/verifier.py:137 | a one-character string occurs in a string exactly when its character does |
| PyValues.HexCharsMembership | stark_prover_verifier/src/verifier.py:137 | `c in '0123456789abcdef'` holds exactly for lowercase hex digits |
| PyProver.FibRecorder.constructor | stark_prover_verifier/src/prover.py:51-52 | the closure starts with no trace steps and an empty memo |
| PyProver.FibRecorder.FibWithTrace | stark_prover_verifier/src/prover.py:54-81 | returns Fib(num); keeps every step indexed and correct and the memo correct; grows the memo only by inputs up to num; appends steps, the last being the lookup or the compute of num; from an empty memo it computes exactly ComputedSet(num) in 2num-1 steps |
| PyProver.FibRecorder.SumOfPrevious | stark_prover_verifier/src/prover.py:70 | the two recursive calls sum to Fib(num) and, from an empty memo, leave exactly the inputs below num in the memo |
| PyProver.STARKProver.constructor | stark_prover_verifier/src/prover.py:27-35 | the level is stored and `proof_data` is empty |
| PyProver.STARKProver.ComputeFibonacci | stark_prover_verifier/src/prover.py:37-91 | a negative n raises `ValueError("n must be non-negative")`; otherwise the result is Fib(n), inputs {'n': n}, outputs {'result': Fib(n)}, steps indexed and correct, 2n-1 of them (1 for n <= 1), the last the `fib_compute` of n at depth 0 |
| PyProver.STARKProver.CommitToTrace | stark_prover_verifier/src/prover.py:132-136 | the commitment is 64 lowercase hex characters decoding to the digest of the serialised trace |
| PyProver.ConstraintValues | stark_prover_verifier/src/prover.py:138-145 | one value per step, in order, equal to the output modulo 2^level with no 32-bit cap, hence in [0, 2^level) |
| PyProver.STARKProver.EvaluateConstraints | stark_prover_verifier/src/prover.py:138-145 | the loop produces exactly `ConstraintValues` |
| PyProver.STARKProver.GenerateChallenge | stark_prover_verifier/src/prover.py:147-151 | the Python challenge is the Rust `generate_challenge` of the commitment and level: 16 lowercase hex characters |
| PyProver.LayerString | stark_prover_verifier/src/prover.py:159 | `json.dumps` of the values as strings: a JSON array of quoted decimals separated by ", "; `LayerHash` hashes it, for the first five values, followed by the challenge |
| PyProver.Halve | stark_prover_verifier/src/prover.py:166 | a list longer than one shrinks to ceil(len/2); a list of at most one element stays as it is |
| PyProver.LayerHash | stark_prover_verifier/src/prover.py:159-162 | each layer hash is 64 lowercase hex characters |
| PyProver.FriLayers | stark_prover_verifier/src/prover.py:153-168 | exactly one layer per round, even for an empty list, each 64 lowercase hex characters |
| PyProver.ShortListRepeatsLayer | stark_prover_verifier/src/prover.py:158-166 | with at most one value every layer is the same hash, since the round index is not hashed |
| PyProver.STARKProver.FriCommit | stark_prover_verifier/src/prover.py:153-168 | the loop produces exactly `FriLayers` over three rounds |
| PyProver.ProofDict | stark_prover_verifier/src/prover.py:117-127 | the nine keys of the proof and the value under each: the commitment, the first ten evaluations, the challenge of the commitment and level, the layers over all evaluations |
| PyProver.PublishedEvaluations | stark_prover_verifier/src/prover.py:122 | the published evaluations are min(steps, 10) ints, the i-th being step i's output modulo 2^level |
| PyProver.STARKProver.GenerateProof | stark_prover_verifier/src/prover.py:93-130 | returns `ProofDict` and stores it in `proof_data`, which `get_proof` returns |
| PyVerifier.StructureOk | stark_prover_verifier/src/verifier.py:113-130 | all eight required keys present and the evaluations and layers lists; `STARKVerifier.CheckProofStructure` is proved to compute it and `StructureFailure` gives the result when it fails |
| PyVerifier.InHexCharsIff | stark_prover_verifier/src/verifier.py:137 | searching each character in the digit string accepts exactly lowercase hex |
| PyVerifier.AllInHexChars | stark_prover_verifier/src/verifier.py:137 | over a list, the `all(...)` is true exactly when every element is a string occurring in the digit string, and raises `TypeError` only at a non-string element |
| PyVerifier.VerifyTraceCommitment | stark_prover_verifier/src/verifier.py:132-140 | for a string commitment, the check is true exactly when it has 64 lowercase hex characters; it can raise only `TypeError` |
| PyVerifier.ConstraintsOutcome | stark_prover_verifier/src/verifier.py:142-159 | raises exactly for truthy values that are not containers; for a list, true exactly when it is non-empty and every element is an int (or bool) in [0, 2^level) |
| PyVerifier.STARKVerifier.VerifyConstraints | stark_prover_verifier/src/verifier.py:142-159 | the two loops return exactly `ConstraintsOutcome` |
| PyVerifier.FriOutcome | stark_prover_verifier/src/verifier.py:161-175 | raises exactly for truthy non-containers; for a list, true exactly when it is non-empty and every element is a 64-character lowercase hex string, with no upper bound |
| PyVerifier.STARKVerifier.VerifyFriLayers | stark_prover_verifier/src/verifier.py:161-175 | the loop returns exactly `FriOutcome` |
| PyVerifier.IsPyHashIff | stark_prover_verifier/src/verifier.py:172 | a layer passes exactly when it has 64 lowercase hex characters |
| PyVerifier.ChallengeInput | stark_prover_verifier/src/verifier.py:184 | the concatenation succeeds exactly for a string commitment, giving it followed by `str` of the bits |
| PyVerifier.ChallengeOutcome | stark_prover_verifier/src/verifier.py:177-187 | raises exactly when the commitment is not a string; for a string and non-negative int bits, true exactly when the challenge equals the Rust-derived challenge of them |
| PyVerifier.SecurityOutcome | stark_prover_verifier/src/verifier.py:85 | raises exactly for non-numbers; for an int (or bool), true exactly when it is at least the level |
| PyVerifier.Step | stark_prover_verifier/src/verifier.py:60-88 | a stopped run stays stopped; a running one records one more entry, and keeps no failures exactly when it had none and the check returned true |
| PyVerifier.ExceptionResult | stark_prover_verifier/src/verifier.py:105-111 | the result of an exception is invalid with a non-empty failed list |
| PyVerifier.STARKVerifier.constructor | stark_prover_verifier/src/verifier.py:24-32 | the level is stored and the log is empty |
| PyVerifier.STARKVerifier.CheckProofStructure | stark_prover_verifier/src/verifier.py:113-130 | the loop returns true exactly when all eight keys are present and the evaluations and layers are lists |
| PyVerifier.STARKVerifier.FirstChecks | stark_prover_verifier/src/verifier.py:60-76 | checks 2 to 4 leave the run as the model of those three checks says; checks 3 and 4 cannot raise once the structure holds |
| PyVerifier.STARKVerifier.RunChecks | stark_prover_verifier/src/verifier.py:60-88 | the `try` body records the five outcomes in order and stops at the first exception |
| PyVerifier.STARKVerifier.Verify | stark_prover_verifier/src/verifier.py:34-111 | returns exactly `Report`, and appends the result to the log exactly when the structure holds and nothing raised |
| PyVerifier.Report | stark_prover_verifier/src/verifier.py:34-111 | the result of `verify`; `ValidIffAllChecks`, `ValidIffNothingFailed`, `StructureFailure`, `ExceptionReported` and `CompletedRunSixEntries` characterise it, and `STARKVerifier.Verify` is proved to return it |
| PyVerifier.StructureFailure | stark_prover_verifier/src/verifier.py:49-58 | a structure failure is invalid with no passed checks, only "Invalid proof structure" failed, and nothing logged |
| PyVerifier.CompletedRunSixEntries | stark_prover_verifier/src/verifier.py:60-100 | a completed run holds exactly six entries |
| PyVerifier.ExceptionReported | stark_prover_verifier/src/verifier.py:105-111 | an exception gives an invalid result naming it in the message and first among the failures, and is not logged |
| PyVerifier.ValidIffNothingFailed | stark_prover_verifier/src/verifier.py:90-93 | on every path the result is valid exactly when nothing failed |
| PyVerifier.ValidIffAllChecks | stark_prover_verifier/src/verifier.py:47-100 | the result is valid exactly when the structure holds and each of the five checks returns true |
| PyVerifier.SameReport | stark_prover_verifier/src/verifier.py:113-187 | two dictionaries agreeing on the seven checked keys and on the presence of "result" get the same report |
| PyVerifier.UncheckedKeyIgnored | stark_prover_verifier/src/verifier.py:113-187 | rewriting any key no check reads leaves the report unchanged |
| PyVerifier.ResultIgnored | stark_prover_verifier/src/verifier.py:113-130 | the value of "result" never changes the report; only its presence is checked |
| PyVerifier.TimestampIgnored | stark_prover_verifier/src/verifier.py:113-187 | the timestamp never changes the report |
| PyVerifier.UppercaseCommitmentRejected | stark_prover_verifier/src/verifier.py:137 | 64 uppercase 'A's fail the commitment check |
| PyVerifier.ManyLayersAccepted | stark_prover_verifier/src/verifier.py:161-175 | any number of well-formed layers from one up passes the layer check |
| PyVerifier.BoolEvaluationAccepted | stark_prover_verifier/src/verifier.py:151 | `[True]` passes the constraint check at any level from 1 up |
| PyVerifier.PublishedEvaluationsAccepted | stark_prover_verifier/src/verifier.py:142-159 | the evaluations the prover publishes for a non-empty trace pass the constraint check |
| PyVerifier.HashListAccepted | stark_prover_verifier/src/verifier.py:161-175 | every non-empty list of 64-character lowercase hex strings passes the layer check |
| PyVerifier.PublishedLayersAccepted | stark_prover_verifier/src/verifier.py:161-175 | the three layers the prover publishes pass the layer check |
| PyVerifier.LowerHexCommitmentAccepted | stark_prover_verifier/src/verifier.py:132-140 | a 64-character lowercase hex commitment passes |
| PyVerifier.WellFormedProofAccepted | stark_prover_verifier/src/verifier.py:34-103 | a dictionary shaped as the prover builds it, with in-range evaluations and well-formed layers, is valid and logged |
| PyVerifier.RoundTrip | stark_prover_verifier/main.py:118-136 | a proof of a non-empty trace passes all six checks of a verifier of the same level and is logged |
| PyVerifier.HigherDemandRejected | stark_prover_verifier/src/verifier.py:85 | a verifier demanding more bits than the prover used rejects the proof |
| PyVerifier.DemoProve | stark_prover_verifier/main.py:118-127 | Fibonacci(10) at level 128: result 55, 19 trace steps, and a proof that passes all six checks |
| PyVerifier.DemoFibonacci | stark_prover_verifier/main.py:118-149 | the first verification is valid with six passed checks; the copy with the result increased by one gets the very same result, so the tampering goes undetected; the log holds both |

## Left out

- SHA-256 itself, the JSON serialisers of the trace, and Python's `str` of floats, lists and dicts are parameters. No property depends on what they compute beyond a 32-byte digest.
- Timestamps are parameters; no check reads them.
- The Rust serialiser is a function of the trace's contents. `serde_json::to_string` writes the `HashMap` fields `inputs` and `outputs` in the map's iteration order, which Rust randomises per map instance, so a map with several keys could serialise, and commit, differently from run to run. No property here depends on this: every trace the code builds has at most one key in each map.
- Python's default arguments (`security_level=128` of both classes, `depth=0` of the recursive closure) are explicit arguments of `PyProver.STARKProver.constructor`, `PyVerifier.STARKVerifier.constructor` and `PyProver.FibRecorder.FibWithTrace`; the demonstration passes 128 and the recursion starts at depth 0.
- `Computation.FibonacciWithTrace`: requires `n <= 100` and `Fib(n) < 2^64`.
  - Above 100 the source panics.
  - For 94 to 100 the `u64` addition overflows, which panics in a debug build and wraps in a release build.
- `Computation.FibMemo`, `Computation.FibCompute` and `Computation.FibRecurse` carry the same `Fib(num) < 2^64` bound.
- `PyProver.STARKProver.ComputeFibonacci`: Python's recursion limit (a `RecursionError` for large n) is not modelled, and the result is an unbounded integer, as in Python.
- Security levels are natural numbers in the Python model.
  - A negative level would make `2 ** level` a float in both `_evaluate_constraints` and `_verify_constraints`.
  - Float arithmetic is not modelled.
  - `PyVerifier.SecurityOutcome` compares floats as exact reals, so NaN and the infinities are not modelled.
- Strings are sequences of Unicode scalar values, so the `UnicodeEncodeError` that `.encode()` raises on a lone surrogate cannot occur in the model.
- File and console I/O is out: `save_proof`, `verify_from_file`, `print_report`, `print_verification_report`, and the command-line front ends `main.rs`, `main.py` and `lib.rs`. Only the demonstration flow of `main.py` is modelled, as `PyVerifier.DemoFibonacci`.
- `PyProver.STARKProver.GetProof` and `PyVerifier.STARKVerifier.GetVerificationLog` return a field and carry no contract of their own. Their partners are the `proofData` clause of `GenerateProof` and the log clause of `Verify`.
- The Rust `STARKProver::new` and `STARKVerifier::new` are the datatype constructors `Prover.STARKProver` and `Verifier.STARKVerifier`; they only store the level.
- No cryptographic soundness or zero-knowledge property is claimed, because the code has none. Neither verifier recomputes the FRI layers or checks the result.

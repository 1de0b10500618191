/**
 * The hashing primitives of `crypto.rs`: SHA-256 rendered as lowercase hex,
 * hashing strings and integer lists, and the Fiat-Shamir style challenge.
 *
 * SHA-256 itself is not modelled. Every operation takes the compression
 * function as a parameter `sha`, of which nothing is known except that it
 * is deterministic and returns 32 bytes.
 */
module Crypto {
  import opened Encoding

  /** A SHA-256 digest: exactly 32 bytes. */
  type Digest = d: seq<Byte> | |d| == 32 witness seq(32, _ => 0)

  /** The SHA-256 function, supplied by the caller. */
  type HashFn = seq<Byte> -> Digest

  /** `hash_bytes`: the digest of `data` as 64 lowercase hex characters. */
  function HashBytes(sha: HashFn, data: seq<Byte>): (h: string)
    ensures |h| == 64 && IsLowerHex(h)
    ensures FromHex(h) == sha(data)
  {
    FromHexToHex(sha(data));
    ToHex(sha(data))
  }

  /** `hash_string`: the digest of the UTF-8 bytes of `s`. */
  function HashString(sha: HashFn, s: string): (h: string)
    ensures |h| == 64 && IsLowerHex(h)
    ensures FromHex(h) == sha(Utf8(s))
  {
    HashBytes(sha, Utf8(s))
  }

  /** The bytes `hash_integers` hashes: each value's 8 little-endian bytes, in order. */
  function IntegersBytes(values: seq<u64>): (data: seq<Byte>)
    ensures |data| == 8 * |values|
    ensures forall i :: 0 <= i < |values| ==> data[8 * i .. 8 * i + 8] == U64ToLeBytes(values[i])
  {
    if values == [] then []
    else
      var init := values[..|values| - 1];
      var last := values[|values| - 1];
      var prefix := IntegersBytes(init);
      var data := prefix + U64ToLeBytes(last);
      assert forall i :: 0 <= i < |values| ==> data[8 * i .. 8 * i + 8] == U64ToLeBytes(values[i]) by {
        forall i | 0 <= i < |values|
          ensures data[8 * i .. 8 * i + 8] == U64ToLeBytes(values[i])
        {
          SlotOfAppend(prefix, U64ToLeBytes(last), i);
        }
      }
      data
  }

  /** An eight-byte slot of `a + b` lies wholly in `a` or is exactly `b`. */
  lemma SlotOfAppend(a: seq<Byte>, b: seq<Byte>, i: nat)
    requires |a| % 8 == 0 && |b| == 8 && 8 * i + 8 <= |a| + 8
    ensures 8 * i + 8 <= |a| ==> (a + b)[8 * i .. 8 * i + 8] == a[8 * i .. 8 * i + 8]
    ensures 8 * i == |a| ==> (a + b)[8 * i .. 8 * i + 8] == b
  {
  }

  /** Each value can be read back from its slot of the hashed bytes. */
  lemma IntegersBytesDecode(values: seq<u64>, i: nat)
    requires i < |values|
    ensures FromLeBytes(IntegersBytes(values)[8 * i .. 8 * i + 8]) == values[i]
  {
  }

  /** `hash_integers`. */
  function HashIntegers(sha: HashFn, values: seq<u64>): (h: string)
    ensures |h| == 64 && IsLowerHex(h)
    ensures FromHex(h) == sha(IntegersBytes(values))
  {
    HashBytes(sha, IntegersBytes(values))
  }

  /**
   * `generate_challenge` (and Python's `_generate_challenge`): the first
   * 16 hex characters of the hash of the commitment followed by the
   * decimal security parameter.
   */
  function GenerateChallenge(sha: HashFn, commitment: string, securityBits: nat): (c: string)
    ensures |c| == 16 && IsLowerHex(c)
    ensures c <= HashString(sha, commitment + Decimal(securityBits))
  {
    HashString(sha, commitment + Decimal(securityBits))[..16]
  }

  /** `verify_challenge`: recompute and compare. */
  function VerifyChallenge(sha: HashFn, commitment: string, securityBits: nat, provided: string): (ok: bool)
    ensures ok ==> |provided| == 16 && IsLowerHex(provided)
  {
    GenerateChallenge(sha, commitment, securityBits) == provided
  }

  /** A challenge generated from the same inputs is always accepted. */
  lemma VerifyChallengeAcceptsGenerated(sha: HashFn, commitment: string, securityBits: nat)
    ensures VerifyChallenge(sha, commitment, securityBits, GenerateChallenge(sha, commitment, securityBits))
  {
  }

  /** Exactly one value is accepted for given inputs: the generated one. */
  lemma VerifyChallengeExact(sha: HashFn, commitment: string, securityBits: nat, provided: string)
    ensures VerifyChallenge(sha, commitment, securityBits, provided)
            <==> provided == GenerateChallenge(sha, commitment, securityBits)
  {
  }
}

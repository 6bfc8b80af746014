/** Values shared by the claim builder and the witness output matcher:
    bytes, 32-byte hashes, and the `[code, message]` error that both
    callbacks report. */
module Types {

  newtype byte = b: int | 0 <= b < 0x100

  type Bytes = seq<byte>

  /** The output of SHA-256 and of the segwit signature hash. */
  type Hash32 = h: Bytes | |h| == 32 witness ZeroHash()

  function ZeroHash(): (h: Bytes)
    ensures |h| == 32
  {
    seq(32, _ => 0)
  }

  type Positive = n: nat | n > 0 witness 1

  /** The `[code, message]` array a callback receives on failure. */
  datatype Error = Error(code: int, message: string)

  datatype Result<+T> = Success(value: T) | Failure(error: Error)

  datatype Option<+T> = None | Some(value: T)

  /** `Buffer.prototype.reverse`: the bytes in the opposite order. */
  function Reversed(s: Bytes): (r: Bytes)
    ensures |r| == |s|
    ensures forall i :: 0 <= i < |s| ==> r[i] == s[|s| - 1 - i]
  {
    if s == [] then [] else Reversed(s[1..]) + [s[0]]
  }

  /** Reversing twice gives back the original bytes, so a reversed txid
      still identifies exactly one funding transaction. */
  lemma ReversedTwice(s: Bytes)
    ensures Reversed(Reversed(s)) == s
  {
  }

  lemma ReversedInjective(s: Bytes, t: Bytes)
    requires Reversed(s) == Reversed(t)
    ensures s == t
  {
    ReversedTwice(s);
    ReversedTwice(t);
  }
}

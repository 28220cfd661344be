/** Types shared by every part of the model. */
module Common {

  datatype Option<+T> = None | Some(value: T)

  /** A byte, as the programs see it: 0 to 255. */
  newtype byte = b: int | 0 <= b < 256

  /** Raw bytes: transactions, signatures, keys. */
  type Bytes = seq<byte>

  /** SHA-256 as an injective constructor: equal digests have equal preimages. */
  datatype Digest = Sha256(preimage: Bytes)

  /** A set has no more members than one that contains it. */
  lemma {:induction false} SubsetCard<T>(a: set<T>, b: set<T>)
    requires a <= b
    ensures |a| <= |b|
  {
    if a != {} {
      var x :| x in a;
      SubsetCard(a - {x}, b - {x});
    }
  }
}

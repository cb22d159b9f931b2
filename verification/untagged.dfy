/** `either::Either` with the `either::serde_untagged` adapter.

    Serializing writes the inner value with no tag. Deserializing tries the `Left` type first
    and falls back to the `Right` type; the field fails only when neither type reads the value.
    Which type a field lists first therefore decides how a value that fits both is read.
 */
module Untagged {
  import opened Wrappers
  import opened Json

  datatype Either<+L, +R> = Left(left: L) | Right(right: R)

  /** The adapter's deserializer: `Left` if it reads, otherwise `Right`, otherwise an error. */
  function DecodeUntagged<L, R>(v: Json, readLeft: Json -> Option<L>, readRight: Json -> Option<R>): (r: Option<Either<L, R>>)
    ensures r.None? <==> readLeft(v).None? && readRight(v).None?
    ensures r.Some? && r.value.Left? ==> readLeft(v) == Some(r.value.left)
    ensures r.Some? && r.value.Right? ==> readLeft(v).None? && readRight(v) == Some(r.value.right)
  {
    match readLeft(v)
    case Some(l) => Some(Left(l))
    case None =>
      match readRight(v)
      case Some(x) => Some(Right(x))
      case None => None
  }

  /** The adapter's serializer: the inner value, untagged. */
  function EncodeUntagged<L, R>(e: Either<L, R>, writeLeft: L -> Json, writeRight: R -> Json): (v: Json)
    ensures e.Left? ==> v == writeLeft(e.left)
    ensures e.Right? ==> v == writeRight(e.right)
  {
    match e
    case Left(l) => writeLeft(l)
    case Right(x) => writeRight(x)
  }

  /** A value that reads as `Left` is read as `Left`, whatever `Right` would make of it. */
  lemma LeftWins<L, R>(v: Json, readLeft: Json -> Option<L>, readRight: Json -> Option<R>)
    requires readLeft(v).Some?
    ensures DecodeUntagged(v, readLeft, readRight) == Some(Left(readLeft(v).value))
  {
  }

  /** Swapping the trial order changes the result exactly on values that both sides read. */
  lemma OrderMattersOnlyForOverlap<L, R>(v: Json, readLeft: Json -> Option<L>, readRight: Json -> Option<R>)
    ensures readLeft(v).Some? && readRight(v).Some? ==>
      DecodeUntagged(v, readLeft, readRight) == Some(Left(readLeft(v).value)) &&
      DecodeUntagged(v, readRight, readLeft) == Some(Left(readRight(v).value))
    ensures readLeft(v).None? || readRight(v).None? ==>
      Swap(DecodeUntagged(v, readLeft, readRight)) == DecodeUntagged(v, readRight, readLeft)
  {
  }

  /** The same alternative seen from the other trial order. */
  function Swap<L, R>(r: Option<Either<L, R>>): (s: Option<Either<R, L>>)
    ensures s.None? <==> r.None?
    ensures r.Some? && r.value.Left? ==> s == Some(Right(r.value.left))
    ensures r.Some? && r.value.Right? ==> s == Some(Left(r.value.right))
  {
    match r
    case None => None
    case Some(Left(l)) => Some(Right(l))
    case Some(Right(x)) => Some(Left(x))
  }

  /** Serializing and deserializing an untagged value gives it back when each side reads its own
      output and the `Left` reader rejects what the `Right` side writes. */
  lemma UntaggedRoundTrip<L, R>(e: Either<L, R>, readLeft: Json -> Option<L>, readRight: Json -> Option<R>,
                                writeLeft: L -> Json, writeRight: R -> Json)
    requires e.Left? ==> readLeft(writeLeft(e.left)) == Some(e.left)
    requires e.Right? ==> readLeft(writeRight(e.right)).None? && readRight(writeRight(e.right)) == Some(e.right)
    ensures DecodeUntagged(EncodeUntagged(e, writeLeft, writeRight), readLeft, readRight) == Some(e)
  {
  }
}

/**
 * The closed enumeration of decoding failures and the stable numeric code
 * each one carries to the JSON-RPC layer.
 *
 * The enumeration is `#[repr(i32)]`, its first variant has the explicit
 * discriminant 1001 and every later variant takes the previous one plus one.
 * `Ordinal` is the declaration position and `Code` applies that rule.
 */
module ErrorCodes {
  import opened Wrappers

  /** The range of a Rust `i32`. */
  type I32 = x: int | -0x8000_0000 <= x < 0x8000_0000

  datatype Error =
    | DnaLengthNotMatch
    | SporeIdLengthInvalid
    | NativeDecoderNotFound
    | SporeIdNotFound
    | SporeDataUncompatible
    | SporeDataContentTypeUncompatible
    | DOBVersionUnexpected
    | ClusterIdNotSet
    | ClusterIdNotFound
    | ClusterDataUncompatible
    | DecoderIdNotFound
    | DecoderOutputInvalid
    | HexedDNAParseError
    | HexedSporeIdParseError
    | DecoderBinaryPathInvalid
    | DecoderExecutionError
    | DecoderExecutionInternalError
    | FetchLiveCellsError
    | DOBContentUnexpected
    | DOBMetadataUnexpected

  /** The explicit discriminant of the first variant. */
  const FirstCode: int := 1001

  /** The number of variants. */
  const VariantCount: nat := 20

  /** Position of a variant in the declaration, starting at 0. */
  function Ordinal(e: Error): (n: nat)
    ensures n < VariantCount
  {
    match e
    case DnaLengthNotMatch => 0
    case SporeIdLengthInvalid => 1
    case NativeDecoderNotFound => 2
    case SporeIdNotFound => 3
    case SporeDataUncompatible => 4
    case SporeDataContentTypeUncompatible => 5
    case DOBVersionUnexpected => 6
    case ClusterIdNotSet => 7
    case ClusterIdNotFound => 8
    case ClusterDataUncompatible => 9
    case DecoderIdNotFound => 10
    case DecoderOutputInvalid => 11
    case HexedDNAParseError => 12
    case HexedSporeIdParseError => 13
    case DecoderBinaryPathInvalid => 14
    case DecoderExecutionError => 15
    case DecoderExecutionInternalError => 16
    case FetchLiveCellsError => 17
    case DOBContentUnexpected => 18
    case DOBMetadataUnexpected => 19
  }

  /** The variant declared at position `n`, if there is one. */
  function AtOrdinal(n: int): (r: Option<Error>)
    ensures r.Some? <==> 0 <= n < VariantCount
    ensures r.Some? ==> Ordinal(r.value) == n
  {
    match n
    case 0 => Some(DnaLengthNotMatch)
    case 1 => Some(SporeIdLengthInvalid)
    case 2 => Some(NativeDecoderNotFound)
    case 3 => Some(SporeIdNotFound)
    case 4 => Some(SporeDataUncompatible)
    case 5 => Some(SporeDataContentTypeUncompatible)
    case 6 => Some(DOBVersionUnexpected)
    case 7 => Some(ClusterIdNotSet)
    case 8 => Some(ClusterIdNotFound)
    case 9 => Some(ClusterDataUncompatible)
    case 10 => Some(DecoderIdNotFound)
    case 11 => Some(DecoderOutputInvalid)
    case 12 => Some(HexedDNAParseError)
    case 13 => Some(HexedSporeIdParseError)
    case 14 => Some(DecoderBinaryPathInvalid)
    case 15 => Some(DecoderExecutionError)
    case 16 => Some(DecoderExecutionInternalError)
    case 17 => Some(FetchLiveCellsError)
    case 18 => Some(DOBContentUnexpected)
    case 19 => Some(DOBMetadataUnexpected)
    case _ => None
  }

  /** The discriminant of a variant: the first is 1001, each later one is one more. */
  function Code(e: Error): (c: int)
    ensures 1001 <= c <= 1020
  {
    FirstCode + Ordinal(e)
  }

  /** The variant whose discriminant is `c`; `None` for any other number. */
  function FromCode(c: int): (r: Option<Error>)
    ensures r.Some? <==> 1001 <= c <= 1020
    ensures r.Some? ==> Code(r.value) == c
  {
    AtOrdinal(c - FirstCode)
  }

  /** `From<Error> for ErrorCode`: the variant cast to `i32`. */
  function ToRpcCode(e: Error): (c: I32)
    ensures FromCode(c) == Some(e)
  {
    Code(e) as I32
  }

  /** Decoding a variant's code gives back that variant. */
  lemma CodeRoundTrip(e: Error)
    ensures FromCode(Code(e)) == Some(e)
  {
  }

  /** No two variants share a code. */
  lemma CodeInjective(a: Error, b: Error)
    ensures Code(a) == Code(b) <==> a == b
  {
  }

  /** Every number from 1001 to 1020 is the code of some variant. */
  lemma CodesDense(c: int)
    requires 1001 <= c <= 1020
    ensures exists e: Error :: Code(e) == c
  {
    var e := FromCode(c).value;
    assert Code(e) == c;
  }

  /** The first declared variant is 1001 and the last is 1020. */
  lemma CodeEndpoints()
    ensures Code(DnaLengthNotMatch) == 1001
    ensures Code(DOBMetadataUnexpected) == 1020
    ensures forall e: Error :: Code(DnaLengthNotMatch) <= Code(e) <= Code(DOBMetadataUnexpected)
  {
  }

  /** Each variant's successor in the declaration has the next code. */
  lemma CodeSuccessor(e: Error)
    requires e != DOBMetadataUnexpected
    ensures FromCode(Code(e) + 1).Some?
    ensures Ordinal(FromCode(Code(e) + 1).value) == Ordinal(e) + 1
  {
  }
}

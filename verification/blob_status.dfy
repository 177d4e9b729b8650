/** Lifecycle status of a blob in the v2 disperser and its conversions to the
    protobuf wire enum and to a display name (disperser/common/v2/blob.go).

    `BlobStatus` is a Go `uint`, so values beyond the five named constants
    exist and must be handled; it is modelled as a `nat`. The protobuf enum is
    modelled by its named members plus `Unrecognized` for any other wire
    value a peer may send. */
module BlobStatusCodec {
  import opened Wrappers

  type BlobStatus = nat

  // The five lifecycle states, consecutive from 0 in declaration order.
  const Queued: BlobStatus := 0
  const Encoded: BlobStatus := 1
  const GatheringSignatures: BlobStatus := 2
  const Complete: BlobStatus := 3
  const Failed: BlobStatus := 4

  /** The named statuses, in lifecycle order. */
  const Lifecycle: seq<BlobStatus> := [Queued, Encoded, GatheringSignatures, Complete, Failed]

  predicate IsDefined(s: BlobStatus)
  {
    s in Lifecycle
  }

  /** The protobuf `BlobStatus` enum of the disperser v2 API.
      `Unrecognized(code)` stands only for wire numbers that are none of the
      listed members; a listed number is always decoded to its member. */
  datatype PbBlobStatus =
    | PbUnknown
    | PbQueued
    | PbEncoded
    | PbGatheringSignatures
    | PbComplete
    | PbFailed
    | Unrecognized(code: int)

  datatype StatusError = UnknownBlobStatus(status: PbBlobStatus)

  /** Display name; every value outside the five constants is "Unknown". */
  function Name(s: BlobStatus): (name: string)
    ensures !IsDefined(s) <==> name == "Unknown"
  {
    if s == Queued then "Queued"
    else if s == Encoded then "Encoded"
    else if s == GatheringSignatures then "Gathering Signatures"
    else if s == Complete then "Complete"
    else if s == Failed then "Failed"
    else "Unknown"
  }

  /** Conversion to the wire enum; undefined values degrade to UNKNOWN. */
  function ToProtobuf(s: BlobStatus): (p: PbBlobStatus)
    ensures !IsDefined(s) <==> p == PbUnknown
    ensures !p.Unrecognized?
  {
    if s == Queued then PbQueued
    else if s == Encoded then PbEncoded
    else if s == GatheringSignatures then PbGatheringSignatures
    else if s == Complete then PbComplete
    else if s == Failed then PbFailed
    else PbUnknown
  }

  /** Conversion from the wire enum; UNKNOWN and every unlisted value are
      rejected, and an accepted value converts back to the same wire value. */
  function FromProtobuf(p: PbBlobStatus): (r: Result<BlobStatus, StatusError>)
    ensures r.Failure? <==> p == PbUnknown || p.Unrecognized?
    ensures r.Failure? ==> r.error == UnknownBlobStatus(p)
    ensures r.Success? ==> IsDefined(r.value) && ToProtobuf(r.value) == p
  {
    match p
    case PbQueued => Success(Queued)
    case PbEncoded => Success(Encoded)
    case PbGatheringSignatures => Success(GatheringSignatures)
    case PbComplete => Success(Complete)
    case PbFailed => Success(Failed)
    case _ => Failure(UnknownBlobStatus(p))
  }

  /** Every defined status survives the trip to the wire and back. */
  lemma RoundTrip(s: BlobStatus)
    requires IsDefined(s)
    ensures FromProtobuf(ToProtobuf(s)) == Success(s)
  {
  }

  /** The wire conversion tells the defined statuses apart. */
  lemma ToProtobufInjective(s: BlobStatus, t: BlobStatus)
    requires IsDefined(s) && IsDefined(t)
    requires ToProtobuf(s) == ToProtobuf(t)
    ensures s == t
  {
    RoundTrip(s);
    RoundTrip(t);
  }

  /** The display names of the defined statuses are pairwise distinct. */
  lemma NamesDistinct(s: BlobStatus, t: BlobStatus)
    requires IsDefined(s) && IsDefined(t) && s != t
    ensures Name(s) != Name(t)
  {
  }

  /** Ordinals are consecutive from 0 in lifecycle order. */
  lemma LifecycleOrdinals()
    ensures forall i :: 0 <= i < |Lifecycle| ==> Lifecycle[i] == i
  {
  }

  /** The per-blob metadata record kept by the disperser. The header,
      signature and fragment layout are opaque to this model. */
  datatype BlobMetadata<Header, FragmentInfo> = BlobMetadata(
    blobHeader: Header,
    signature: seq<bv8>,
    blobStatus: BlobStatus,
    expiry: nat,         // Unix seconds
    numRetries: nat,
    blobSize: nat,       // bytes
    requestedAt: nat,    // Unix nanoseconds
    updatedAt: nat,      // Unix nanoseconds
    fragmentInfo: Option<FragmentInfo>
  )
}

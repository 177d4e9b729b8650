/** Conversion of the protobuf blobs a node receives into per-quorum bundles
    of frames (node/utils.go, `GetBlobMessages` and `GetBundleEncodingFormat`).

    The header, bundle and frame deserialisers belong to other packages and
    are parameters of the model (`Decoders`). The worker pool that runs the
    per-blob work concurrently is modelled as a sequential pass. */
module NodeBlobMessages {
  import opened Wrappers

  type Bytes = seq<bv8>

  /** `core.QuorumID`, a `uint8`. */
  type QuorumId = x: nat | x < 256

  /** Wire forms. A quorum header carries a `uint32` quorum ID. */
  datatype PbQuorumHeader = PbQuorumHeader(quorumId: nat)
  datatype PbBlobHeader = PbBlobHeader(quorumHeaders: seq<PbQuorumHeader>, other: Bytes)
  /** A bundle is sent either as one combined byte array (`bundle`) or as a
      list of separately serialised chunks (`chunks`). */
  datatype PbBundle = PbBundle(chunks: seq<Bytes>, bundle: Bytes)
  datatype PbBlob = PbBlob(header: PbBlobHeader, bundles: seq<PbBundle>)

  datatype BundleEncodingFormat = GobFormat | GnarkFormat

  /** The deserialisers of the header, of a combined bundle and of a single
      frame; each reports failure with a message. */
  datatype Decoders<Header, Frame> = Decoders(
    header: PbBlobHeader -> Result<Header, string>,
    bundle: Bytes -> Result<seq<Frame>, string>,
    frame: Bytes -> Result<Frame, string>
  )

  /** `core.BlobMessage`: the decoded header and one frame list per quorum. */
  datatype BlobMessage<Header, Frame> = BlobMessage(header: Header, bundles: map<QuorumId, seq<Frame>>)

  datatype MessageError =
    | HeaderInvalid(reason: string)
    | BundleCountMismatch(numQuorumHeaders: nat, numBundles: nat)
    | BundleInvalid(reason: string)
    | ChunkInvalid(reason: string)

  /** `uint8(quorumID)`: the low 8 bits of the 32-bit wire ID. */
  function QuorumIdOf(h: PbQuorumHeader): QuorumId
  {
    h.quorumId % 256
  }

  /** Combined (Gnark) encoding is in use iff some bundle has non-empty
      combined bytes; otherwise, including when there are no bundles, the
      per-chunk (Gob) encoding is assumed. */
  function GetBundleEncodingFormat(bundles: seq<PbBundle>): (f: BundleEncodingFormat)
    ensures f == GnarkFormat <==> exists j :: 0 <= j < |bundles| && |bundles[j].bundle| > 0
  {
    if |bundles| == 0 then GobFormat
    else if |bundles[0].bundle| > 0 then GnarkFormat
    else
      var f := GetBundleEncodingFormat(bundles[1..]);
      assert f == GnarkFormat ==> exists j :: 0 <= j < |bundles| && |bundles[j].bundle| > 0 by {
        if f == GnarkFormat {
          var j :| 0 <= j < |bundles[1..]| && |bundles[1..][j].bundle| > 0;
          assert bundles[j + 1] == bundles[1..][j];
        }
      }
      f
  }

  /** Chunk `k` is the first chunk that fails to deserialise. */
  predicate FirstFailedChunk<Header, Frame>(chunks: seq<Bytes>, dec: Decoders<Header, Frame>, k: int)
  {
    && 0 <= k < |chunks|
    && dec.frame(chunks[k]).Failure?
    && forall k' :: 0 <= k' < k ==> dec.frame(chunks[k']).Success?
  }

  /** Gob format: one frame per serialised chunk, in order; the first chunk
      that fails to deserialise fails the bundle. */
  function DecodeChunks<Header, Frame>(chunks: seq<Bytes>, dec: Decoders<Header, Frame>): (r: Result<seq<Frame>, MessageError>)
    ensures r.Success? <==> forall k :: 0 <= k < |chunks| ==> dec.frame(chunks[k]).Success?
    ensures r.Success? ==>
      |r.value| == |chunks| && forall k :: 0 <= k < |chunks| ==> r.value[k] == dec.frame(chunks[k]).value
    ensures r.Failure? ==>
      exists k :: FirstFailedChunk(chunks, dec, k) && r.error == ChunkInvalid(dec.frame(chunks[k]).error)
  {
    if |chunks| == 0 then Success([])
    else
      match dec.frame(chunks[0])
      case Failure(e) =>
        assert FirstFailedChunk(chunks, dec, 0);
        Failure(ChunkInvalid(e))
      case Success(frame) =>
        var rest := DecodeChunks(chunks[1..], dec);
        if rest.Failure? then
          assert exists k :: FirstFailedChunk(chunks, dec, k) && rest.error == ChunkInvalid(dec.frame(chunks[k]).error) by {
            var k :| FirstFailedChunk(chunks[1..], dec, k) && rest.error == ChunkInvalid(dec.frame(chunks[1..][k]).error);
            assert chunks[k + 1] == chunks[1..][k];
            assert forall k' :: 1 <= k' < k + 1 ==> chunks[k'] == chunks[1..][k' - 1];
            assert FirstFailedChunk(chunks, dec, k + 1);
          }
          Failure(rest.error)
        else
          Success([frame] + rest.value)
  }

  /** The frames of one bundle under the blob's format. In Gnark format an
      empty combined bundle stands for an empty frame list (the node is not
      in that quorum); its separate chunks are ignored. */
  function DecodeBundle<Header, Frame>(format: BundleEncodingFormat, b: PbBundle, dec: Decoders<Header, Frame>): (r: Result<seq<Frame>, MessageError>)
    ensures format == GnarkFormat && |b.bundle| == 0 ==> r == Success([])
    ensures format == GnarkFormat && |b.bundle| > 0 ==>
      (r.Success? <==> dec.bundle(b.bundle).Success?) &&
      (r.Success? ==> r.value == dec.bundle(b.bundle).value) &&
      (r.Failure? ==> r.error == BundleInvalid(dec.bundle(b.bundle).error))
    ensures format == GobFormat ==> r == DecodeChunks(b.chunks, dec)
  {
    match format
    case GnarkFormat =>
      if |b.bundle| > 0 then
        match dec.bundle(b.bundle)
        case Success(frames) => Success(frames)
        case Failure(e) => Failure(BundleInvalid(e))
      else Success([])
    case GobFormat => DecodeChunks(b.chunks, dec)
  }

  /** The quorum IDs named by the quorum headers. */
  function QuorumIdSet(qhs: seq<PbQuorumHeader>): set<QuorumId>
  {
    set j | 0 <= j < |qhs| :: QuorumIdOf(qhs[j])
  }

  /** No later quorum header narrows to the same quorum ID as header `j`, so
      bundle `j` is the one the map keeps for that quorum. */
  predicate LastWithId(qhs: seq<PbQuorumHeader>, j: nat)
    requires j < |qhs|
  {
    forall j' :: j < j' < |qhs| ==> QuorumIdOf(qhs[j']) != QuorumIdOf(qhs[j])
  }

  /** Bundle `j` is the first bundle that fails to decode. */
  predicate FirstFailedBundle<Header, Frame>(
    format: BundleEncodingFormat, bs: seq<PbBundle>, dec: Decoders<Header, Frame>, j: int
  )
  {
    && 0 <= j < |bs|
    && DecodeBundle(format, bs[j], dec).Failure?
    && forall j' :: 0 <= j' < j ==> DecodeBundle(format, bs[j'], dec).Success?
  }

  /** The loop over the bundles: bundle `j` is stored under the quorum ID of
      quorum header `j`, a later header with the same ID overwriting an
      earlier one; the first bundle that fails to decode fails the blob. */
  function DecodeBundles<Header, Frame>(
    format: BundleEncodingFormat, qhs: seq<PbQuorumHeader>, bs: seq<PbBundle>,
    dec: Decoders<Header, Frame>, acc: map<QuorumId, seq<Frame>>
  ): (r: Result<map<QuorumId, seq<Frame>>, MessageError>)
    requires |qhs| == |bs|
    ensures r.Success? <==> forall j :: 0 <= j < |bs| ==> DecodeBundle(format, bs[j], dec).Success?
    ensures r.Success? ==> r.value.Keys == acc.Keys + QuorumIdSet(qhs)
    ensures r.Success? ==> forall q :: q in acc && q !in QuorumIdSet(qhs) ==> r.value[q] == acc[q]
    ensures r.Success? ==> forall j :: 0 <= j < |bs| && LastWithId(qhs, j) ==>
      r.value[QuorumIdOf(qhs[j])] == DecodeBundle(format, bs[j], dec).value
    ensures r.Failure? ==>
      exists j :: FirstFailedBundle(format, bs, dec, j) && r.error == DecodeBundle(format, bs[j], dec).error
    decreases |bs|
  {
    if |bs| == 0 then Success(acc)
    else
      var first := DecodeBundle(format, bs[0], dec);
      if first.Failure? then
        assert FirstFailedBundle(format, bs, dec, 0);
        first.PropagateFailure()
      else
        var q := QuorumIdOf(qhs[0]);
        var r := DecodeBundles(format, qhs[1..], bs[1..], dec, acc[q := first.value]);
        DecodeBundlesStep(format, qhs, bs, dec, acc, r);
        r
  }

  /** How the result for the tail relates to the whole list. */
  lemma DecodeBundlesStep<Header, Frame>(
    format: BundleEncodingFormat, qhs: seq<PbQuorumHeader>, bs: seq<PbBundle>,
    dec: Decoders<Header, Frame>, acc: map<QuorumId, seq<Frame>>,
    r: Result<map<QuorumId, seq<Frame>>, MessageError>
  )
    requires |qhs| == |bs| > 0
    requires DecodeBundle(format, bs[0], dec).Success?
    requires
      var acc' := acc[QuorumIdOf(qhs[0]) := DecodeBundle(format, bs[0], dec).value];
      && (r.Success? <==> forall j :: 0 <= j < |bs[1..]| ==> DecodeBundle(format, bs[1..][j], dec).Success?)
      && (r.Success? ==> r.value.Keys == acc'.Keys + QuorumIdSet(qhs[1..]))
      && (r.Success? ==> forall q :: q in acc' && q !in QuorumIdSet(qhs[1..]) ==> r.value[q] == acc'[q])
      && (r.Success? ==> forall j :: 0 <= j < |bs[1..]| && LastWithId(qhs[1..], j) ==>
            r.value[QuorumIdOf(qhs[1..][j])] == DecodeBundle(format, bs[1..][j], dec).value)
      && (r.Failure? ==>
            exists j :: FirstFailedBundle(format, bs[1..], dec, j) && r.error == DecodeBundle(format, bs[1..][j], dec).error)
    ensures r.Success? <==> forall j :: 0 <= j < |bs| ==> DecodeBundle(format, bs[j], dec).Success?
    ensures r.Success? ==> r.value.Keys == acc.Keys + QuorumIdSet(qhs)
    ensures r.Success? ==> forall q :: q in acc && q !in QuorumIdSet(qhs) ==> r.value[q] == acc[q]
    ensures r.Success? ==> forall j :: 0 <= j < |bs| && LastWithId(qhs, j) ==>
      r.value[QuorumIdOf(qhs[j])] == DecodeBundle(format, bs[j], dec).value
    ensures r.Failure? ==>
      exists j :: FirstFailedBundle(format, bs, dec, j) && r.error == DecodeBundle(format, bs[j], dec).error
  {
    var q := QuorumIdOf(qhs[0]);
    assert QuorumIdSet(qhs) == {q} + QuorumIdSet(qhs[1..]) by {
      forall x | x in QuorumIdSet(qhs) ensures x in {q} + QuorumIdSet(qhs[1..]) {
        var j :| 0 <= j < |qhs| && x == QuorumIdOf(qhs[j]);
        if j > 0 {
          assert qhs[j] == qhs[1..][j - 1];
        }
      }
      forall x | x in QuorumIdSet(qhs[1..]) ensures x in QuorumIdSet(qhs) {
        var j :| 0 <= j < |qhs[1..]| && x == QuorumIdOf(qhs[1..][j]);
        assert qhs[1..][j] == qhs[j + 1];
      }
    }
    if r.Success? {
      forall j | 0 <= j < |bs| ensures DecodeBundle(format, bs[j], dec).Success? {
        if j > 0 {
          assert bs[j] == bs[1..][j - 1];
        }
      }
      forall j | 0 <= j < |bs| && LastWithId(qhs, j)
        ensures r.value[QuorumIdOf(qhs[j])] == DecodeBundle(format, bs[j], dec).value
      {
        if j > 0 {
          assert qhs[j] == qhs[1..][j - 1] && bs[j] == bs[1..][j - 1];
          assert LastWithId(qhs[1..], j - 1) by {
            forall j' | j - 1 < j' < |qhs[1..]| ensures QuorumIdOf(qhs[1..][j']) != QuorumIdOf(qhs[1..][j - 1]) {
              assert qhs[1..][j'] == qhs[j' + 1];
            }
          }
        } else if |qhs| > 1 {
          forall j' | 0 <= j' < |qhs[1..]| ensures QuorumIdOf(qhs[1..][j']) != q {
            assert qhs[1..][j'] == qhs[j' + 1];
          }
          assert q !in QuorumIdSet(qhs[1..]);
        }
      }
    } else {
      var j :| FirstFailedBundle(format, bs[1..], dec, j) && r.error == DecodeBundle(format, bs[1..][j], dec).error;
      assert bs[j + 1] == bs[1..][j];
      assert forall j' :: 1 <= j' < j + 1 ==> bs[j'] == bs[1..][j' - 1];
      assert FirstFailedBundle(format, bs, dec, j + 1);
    }
  }

  /** The work done for one blob: decode the header, check that there is one
      bundle per quorum header, then decode every bundle. */
  function GetBlobMessage<Header, Frame>(blob: PbBlob, dec: Decoders<Header, Frame>): (r: Result<BlobMessage<Header, Frame>, MessageError>)
    ensures dec.header(blob.header).Failure? ==> r == Failure(HeaderInvalid(dec.header(blob.header).error))
    ensures dec.header(blob.header).Success? && |blob.bundles| != |blob.header.quorumHeaders| ==>
      r == Failure(BundleCountMismatch(|blob.header.quorumHeaders|, |blob.bundles|))
    ensures r.Success? <==>
      && dec.header(blob.header).Success?
      && |blob.bundles| == |blob.header.quorumHeaders|
      && forall j :: 0 <= j < |blob.bundles| ==>
           DecodeBundle(GetBundleEncodingFormat(blob.bundles), blob.bundles[j], dec).Success?
    ensures r.Success? ==>
      var qhs := blob.header.quorumHeaders;
      var format := GetBundleEncodingFormat(blob.bundles);
      && r.value.header == dec.header(blob.header).value
      && r.value.bundles.Keys == QuorumIdSet(qhs)
      && forall j :: 0 <= j < |qhs| && LastWithId(qhs, j) ==>
           r.value.bundles[QuorumIdOf(qhs[j])] == DecodeBundle(format, blob.bundles[j], dec).value
    ensures dec.header(blob.header).Success? && |blob.bundles| == |blob.header.quorumHeaders| && r.Failure? ==>
      var format := GetBundleEncodingFormat(blob.bundles);
      exists j :: FirstFailedBundle(format, blob.bundles, dec, j) && r.error == DecodeBundle(format, blob.bundles[j], dec).error
  {
    match dec.header(blob.header)
    case Failure(e) => Failure(HeaderInvalid(e))
    case Success(header) =>
      var qhs := blob.header.quorumHeaders;
      if |blob.bundles| != |qhs| then Failure(BundleCountMismatch(|qhs|, |blob.bundles|))
      else
        var format := GetBundleEncodingFormat(blob.bundles);
        var bundles :- DecodeBundles(format, qhs, blob.bundles, dec, map[]);
        Success(BlobMessage(header, bundles))
  }

  /** `GetBlobMessages`: every blob is converted; if any conversion fails,
      the whole call fails with one of the failures and returns no messages.
      Otherwise message `i` is the conversion of blob `i`. */
  method GetBlobMessages<Header, Frame>(blobs: seq<PbBlob>, dec: Decoders<Header, Frame>)
    returns (r: Result<seq<BlobMessage<Header, Frame>>, MessageError>)
    ensures r.Success? <==> forall i :: 0 <= i < |blobs| ==> GetBlobMessage(blobs[i], dec).Success?
    ensures r.Success? ==>
      |r.value| == |blobs| && forall i :: 0 <= i < |blobs| ==> r.value[i] == GetBlobMessage(blobs[i], dec).value
    ensures r.Failure? ==>
      exists i :: 0 <= i < |blobs| && GetBlobMessage(blobs[i], dec).Failure? && r.error == GetBlobMessage(blobs[i], dec).error
  {
    // The submitted tasks, run one after the other; each reports its outcome.
    var outcomes: seq<Result<BlobMessage<Header, Frame>, MessageError>> := [];
    var i := 0;
    while i < |blobs|
      invariant i <= |blobs| && |outcomes| == i
      invariant forall k :: 0 <= k < i ==> outcomes[k] == GetBlobMessage(blobs[k], dec)
    {
      outcomes := outcomes + [GetBlobMessage(blobs[i], dec)];
      i := i + 1;
    }
    r := CollectOutcomes(outcomes);
  }

  /** Draining the outcome channel: the first failure is returned, and only
      when every task succeeded are the results returned, in task order. */
  method CollectOutcomes<T, E>(outcomes: seq<Result<T, E>>) returns (r: Result<seq<T>, E>)
    ensures r.Success? <==> forall i :: 0 <= i < |outcomes| ==> outcomes[i].Success?
    ensures r.Success? ==>
      |r.value| == |outcomes| && forall i :: 0 <= i < |outcomes| ==> r.value[i] == outcomes[i].value
    ensures r.Failure? ==> exists i :: 0 <= i < |outcomes| && outcomes[i].Failure? && r.error == outcomes[i].error
  {
    var values: seq<T> := [];
    var i := 0;
    while i < |outcomes|
      invariant i <= |outcomes| && |values| == i
      invariant forall k :: 0 <= k < i ==> outcomes[k].Success? && values[k] == outcomes[k].value
    {
      if outcomes[i].Failure? {
        return Failure(outcomes[i].error);
      }
      values := values + [outcomes[i].value];
      i := i + 1;
    }
    return Success(values);
  }
}

/** Multiproof generation of the v2 KZG prover for one encoding
    configuration (encoding/v2/kzg/prover/parametrized_prover.go,
    `ParametrizedProver.GetProofs`). The coefficient vector is zero-padded to
    the next power of two and handed to a multiproof backend together with the
    prover's chunk parameters. The backend's cryptography is not modelled: it
    is a parameter of `GetProofs`. */
module ParametrizedProver {
  import opened Wrappers

  /** A BN254 scalar-field element, by its canonical value. */
  datatype Fr = Fr(canonical: nat)

  /** The zero value Go gives to a fresh `fr.Element`. */
  const FrZero: Fr := Fr(0)

  datatype EncodingParams = EncodingParams(numChunks: nat, chunkLength: nat)

  datatype Prover = Prover(
    srsNumberToLoad: nat,
    encodingParams: EncodingParams,
    computeMultiproofNumWorker: nat
  )

  /** The arguments of one `ComputeMultiFrameProofV2` call. */
  datatype BackendRequest = BackendRequest(
    paddedCoeffs: seq<Fr>,
    numChunks: nat,
    chunkLength: nat,
    numWorkers: nat
  )

  datatype ProofError = ComputeMultiFrameProofFailed(cause: string)

  predicate IsPowerOfTwo(n: nat)
  {
    n == 1 || (n > 1 && n % 2 == 0 && IsPowerOfTwo(n / 2))
  }

  /** Of two powers of two, the smaller one is at most half the larger. */
  lemma {:induction false} PowerOfTwoGap(q: nat, p: nat)
    requires IsPowerOfTwo(q) && IsPowerOfTwo(p) && q < p
    ensures q <= p / 2
  {
    if q > 1 {
      PowerOfTwoGap(q / 2, p / 2);
    }
  }

  /** The smallest power of two that is >= n (1 for n = 0). */
  function NextPowerOfTwo(n: nat): (p: nat)
    ensures IsPowerOfTwo(p) && n <= p
    ensures p == 1 || p / 2 < n
  {
    NextPowerOfTwoFrom(n, 1)
  }

  /** Doubling search starting from a power of two below the answer. */
  function NextPowerOfTwoFrom(n: nat, p: nat): (r: nat)
    requires IsPowerOfTwo(p) && (p == 1 || p / 2 < n)
    ensures IsPowerOfTwo(r) && n <= r
    ensures r == 1 || r / 2 < n
    decreases n - p
  {
    if p >= n then p
    else
      assert IsPowerOfTwo(2 * p) by { assert (2 * p) / 2 == p; }
      NextPowerOfTwoFrom(n, 2 * p)
  }

  /** No power of two between n and `NextPowerOfTwo(n)` is smaller. */
  lemma NextPowerOfTwoIsLeast(n: nat, q: nat)
    requires IsPowerOfTwo(q) && n <= q
    ensures NextPowerOfTwo(n) <= q
  {
    var p := NextPowerOfTwo(n);
    if q < p {
      PowerOfTwoGap(q, p);
    }
  }

  /** A length that already is a power of two is kept. */
  lemma NextPowerOfTwoFixesPowers(n: nat)
    requires IsPowerOfTwo(n)
    ensures NextPowerOfTwo(n) == n
  {
    NextPowerOfTwoIsLeast(n, n);
  }

  /** The input followed by zeros up to the next power of two. */
  function PadCoefficients(input: seq<Fr>): (padded: seq<Fr>)
    ensures |padded| == NextPowerOfTwo(|input|)
    ensures padded[..|input|] == input
    ensures forall i :: |input| <= i < |padded| ==> padded[i] == FrZero
  {
    input + seq(NextPowerOfTwo(|input|) - |input|, _ => FrZero)
  }

  /** The call `GetProofs` makes to the backend. */
  function Request(prover: Prover, input: seq<Fr>): (req: BackendRequest)
    ensures |req.paddedCoeffs| == NextPowerOfTwo(|input|)
    ensures req.paddedCoeffs[..|input|] == input
    ensures forall i :: |input| <= i < |req.paddedCoeffs| ==> req.paddedCoeffs[i] == FrZero
    ensures req.numChunks == prover.encodingParams.numChunks
    ensures req.chunkLength == prover.encodingParams.chunkLength
    ensures req.numWorkers == prover.computeMultiproofNumWorker
  {
    BackendRequest(PadCoefficients(input), prover.encodingParams.numChunks,
                   prover.encodingParams.chunkLength, prover.computeMultiproofNumWorker)
  }

  /** `GetProofs`: the backend's proofs are returned unchanged; a backend
      error is wrapped and no proofs are returned. */
  function GetProofs<Proof>(
    prover: Prover, input: seq<Fr>, backend: BackendRequest -> Result<seq<Proof>, string>
  ): (r: Result<seq<Proof>, ProofError>)
    ensures r.Success? <==> backend(Request(prover, input)).Success?
    ensures r.Success? ==> r.value == backend(Request(prover, input)).value
    ensures r.Failure? ==> r.error == ComputeMultiFrameProofFailed(backend(Request(prover, input)).error)
  {
    match backend(Request(prover, input))
    case Success(proofs) => Success(proofs)
    case Failure(e) => Failure(ComputeMultiFrameProofFailed(e))
  }

  /** Padding a vector that is already padded changes nothing. */
  lemma PaddingIsIdempotent(input: seq<Fr>)
    ensures PadCoefficients(PadCoefficients(input)) == PadCoefficients(input)
  {
    var padded := PadCoefficients(input);
    NextPowerOfTwoFixesPowers(|padded|);
    assert PadCoefficients(padded)[..|padded|] == padded;
  }
}

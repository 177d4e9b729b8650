# EigenDA dispersal: decision rules around the v2 pipeline

This project is a Dafny model of the small, pure decision rules around the EigenDA v2
dispersal pipeline. It covers:

- the blob lifecycle status and its protobuf and display conversions;
- validation of the node plugin's configuration (quorum-ID list, operation name);
- validation of the disperser controller's configuration (relay assignment, relay keys, KMS key);
- how a node turns received protobuf blobs into per-quorum bundles of frames;
- how the v2 KZG prover pads coefficients before calling its multiproof backend;
- the data API's availability aggregation, error-to-HTTP mapping and query-parameter checks.

Everything is a total function or a short method over immutable datatypes. The deserialisers
and the multiproof backend are function-typed parameters, so their behaviour is uninterpreted.

Files, one module each:

- `wrappers.dfy` (`Wrappers`): `Option` and `Result`.
- `go_strings.dfy` (`GoStrings`): `strings.Split` with a one-character separator, its inverse
  `Join`, and `strings.Contains`.
- `go_strconv.dfy` (`GoStrconv`): `strconv.Atoi` on a 64-bit platform and
  `strconv.ParseInt(s, 10, 32)`. The accepted syntax is an optional sign, then one or more ASCII
  digits, then a range check. `FormatInt` is the canonical printer used as their inverse.
- `blob_status.dfy` (`BlobStatusCodec`): `disperser/common/v2/blob.go`.
- `plugin_config.dfy` (`PluginConfig`): `node/plugin/config.go`.
- `controller_config.dfy` (`ControllerConfig`): `disperser/cmd/controller/config.go`.
- `blob_messages.dfy` (`NodeBlobMessages`): `node/utils.go`.
- `parametrized_prover.dfy` (`ParametrizedProver`): `encoding/v2/kzg/prover/parametrized_prover.go`.
- `dataapi.dfy` (`DataApi`): `disperser/dataapi/server.go`.

Integer widths are written out explicitly where the code converts between them:

- `core.QuorumID(int)` keeps the value mod 256.
- `uint8(uint32)` keeps the value mod 256.
- `uint16(...)` keeps the value mod 2^16.
- `int32(int)` keeps the low 32 bits, read as two's complement.

Two points of scope:

- From `disperser/common/v2/blob.go`, only the five-valued status enum, its conversions and the
  `BlobMetadata` record shape are modelled. The file defines no transitions between statuses.
- `ComputeMultiFrameProofV2` also receives the prover's worker count
  (`encoding/v2/kzg/prover/parametrized_prover.go:34-35`), and the model passes it on.

## Model

| member | source | states |
|---|---|---|
| BlobStatusCodec.Name | disperser/common/v2/blob.go:22-37 | The display name is "Unknown" exactly for values outside the five defined statuses. |
| BlobStatusCodec.NamesDistinct | disperser/common/v2/blob.go:22-37 | The five defined statuses have pairwise distinct display names. |
| BlobStatusCodec.ToProtobuf | disperser/common/v2/blob.go:39-54 | The wire value is UNKNOWN exactly when the status is not one of the five. It is never an unlisted wire value. |
| BlobStatusCodec.FromProtobuf | disperser/common/v2/blob.go:56-71 | Decoding fails exactly on UNKNOWN and on unlisted wire values, and reports the offending value. On success the status is defined and encodes back to the same wire value. |
| BlobStatusCodec.RoundTrip | disperser/common/v2/blob.go:39-71 | Decoding the encoding of any defined status gives that status back. |
| BlobStatusCodec.ToProtobufInjective | disperser/common/v2/blob.go:41-51 | Two defined statuses with the same wire value are equal. |
| BlobStatusCodec.LifecycleOrdinals | disperser/common/v2/blob.go:14-20 | The statuses Queued, Encoded, GatheringSignatures, Complete and Failed are 0..4 in that order. |
| GoStrings.Split | node/plugin/config.go:170 | There is one piece per separator plus one, and no piece contains the separator. |
| GoStrings.JoinSplit | node/plugin/config.go:170 | Joining the pieces of a split with the separator gives back the original text. |
| GoStrings.SplitJoin | node/plugin/config.go:170 | Splitting a join of one or more separator-free pieces gives back exactly those pieces. |
| GoStrconv.Atoi | node/plugin/config.go:173 | A text parses exactly when it is an optionally signed digit string whose value fits in 64 bits. The result is that value. |
| GoStrconv.ParseInt32 | disperser/dataapi/server.go:893-911 | A text parses exactly when it is an optionally signed digit string whose value fits in 32 bits. The result is that value. |
| GoStrconv.AtoiFormatInt | node/plugin/config.go:173 | Every 64-bit integer's canonical decimal text parses back to that integer. |
| GoStrconv.AtoiRejectsSpace | node/plugin/config.go:173-176 | No text containing a space parses. |
| PluginConfig.ToQuorumId | node/plugin/config.go:177 | The quorum ID agrees with the parsed int modulo 256. Values in 0..255 are kept. |
| PluginConfig.ParseQuorumIds | node/plugin/config.go:171-178 | The list succeeds exactly when every piece parses. It then has one ID per piece, in order, each being that piece's value narrowed to 8 bits. A failure names an unparsable piece that is preceded only by parsable pieces. |
| PluginConfig.NewConfig | node/plugin/config.go:169-211 | Success requires that every comma-separated piece parses and that the operation is one of the four supported operations (lines 14-19). A quorum-list error names the first unparsable piece. Quorum-list errors are reported before an empty operation, which is reported before an unsupported one. On success the ID list is non-empty, has one entry per piece, and every flag, operation included, is copied unchanged. |
| PluginConfig.NoQuorumIdsUnreachable | node/plugin/config.go:179-181 | The "no quorum ids provided" error is never returned. |
| PluginConfig.EmptyQuorumListRejected | node/plugin/config.go:170-176 | An empty quorum-ID flag is rejected because its single empty piece does not parse. |
| PluginConfig.SpacedListRejected | node/plugin/config.go:170-176 | A quorum-ID list that contains a space, such as "0, 1", is rejected with a quorum-ID error. |
| PluginConfig.NewConfigReadsFormattedIds | node/plugin/config.go:170-178 | Any non-empty list of quorum IDs, written as comma-separated canonical decimals, is read back exactly. |
| PluginConfig.QuorumIdsWrap | node/plugin/config.go:177 | "256,-1" is accepted as the quorums [0, 255]. |
| ControllerConfig.Narrow | disperser/cmd/controller/config.go:65 | The narrowed value lies below the modulus and is congruent to the input modulo it, so it equals the input whenever the input is already in 0..modulus-1. `uint16(numRelayAssignments)` at line 79 is the same conversion. |
| ControllerConfig.ConvertRelays | disperser/cmd/controller/config.go:60-66 | The relays are accepted exactly when all lie in 0..65535. The keys then keep the same length, order and values. A failure names the first out-of-range relay. |
| ControllerConfig.NewConfig | disperser/cmd/controller/config.go:46-115 | Success requires a readable logger config, an assignment count in 1..65535, a non-empty relay list whose relays are all in range, and either signing disabled or a KMS key. Errors are reported in that order, and an out-of-range relay is reported as the first such relay. On success the count and relays are stored without truncation. |
| ControllerConfig.SigningNeedsKmsKey | disperser/cmd/controller/config.go:110-112 | With signing enabled and an empty KMS key ID, the configuration is always rejected. |
| ControllerConfig.RelayAssignmentNotTruncated | disperser/cmd/controller/config.go:52-79 | An accepted assignment count survives the uint16 conversion unchanged. |
| NodeBlobMessages.GetBundleEncodingFormat | node/utils.go:134-147 | The format is Gnark exactly when some bundle has non-empty combined bytes. Otherwise it is Gob, including when there are no bundles. |
| NodeBlobMessages.DecodeChunks | node/utils.go:54-63 | The chunks decode exactly when each one does. The result then has one frame per chunk, in order. Otherwise the error comes from the first chunk that failed. |
| NodeBlobMessages.DecodeBundle | node/utils.go:42-63 | In Gnark format an empty combined bundle gives an empty frame list, and a non-empty one gives the bundle deserialiser's result. In Gob format the chunks are decoded one by one. |
| NodeBlobMessages.DecodeBundles | node/utils.go:39-68 | The map is built exactly when every bundle decodes. Its keys are the 8-bit IDs of the quorum headers. The bundle under the last header carrying an ID is the decoded bundle at that position. Otherwise the error comes from the first bundle that failed. |
| NodeBlobMessages.GetBlobMessage | node/utils.go:28-73 | Header errors come first, then a bundle-count mismatch, then the error of the first bundle that fails. On success the message carries the decoded header. Its bundle map has one key per distinct 8-bit quorum ID, holding the decoded bundle of the last header with that ID. |
| NodeBlobMessages.GetBlobMessages | node/utils.go:20-86 | The call succeeds exactly when every blob converts. It then returns one message per blob, and message i is the conversion of blob i. Otherwise it returns the error of a failing blob and no messages. |
| NodeBlobMessages.CollectOutcomes | node/utils.go:78-85 | Draining the outcomes gives an error from a failed task if any task failed. Otherwise it gives every result, in task order. |
| ParametrizedProver.NextPowerOfTwo | encoding/v2/kzg/prover/parametrized_prover.go:29 | The padded length is a power of two, at least the input length, and its half is below the input length. |
| ParametrizedProver.NextPowerOfTwoIsLeast | encoding/v2/kzg/prover/parametrized_prover.go:29 | No smaller power of two is at least the input length. |
| ParametrizedProver.NextPowerOfTwoFixesPowers | encoding/v2/kzg/prover/parametrized_prover.go:29-30 | A length that is already a power of two is kept. |
| ParametrizedProver.PadCoefficients | encoding/v2/kzg/prover/parametrized_prover.go:29-32 | The padded vector has the next-power-of-two length, begins with the input, and is zero past the input. |
| ParametrizedProver.Request | encoding/v2/kzg/prover/parametrized_prover.go:29-35 | The backend receives the input padded with zeros to exactly the next power of two of its length, together with the prover's configured NumChunks, ChunkLength and worker count. |
| ParametrizedProver.GetProofs | encoding/v2/kzg/prover/parametrized_prover.go:27-40 | The call succeeds exactly when the backend does, and then returns the backend's proofs unchanged. A backend error is wrapped and no proofs are returned. |
| ParametrizedProver.PaddingIsIdempotent | encoding/v2/kzg/prover/parametrized_prover.go:29-32 | Padding an already padded vector changes nothing. |
| DataApi.ErrorResponseCode | disperser/dataapi/server.go:1154-1166 | The code is 404 exactly when the error wraps the errNotFound sentinel. Every other error gets 500. |
| DataApi.NotFoundMentioned | disperser/dataapi/server.go:57 | Every error wrapping the sentinel has "not found" in its text. |
| DataApi.PortCheckErrorCode | disperser/dataapi/server.go:950-961 | The port check's error code is always 404 or 500. |
| DataApi.PortCheckNotFoundIffMessage | disperser/dataapi/server.go:951-960 | The port check answers 404 exactly when the probe error's text contains "not found". |
| DataApi.MessageOnlyNotFound | disperser/dataapi/server.go:952-960 | A plain "not found" error gets 500 from errorResponse alone, but 404 from the port check. |
| DataApi.AvailabilityCode | disperser/dataapi/server.go:1022-1035 | The code is 200 exactly when no entry is NOT_SERVING or UNKNOWN. Otherwise the first such entry decides: 503 for NOT_SERVING, 500 for UNKNOWN. The churner (1076-1089) and batcher (1130-1143) handlers repeat the same loop. |
| DataApi.AvailabilityHandlerCode | disperser/dataapi/server.go:1013-1038 | A failed health query gets the errorResponse code. Otherwise the availability rule applies. |
| DataApi.BatchFeedLimit | disperser/dataapi/server.go:438-448 | The limit (default 10) is accepted exactly when it parses and lies in 1..1000. Rejections never count as not-found. |
| DataApi.FeedLimit | disperser/dataapi/server.go:536-546 | The limit (default 10) is accepted exactly when it parses and is at least 1. There is no upper bound. |
| DataApi.FeedLimitDefaults | disperser/dataapi/server.go:438 | Without a limit parameter, both feeds use 10. |
| DataApi.BatchFeedLimitStricter | disperser/dataapi/server.go:444 | A limit the batch feed accepts is accepted with the same value by the plain feed. |
| DataApi.BatchFeedLimitRejection | disperser/dataapi/server.go:438-447 | As written, every rejected limit is answered with 500. |
| DataApi.ZeroLimitAnswered500 | disperser/dataapi/server.go:444-447 | limit=0 is answered with 500. |
| DataApi.BatchFeedLimitRejectionCorrected | disperser/dataapi/server.go:417-421 | Every rejected limit is answered with 400, as the handler's annotations document. |
| DataApi.ToInt32 | disperser/dataapi/server.go:803 | The result is an int32 congruent to the input modulo 2^32, and equal to the input when it fits. |
| DataApi.OperatorsDays | disperser/dataapi/server.go:789-803 | As written, days (default 14) is accepted exactly when it parses and is at most 30. The value queried is its int32 narrowing. Rejections are 400. FetchRegisteredOperators (839-853) applies the same rule. |
| DataApi.OperatorsDaysNarrows | disperser/dataapi/server.go:792-803 | Every 64-bit day count up to 30 is accepted, and the query gets its int32 narrowing. |
| DataApi.OperatorsDaysAcceptsNegative | disperser/dataapi/server.go:798-803 | days=-1 is accepted and queries -1 days. |
| DataApi.OperatorsDaysWraps | disperser/dataapi/server.go:798-803 | Every day count from -6442450944 to -2147483649 is accepted and queries that count plus 2^32. For example, -4294967295 queries 1 day. |
| DataApi.OperatorsDaysCorrected | disperser/dataapi/server.go:893-898 | With a 32-bit parse, the day count queried equals the day count requested and is at most 30. The rule agrees with the as-written one whenever the request fits in int32. |
| DataApi.OperatorEjectionsQuery | disperser/dataapi/server.go:890-916 | The query succeeds exactly when days is an int32 (default 1), first is in 1..10000 (default 1000) and skip is in 0..1000000000 (default 0). The parsed values are used. days is checked before first, and every rejection is 400. |
| DataApi.OperatorEjectionsDefaults | disperser/dataapi/server.go:892-914 | With no parameters the query is days 1, first 1000, skip 0. |

## Findings

| source | as written | input that shows it | evidently intended | confidence | as-written member | corrected member |
|---|---|---|---|---|---|---|
| disperser/dataapi/server.go:438-447 | An unparsable or out-of-range `limit` is passed to `errorResponse`, which answers 500 Internal Server Error. | `limit=0` on `/feed/batches/{hash}/blobs` | 400 Bad Request. The handler's API annotations list 400 for bad requests (line 420), and sibling handlers answer invalid parameters with 400. | medium, not executed | DataApi.BatchFeedLimitRejection (shown by DataApi.ZeroLimitAnswered500) | DataApi.BatchFeedLimitRejectionCorrected |
| disperser/dataapi/server.go:792-803 | `days` is parsed as a 64-bit int, checked only for `> 30`, then narrowed with `int32(...)`. | `days=-4294967295` passes the check and queries 1 day | Parse with 32 bits, as `FetchOperatorEjections` does at line 893, so that the queried value is the requested value. | medium, not executed | DataApi.OperatorsDays (shown by DataApi.OperatorsDaysWraps) | DataApi.OperatorsDaysCorrected |

## Left out

- HTTP routing, CORS, cache headers, server start and shutdown, signal handling, metrics and
  logging are I/O plumbing.
- Next-page token encoding and decoding depend on the base64 and JSON libraries, which are not
  part of this model.
- `ValidatePointsFromBlobHeader`, the ECDSA signer and the KZG multiproof backend are
  elliptic-curve cryptography from foreign libraries. The backend and the deserialisers are
  function parameters.
- The worker pool and result channel of `GetBlobMessages` are modelled as a sequential pass, so
  `numWorkers` is not a parameter.
- NodeBlobMessages.GetBlobMessages: promises only that the error is one of the failing blobs'
  errors, because under the pool the reported error is whichever failure is read first.
- The unreachable "invalid bundle encoding format" branch of `GetBlobMessages` is left out,
  because the format has only two values.
- ParametrizedProver.NextPowerOfTwo: models the smallest power of two that is at least the
  length, with 1 for length 0. `NextPowOf2u32` and the `uint32` conversion of the length are in
  common/math, which is not part of this model, so lengths of 2^31 or more are not modelled.
- BlobStatusCodec.FromProtobuf: the placeholder status 0 that accompanies the Go error is not
  returned. The numeric values of the protobuf enum come from generated code that is not part of
  this model.
- `BlobMetadata` is modelled as a record shape only. No operation in the modelled code changes
  it.
- The plugin and controller flags are read through the CLI library. The model starts from the
  values read. Only the controller fields that take part in validation are modelled.
- The time-defaulted `start` and `end` parameters of the metrics handlers depend on the wall
  clock.
- Stake-proportional chunk assignment (`GetAssignmentsForBlob`), shard validation
  (`NewShardValidator`, `ValidateBlobs`) and signature aggregation (`NewStdSignatureAggregator`)
  appear only as calls in `core/v2/core_test.go`. Their implementations are not part of this
  model.
- The encoding manager and the dispatcher appear only as the configuration structs that the
  controller's `NewConfig` fills in (`disperser/cmd/controller/config.go:20-21`, 74, 85). Their
  behaviour is not part of this model.
- DataApi.NotFoundMentioned: errors are modelled only as the `errNotFound` sentinel, plain
  messages and `fmt.Errorf` `%w` wraps behind a text prefix. A Go error type with its own
  `Unwrap`, `Is` or `Error` methods could match the sentinel under `errors.Is` without "not
  found" in its text, and is not covered.
- DataApi.PortCheckNotFoundIffMessage: holds only for the error shapes listed above. A custom
  error type that matches the sentinel but whose text lacks "not found" would still get 404 from
  the port check.

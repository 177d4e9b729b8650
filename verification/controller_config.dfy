/** Validation performed by the disperser controller's `NewConfig`
    (disperser/cmd/controller/config.go): the number of relay assignments and
    every available relay key must fit in 16 bits, at least one relay must be
    given, and store-chunks signing needs a KMS key. Flags that are copied
    without any check are not part of the model. */
module ControllerConfig {
  import opened Wrappers

  /** `^uint16(0)`. */
  const MaxUint16: nat := 0xFFFF

  const TwoTo16: nat := 0x1_0000
  const TwoTo32: nat := 0x1_0000_0000

  /** `corev2.RelayKey`, a 32-bit unsigned integer. */
  type RelayKey = x: nat | x < TwoTo32

  /** The flag values that take part in validation. `loggerConfigOk` stands
      for the result of reading the logger configuration, which happens first
      and can fail on its own. */
  datatype Flags = Flags(
    loggerConfigOk: bool,
    numRelayAssignments: int,
    availableRelays: seq<int>,
    storeChunksSigningDisabled: bool,
    kmsKeyId: string
  )

  datatype Config = Config(
    numRelayAssignment: nat,      // uint16
    availableRelays: seq<RelayKey>,
    storeChunksSigningDisabled: bool,
    kmsKeyId: string
  )

  datatype ConfigError =
    | LoggerConfigError
    | InvalidNumRelayAssignments(n: int)
    | NoAvailableRelays
    | InvalidRelay(relay: int)
    | KmsKeyRequired

  /** Go's `uint16(x)` / `uint32(x)` of an `int`: the low bits, no check. */
  function Narrow(x: int, modulus: nat): (r: nat)
    requires modulus > 0
    ensures r < modulus
    ensures x == modulus * (x / modulus) + r
    ensures 0 <= x < modulus ==> r == x
  {
    x % modulus
  }

  predicate RelayInRange(relay: int)
  {
    0 <= relay <= 65_535
  }

  /** Relay `i` is the first one outside the 16-bit range. */
  predicate FirstBadRelay(relays: seq<int>, i: int)
  {
    && 0 <= i < |relays|
    && !RelayInRange(relays[i])
    && forall k :: 0 <= k < i ==> RelayInRange(relays[k])
  }

  /** The loop over the relays: the first out-of-range relay is reported,
      otherwise every relay is converted to a key in the same position. */
  function ConvertRelays(relays: seq<int>): (r: Result<seq<RelayKey>, ConfigError>)
    ensures r.Success? <==> forall i :: 0 <= i < |relays| ==> RelayInRange(relays[i])
    ensures r.Success? ==> |r.value| == |relays| && forall i :: 0 <= i < |relays| ==> r.value[i] == relays[i]
    ensures r.Failure? ==> exists i :: FirstBadRelay(relays, i) && r.error == InvalidRelay(relays[i])
  {
    if |relays| == 0 then Success([])
    else if !RelayInRange(relays[0]) then Failure(InvalidRelay(relays[0]))
    else
      var rest := ConvertRelays(relays[1..]);
      if rest.Failure? then
        var i :| FirstBadRelay(relays[1..], i) && rest.error == InvalidRelay(relays[1..][i]);
        assert relays[i + 1] == relays[1..][i];
        assert forall k :: 1 <= k < i + 1 ==> relays[k] == relays[1..][k - 1];
        assert FirstBadRelay(relays, i + 1);
        Failure(rest.error)
      else
        Success([Narrow(relays[0], TwoTo32) as RelayKey] + rest.value)
  }

  /** `NewConfig`, reduced to its checks, in the order the source makes them. */
  function NewConfig(f: Flags): (r: Result<Config, ConfigError>)
    ensures r.Success? <==>
      && f.loggerConfigOk
      && 1 <= f.numRelayAssignments <= MaxUint16
      && |f.availableRelays| > 0
      && (forall i :: 0 <= i < |f.availableRelays| ==> RelayInRange(f.availableRelays[i]))
      && (f.storeChunksSigningDisabled || f.kmsKeyId != "")
    ensures r.Success? ==>
      && r.value.numRelayAssignment == f.numRelayAssignments
      && r.value.availableRelays == f.availableRelays
      && r.value.storeChunksSigningDisabled == f.storeChunksSigningDisabled
      && r.value.kmsKeyId == f.kmsKeyId
    // Reporting order: logger, relay-assignment count, empty relay list,
    // first bad relay, KMS key.
    ensures !f.loggerConfigOk ==> r == Failure(LoggerConfigError)
    ensures f.loggerConfigOk && !(1 <= f.numRelayAssignments <= MaxUint16) ==>
      r == Failure(InvalidNumRelayAssignments(f.numRelayAssignments))
    ensures f.loggerConfigOk && 1 <= f.numRelayAssignments <= MaxUint16 && |f.availableRelays| == 0 ==>
      r == Failure(NoAvailableRelays)
    ensures
      (&& f.loggerConfigOk
       && 1 <= f.numRelayAssignments <= MaxUint16
       && |f.availableRelays| > 0
       && exists i :: 0 <= i < |f.availableRelays| && !RelayInRange(f.availableRelays[i]))
      ==> exists i :: FirstBadRelay(f.availableRelays, i) && r == Failure(InvalidRelay(f.availableRelays[i]))
    ensures r.Failure? && r.error.InvalidRelay? ==> r.error.relay in f.availableRelays && !RelayInRange(r.error.relay)
    ensures r == Failure(KmsKeyRequired) <==>
      && f.loggerConfigOk
      && 1 <= f.numRelayAssignments <= MaxUint16
      && |f.availableRelays| > 0
      && (forall i :: 0 <= i < |f.availableRelays| ==> RelayInRange(f.availableRelays[i]))
      && !f.storeChunksSigningDisabled && f.kmsKeyId == ""
  {
    if !f.loggerConfigOk then Failure(LoggerConfigError)
    else if f.numRelayAssignments < 1 || f.numRelayAssignments > MaxUint16 then
      Failure(InvalidNumRelayAssignments(f.numRelayAssignments))
    else if |f.availableRelays| == 0 then Failure(NoAvailableRelays)
    else
      var relays :- ConvertRelays(f.availableRelays);
      var config := Config(Narrow(f.numRelayAssignments, TwoTo16), relays,
                           f.storeChunksSigningDisabled, f.kmsKeyId);
      if !config.storeChunksSigningDisabled && config.kmsKeyId == "" then Failure(KmsKeyRequired)
      else Success(config)
  }

  /** Signing enabled without a KMS key is always rejected, whatever else is
      set. */
  lemma SigningNeedsKmsKey(f: Flags)
    requires !f.storeChunksSigningDisabled && f.kmsKeyId == ""
    ensures NewConfig(f).Failure?
  {
  }

  /** The 16-bit narrowing of the assignment count never changes an
      accepted value: the range check comes first. */
  lemma RelayAssignmentNotTruncated(f: Flags)
    requires NewConfig(f).Success?
    ensures NewConfig(f).value.numRelayAssignment == f.numRelayAssignments
    ensures NewConfig(f).value.numRelayAssignment < TwoTo16
  {
  }
}

/** Validation of the node plugin's command-line configuration
    (node/plugin/config.go, `NewConfig`): the comma-separated quorum-ID list
    is parsed into 8-bit quorum IDs and the operation name is checked against
    the four supported operations. The remaining flags are copied unchecked. */
module PluginConfig {
  import opened Wrappers
  import GoStrings
  import GoStrconv

  const OperationOptIn: string := "opt-in"
  const OperationOptOut: string := "opt-out"
  const OperationUpdateSocket: string := "update-socket"
  const OperationListQuorums: string := "list-quorums"

  const SupportedOperations: set<string> :=
    {OperationOptIn, OperationOptOut, OperationUpdateSocket, OperationListQuorums}

  /** `core.QuorumID` is a `uint8`. */
  type QuorumId = x: nat | x < 256

  /** The raw flag values as read from the command line. */
  datatype Flags = Flags(
    pubIPProvider: string,
    operation: string,
    ecdsaKeyFile: string,
    blsKeyFile: string,
    ecdsaKeyPassword: string,
    blsKeyPassword: string,
    blsRemoteSignerUrl: string,
    blsPublicKeyHex: string,
    blsSignerCertFile: string,
    socket: string,
    quorumIdList: string,
    chainRpcUrl: string,
    eigenDADirectory: string,
    blsOperatorStateRetrieverAddr: string,
    eigenDAServiceManagerAddr: string,
    churnerUrl: string,
    numConfirmations: int,
    blsSignerApiKey: string
  )

  /** The validated configuration. */
  datatype Config = Config(
    pubIPProvider: string,
    operation: string,
    ecdsaKeyFile: string,
    blsKeyFile: string,
    ecdsaKeyPassword: string,
    blsKeyPassword: string,
    blsRemoteSignerUrl: string,
    blsPublicKeyHex: string,
    blsSignerCertFile: string,
    socket: string,
    quorumIdList: seq<QuorumId>,
    chainRpcUrl: string,
    eigenDADirectory: string,
    blsOperatorStateRetrieverAddr: string,
    eigenDAServiceManagerAddr: string,
    churnerUrl: string,
    numConfirmations: int,
    blsSignerApiKey: string
  )

  datatype ConfigError =
    | InvalidQuorumId(piece: string)
    | NoQuorumIds
    | OperationNotProvided
    | UnsupportedOperation(operation: string)

  /** Go's conversion `core.QuorumID(val)` of an `int`: the low 8 bits, with
      no range check (two's complement, so -1 becomes 255). */
  function ToQuorumId(v: int): (q: QuorumId)
    ensures 0 <= v < 256 ==> q == v
    ensures (q - v) % 256 == 0
  {
    v % 256
  }

  /** The pieces of the quorum-ID flag, split on every comma. */
  function QuorumIdPieces(list: string): seq<string>
  {
    GoStrings.Split(list, ',')
  }

  /** Every piece is a decimal integer `strconv.Atoi` accepts. */
  predicate AllPiecesParse(pieces: seq<string>)
  {
    forall i :: 0 <= i < |pieces| ==> GoStrconv.Atoi(pieces[i]).Some?
  }

  /** The loop over the pieces: the first piece that fails to parse fails the
      whole list, otherwise there is one narrowed ID per piece, in order. */
  function ParseQuorumIds(pieces: seq<string>): (r: Result<seq<QuorumId>, ConfigError>)
    ensures r.Success? <==> AllPiecesParse(pieces)
    ensures r.Success? ==>
      |r.value| == |pieces| &&
      forall i :: 0 <= i < |pieces| ==> r.value[i] == ToQuorumId(GoStrconv.Atoi(pieces[i]).value)
    ensures r.Failure? ==>
      exists i :: (0 <= i < |pieces| && r.error == InvalidQuorumId(pieces[i]) &&
                   GoStrconv.Atoi(pieces[i]).None? && AllPiecesParse(pieces[..i]))
  {
    if |pieces| == 0 then Success([])
    else
      match GoStrconv.Atoi(pieces[0])
      case None =>
        assert pieces[..0] == [];
        Failure(InvalidQuorumId(pieces[0]))
      case Some(v) =>
        var rest := ParseQuorumIds(pieces[1..]);
        if rest.Failure? then
          ShiftFailure(pieces, rest.error);
          Failure(rest.error)
        else
          Success([ToQuorumId(v)] + rest.value)
  }

  /** A failure found in the tail is a failure of the whole list. */
  lemma ShiftFailure(pieces: seq<string>, e: ConfigError)
    requires |pieces| > 0 && GoStrconv.Atoi(pieces[0]).Some?
    requires exists i :: (0 <= i < |pieces| - 1 && e == InvalidQuorumId(pieces[1..][i]) &&
                          GoStrconv.Atoi(pieces[1..][i]).None? && AllPiecesParse(pieces[1..][..i]))
    ensures exists i :: (0 <= i < |pieces| && e == InvalidQuorumId(pieces[i]) &&
                         GoStrconv.Atoi(pieces[i]).None? && AllPiecesParse(pieces[..i]))
  {
    var i :| 0 <= i < |pieces| - 1 && e == InvalidQuorumId(pieces[1..][i]) &&
      GoStrconv.Atoi(pieces[1..][i]).None? && AllPiecesParse(pieces[1..][..i]);
    assert pieces[..i + 1] == [pieces[0]] + pieces[1..][..i];
  }

  /** `NewConfig`: quorum IDs are checked first, then the operation. */
  function NewConfig(f: Flags): (r: Result<Config, ConfigError>)
    ensures r.Success? <==> AllPiecesParse(QuorumIdPieces(f.quorumIdList)) && f.operation in SupportedOperations
    ensures !AllPiecesParse(QuorumIdPieces(f.quorumIdList)) ==>
      var pieces := QuorumIdPieces(f.quorumIdList);
      exists i :: (0 <= i < |pieces| && r == Failure(InvalidQuorumId(pieces[i])) &&
                   GoStrconv.Atoi(pieces[i]).None? && AllPiecesParse(pieces[..i]))
    ensures AllPiecesParse(QuorumIdPieces(f.quorumIdList)) && f.operation == "" ==> r == Failure(OperationNotProvided)
    ensures AllPiecesParse(QuorumIdPieces(f.quorumIdList)) && f.operation != "" && f.operation !in SupportedOperations ==>
      r == Failure(UnsupportedOperation(f.operation))
    ensures r.Success? ==>
      var pieces := QuorumIdPieces(f.quorumIdList);
      var ids := r.value.quorumIdList;
      && |ids| == |pieces| >= 1
      && (forall i :: 0 <= i < |pieces| ==> ids[i] == ToQuorumId(GoStrconv.Atoi(pieces[i]).value))
      && r.value.operation == f.operation
      && r.value == Copied(f, ids)
  {
    var ids :- ParseQuorumIds(QuorumIdPieces(f.quorumIdList));
    if |ids| == 0 then Failure(NoQuorumIds)
    else if |f.operation| == 0 then Failure(OperationNotProvided)
    else if f.operation != OperationOptIn && f.operation != OperationOptOut
         && f.operation != OperationUpdateSocket && f.operation != OperationListQuorums
    then Failure(UnsupportedOperation(f.operation))
    else Success(Copied(f, ids))
  }

  /** The configuration carrying every flag unchanged, with the parsed IDs. */
  function Copied(f: Flags, ids: seq<QuorumId>): Config
  {
    Config(f.pubIPProvider, f.operation, f.ecdsaKeyFile, f.blsKeyFile, f.ecdsaKeyPassword,
           f.blsKeyPassword, f.blsRemoteSignerUrl, f.blsPublicKeyHex, f.blsSignerCertFile,
           f.socket, ids, f.chainRpcUrl, f.eigenDADirectory, f.blsOperatorStateRetrieverAddr,
           f.eigenDAServiceManagerAddr, f.churnerUrl, f.numConfirmations, f.blsSignerApiKey)
  }

  /** The "no quorum ids provided" error can never be reported: splitting
      always yields at least one piece, so a list that parses is non-empty. */
  lemma NoQuorumIdsUnreachable(f: Flags)
    ensures NewConfig(f) != Failure(NoQuorumIds)
  {
  }

  /** An empty quorum-ID flag is one empty piece, which does not parse. */
  lemma EmptyQuorumListRejected(f: Flags)
    requires f.quorumIdList == ""
    ensures NewConfig(f) == Failure(InvalidQuorumId(""))
  {
    assert QuorumIdPieces("") == [""];
    assert !GoStrconv.WellFormed("");
  }

  /** A space next to a comma makes the list invalid, e.g. "0, 1". */
  lemma SpacedListRejected(f: Flags)
    requires ' ' in f.quorumIdList
    ensures NewConfig(f).Failure? && NewConfig(f).error.InvalidQuorumId?
  {
    var pieces := QuorumIdPieces(f.quorumIdList);
    GoStrings.JoinSplit(f.quorumIdList, ',');
    var k := SpaceInSomePiece(pieces, f.quorumIdList);
    GoStrconv.AtoiRejectsSpace(pieces[k]);
  }

  /** A space in a joined string lies in one of the pieces. */
  lemma {:induction false} SpaceInSomePiece(pieces: seq<string>, s: string) returns (k: nat)
    requires |pieces| >= 1 && GoStrings.Join(pieces, ',') == s && ' ' in s
    ensures k < |pieces| && ' ' in pieces[k]
  {
    if |pieces| == 1 {
      k := 0;
    } else {
      var tail := GoStrings.Join(pieces[1..], ',');
      assert s == pieces[0] + [','] + tail;
      if ' ' in pieces[0] {
        k := 0;
      } else {
        assert ' ' in tail;
        var j := SpaceInSomePiece(pieces[1..], tail);
        k := j + 1;
      }
    }
  }

  /** Any non-empty list of quorum IDs written as comma-separated canonical
      decimals is read back exactly by `NewConfig` for a supported operation. */
  lemma NewConfigReadsFormattedIds(f: Flags, texts: seq<string>, ids: seq<QuorumId>)
    requires |texts| == |ids| >= 1
    requires forall i :: 0 <= i < |ids| ==> texts[i] == GoStrconv.FormatInt(ids[i])
    requires f.quorumIdList == GoStrings.Join(texts, ',')
    requires f.operation in SupportedOperations
    ensures NewConfig(f) == Success(Copied(f, ids))
  {
    forall i | 0 <= i < |texts|
      ensures ',' !in texts[i]
      ensures GoStrconv.Atoi(texts[i]) == Some(ids[i] as int)
    {
      GoStrconv.AtoiFormatInt(ids[i]);
      NoCommaInFormat(ids[i]);
    }
    GoStrings.SplitJoin(texts, ',');
    var r := NewConfig(f);
    assert r.Success?;
    assert r.value.quorumIdList == ids;
  }

  lemma NoCommaInFormat(n: nat)
    ensures ',' !in GoStrconv.FormatInt(n)
  {
  }

  /** IDs are narrowed to 8 bits without a range check: "256,-1" gives the
      quorums 0 and 255. */
  lemma QuorumIdsWrap(f: Flags)
    requires f.quorumIdList == "256,-1" && f.operation == OperationOptIn
    ensures NewConfig(f).Success? && NewConfig(f).value.quorumIdList == [0, 255]
  {
    var texts := [GoStrconv.FormatInt(256), GoStrconv.FormatInt(-1)];
    assert GoStrconv.FormatInt(256) == "256";
    assert GoStrconv.FormatInt(-1) == "-1";
    assert GoStrings.Join(texts, ',') == "256,-1";
    GoStrings.SplitJoin(texts, ',');
    GoStrconv.AtoiFormatInt(256);
    GoStrconv.AtoiFormatInt(-1);
  }
}

/**
 * The command layer of the Doremi client (dcitools/devices/doremi/commands.py):
 * the COMMANDS table of request/response pairs, its NAMES and KEYS indexes,
 * the request frame built by `construct`, the rolling request identifier, and
 * the send and receive steps of a command call over a socket.
 *
 * Keys are kept as the 24-bit numbers their six hex digits denote; the key
 * bytes of a frame are that number as three big-endian bytes.  The socket is
 * a byte log for what is sent and an input sequence with a cursor for what is
 * received.
 */
module Commands {
  import opened Wrappers
  import opened Bytes
  import opened Values
  import RequestHandlers
  import ResponseHandlers

  /** The default timeout of a command, in seconds. */
  const TIMEOUT: nat := 3600

  /** Request identifiers wrap around at this value. */
  const ID_MODULUS: nat := 60000

  datatype Kind = Request | Response

  /** The handlers the table names, one constructor per Python function. */
  datatype Handler =
    | IngestAddJobRequestHandler
    | IngestAddJobResponseHandler
    | UuidRequestHandler
    | GetCplInfoResponseHandler
    | IngestCancelJobRequestHandler
    | ResponseHandler
    | IngestGetJobListResponseHandler
    | IngestGetJobRequestHandler
    | IngestGetJobStatusResponseHandler
    | GetSplXmlResponseHandler
    | RetrieveCplResponseHandler
    | GetUuidListResponseHandler
    | GetCplSizeResponseHandler
    | ValidateItemRequestHandler
    | ValidateCplResponseHandler
    | GetKdmInfoResponseHandler
    | RetrieveKdmResponseHandler
    | StoreKdmRequestHandler
    | ShowPlaylistStatusResponseHandler
    | ShowPlaylistStatus2RequestHandler
    | ShowPlaylistStatus2ResponseHandler
    | GetSplInfoResponseHandler
    | LoadSplProgressHandler
    | GetJumpRequestHandler
    | LoopModeSplRequestHandler
    | StoreSplRequestHandler
    | ValidateSplResponseHandler
    | GetShowElementStatusResponseHandler
    | GetLoopModeSplResponseHandler
    | GetProductInformationResponseHandler
    | GetProductCertificateRequestHandler
    | GetProductCertificateResponseHandler
    | ApiProtocolVersionResponseHandler
    | IngestGetEventListResponseHandler
    | IngestGetEventInfoRequestHandler
    | IngestGetEventInfoResponseHandler
    | IngestRemotePackingListRequestHandler
    | IngestGetStatusResponseHandler
    | GetDataDiskSpaceUsageResponseHandler
    | GetSmLogRequestHandler
    | GetSmLogResponseHandler
    | GetMacroCueInfoResponseHandler
    | ExecuteMacroCueResponseHandler
    | GetTriggerCueInfoResponseHandler
    | SnmpGetRequestHandler
    | SnmpGetResponseHandler
    | AddScheduleRequestHandler
    | AddScheduleResponseHandler
    | AddSchedule2RequestHandler
    | DeleteScheduleListRequestHandler
    | GetScheduleListRequestHandler
    | GetScheduleListResponseHandler
    | GetScheduleInfoRequestHandler
    | GetScheduleInfoResponseHandler
    | GetScheduleInfo2ResponseHandler
    | GetLongResponseHandler
    | GetTimeUtcRequestHandler
    | GetTimeUtcResponseHandler
    | GetSchedulerResponseHandler
    | SetSchedulerRequestHandler
    | GetAssetListResponseHandler
    | GetAssetInfoRequestHandler
    | GetAssetInfoResponseHandler
    | GetAssetParentRequestHandler
    | GetAssetParentResponseHandler
    | GetAssetUrlRequestHandler
    | GetAssetUrlResponseHandler
    | RetrieveAssetXmlRequestHandler
    | RetrieveAssetXmlResponseHandler
    | GetCplPackageUriRequestHandler
    | GetCplPackageUriResponseHandler
    | ExecuteMacroCueRequestHandler
    | GetCplMarkerRequestHandler
    | GetCplMarkerResponseHandler
    | TerminateTlsResponseHandler

  /** The number of request/response pairs in the table. */
  const PAIRS: nat := 73

  /** The command name shared by both entries of pair p. */
  function PairName(p: nat): string
    requires p < PAIRS
  {
    match p
    case 0 => "IngestAddJob"
    case 1 => "GetCPLInfo"
    case 2 => "IngestCancelJob"
    case 3 => "IngestGetJobList"
    case 4 => "IngestGetJobStatus"
    case 5 => "IngestGetJobProperties"
    case 6 => "RetrieveCPL"
    case 7 => "GetCPLList"
    case 8 => "GetCPLSize"
    case 9 => "ValidateCPL"
    case 10 => "DeleteCPL"
    case 11 => "GetKDMList"
    case 12 => "GetKDMInfo"
    case 13 => "DeleteKDM"
    case 14 => "RetrieveKDM"
    case 15 => "StoreKDM"
    case 16 => "ShowPlaylistStatus"
    case 17 => "ShowPlaylistStatus2"
    case 18 => "GetSPLList"
    case 19 => "GetSPLInfo"
    case 20 => "DeleteSPL"
    case 21 => "LoadSPLByUUID"
    case 22 => "CheckSPLLoadProgress"
    case 23 => "PlaySPL"
    case 24 => "PauseSPL"
    case 25 => "EjectSPL"
    case 26 => "SkipForward"
    case 27 => "SkipBackward"
    case 28 => "SkipToEvent"
    case 29 => "JumpForward"
    case 30 => "JumpBackward"
    case 31 => "RetrieveSPL"
    case 32 => "LoopModeSPL"
    case 33 => "StoreSPL"
    case 34 => "ValidateSPL"
    case 35 => "GetShowElementStatus"
    case 36 => "GetLoopModeSPL"
    case 37 => "GetProductInformation"
    case 38 => "GetProductCertificate"
    case 39 => "APIProtocolVersion"
    case 40 => "IngestGetEventList"
    case 41 => "IngestGetEventInfo"
    case 42 => "IngestRemotePackingList"
    case 43 => "IngestCancel"
    case 44 => "IngestGetStatus"
    case 45 => "GetDataDiskSpaceUsage"
    case 46 => "GetSMLog"
    case 47 => "GetMacroCueList"
    case 48 => "GetMacroCueInfo"
    case 49 => "ExecuteMacroCue"
    case 50 => "GetTriggerCueList"
    case 51 => "GetTriggerCueInfo"
    case 52 => "SNMPGet"
    case 53 => "AddSchedule"
    case 54 => "AddSchedule2"
    case 55 => "DeleteSchedule"
    case 56 => "GetScheduleList"
    case 57 => "GetScheduleInfo"
    case 58 => "GetScheduleInfo2"
    case 59 => "GetCurrentSchedule"
    case 60 => "GetNextSchedule"
    case 61 => "GetTimeUTC"
    case 62 => "GetSchedulerEnable"
    case 63 => "SetSchedulerEnable"
    case 64 => "GetAssetList"
    case 65 => "GetAssetInfo"
    case 66 => "GetAssetParent"
    case 67 => "GetAssetURL"
    case 68 => "RetrieveAssetXML"
    case 69 => "GetCPLPackageURI"
    case 70 => "ExecuteMacroCue"
    case 71 => "GetCPLMarker"
    case 72 => "TerminateTLS"
  }

  /** The key of the request of pair p, as the number its hex text denotes. */
  function RequestCode(p: nat): (code: nat)
    requires p < PAIRS
    ensures code < 0x1000000
  {
    match p
    case 0 => 0x070F00
    case 1 => 0x010300
    case 2 => 0x071700
    case 3 => 0x072300
    case 4 => 0x071D00
    case 5 => 0x071B00
    case 6 => 0x010700
    case 7 => 0x010100
    case 8 => 0x010D00
    case 9 => 0x010B00
    case 10 => 0x010500
    case 11 => 0x020100
    case 12 => 0x020300
    case 13 => 0x020500
    case 14 => 0x020700
    case 15 => 0x020900
    case 16 => 0x031B00
    case 17 => 0x031B01
    case 18 => 0x030100
    case 19 => 0x030300
    case 20 => 0x030500
    case 21 => 0x030900
    case 22 => 0x033100
    case 23 => 0x030B00
    case 24 => 0x030D00
    case 25 => 0x030F00
    case 26 => 0x031100
    case 27 => 0x031300
    case 28 => 0x032100
    case 29 => 0x031500
    case 30 => 0x031700
    case 31 => 0x031D00
    case 32 => 0x031900
    case 33 => 0x031F00
    case 34 => 0x032500
    case 35 => 0x032B00
    case 36 => 0x032300
    case 37 => 0x050100
    case 38 => 0x050300
    case 39 => 0x050500
    case 40 => 0x070100
    case 41 => 0x070300
    case 42 => 0x070500
    case 43 => 0x070700
    case 44 => 0x070900
    case 45 => 0x080100
    case 46 => 0x0C0100
    case 47 => 0x0A0100
    case 48 => 0x0A0300
    case 49 => 0x0A0100
    case 50 => 0x0A0500
    case 51 => 0x0A0700
    case 52 => 0x080300
    case 53 => 0x040100
    case 54 => 0x040101
    case 55 => 0x040300
    case 56 => 0x040500
    case 57 => 0x040700
    case 58 => 0x040701
    case 59 => 0x040900
    case 60 => 0x040B00
    case 61 => 0x050700
    case 62 => 0x040F00
    case 63 => 0x040D00
    case 64 => 0x060100
    case 65 => 0x060300
    case 66 => 0x060B00
    case 67 => 0x060900
    case 68 => 0x060500
    case 69 => 0x060D00
    case 70 => 0x0A0900
    case 71 => 0x010F00
    case 72 => 0x0E0500
  }

  /** The key of the response of pair p. */
  function ResponseCode(p: nat): (code: nat)
    requires p < PAIRS
    ensures code < 0x1000000
  {
    match p
    case 0 => 0x071000
    case 1 => 0x010400
    case 2 => 0x071800
    case 3 => 0x072400
    case 4 => 0x071E00
    case 5 => 0x071C00
    case 6 => 0x010800
    case 7 => 0x010200
    case 8 => 0x010E00
    case 9 => 0x010C00
    case 10 => 0x010600
    case 11 => 0x020200
    case 12 => 0x020400
    case 13 => 0x020600
    case 14 => 0x020800
    case 15 => 0x020A00
    case 16 => 0x031C00
    case 17 => 0x031C01
    case 18 => 0x030200
    case 19 => 0x030400
    case 20 => 0x030600
    case 21 => 0x030A00
    case 22 => 0x033200
    case 23 => 0x030C00
    case 24 => 0x030E00
    case 25 => 0x031000
    case 26 => 0x031200
    case 27 => 0x031400
    case 28 => 0x032200
    case 29 => 0x031600
    case 30 => 0x031800
    case 31 => 0x031E00
    case 32 => 0x031A00
    case 33 => 0x032000
    case 34 => 0x032600
    case 35 => 0x032C00
    case 36 => 0x032400
    case 37 => 0x050200
    case 38 => 0x050400
    case 39 => 0x050600
    case 40 => 0x070200
    case 41 => 0x070400
    case 42 => 0x070600
    case 43 => 0x070800
    case 44 => 0x070A00
    case 45 => 0x080200
    case 46 => 0x0C0200
    case 47 => 0x0A0200
    case 48 => 0x0A0400
    case 49 => 0x0A0200
    case 50 => 0x0A0600
    case 51 => 0x0A0800
    case 52 => 0x080400
    case 53 => 0x040200
    case 54 => 0x040201
    case 55 => 0x040300
    case 56 => 0x040600
    case 57 => 0x040800
    case 58 => 0x040801
    case 59 => 0x040A00
    case 60 => 0x040C00
    case 61 => 0x050800
    case 62 => 0x041000
    case 63 => 0x040E00
    case 64 => 0x060200
    case 65 => 0x060400
    case 66 => 0x060C00
    case 67 => 0x060A00
    case 68 => 0x060600
    case 69 => 0x060E00
    case 70 => 0x0A0A00
    case 71 => 0x011000
    case 72 => 0x0E0600
  }

  /** The handler of the request of pair p, None for a request without data. */
  function RequestHandlerOf(p: nat): Option<Handler>
    requires p < PAIRS
  {
    match p
    case 0 => Some(IngestAddJobRequestHandler)
    case 1 => Some(UuidRequestHandler)
    case 2 => Some(IngestCancelJobRequestHandler)
    case 3 => None
    case 4 => Some(IngestGetJobRequestHandler)
    case 5 => Some(IngestGetJobRequestHandler)
    case 6 => Some(UuidRequestHandler)
    case 7 => None
    case 8 => Some(UuidRequestHandler)
    case 9 => Some(ValidateItemRequestHandler)
    case 10 => Some(UuidRequestHandler)
    case 11 => None
    case 12 => Some(UuidRequestHandler)
    case 13 => Some(UuidRequestHandler)
    case 14 => Some(UuidRequestHandler)
    case 15 => Some(StoreKdmRequestHandler)
    case 16 => None
    case 17 => Some(ShowPlaylistStatus2RequestHandler)
    case 18 => None
    case 19 => Some(UuidRequestHandler)
    case 20 => Some(UuidRequestHandler)
    case 21 => Some(UuidRequestHandler)
    case 22 => None
    case 23 => None
    case 24 => None
    case 25 => None
    case 26 => None
    case 27 => None
    case 28 => Some(UuidRequestHandler)
    case 29 => Some(GetJumpRequestHandler)
    case 30 => Some(GetJumpRequestHandler)
    case 31 => Some(UuidRequestHandler)
    case 32 => Some(LoopModeSplRequestHandler)
    case 33 => Some(StoreSplRequestHandler)
    case 34 => Some(ValidateItemRequestHandler)
    case 35 => None
    case 36 => None
    case 37 => None
    case 38 => Some(GetProductCertificateRequestHandler)
    case 39 => None
    case 40 => None
    case 41 => Some(IngestGetEventInfoRequestHandler)
    case 42 => Some(IngestRemotePackingListRequestHandler)
    case 43 => None
    case 44 => None
    case 45 => None
    case 46 => Some(GetSmLogRequestHandler)
    case 47 => None
    case 48 => Some(UuidRequestHandler)
    case 49 => Some(UuidRequestHandler)
    case 50 => None
    case 51 => Some(UuidRequestHandler)
    case 52 => Some(SnmpGetRequestHandler)
    case 53 => Some(AddScheduleRequestHandler)
    case 54 => Some(AddSchedule2RequestHandler)
    case 55 => Some(DeleteScheduleListRequestHandler)
    case 56 => Some(GetScheduleListRequestHandler)
    case 57 => Some(GetScheduleInfoRequestHandler)
    case 58 => Some(GetScheduleInfoRequestHandler)
    case 59 => None
    case 60 => None
    case 61 => Some(GetTimeUtcRequestHandler)
    case 62 => None
    case 63 => Some(SetSchedulerRequestHandler)
    case 64 => None
    case 65 => Some(GetAssetInfoRequestHandler)
    case 66 => Some(GetAssetParentRequestHandler)
    case 67 => Some(GetAssetUrlRequestHandler)
    case 68 => Some(RetrieveAssetXmlRequestHandler)
    case 69 => Some(GetCplPackageUriRequestHandler)
    case 70 => Some(ExecuteMacroCueRequestHandler)
    case 71 => Some(GetCplMarkerRequestHandler)
    case 72 => None
  }

  /** The handler of the response of pair p. */
  function ResponseHandlerOf(p: nat): Handler
    requires p < PAIRS
  {
    match p
    case 0 => IngestAddJobResponseHandler
    case 1 => GetCplInfoResponseHandler
    case 2 => ResponseHandler
    case 3 => IngestGetJobListResponseHandler
    case 4 => IngestGetJobStatusResponseHandler
    case 5 => GetSplXmlResponseHandler
    case 6 => RetrieveCplResponseHandler
    case 7 => GetUuidListResponseHandler
    case 8 => GetCplSizeResponseHandler
    case 9 => ValidateCplResponseHandler
    case 10 => ResponseHandler
    case 11 => GetUuidListResponseHandler
    case 12 => GetKdmInfoResponseHandler
    case 13 => ResponseHandler
    case 14 => RetrieveKdmResponseHandler
    case 15 => ResponseHandler
    case 16 => ShowPlaylistStatusResponseHandler
    case 17 => ShowPlaylistStatus2ResponseHandler
    case 18 => GetUuidListResponseHandler
    case 19 => GetSplInfoResponseHandler
    case 20 => ResponseHandler
    case 21 => ResponseHandler
    case 22 => LoadSplProgressHandler
    case 23 => ResponseHandler
    case 24 => ResponseHandler
    case 25 => ResponseHandler
    case 26 => ResponseHandler
    case 27 => ResponseHandler
    case 28 => ResponseHandler
    case 29 => ResponseHandler
    case 30 => ResponseHandler
    case 31 => GetSplXmlResponseHandler
    case 32 => ResponseHandler
    case 33 => ResponseHandler
    case 34 => ValidateSplResponseHandler
    case 35 => GetShowElementStatusResponseHandler
    case 36 => GetLoopModeSplResponseHandler
    case 37 => GetProductInformationResponseHandler
    case 38 => GetProductCertificateResponseHandler
    case 39 => ApiProtocolVersionResponseHandler
    case 40 => IngestGetEventListResponseHandler
    case 41 => IngestGetEventInfoResponseHandler
    case 42 => ResponseHandler
    case 43 => ResponseHandler
    case 44 => IngestGetStatusResponseHandler
    case 45 => GetDataDiskSpaceUsageResponseHandler
    case 46 => GetSmLogResponseHandler
    case 47 => GetUuidListResponseHandler
    case 48 => GetMacroCueInfoResponseHandler
    case 49 => ExecuteMacroCueResponseHandler
    case 50 => GetUuidListResponseHandler
    case 51 => GetTriggerCueInfoResponseHandler
    case 52 => SnmpGetResponseHandler
    case 53 => AddScheduleResponseHandler
    case 54 => AddScheduleResponseHandler
    case 55 => ResponseHandler
    case 56 => GetScheduleListResponseHandler
    case 57 => GetScheduleInfoResponseHandler
    case 58 => GetScheduleInfo2ResponseHandler
    case 59 => GetLongResponseHandler
    case 60 => GetLongResponseHandler
    case 61 => GetTimeUtcResponseHandler
    case 62 => GetSchedulerResponseHandler
    case 63 => ResponseHandler
    case 64 => GetAssetListResponseHandler
    case 65 => GetAssetInfoResponseHandler
    case 66 => GetAssetParentResponseHandler
    case 67 => GetAssetUrlResponseHandler
    case 68 => RetrieveAssetXmlResponseHandler
    case 69 => GetCplPackageUriResponseHandler
    case 70 => ExecuteMacroCueResponseHandler
    case 71 => GetCplMarkerResponseHandler
    case 72 => TerminateTlsResponseHandler
  }

  /** The timeout of pair p: StoreKDM allows 90 seconds. */
  function PairTimeout(p: nat): nat
    requires p < PAIRS
  {
    if PairName(p) == "StoreKDM" then 90 else TIMEOUT
  }

  /** A DoremiAPIRequest or DoremiAPIResponse. */
  datatype Command = Command(kind: Kind, name: string, code: nat, handler: Option<Handler>, timeout: nat)

  /** The number of entries of COMMANDS: a request then its response, for
      every pair. */
  const COUNT: nat := 2 * PAIRS

  /** Entry i of COMMANDS. */
  function Entry(i: nat): (c: Command)
    requires i < COUNT
    ensures c.code < 0x1000000
    ensures c.kind == Response ==> c.handler.Some?
  {
    var p := i / 2;
    if i % 2 == 0 then Command(Request, PairName(p), RequestCode(p), RequestHandlerOf(p), PairTimeout(p))
    else Command(Response, PairName(p), ResponseCode(p), Some(ResponseHandlerOf(p)), PairTimeout(p))
  }

  /** The COMMANDS list. */
  function AllCommands(): (cs: seq<Command>)
    ensures |cs| == COUNT && forall i :: 0 <= i < COUNT ==> cs[i] == Entry(i)
  {
    seq(COUNT, i requires 0 <= i < COUNT => Entry(i))
  }

  /** The three key bytes of a command (bytes.fromhex of its six hex digits). */
  function KeyBytes(code: nat): (key: seq<byte>)
    requires code < 0x1000000
    ensures |key| == 3 && BigEndian(key) == code
  {
    assert Pow256(3) == 0x1000000;
    BigEndianRoundTrip(code, 3);
    ToBigEndian(code, 3)
  }

  // ---------------------------------------------------------------------------
  // NAMES and KEYS
  // ---------------------------------------------------------------------------

  /** {c.name: c for c in cs if c is a request}: built in list order, so a
      later entry replaces an earlier one. */
  function NameMap(cs: seq<Command>): map<string, Command>
  {
    if cs == [] then map[]
    else
      var m := NameMap(cs[..|cs| - 1]);
      var c := cs[|cs| - 1];
      if c.kind == Request then m[c.name := c] else m
  }

  /** {c.key: c for c in cs if c is a response}. */
  function KeyMap(cs: seq<Command>): map<nat, Command>
  {
    if cs == [] then map[]
    else
      var m := KeyMap(cs[..|cs| - 1]);
      var c := cs[|cs| - 1];
      if c.kind == Response then m[c.code := c] else m
  }

  /** The index of the last request named `name` among the first j entries
      of cs. */
  function FindName(cs: seq<Command>, name: string, j: nat): (r: Option<nat>)
    requires j <= |cs|
    ensures r.Some? ==> r.value < j && cs[r.value].kind == Request && cs[r.value].name == name
  {
    if j == 0 then None
    else if cs[j - 1].kind == Request && cs[j - 1].name == name then Some(j - 1)
    else FindName(cs, name, j - 1)
  }

  /** The index of the last response keyed `code` among the first j entries
      of cs. */
  function FindKey(cs: seq<Command>, code: nat, j: nat): (r: Option<nat>)
    requires j <= |cs|
    ensures r.Some? ==> r.value < j && cs[r.value].kind == Response && cs[r.value].code == code
  {
    if j == 0 then None
    else if cs[j - 1].kind == Response && cs[j - 1].code == code then Some(j - 1)
    else FindKey(cs, code, j - 1)
  }

  /** FindName finds the last match: no later request has the name, and
      None means no request has it. */
  lemma {:induction false} FindNameLast(cs: seq<Command>, name: string, j: nat)
    requires j <= |cs|
    ensures FindName(cs, name, j).Some? ==>
      forall k :: FindName(cs, name, j).value < k < j ==> !(cs[k].kind == Request && cs[k].name == name)
    ensures FindName(cs, name, j).None? ==> forall k :: 0 <= k < j ==> !(cs[k].kind == Request && cs[k].name == name)
  {
    if j > 0 {
      FindNameLast(cs, name, j - 1);
    }
  }

  /** FindKey finds the last match. */
  lemma {:induction false} FindKeyLast(cs: seq<Command>, code: nat, j: nat)
    requires j <= |cs|
    ensures FindKey(cs, code, j).Some? ==>
      forall k :: FindKey(cs, code, j).value < k < j ==> !(cs[k].kind == Response && cs[k].code == code)
    ensures FindKey(cs, code, j).None? ==> forall k :: 0 <= k < j ==> !(cs[k].kind == Response && cs[k].code == code)
  {
    if j > 0 {
      FindKeyLast(cs, code, j - 1);
    }
  }

  /** The searches only look at the first j entries. */
  lemma {:induction false} SearchPrefix(a: seq<Command>, b: seq<Command>, j: nat, name: string, code: nat)
    requires j <= |a| && j <= |b| && a[..j] == b[..j]
    ensures FindName(a, name, j) == FindName(b, name, j)
    ensures FindKey(a, code, j) == FindKey(b, code, j)
  {
    if j > 0 {
      assert a[j - 1] == a[..j][j - 1] && b[j - 1] == b[..j][j - 1];
      assert a[..j - 1] == a[..j][..j - 1] && b[..j - 1] == b[..j][..j - 1];
      SearchPrefix(a, b, j - 1, name, code);
    }
  }

  /** The name comprehension holds exactly the names FindName finds, each
      mapped to its last request. */
  lemma {:induction false} NameMapLastWins(cs: seq<Command>, name: string)
    ensures name in NameMap(cs) <==> FindName(cs, name, |cs|).Some?
    ensures name in NameMap(cs) ==> NameMap(cs)[name] == cs[FindName(cs, name, |cs|).value]
    decreases |cs|
  {
    if cs != [] {
      var init := cs[..|cs| - 1];
      NameMapLastWins(init, name);
      assert init[..|init|] == cs[..|init|];
      SearchPrefix(init, cs, |init|, name, 0);
    }
  }

  /** The key comprehension holds exactly the keys FindKey finds, each
      mapped to its last response. */
  lemma {:induction false} KeyMapLastWins(cs: seq<Command>, code: nat)
    ensures code in KeyMap(cs) <==> FindKey(cs, code, |cs|).Some?
    ensures code in KeyMap(cs) ==> KeyMap(cs)[code] == cs[FindKey(cs, code, |cs|).value]
    decreases |cs|
  {
    if cs != [] {
      var init := cs[..|cs| - 1];
      KeyMapLastWins(init, code);
      assert init[..|init|] == cs[..|init|];
      SearchPrefix(init, cs, |init|, "", code);
    }
  }

  /** NAMES */
  function Names(): map<string, Command>
  {
    NameMap(AllCommands())
  }

  /** KEYS */
  function Keys(): map<nat, Command>
  {
    KeyMap(AllCommands())
  }

  /** NAMES and KEYS hold the last request with each name and the last
      response with each key. */
  lemma IndexesLastWins(name: string, code: nat)
    ensures name in Names() <==> FindName(AllCommands(), name, COUNT).Some?
    ensures name in Names() ==> Names()[name] == Entry(FindName(AllCommands(), name, COUNT).value)
    ensures code in Keys() <==> FindKey(AllCommands(), code, COUNT).Some?
    ensures code in Keys() ==> Keys()[code] == Entry(FindKey(AllCommands(), code, COUNT).value)
  {
    NameMapLastWins(AllCommands(), name);
    KeyMapLastWins(AllCommands(), code);
  }

  /** A match with no match after it up to j is what the search finds. */
  lemma {:induction false} FindNameAt(cs: seq<Command>, name: string, i: nat, j: nat)
    requires i < j <= |cs| && cs[i].kind == Request && cs[i].name == name
    requires forall k :: i < k < j ==> !(cs[k].kind == Request && cs[k].name == name)
    ensures FindName(cs, name, j) == Some(i)
  {
    if j - 1 != i {
      FindNameAt(cs, name, i, j - 1);
    }
  }

  lemma {:induction false} FindKeyAt(cs: seq<Command>, code: nat, i: nat, j: nat)
    requires i < j <= |cs| && cs[i].kind == Response && cs[i].code == code
    requires forall k :: i < k < j ==> !(cs[k].kind == Response && cs[k].code == code)
    ensures FindKey(cs, code, j) == Some(i)
  {
    if j - 1 != i {
      FindKeyAt(cs, code, i, j - 1);
    }
  }

  /** No request after entry 140 is named ExecuteMacroCue. */
  lemma NoLaterExecuteMacroCue(i: nat)
    requires 140 < i < COUNT
    ensures !(Entry(i).kind == Request && Entry(i).name == "ExecuteMacroCue")
  {
    assert 70 <= i / 2 < PAIRS;
  }

  /** No response after entry 99 has key 0A0200. */
  lemma NoLaterKey0A0200(i: nat)
    requires 99 < i < COUNT
    ensures !(Entry(i).kind == Response && Entry(i).code == 0x0A0200)
  {
    assert 50 <= i / 2 < PAIRS;
  }

  /** ExecuteMacroCue is declared twice: NAMES keeps the second request,
      whose key is 0A0900. */
  lemma ExecuteMacroCueName()
    ensures "ExecuteMacroCue" in Names() && Names()["ExecuteMacroCue"].code == 0x0A0900
    ensures Names()["ExecuteMacroCue"].handler == Some(ExecuteMacroCueRequestHandler)
  {
    var cs := AllCommands();
    Entry140();
    NameMapLastWins(cs, "ExecuteMacroCue");
    forall k | 140 < k < COUNT
      ensures !(cs[k].kind == Request && cs[k].name == "ExecuteMacroCue")
    {
      NoLaterExecuteMacroCue(k);
    }
    FindNameAt(cs, "ExecuteMacroCue", 140, COUNT);
  }

  /** Entry 140 is the second ExecuteMacroCue request. */
  lemma Entry140()
    ensures Entry(140).kind == Request && Entry(140).name == "ExecuteMacroCue"
    ensures Entry(140).code == 0x0A0900 && Entry(140).handler == Some(ExecuteMacroCueRequestHandler)
  {
    assert 140 / 2 == 70 && 140 % 2 == 0;
  }

  /** Entry 99 is the first ExecuteMacroCue response. */
  lemma Entry99()
    ensures Entry(99).kind == Response && Entry(99).name == "ExecuteMacroCue"
    ensures Entry(99).code == 0x0A0200 && Entry(99).handler == Some(ExecuteMacroCueResponseHandler)
  {
    assert 99 / 2 == 49 && 99 % 2 == 1;
  }

  /** KEYS[0A0200] is the first ExecuteMacroCue response, which replaced
      GetMacroCueList's response under the same key. */
  lemma ExecuteMacroCueKey()
    ensures 0x0A0200 in Keys() && Keys()[0x0A0200].name == "ExecuteMacroCue"
    ensures Keys()[0x0A0200].handler == Some(ExecuteMacroCueResponseHandler)
  {
    var cs := AllCommands();
    Entry99();
    KeyMapLastWins(cs, 0x0A0200);
    forall k | 99 < k < COUNT
      ensures !(cs[k].kind == Response && cs[k].code == 0x0A0200)
    {
      NoLaterKey0A0200(k);
    }
    FindKeyAt(cs, 0x0A0200, 99, COUNT);
  }

  // ---------------------------------------------------------------------------
  // Frames
  // ---------------------------------------------------------------------------

  /** header(): the SMPTE universal-label prefix of every message (object
      identifier, label size, ISO/ORG and SMPTE designators, fixed-length
      pack, dictionary, registry version, private use, Doremi Labs,
      DCP-2000 messages, version 1, intra-theater packs). */
  const HEADER: seq<byte> := [0x06, 0x0E, 0x2B, 0x34, 0x02, 0x05, 0x01, 0x0A, 0x0E, 0x10, 0x01, 0x01, 0x01]

  /** pack_word: a request identifier as four big-endian bytes. */
  function RequestIdBytes(id: nat): (b: seq<byte>)
    requires id < ID_MODULUS
    ensures |b| == 4 && BigEndian(b) == id
  {
    assert Pow256(4) == 0x1_0000_0000;
    BigEndianRoundTrip(id, 4);
    ToBigEndian(id, 4)
  }

  /** The counter after request_id(inc): advanced by one modulo 60000 when
      inc is set, left alone otherwise. */
  function NextId(id: nat, inc: bool): (r: nat)
    ensures id < ID_MODULUS ==> r < ID_MODULUS
    ensures !inc ==> r == id
    ensures inc && id + 1 < ID_MODULUS ==> r == id + 1
    ensures inc && id + 1 == ID_MODULUS ==> r == 0
  {
    if inc then (id + 1) % ID_MODULUS else id
  }

  /** The counter after n increments from its start value 0. */
  function IdAfter(n: nat): nat
  {
    if n == 0 then 0 else NextId(IdAfter(n - 1), true)
  }

  /** The n-th identifier emitted is n modulo 60000: identifiers cycle
      through 0..59999. */
  lemma {:induction false} IdAfterValue(n: nat)
    ensures IdAfter(n) == n % ID_MODULUS
  {
    if n > 0 {
      IdAfterValue(n - 1);
      var q := (n - 1) / ID_MODULUS;
      assert n - 1 == q * ID_MODULUS + (n - 1) % ID_MODULUS;
      if (n - 1) % ID_MODULUS + 1 < ID_MODULUS {
        assert n == q * ID_MODULUS + ((n - 1) % ID_MODULUS + 1);
      } else {
        assert n == (q + 1) * ID_MODULUS;
      }
    }
  }

  /** The first identifier a fresh process sends is 1. */
  lemma FirstRequestId()
    ensures IdAfter(1) == 1 && RequestIdBytes(IdAfter(1)) == [0, 0, 0, 1]
  {
    assert Pow256(4) == 0x1_0000_0000;
    var b := RequestIdBytes(1);
    assert BigEndian(b) == 1;
    BigEndianDigits(b);
  }

  /** Four bytes whose big-endian value is 1 are 00 00 00 01. */
  lemma BigEndianDigits(b: seq<byte>)
    requires |b| == 4 && BigEndian(b) == 1
    ensures b == [0, 0, 0, 1]
  {
    var x := BigEndian(b[..3]);
    assert BigEndian(b) == x * 256 + b[3];
    assert x == 0 && b[3] == 1;
    BigEndianZero(b[..3]);
    assert b == b[..3] + [b[3]];
  }

  /** Only zero bytes have the big-endian value 0. */
  lemma {:induction false} BigEndianZero(b: seq<byte>)
    requires BigEndian(b) == 0
    ensures forall i :: 0 <= i < |b| ==> b[i] == 0
  {
    if b != [] {
      BigEndianZero(b[..|b| - 1]);
    }
  }

  /** The process-wide REQUEST_ID. */
  class RequestCounter {
    var requestId: nat

    ghost predicate Valid()
      reads this
    {
      requestId < ID_MODULUS
    }

    /** REQUEST_ID = 0 at import. */
    constructor ()
      ensures Valid() && requestId == 0
    {
      requestId := 0;
    }

    /** request_id(inc): advance the counter when inc is set, then pack it. */
    method RequestId(inc: bool) returns (id: seq<byte>)
      requires Valid()
      modifies this
      ensures Valid() && requestId == NextId(old(requestId), inc)
      ensures |id| == 4 && BigEndian(id) == requestId
    {
      if inc {
        requestId := (requestId + 1) % ID_MODULUS;
      }
      id := RequestIdBytes(requestId);
    }
  }

  /** construct() as written: header, key, the BER length of the data alone,
      the identifier, the data. */
  function Frame(code: nat, data: seq<byte>, id: nat): (f: seq<byte>)
    requires code < 0x1000000 && BerEncodable(|data|) && id < ID_MODULUS
  {
    HEADER + KeyBytes(code) + BerEncode(|data|) + RequestIdBytes(id) + data
  }

  /** Where each part of a frame sits: the header, the key, a BER length
      that decodes to the data length, the identifier, the data. */
  lemma FrameLayout(code: nat, data: seq<byte>, id: nat)
    requires code < 0x1000000 && BerEncodable(|data|) && id < ID_MODULUS
    ensures var f := Frame(code, data, id); var b := |BerEncode(|data|)|;
      |f| == 20 + b + |data| && f[..13] == HEADER && BigEndian(f[13..16]) == code
      && BerDecode(f[16..]) == Some((|data|, b))
      && BigEndian(f[16 + b..20 + b]) == id && f[20 + b..] == data
  {
    var e := BerEncode(|data|);
    var rest := RequestIdBytes(id) + data;
    FrameParts(HEADER, KeyBytes(code), e, RequestIdBytes(id), data);
    BerRoundTrip(|data|, rest);
  }

  /** The parts of a five-part concatenation. */
  lemma FrameParts(h: seq<byte>, k: seq<byte>, e: seq<byte>, i: seq<byte>, d: seq<byte>)
    requires |h| == 13 && |k| == 3 && |i| == 4
    ensures var f := h + k + e + i + d;
      |f| == 20 + |e| + |d| && f[..13] == h && f[13..16] == k && f[16..] == e + (i + d)
      && f[16 + |e|..20 + |e|] == i && f[20 + |e|..] == d
  {
  }

  // ---------------------------------------------------------------------------
  // Request data and construction
  // ---------------------------------------------------------------------------

  /** data(): the bytes of the request handler applied to the arguments, or
      nothing for a command without a handler.  The two whitelisting
      handlers are modelled here; the other encoders are the `encode`
      parameter. */
  function RequestData(h: Option<Handler>, args: seq<RequestHandlers.Arg>,
                       encode: (Handler, seq<RequestHandlers.Arg>) -> Result<seq<byte>>): (r: Result<seq<byte>>)
    ensures h.None? ==> r == Success([])
    ensures h == Some(SetSchedulerRequestHandler) && |args| != 1 ==> r == Failure(TypeError)
    ensures h == Some(GetProductCertificateRequestHandler) && |args| != 1 ==> r == Failure(TypeError)
  {
    match h
    case None => Success([])
    case Some(SetSchedulerRequestHandler) =>
      if |args| != 1 then Failure(TypeError) else RequestHandlers.SetSchedulerRequest(args[0])
    case Some(GetProductCertificateRequestHandler) =>
      if |args| != 1 then Failure(TypeError) else RequestHandlers.ProductCertificateRequest(args[0])
    case Some(other) => encode(other, args)
  }

  /** What construct() yields for command c when the counter stands at id:
      the handler's failure, an OverflowError for a length BER cannot carry,
      or the frame with the next identifier. */
  function ConstructResult(c: Command, args: seq<RequestHandlers.Arg>,
                           encode: (Handler, seq<RequestHandlers.Arg>) -> Result<seq<byte>>, id: nat): (r: Result<seq<byte>>)
    requires c.code < 0x1000000 && id < ID_MODULUS
    ensures RequestData(c.handler, args, encode).Failure? ==> r == Failure(RequestData(c.handler, args, encode).error)
    ensures r.Success? <==> RequestData(c.handler, args, encode).Success? && BerEncodable(|RequestData(c.handler, args, encode).value|)
    ensures r.Success? ==> |r.value| >= 20 + |RequestData(c.handler, args, encode).value|
    ensures r.Success? ==> r.value[..13] == HEADER && BigEndian(r.value[13..16]) == c.code
    ensures r.Success? ==> r.value[|r.value| - |RequestData(c.handler, args, encode).value|..] == RequestData(c.handler, args, encode).value
    ensures r.Success? ==> RequestData(c.handler, args, encode).Success? && BerEncodable(|RequestData(c.handler, args, encode).value|)
                           && r.value == Frame(c.code, RequestData(c.handler, args, encode).value, NextId(id, true))
  {
    match RequestData(c.handler, args, encode)
    case Failure(e) => Failure(e)
    case Success(data) =>
      if !BerEncodable(|data|) then Failure(OverflowError)
      else
        FrameLayout(c.code, data, NextId(id, true));
        Success(Frame(c.code, data, NextId(id, true)))
  }

  /** construct(): computes the data for the BER field, advances the
      counter, then appends the data.  A failing handler stops it before
      the counter moves. */
  method Construct(c: Command, args: seq<RequestHandlers.Arg>,
                   encode: (Handler, seq<RequestHandlers.Arg>) -> Result<seq<byte>>, counter: RequestCounter)
    returns (r: Result<seq<byte>>)
    requires c.code < 0x1000000 && counter.Valid()
    modifies counter
    ensures counter.Valid()
    ensures r == ConstructResult(c, args, encode, old(counter.requestId))
    ensures counter.requestId == if r.Success? then NextId(old(counter.requestId), true) else old(counter.requestId)
  {
    var sized := RequestData(c.handler, args, encode);
    if sized.Failure? {
      return Failure(sized.error);
    }
    if !BerEncodable(|sized.value|) {
      return Failure(OverflowError);
    }
    var ber := BerEncode(|sized.value|);
    var id := counter.RequestId(true);
    var data := RequestData(c.handler, args, encode);
    BigEndianInjective(id, RequestIdBytes(counter.requestId));
    r := Success(HEADER + KeyBytes(c.code) + ber + id + data.value);
  }

  /** Equal-length byte strings with the same big-endian value are equal. */
  lemma {:induction false} BigEndianInjective(a: seq<byte>, b: seq<byte>)
    requires |a| == |b| && BigEndian(a) == BigEndian(b)
    ensures a == b
    decreases |a|
  {
    if |a| > 0 {
      var n := |a| - 1;
      var x := BigEndian(a);
      assert x == BigEndian(a[..n]) * 256 + a[n] && x == BigEndian(b[..n]) * 256 + b[n];
      assert a[n] == b[n] by {
        assert a[n] == x % 256 && b[n] == x % 256;
      }
      BigEndianInjective(a[..n], b[..n]);
      assert a == a[..n] + [a[n]] && b == b[..n] + [b[n]];
    }
  }

  // ---------------------------------------------------------------------------
  // The socket
  // ---------------------------------------------------------------------------

  /** The outcome of reading from a byte stream and how many bytes it took. */
  datatype Read<T> = Read(result: Result<T>, consumed: nat)

  /** socket.receive(n): exactly n bytes from the front of the stream.  A
      negative count is refused and a stream that ends first times out;
      neither takes any byte. */
  function Take(stream: seq<byte>, n: int): (r: Read<seq<byte>>)
    ensures r.result.Success? <==> 0 <= n <= |stream|
    ensures r.result.Success? ==> r.consumed == n == |r.result.value| && r.result.value + stream[n..] == stream
    ensures r.result.Failure? ==> r.consumed == 0 && r.result.error == (if n < 0 then ValueError else Timeout)
  {
    if n < 0 then Read(Failure(ValueError), 0)
    else if n > |stream| then Read(Failure(Timeout), 0)
    else
      assert stream[..n] + stream[n..] == stream;
      Read(Success(stream[..n]), n)
  }

  /** A connection: what has been sent so far, and the bytes the server
      delivers with a cursor past those already received. */
  class Socket {
    var sent: seq<byte>
    var input: seq<byte>
    var cursor: nat

    ghost predicate Valid()
      reads this
    {
      cursor <= |input|
    }

    /** The bytes not yet received. */
    function Pending(): seq<byte>
      reads this
      requires Valid()
    {
      input[cursor..]
    }

    constructor (input: seq<byte>)
      ensures Valid() && sent == [] && this.input == input && cursor == 0
    {
      sent := [];
      this.input := input;
      cursor := 0;
    }

    /** socket.send(b) */
    method Send(b: seq<byte>)
      requires Valid()
      modifies this
      ensures Valid() && sent == old(sent) + b && input == old(input) && cursor == old(cursor)
    {
      sent := sent + b;
    }

    /** socket.receive(n) */
    method Receive(n: int) returns (r: Result<seq<byte>>)
      requires Valid()
      modifies this
      ensures Valid() && sent == old(sent) && input == old(input)
      ensures r == Take(old(Pending()), n).result
      ensures cursor == old(cursor) + Take(old(Pending()), n).consumed
    {
      var t := Take(input[cursor..], n);
      r := t.result;
      cursor := cursor + t.consumed;
    }
  }

  // ---------------------------------------------------------------------------
  // Receiving
  // ---------------------------------------------------------------------------

  /** The five fields `receive` reads. */
  datatype RawFrame = RawFrame(header: seq<byte>, key: seq<byte>, ber: seq<byte>, id: seq<byte>, data: seq<byte>)

  /** ber_2_int on the four length bytes, taken as the definite-form length
      of ITU-T X.690 section 8.1.3 read from their front; None where no
      definite length fits in them. */
  function BerValue(ber: seq<byte>): (r: Option<nat>)
    ensures BerDecode(ber).Some? <==> r.Some?
    ensures r.Some? ==> r.value == BerDecode(ber).value.0
  {
    match BerDecode(ber)
    case None => None
    case Some(p) => Some(p.0)
  }

  /** The reads of `receive` over the bytes the server delivers: 13 header
      bytes, 3 key bytes, 4 BER bytes, 4 identifier bytes, then the BER
      value less 4 data bytes.  A read that cannot be met stops the rest;
      the bytes of earlier reads stay consumed. */
  function ReadFrame(s: seq<byte>): (r: Read<RawFrame>)
    ensures r.consumed <= |s|
    ensures r.result.Success? ==>
      var f := r.result.value;
      |f.header| == 13 && |f.key| == 3 && |f.ber| == 4 && |f.id| == 4
      && BerValue(f.ber) == Some(|f.data| + 4)
      && f.header + f.key + f.ber + f.id + f.data + s[r.consumed..] == s
  {
    if |s| < 13 then Read(Failure(Timeout), 0)
    else if |s| < 16 then Read(Failure(Timeout), 13)
    else if |s| < 20 then Read(Failure(Timeout), 16)
    else
      match BerValue(s[16..20])
      case None => Read(Failure(ValueError), 20)
      case Some(n) =>
        if |s| < 24 then Read(Failure(Timeout), 20)
        else if n < 4 then Read(Failure(ValueError), 24)
        else if |s| < 20 + n then Read(Failure(Timeout), 24)
        else
          FrameSplit(s, n);
          Read(Success(RawFrame(s[..13], s[13..16], s[16..20], s[20..24], s[24..20 + n])), 20 + n)
  }

  lemma FrameSplit(s: seq<byte>, n: nat)
    requires 24 <= 20 + n <= |s|
    ensures s[..13] + s[13..16] + s[16..20] + s[20..24] + s[24..20 + n] + s[20 + n..] == s
  {
    assert s == s[..13] + s[13..16] + s[16..20] + s[20..24] + s[24..20 + n] + s[20 + n..];
  }

  /** The response handler applied to the data: the decoders of this model
      for the handlers they cover, `decode` for the others, and a TypeError
      for a missing handler (calling None). */
  function Decode(h: Option<Handler>, data: seq<byte>, decode: (Handler, seq<byte>) -> Result<Record>): (r: Result<Record>)
    ensures h.None? ==> r == Failure(TypeError)
    ensures h == Some(GetUuidListResponseHandler) || h == Some(GetAssetListResponseHandler) ==>
      r == ResponseHandlers.UuidListReply(data)
  {
    match h
    case None => Failure(TypeError)
    case Some(GetUuidListResponseHandler) => ResponseHandlers.UuidListReply(data)
    case Some(GetAssetListResponseHandler) => ResponseHandlers.UuidListReply(data)
    case Some(GetKdmInfoResponseHandler) => ResponseHandlers.KdmInfoReply(data)
    case Some(GetScheduleListResponseHandler) => ResponseHandlers.ScheduleListReply(data)
    case Some(IngestGetEventListResponseHandler) => ResponseHandlers.EventListReply(data)
    case Some(IngestGetJobListResponseHandler) => ResponseHandlers.JobListReply(data)
    case Some(ValidateCplResponseHandler) => ResponseHandlers.ValidateCplReply(data)
    case Some(GetCplInfoResponseHandler) => ResponseHandlers.CplInfoReply(data)
    case Some(GetSchedulerResponseHandler) => ResponseHandlers.SchedulerReply(data)
    case Some(SnmpGetResponseHandler) => ResponseHandlers.SnmpGetReply(data)
    case Some(other) => decode(other, data)
  }

  /** What `receive` returns for the bytes the server delivers: a failed
      read, a KeyError for a key no response has, or the response handler's
      result on the data. */
  function ReceiveResult(s: seq<byte>, decode: (Handler, seq<byte>) -> Result<Record>): (r: Result<Record>)
    ensures ReadFrame(s).result.Failure? ==> r == Failure(ReadFrame(s).result.error)
    ensures ReadFrame(s).result.Success? && BigEndian(ReadFrame(s).result.value.key) !in Keys() ==> r == Failure(KeyError)
  {
    match ReadFrame(s).result
    case Failure(e) => Failure(e)
    case Success(f) =>
      var code := BigEndian(f.key);
      if code !in Keys() then Failure(KeyError)
      else Decode(Keys()[code].handler, f.data, decode)
  }

  /** The five reads of `receive`, in order. */
  method ReceiveFrame(socket: Socket) returns (r: Result<RawFrame>)
    requires socket.Valid()
    modifies socket
    ensures socket.Valid() && socket.sent == old(socket.sent) && socket.input == old(socket.input)
    ensures r == ReadFrame(old(socket.Pending())).result
    ensures socket.cursor == old(socket.cursor) + ReadFrame(old(socket.Pending())).consumed
  {
    ghost var s := socket.Pending();
    var header := socket.Receive(13);
    if header.Failure? {
      return Failure(header.error);
    }
    assert socket.Pending() == s[13..];
    var key := socket.Receive(3);
    if key.Failure? {
      return Failure(key.error);
    }
    assert socket.Pending() == s[16..];
    var ber := socket.Receive(4);
    if ber.Failure? {
      return Failure(ber.error);
    }
    assert socket.Pending() == s[20..] && ber.value == s[16..20];
    var n := BerValue(ber.value);
    if n.None? {
      return Failure(ValueError);
    }
    var size := (n.value as int) - 4;
    var id := socket.Receive(4);
    if id.Failure? {
      return Failure(id.error);
    }
    assert socket.Pending() == s[24..];
    var data := socket.Receive(size);
    if data.Failure? {
      return Failure(data.error);
    }
    assert header.value == s[..13] && key.value == s[13..16] && id.value == s[20..24];
    assert data.value == s[24..24 + size];
    r := Success(RawFrame(header.value, key.value, ber.value, id.value, data.value));
  }

  // ---------------------------------------------------------------------------
  // The command call
  // ---------------------------------------------------------------------------

  /** Every request NAMES holds is a request of the table. */
  lemma NamesEntry(name: string)
    requires name in Names()
    ensures Names()[name].kind == Request && Names()[name].name == name && Names()[name].code < 0x1000000
  {
    NameMapLastWins(AllCommands(), name);
  }

  /** Every response KEYS holds is a response of the table, under its key. */
  lemma KeysEntry(code: nat)
    requires code in Keys()
    ensures Keys()[code].kind == Response && Keys()[code].code == code && Keys()[code].handler.Some?
  {
    KeyMapLastWins(AllCommands(), code);
  }

  /** The message `send` raises for a name NAMES lacks. */
  function MissingCommand(name: string): string
  {
    "Command named " + name + " does not exists. Implementation error."
  }

  /** What `send` writes for command `name` when the counter stands at id:
      an unknown name, or a KeyError inside construct, becomes the generic
      Exception; any other failure becomes a ParameterException. */
  function SendResult(name: string, args: seq<RequestHandlers.Arg>,
                      encode: (Handler, seq<RequestHandlers.Arg>) -> Result<seq<byte>>, id: nat): (r: Result<seq<byte>>)
    requires id < ID_MODULUS
    ensures name !in Names() ==> r == Failure(Exception(MissingCommand(name)))
    ensures r.Failure? ==> r.error.Exception? || r.error.ParameterException?
    ensures r.Success? ==> name in Names() && |r.value| >= 20 && BigEndian(r.value[13..16]) == Names()[name].code
  {
    if name !in Names() then Failure(Exception(MissingCommand(name)))
    else
      NamesEntry(name);
      match ConstructResult(Names()[name], args, encode, id)
      case Failure(KeyError) => Failure(Exception(MissingCommand(name)))
      case Failure(e) => Failure(ParameterException(e))
      case Success(b) => Success(b)
  }

  /** A request for ExecuteMacroCue goes out under the second definition's
      key, 0A0900. */
  lemma ExecuteMacroCueSent(args: seq<RequestHandlers.Arg>,
                            encode: (Handler, seq<RequestHandlers.Arg>) -> Result<seq<byte>>, id: nat)
    requires id < ID_MODULUS
    ensures SendResult("ExecuteMacroCue", args, encode, id).Success? ==>
      SendResult("ExecuteMacroCue", args, encode, id).value[13..16] == KeyBytes(0x0A0900)
  {
    ExecuteMacroCueName();
    var r := SendResult("ExecuteMacroCue", args, encode, id);
    if r.Success? {
      BigEndianInjective(r.value[13..16], KeyBytes(0x0A0900));
    }
  }

  /** A CommandCall: a connection, the process-wide counter and the name of
      the command it runs. */
  class CommandCall {
    const socket: Socket
    const counter: RequestCounter
    const name: string

    ghost predicate Valid()
      reads this, socket, counter
    {
      socket.Valid() && counter.Valid()
    }

    constructor (socket: Socket, counter: RequestCounter, name: string)
      requires socket.Valid() && counter.Valid()
      ensures Valid() && this.socket == socket && this.counter == counter && this.name == name
    {
      this.socket := socket;
      this.counter := counter;
      this.name := name;
    }

    /** send(*args): construct the request and write it; on failure nothing
        is written and the counter has not moved. */
    method Send(args: seq<RequestHandlers.Arg>, encode: (Handler, seq<RequestHandlers.Arg>) -> Result<seq<byte>>)
      returns (r: Result<nat>)
      requires Valid()
      modifies socket, counter
      ensures Valid() && socket.input == old(socket.input) && socket.cursor == old(socket.cursor)
      ensures SendResult(name, args, encode, old(counter.requestId)).Failure? ==>
        r == Failure(SendResult(name, args, encode, old(counter.requestId)).error)
        && socket.sent == old(socket.sent) && counter.requestId == old(counter.requestId)
      ensures SendResult(name, args, encode, old(counter.requestId)).Success? ==>
        r == Success(0) && socket.sent == old(socket.sent) + SendResult(name, args, encode, old(counter.requestId)).value
        && counter.requestId == NextId(old(counter.requestId), true)
    {
      if name !in Names() {
        return Failure(Exception(MissingCommand(name)));
      }
      NamesEntry(name);
      var request := Construct(Names()[name], args, encode, counter);
      if request.Failure? {
        if request.error == KeyError {
          return Failure(Exception(MissingCommand(name)));
        }
        return Failure(ParameterException(request.error));
      }
      socket.Send(request.value);
      r := Success(0);
    }

    /** receive(): read a response frame and decode its data with the
        handler KEYS gives for its key. */
    method Receive(decode: (Handler, seq<byte>) -> Result<Record>) returns (r: Result<Record>)
      requires Valid()
      modifies socket
      ensures Valid() && socket.sent == old(socket.sent) && socket.input == old(socket.input)
      ensures r == ReceiveResult(old(socket.Pending()), decode)
      ensures socket.cursor == old(socket.cursor) + ReadFrame(old(socket.Pending())).consumed
    {
      var frame := ReceiveFrame(socket);
      if frame.Failure? {
        return Failure(frame.error);
      }
      var code := BigEndian(frame.value.key);
      if code !in Keys() {
        return Failure(KeyError);
      }
      r := Decode(Keys()[code].handler, frame.value.data, decode);
    }

    /** send_and_receive(): a failed send raises before anything is read. */
    method SendAndReceive(args: seq<RequestHandlers.Arg>, encode: (Handler, seq<RequestHandlers.Arg>) -> Result<seq<byte>>,
                          decode: (Handler, seq<byte>) -> Result<Record>) returns (r: Result<Record>)
      requires Valid()
      modifies socket, counter
      ensures Valid() && socket.input == old(socket.input)
      ensures SendResult(name, args, encode, old(counter.requestId)).Failure? ==>
        r == Failure(SendResult(name, args, encode, old(counter.requestId)).error)
        && socket.sent == old(socket.sent) && socket.cursor == old(socket.cursor)
      ensures SendResult(name, args, encode, old(counter.requestId)).Success? ==>
        r == ReceiveResult(old(socket.Pending()), decode)
        && socket.sent == old(socket.sent) + SendResult(name, args, encode, old(counter.requestId)).value
    {
      var sent := Send(args, encode);
      if sent.Failure? {
        return Failure(sent.error);
      }
      r := Receive(decode);
    }
  }

  // ---------------------------------------------------------------------------
  // The length field
  // ---------------------------------------------------------------------------

  /** Lengths below 128 always have a BER encoding. */
  lemma ShortLengthEncodable(n: nat)
    requires n < 128
    ensures BerEncodable(n)
  {
    MinimalBytesLength(n, 1);
  }

  /** As written, construct() counts only the data in the BER field, while
      receive() takes that field to count the identifier as well: a request
      shorter than 128 data bytes, read back by the same reads, never gives
      back its own data. */
  lemma FrameMisread(code: nat, data: seq<byte>, id: nat, rest: seq<byte>)
    requires code < 0x1000000 && |data| < 128 && id < ID_MODULUS
    ensures BerEncodable(|data|)
    ensures ReadFrame(Frame(code, data, id) + rest).result.Success? ==>
      |ReadFrame(Frame(code, data, id) + rest).result.value.data| + 4 == |data|
  {
    ShortLengthEncodable(|data|);
    var s := Frame(code, data, id) + rest;
    FrameLayout(code, data, id);
    var r := ReadFrame(s);
    if r.result.Success? {
      var f := r.result.value;
      assert f.ber == s[16..20] by {
        assert s == f.header + f.key + f.ber + f.id + f.data + s[r.consumed..];
      }
      assert s[16] == |data|;
    }
  }

  /** The smallest witness: a request without data is 21 bytes long and
      its BER field is the single octet 00.  The four-byte BER read takes
      that octet and three bytes of the identifier, and the identifier read
      then waits for bytes that never come. */
  lemma EmptyFrameTimesOut(code: nat, id: nat)
    requires code < 0x1000000 && id < ID_MODULUS
    ensures BerEncodable(0) && ReadFrame(Frame(code, [], id)).result == Failure(Timeout)
    ensures ReadFrame(Frame(code, [], id)).consumed == 20
  {
    ShortLengthEncodable(0);
    FrameLayout(code, [], id);
    var s := Frame(code, [], id);
    assert |s| == 21 && s[16] == 0;
    assert BerValue(s[16..20]) == Some(0);
  }

  /** A frame whose BER field takes the four-byte long form (0x83 and three
      length octets, so that it fills the four bytes `receive` reads) and
      holds the given count. */
  function LongFormFrame(code: nat, data: seq<byte>, id: nat, count: nat): (f: seq<byte>)
    requires code < 0x1000000 && count < 0x1000000 && id < ID_MODULUS
  {
    assert Pow256(3) == 0x1000000;
    HEADER + KeyBytes(code) + ([0x83] + ToBigEndian(count, 3)) + RequestIdBytes(id) + data
  }

  /** Where each part of a long-form frame sits, whatever follows it. */
  lemma LongFormLayout(code: nat, data: seq<byte>, id: nat, count: nat, rest: seq<byte>)
    requires code < 0x1000000 && count < 0x1000000 && id < ID_MODULUS
    ensures var f := LongFormFrame(code, data, id, count); var s := f + rest;
      |f| == 24 + |data| && s[..13] == HEADER && s[13..16] == KeyBytes(code)
      && f[16..20] == s[16..20] && BerValue(s[16..20]) == Some(count)
      && s[20..24] == RequestIdBytes(id) && s[24..] == data + rest
  {
    assert Pow256(3) == 0x1000000;
    var e := [0x83] + ToBigEndian(count, 3);
    var f := LongFormFrame(code, data, id, count);
    FrameParts(HEADER, KeyBytes(code), e, RequestIdBytes(id), data);
    var s := f + rest;
    assert |e| == 4 && |f| == 24 + |data|;
    assert f[16..20] == e && s[16..20] == e;
    BigEndianRoundTrip(count, 3);
    assert e[1..4] == ToBigEndian(count, 3);
    assert s[24..] == data + rest;
  }

  /** With the long form but, as written, a count of the data alone, the
      frame is read back 4 data bytes short and leaves its last 4 bytes
      unread: the missing 4 is the whole discrepancy. */
  lemma LongFormMisread(code: nat, data: seq<byte>, id: nat, rest: seq<byte>)
    requires code < 0x1000000 && 4 <= |data| < 0x1000000 && id < ID_MODULUS
    ensures var f := LongFormFrame(code, data, id, |data|);
      ReadFrame(f + rest) == Read(Success(RawFrame(HEADER, KeyBytes(code), f[16..20], RequestIdBytes(id), data[..|data| - 4])), |f| - 4)
  {
    var f := LongFormFrame(code, data, id, |data|);
    var s := f + rest;
    LongFormLayout(code, data, id, |data|, rest);
    assert s[24..20 + |data|] == data[..|data| - 4];
  }

  /** With the long form and a count of the data alone, a request without
      data asks `receive` for -4 bytes: ValueError. */
  lemma EmptyLongFormFails(code: nat, id: nat)
    requires code < 0x1000000 && id < ID_MODULUS
    ensures ReadFrame(LongFormFrame(code, [], id, 0)).result == Failure(ValueError)
  {
    LongFormLayout(code, [], id, 0, []);
    assert LongFormFrame(code, [], id, 0) + [] == LongFormFrame(code, [], id, 0);
  }

  /** The frame a receiver of this protocol reads back: the BER field in the
      four-byte long form counts the identifier and the data. */
  function FrameFixed(code: nat, data: seq<byte>, id: nat): (f: seq<byte>)
    requires code < 0x1000000 && |data| + 4 < 0x1000000 && id < ID_MODULUS
  {
    LongFormFrame(code, data, id, |data| + 4)
  }

  /** The corrected frame reads back field for field, consuming exactly
      itself. */
  lemma FrameFixedRoundTrip(code: nat, data: seq<byte>, id: nat, rest: seq<byte>)
    requires code < 0x1000000 && |data| + 4 < 0x1000000 && id < ID_MODULUS
    ensures var f := FrameFixed(code, data, id);
      ReadFrame(f + rest) == Read(Success(RawFrame(HEADER, KeyBytes(code), f[16..20], RequestIdBytes(id), data)), |f|)
  {
    var f := FrameFixed(code, data, id);
    var s := f + rest;
    LongFormLayout(code, data, id, |data| + 4, rest);
    assert s[24..24 + |data|] == data;
  }

  /** A corrected response frame under a key KEYS knows is decoded by that
      response's handler, on exactly its data. */
  lemma ReceiveRoundTrip(code: nat, data: seq<byte>, id: nat, rest: seq<byte>,
                         decode: (Handler, seq<byte>) -> Result<Record>)
    requires code in Keys() && |data| + 4 < 0x1000000 && id < ID_MODULUS
    ensures code < 0x1000000
    ensures ReceiveResult(FrameFixed(code, data, id) + rest, decode) == Decode(Keys()[code].handler, data, decode)
  {
    KeyMapLastWins(AllCommands(), code);
    FrameFixedRoundTrip(code, data, id, rest);
  }
}

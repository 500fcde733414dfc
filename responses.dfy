/**
 * The response definitions: for each response the server sends, its name, its
 * 3-byte key written as hex, and its layout of fields over the payload with
 * Python slice offsets, decoders and translation tables
 * (dcitools/devices/doremi/responses.py). As for the requests, the table is
 * three parallel functions of the declaration index with inverse lookups.
 */
module Responses {
  import opened Wrappers
  import opened Bytes
  import opened Message

  /** The number of declared responses. */
  const COUNT: nat := 22

  const STORAGE: map<int, string> := map[
    1 := "local",
    2 := "remote",
    3 := "local+remote"
  ]

  const CONTENT_KIND: map<int, string> := map[
    0 := "Unknown",
    1 := "Feature",
    2 := "Trailer",
    3 := "Test",
    4 := "Teaser",
    5 := "Rating",
    6 := "Advertisement",
    7 := "Short",
    8 := "Transitional",
    9 := "PSA",
    10 := "Policy",
    128 := "Live CPL"
  ]

  const ENCODING: map<int, string> := map[
    0 := "Unknown",
    1 := "MPEG2",
    2 := "JPEG2000",
    3 := "Audio PCM"
  ]

  const ENCRYPTION: map<int, string> := map[
    0 := "No Encryption",
    1 := "AES 128 CBC"
  ]

  const SCHEMAS: map<int, string> := map[
    0 := "Unknown",
    1 := "Digicine (Interop)",
    2 := "SMPTE"
  ]

  const STREAM_TYPE: map<int, string> := map[
    0 := "None",
    1 := "FTP Stream",
    2 := "FTP Stream + Ingest"
  ]

  const VALIDATION_ERROR: map<int, string> := map[
    0 := "No Error nor warning",
    1 := "CPL is not registered on this server",
    2 := "CPL is partially registered on this server",
    3 := "CPL is registered on this server but cannot be loaded",
    4 := "CPL requires at least one KDL to play; no KDM found",
    5 := "CPL requires at least one KDL to play; out-dated KDM found",
    6 := "CPL requires at least one KDL to play; KDM built with a wrong certificate",
    7 := "CPL requires at least one KDL to play; all KDM are rejected (the RTC is no longer secured)",
    8 := "CPL requires at least one KDL to play; all KDM are rejected (playback of protected content is forbidden)",
    9 := "CPL requires at least one KDL to play; KDM with invalid content authenticator found",
    10 := "CPL signature check failed",
    255 := "Out of memory"
  ]

  const PLAYBACK_STATE: map<int, string> := map[
    0 := "Error/Unknown",
    1 := "Stop",
    2 := "Play",
    3 := "Pause"
  ]

  /** The fixed fields GetCPLInfo and GetCPLInfo2 both start with. */
  const CPL_INFO_FIXED: seq<Element> := [
    Response(Field("cpl_uuid", 0, Some(16), BytesToUuid, None)),
    Response(Field("storage", 16, Some(17), BytesToInt, Some(STORAGE))),
    Response(Field("content_title_text", 17, Some(145), BytesToText, None)),
    Response(Field("content_kind", 145, Some(146), BytesToInt, Some(CONTENT_KIND))),
    Response(Field("duration", 146, Some(150), BytesToInt, None)),
    Response(Field("edit_rate_a", 150, Some(154), BytesToInt, None)),
    Response(Field("edit_rate_b", 154, Some(158), BytesToInt, None)),
    Response(Field("picture_encoding", 158, Some(159), BytesToInt, Some(ENCODING))),
    Response(Field("picture_width", 159, Some(161), BytesToInt, None)),
    Response(Field("picture_height", 161, Some(163), BytesToInt, None)),
    Response(Field("picture_encryption", 163, Some(164), BytesToInt, Some(ENCRYPTION))),
    Response(Field("sound_encoding", 164, Some(165), BytesToInt, Some(ENCODING))),
    Response(Field("sound_channel_count", 165, Some(166), BytesToInt, None)),
    Response(Field("sound_quantization_bits", 166, Some(167), BytesToInt, None)),
    Response(Field("sound_encryption", 167, Some(168), BytesToInt, Some(ENCRYPTION)))
  ]

  /** The record layout of GetCPLMarker's batch. */
  const MARKER_FIELDS: seq<Field> := [
    Field("label", 0, Some(16), BytesToText, None),
    Field("offset", 16, Some(20), BytesToInt, None)
  ]

  /** The trailer of GetCPLInfo2, addressed from the end of the payload. */
  const CPL_INFO2_TRAILER: seq<Element> := [
    Response(Field("schemas", -55, Some(-54), BytesToInt, Some(SCHEMAS))),
    Response(Field("stream_type", -54, Some(-53), BytesToInt, Some(STREAM_TYPE))),
    Response(Field("complete", -53, Some(-52), BytesToInt, None)),
    Response(Field("frame_per_edit", -52, Some(-51), BytesToInt, None)),
    Response(Field("reserved2", -51, Some(-49), BytesToInt, None)),
    Response(Field("frame_rate_a", -49, Some(-45), BytesToInt, None)),
    Response(Field("frame_rate_b", -45, Some(-41), BytesToInt, None)),
    Response(Field("sound_sample_rate_a", -41, Some(-37), BytesToInt, None)),
    Response(Field("sound_sample_rate_b", -37, Some(-33), BytesToInt, None)),
    Response(Field("sound_sampling_rate_a", -33, Some(-29), BytesToInt, None)),
    Response(Field("sound_sampling_rate_b", -29, Some(-25), BytesToInt, None)),
    Response(Field("content_version_id", -25, Some(-9), BytesToUuid, None)),
    Response(Field("properties1", -9, Some(-5), BytesToInt, None)),
    Response(Field("unknown_field", -5, Some(-1), BytesToInt, None)),
    Response(Field("response", -1, None, BytesToInt, None))
  ]

  function Name(i: nat): string
    requires i < COUNT
  {
    match i
    case 0 => "GetCPLList"
    case 1 => "GetSPLList"
    case 2 => "GetCPLInfo"
    case 3 => "GetCPLInfo2"
    case 4 => "GetProductInfo"
    case 5 => "DeleteCPL"
    case 6 => "StoreCPL"
    case 7 => "RetrieveCPL"
    case 8 => "ValidateCPL"
    case 9 => "GetCPLSize"
    case 10 => "GetCPLMarker"
    case 11 => "GetCPLPlayStat"
    case 12 => "GetKDMList"
    case 13 => "GetKDMInfo"
    case 14 => "GetKDMInfo2"
    case 15 => "GetTimeZone"
    case 16 => "WhoAmI"
    case 17 => "GetLog"
    case 18 => "GetLogLastId"
    case 19 => "StatusSPL"
    case 20 => "GetProductCertificate"
    case 21 => "GetAPIProtocolVersion"
  }

  function Hex(i: nat): string
    requires i < COUNT
  {
    match i
    case 0 => "010200"
    case 1 => "030200"
    case 2 => "010400"
    case 3 => "010401"
    case 4 => "050200"
    case 5 => "010600"
    case 6 => "010A00"
    case 7 => "010800"
    case 8 => "010C00"
    case 9 => "010E00"
    case 10 => "011000"
    case 11 => "011200"
    case 12 => "020200"
    case 13 => "020400"
    case 14 => "020401"
    case 15 => "052000"
    case 16 => "0E0C00"
    case 17 => "110200"
    case 18 => "110400"
    case 19 => "031C00"
    case 20 => "050400"
    case 21 => "050600"
  }

  function Elements(i: nat): seq<Element>
    requires i < COUNT
  {
    match i
    case 0 => [
      Response(Field("amount", 0, Some(4), BytesToInt, None)),
      Response(Field("item_length", 4, Some(8), BytesToInt, None)),
      Response(Field("list", 8, Some(-1), BytesToUuidList, None)),
      Response(Field("response", -1, None, BytesToInt, None))
    ]
    case 1 => [
      Response(Field("amount", 0, Some(4), BytesToInt, None)),
      Response(Field("item_length", 4, Some(8), BytesToInt, None)),
      Response(Field("list", 8, Some(-1), BytesToUuidList, None)),
      Response(Field("response", -1, None, BytesToInt, None))
    ]
    case 2 => CPL_INFO_FIXED + [
      Response(Field("crypto_key_id_list", 176, Some(-1), BytesToUuidList, None)),
      Response(Field("response", -1, None, BytesToInt, None))
    ]
    case 3 => CPL_INFO_FIXED + [
      Response(Field("crypto_key_id_list", 176, Some(-55), BytesToUuidList, None))
    ] + CPL_INFO2_TRAILER
    case 4 => [
      Response(Field("product_name", 0, Some(16), BytesToText, None)),
      Response(Field("product_serial", 16, Some(32), BytesToText, None)),
      Response(Field("product_id", 32, Some(48), BytesToUuid, None)),
      Response(Field("software_version_major", 48, Some(49), BytesToInt, None)),
      Response(Field("software_version_minor", 49, Some(50), BytesToInt, None)),
      Response(Field("software_version_revision", 50, Some(51), BytesToInt, None)),
      Response(Field("software_version_build", 51, Some(52), BytesToInt, None)),
      Response(Field("hardware_version_major", 52, Some(53), BytesToInt, None)),
      Response(Field("hardware_version_minor", 53, Some(54), BytesToInt, None)),
      Response(Field("hardware_version_build", 54, Some(55), BytesToInt, None)),
      Response(Field("hardware_version_extra", 55, Some(56), BytesToInt, None))
    ]
    case 5 => [
      Response(Field("response", -1, None, BytesToInt, None))
    ]
    case 6 => [
      Response(Field("response", -1, None, BytesToInt, None))
    ]
    case 7 => [
      Response(Field("xml", 0, Some(-1), BytesToText, None)),
      Response(Field("response", -1, None, BytesToInt, None))
    ]
    case 8 => [
      Response(Field("result", 0, Some(1), BytesToInt, None)),
      Response(Field("error_code", 1, Some(2), BytesToInt, Some(VALIDATION_ERROR))),
      Response(Field("error_message", 2, Some(-1), BytesToText, None)),
      Response(Field("response", -1, None, BytesToInt, None))
    ]
    case 9 => [
      Response(Field("size", 0, Some(8), BytesToInt, None)),
      Response(Field("response", -1, None, BytesToInt, None))
    ]
    case 10 => [
      Batch("markers", 0, Some(-1), MARKER_FIELDS),
      Response(Field("response", -1, None, BytesToInt, None))
    ]
    case 11 => [
      Response(Field("error_code", 0, Some(4), BytesToInt, None)),
      Batch("markers", 4, Some(-1), [Field("uuid", 0, Some(16), BytesToUuid, None), Field("last_play", 16, Some(48), BytesToText, None)])
    ]
    case 12 => [
      Response(Field("amount", 0, Some(4), BytesToInt, None)),
      Response(Field("item_length", 4, Some(8), BytesToInt, None)),
      Response(Field("list", 8, Some(-1), BytesToUuidList, None)),
      Response(Field("response", -1, None, BytesToInt, None))
    ]
    case 13 => [
      Response(Field("kdm_uuid", 0, Some(16), BytesToUuid, None)),
      Response(Field("cpl_uuid", 16, Some(32), BytesToUuid, None)),
      Response(Field("not_valid_before", 32, Some(40), BytesToInt, None)),
      Response(Field("not_valid_after", 40, Some(48), BytesToInt, None)),
      Response(Field("key_id_list", 56, Some(-1), BytesToUuidList, None)),
      Response(Field("response", -1, None, BytesToInt, None))
    ]
    case 14 => [
      Response(Field("kdm_uuid", 0, Some(16), BytesToUuid, None)),
      Response(Field("cpl_uuid", 16, Some(32), BytesToUuid, None)),
      Response(Field("not_valid_before", 32, Some(40), BytesToInt, None)),
      Response(Field("not_valid_after", 40, Some(48), BytesToInt, None)),
      Response(Field("key_id_list", 56, Some(-293), BytesToUuidList, None)),
      Response(Field("forensic_picture_disable", -293, Some(-292), BytesToInt, None)),
      Response(Field("forensic_audio_disable", -292, Some(-291), BytesToInt, None)),
      Response(Field("reserved0", -291, Some(-290), BytesToInt, None)),
      Response(Field("content_authenticator_length", -290, Some(-289), BytesToInt, None)),
      Response(Field("content_authenticator", -289, Some(-257), BytesToText, None)),
      Response(Field("x509_subject_name", -257, Some(-1), BytesToText, None)),
      Response(Field("response", -1, None, BytesToInt, None))
    ]
    case 15 => [
      Response(Field("timezone", 0, Some(-1), BytesToText, None)),
      Response(Field("response", -1, None, BytesToInt, None))
    ]
    case 16 => [
      Response(Field("username", 0, Some(16), BytesToText, None)),
      Response(Field("dci_level", 16, Some(-1), BytesToInt, None)),
      Response(Field("response", -1, None, BytesToInt, None))
    ]
    case 17 => [
      Response(Field("errorcode", 0, Some(1), BytesToInt, None)),
      Response(Field("reserved0", 1, Some(1), BytesToInt, None)),
      Response(Field("reserved1", 2, Some(2), BytesToInt, None)),
      Response(Field("xml", 4, Some(-1), BytesToText, None)),
      Response(Field("response", -1, None, BytesToInt, None))
    ]
    case 18 => [
      Response(Field("errorcode", 0, Some(1), BytesToText, None)),
      Response(Field("reserved0", 1, Some(1), BytesToInt, None)),
      Response(Field("reserved1", 2, Some(2), BytesToInt, None)),
      Response(Field("last_id", 4, Some(-1), BytesToInt, None)),
      Response(Field("response", -1, None, BytesToInt, None))
    ]
    case 19 => [
      Response(Field("playblack_state", 0, Some(1), BytesToInt, Some(PLAYBACK_STATE))),
      Response(Field("spl_id", 1, Some(17), BytesToUuid, None)),
      Response(Field("show_playlist_position", 17, Some(21), BytesToInt, None)),
      Response(Field("show_playlist_duration", 21, Some(25), BytesToInt, None)),
      Response(Field("current_cpl_id", 25, Some(41), BytesToUuid, None)),
      Response(Field("current_event_id", 41, Some(57), BytesToUuid, None)),
      Response(Field("current_element_id", 57, Some(73), BytesToUuid, None)),
      Response(Field("current_element_position", 73, Some(77), BytesToInt, None)),
      Response(Field("current_element_duration", 77, Some(81), BytesToInt, None)),
      Response(Field("response", -1, None, BytesToInt, None))
    ]
    case 20 => [
      Response(Field("certificate", 0, Some(-1), BytesToText, None)),
      Response(Field("response", -1, None, BytesToInt, None))
    ]
    case 21 => [
      Response(Field("version_major", 0, Some(1), BytesToInt, None)),
      Response(Field("version_minor", 1, Some(2), BytesToInt, None)),
      Response(Field("version_build", 2, Some(3), BytesToInt, None))
    ]
  }

  /** The inverse of Name: the index declared with a name, or -1. */
  function IndexOfName(name: string): int
  {
    match name
    case "GetCPLList" => 0
    case "GetSPLList" => 1
    case "GetCPLInfo" => 2
    case "GetCPLInfo2" => 3
    case "GetProductInfo" => 4
    case "DeleteCPL" => 5
    case "StoreCPL" => 6
    case "RetrieveCPL" => 7
    case "ValidateCPL" => 8
    case "GetCPLSize" => 9
    case "GetCPLMarker" => 10
    case "GetCPLPlayStat" => 11
    case "GetKDMList" => 12
    case "GetKDMInfo" => 13
    case "GetKDMInfo2" => 14
    case "GetTimeZone" => 15
    case "WhoAmI" => 16
    case "GetLog" => 17
    case "GetLogLastId" => 18
    case "StatusSPL" => 19
    case "GetProductCertificate" => 20
    case "GetAPIProtocolVersion" => 21
    case _ => -1
  }

  /** The inverse of Hex: the index declared with a hex key, or -1. */
  function IndexOfHex(hex: string): int
  {
    match hex
    case "010200" => 0
    case "030200" => 1
    case "010400" => 2
    case "010401" => 3
    case "050200" => 4
    case "010600" => 5
    case "010A00" => 6
    case "010800" => 7
    case "010C00" => 8
    case "010E00" => 9
    case "011000" => 10
    case "011200" => 11
    case "020200" => 12
    case "020400" => 13
    case "020401" => 14
    case "052000" => 15
    case "0E0C00" => 16
    case "110200" => 17
    case "110400" => 18
    case "031C00" => 19
    case "050400" => 20
    case "050600" => 21
    case _ => -1
  }

  lemma Entry0()
    ensures ValidKey(Hex(0)) && IndexOfHex(Hex(0)) == 0 && IndexOfName(Name(0)) == 0
    ensures ResponseIsLastByte(Elements(0))
  {
  }

  lemma Entry1()
    ensures ValidKey(Hex(1)) && IndexOfHex(Hex(1)) == 1 && IndexOfName(Name(1)) == 1
    ensures ResponseIsLastByte(Elements(1))
  {
  }

  lemma Entry2()
    ensures ValidKey(Hex(2)) && IndexOfHex(Hex(2)) == 2 && IndexOfName(Name(2)) == 2
    ensures ResponseIsLastByte(Elements(2))
  {
  }

  lemma Entry3()
    ensures ValidKey(Hex(3)) && IndexOfHex(Hex(3)) == 3 && IndexOfName(Name(3)) == 3
    ensures ResponseIsLastByte(Elements(3))
  {
  }

  lemma Entry4()
    ensures ValidKey(Hex(4)) && IndexOfHex(Hex(4)) == 4 && IndexOfName(Name(4)) == 4
    ensures ResponseIsLastByte(Elements(4))
  {
  }

  lemma Entry5()
    ensures ValidKey(Hex(5)) && IndexOfHex(Hex(5)) == 5 && IndexOfName(Name(5)) == 5
    ensures ResponseIsLastByte(Elements(5))
  {
  }

  lemma Entry6()
    ensures ValidKey(Hex(6)) && IndexOfHex(Hex(6)) == 6 && IndexOfName(Name(6)) == 6
    ensures ResponseIsLastByte(Elements(6))
  {
  }

  lemma Entry7()
    ensures ValidKey(Hex(7)) && IndexOfHex(Hex(7)) == 7 && IndexOfName(Name(7)) == 7
    ensures ResponseIsLastByte(Elements(7))
  {
  }

  lemma Entry8()
    ensures ValidKey(Hex(8)) && IndexOfHex(Hex(8)) == 8 && IndexOfName(Name(8)) == 8
    ensures ResponseIsLastByte(Elements(8))
  {
  }

  lemma Entry9()
    ensures ValidKey(Hex(9)) && IndexOfHex(Hex(9)) == 9 && IndexOfName(Name(9)) == 9
    ensures ResponseIsLastByte(Elements(9))
  {
  }

  lemma Entry10()
    ensures ValidKey(Hex(10)) && IndexOfHex(Hex(10)) == 10 && IndexOfName(Name(10)) == 10
    ensures ResponseIsLastByte(Elements(10))
  {
  }

  lemma Entry11()
    ensures ValidKey(Hex(11)) && IndexOfHex(Hex(11)) == 11 && IndexOfName(Name(11)) == 11
    ensures ResponseIsLastByte(Elements(11))
  {
  }

  lemma Entry12()
    ensures ValidKey(Hex(12)) && IndexOfHex(Hex(12)) == 12 && IndexOfName(Name(12)) == 12
    ensures ResponseIsLastByte(Elements(12))
  {
  }

  lemma Entry13()
    ensures ValidKey(Hex(13)) && IndexOfHex(Hex(13)) == 13 && IndexOfName(Name(13)) == 13
    ensures ResponseIsLastByte(Elements(13))
  {
  }

  lemma Entry14()
    ensures ValidKey(Hex(14)) && IndexOfHex(Hex(14)) == 14 && IndexOfName(Name(14)) == 14
    ensures ResponseIsLastByte(Elements(14))
  {
  }

  lemma Entry15()
    ensures ValidKey(Hex(15)) && IndexOfHex(Hex(15)) == 15 && IndexOfName(Name(15)) == 15
    ensures ResponseIsLastByte(Elements(15))
  {
  }

  lemma Entry16()
    ensures ValidKey(Hex(16)) && IndexOfHex(Hex(16)) == 16 && IndexOfName(Name(16)) == 16
    ensures ResponseIsLastByte(Elements(16))
  {
  }

  lemma Entry17()
    ensures ValidKey(Hex(17)) && IndexOfHex(Hex(17)) == 17 && IndexOfName(Name(17)) == 17
    ensures ResponseIsLastByte(Elements(17))
  {
  }

  lemma Entry18()
    ensures ValidKey(Hex(18)) && IndexOfHex(Hex(18)) == 18 && IndexOfName(Name(18)) == 18
    ensures ResponseIsLastByte(Elements(18))
  {
  }

  lemma Entry19()
    ensures ValidKey(Hex(19)) && IndexOfHex(Hex(19)) == 19 && IndexOfName(Name(19)) == 19
    ensures ResponseIsLastByte(Elements(19))
  {
  }

  lemma Entry20()
    ensures ValidKey(Hex(20)) && IndexOfHex(Hex(20)) == 20 && IndexOfName(Name(20)) == 20
    ensures ResponseIsLastByte(Elements(20))
  {
  }

  lemma Entry21()
    ensures ValidKey(Hex(21)) && IndexOfHex(Hex(21)) == 21 && IndexOfName(Name(21)) == 21
    ensures ResponseIsLastByte(Elements(21))
  {
  }

  /** Every declared key is six upper-case hex digits, the declared names and
      keys are inverted by IndexOfName and IndexOfHex, and every `response`
      field is the final byte. */
  lemma EntryFacts(i: nat)
    requires i < COUNT
    ensures ValidKey(Hex(i)) && IndexOfHex(Hex(i)) == i && IndexOfName(Name(i)) == i
    ensures ResponseIsLastByte(Elements(i))
  {
    if i == 0 { Entry0(); }
    else if i == 1 { Entry1(); }
    else if i == 2 { Entry2(); }
    else if i == 3 { Entry3(); }
    else if i == 4 { Entry4(); }
    else if i == 5 { Entry5(); }
    else if i == 6 { Entry6(); }
    else if i == 7 { Entry7(); }
    else if i == 8 { Entry8(); }
    else if i == 9 { Entry9(); }
    else if i == 10 { Entry10(); }
    else if i == 11 { Entry11(); }
    else if i == 12 { Entry12(); }
    else if i == 13 { Entry13(); }
    else if i == 14 { Entry14(); }
    else if i == 15 { Entry15(); }
    else if i == 16 { Entry16(); }
    else if i == 17 { Entry17(); }
    else if i == 18 { Entry18(); }
    else if i == 19 { Entry19(); }
    else if i == 20 { Entry20(); }
    else if i == 21 { Entry21(); }
  }


  /** Definition i, as the MessageDefinition constructor builds it. */
  function Definition(i: nat): (d: MessageDefinition)
    requires i < COUNT
    ensures d.name == Name(i) && d.elements == Elements(i)
    ensures |d.key| == 3 && ToHex(d.key) == Hex(i)
  {
    EntryFacts(i);
    ValidKeyDefines(Name(i), Hex(i), Elements(i));
    Define(Name(i), Hex(i), Some(Elements(i))).value
  }

  /** RESPONSES, in declaration order. */
  function All(): (r: seq<MessageDefinition>)
    ensures |r| == COUNT
    ensures forall i :: 0 <= i < COUNT ==> r[i] == Definition(i)
  {
    seq(COUNT, i requires 0 <= i < COUNT => Definition(i))
  }

  /** No two responses share a name, and no two share a key. */
  lemma Distinct()
    ensures DistinctNames(All()) && DistinctKeys(All())
  {
    var ms := All();
    forall i, j | 0 <= i < j < |ms|
      ensures ms[i].name != ms[j].name && ms[i].key != ms[j].key
    {
      EntryFacts(i);
      EntryFacts(j);
    }
  }

  /** Each index of the registry built over RESPONSES maps a definition's
      name, its key bytes and its hex key text to that definition. */
  lemma Registry(l: MessageList, i: nat)
    requires l.Valid() && l.messages == All()
    requires i < COUNT
    ensures l.GetByName(Name(i)) == Some(Definition(i))
    ensures l.GetByKey(Raw(Definition(i).key)) == Success(Some(Definition(i)))
    ensures l.GetByKey(Named(Hex(i))) == Success(Some(Definition(i)))
  {
    Distinct();
    LookupExact(l, i);
  }

  // ---------------------------------------------------------------------------
  // Layout properties
  // ---------------------------------------------------------------------------

  /** Every field named `response` reads the slice [-1:]. */
  predicate ResponseIsLastByte(els: seq<Element>)
  {
    forall k :: 0 <= k < |els| && els[k].Response? && els[k].field.name == "response" ==>
      els[k].field.start == -1 && els[k].field.end == None
  }

  /** Wherever a response declares a `response` field, that field holds
      exactly the final payload byte (nothing for an empty payload). */
  lemma ResponseFieldIsLastByte(i: nat, k: nat, payload: seq<byte>)
    requires i < COUNT && k < |Elements(i)|
    requires Elements(i)[k].Response? && Elements(i)[k].field.name == "response"
    ensures var f := Elements(i)[k].field;
      PySlice(payload, f.start, f.end) == if |payload| == 0 then [] else [payload[|payload| - 1]]
  {
    EntryFacts(i);
    LastSlice(payload);
  }

  /** GetProductInfo, GetCPLPlayStat and GetAPIProtocolVersion have no
      `response` element. */
  lemma NoResponseElement()
    ensures Name(4) == "GetProductInfo" && Name(11) == "GetCPLPlayStat" && Name(21) == "GetAPIProtocolVersion"
    ensures forall k :: 0 <= k < |Elements(4)| ==> Elements(4)[k].Name() != "response"
    ensures forall k :: 0 <= k < |Elements(11)| ==> Elements(11)[k].Name() != "response"
    ensures forall k :: 0 <= k < |Elements(21)| ==> Elements(21)[k].Name() != "response"
  {
  }

  /** The slice a response field or batch reads (a request element reads
      nothing). */
  function Span(e: Element): (int, Option<int>)
  {
    match e
    case Request(_, _, _) => (0, Some(0))
    case Response(f) => (f.start, f.end)
    case Batch(_, s, t, _) => (s, t)
  }

  /** A span whose bounds have the same sign (or run to the end) and are
      ascending: its normalised bounds are ordered for every buffer. */
  predicate Ordered(s: int, t: Option<int>)
  {
    match t
    case None => true
    case Some(x) => 0 <= s <= x || s <= x < 0
  }

  /** The elements from index k on read adjacent slices from `from` to
      `to`: each one ends where the next starts. */
  predicate TilesFrom(els: seq<Element>, k: nat, from: int, to: Option<int>)
    decreases |els| - k
  {
    && k < |els|
    && !els[k].Request?
    && Span(els[k]).0 == from
    && Ordered(Span(els[k]).0, Span(els[k]).1)
    && if k == |els| - 1 then Span(els[k]).1 == to
       else Span(els[k]).1 == Some(Span(els[k + 1]).0) && TilesFrom(els, k + 1, Span(els[k + 1]).0, to)
  }

  predicate Tiles(els: seq<Element>, from: int, to: Option<int>)
  {
    TilesFrom(els, 0, from, to)
  }

  /** The bytes the elements from index k on read, one after the other. */
  function ReadsFrom(els: seq<Element>, k: nat, b: seq<byte>): seq<byte>
    decreases |els| - k
  {
    if k >= |els| then [] else PySlice(b, Span(els[k]).0, Span(els[k]).1) + ReadsFrom(els, k + 1, b)
  }

  lemma BoundMonotone(i: int, j: int, n: nat)
    requires 0 <= i <= j || i <= j < 0
    ensures Bound(i, n) <= Bound(j, n)
  {
  }

  /** Tiling fields read every byte of their span exactly once, in order:
      the concatenation of their slices is the slice of the whole span. */
  lemma {:induction false} TilingCovers(els: seq<Element>, k: nat, from: int, to: Option<int>, b: seq<byte>)
    requires TilesFrom(els, k, from, to)
    ensures Bound(from, |b|) <= EndBound(to, |b|)
    ensures ReadsFrom(els, k, b) == PySlice(b, from, to)
    decreases |els| - k
  {
    if k == |els| - 1 {
      assert ReadsFrom(els, k + 1, b) == [];
      match to
      case None =>
      case Some(x) => BoundMonotone(from, x, |b|);
    } else {
      var mid := Span(els[k + 1]).0;
      TilingCovers(els, k + 1, mid, to, b);
      BoundMonotone(from, mid, |b|);
      SliceConcat(b, from, mid, to);
    }
  }

  /** The fifteen fixed fields of GetCPLInfo tile bytes 0 to 168. */
  lemma CplInfoFixedFields()
    ensures Tiles(CPL_INFO_FIXED, 0, Some(168))
  {
    assert TilesFrom(CPL_INFO_FIXED, 14, 167, Some(168));
    assert TilesFrom(CPL_INFO_FIXED, 13, 166, Some(168));
    assert TilesFrom(CPL_INFO_FIXED, 12, 165, Some(168));
    assert TilesFrom(CPL_INFO_FIXED, 11, 164, Some(168));
    assert TilesFrom(CPL_INFO_FIXED, 10, 163, Some(168));
    assert TilesFrom(CPL_INFO_FIXED, 9, 161, Some(168));
    assert TilesFrom(CPL_INFO_FIXED, 8, 159, Some(168));
    assert TilesFrom(CPL_INFO_FIXED, 7, 158, Some(168));
    assert TilesFrom(CPL_INFO_FIXED, 6, 154, Some(168));
    assert TilesFrom(CPL_INFO_FIXED, 5, 150, Some(168));
    assert TilesFrom(CPL_INFO_FIXED, 4, 146, Some(168));
    assert TilesFrom(CPL_INFO_FIXED, 3, 145, Some(168));
    assert TilesFrom(CPL_INFO_FIXED, 2, 17, Some(168));
    assert TilesFrom(CPL_INFO_FIXED, 1, 16, Some(168));
  }

  /** GetCPLInfo and GetCPLInfo2 share those fixed fields; the key-id list
      that follows them ends before the final byte in the first and before
      the 55-byte trailer in the second. */
  lemma CplInfoShared()
    ensures Name(2) == "GetCPLInfo" && Name(3) == "GetCPLInfo2"
    ensures Elements(2)[..15] == CPL_INFO_FIXED && Elements(3)[..15] == CPL_INFO_FIXED
    ensures Elements(2)[15].Name() == "crypto_key_id_list" && Span(Elements(2)[15]) == (176, Some(-1))
    ensures Elements(2)[16].Name() == "response" && |Elements(2)| == 17
    ensures Elements(3)[15].Name() == "crypto_key_id_list" && Span(Elements(3)[15]) == (176, Some(-55))
  {
  }

  /** GetCPLInfo2's trailer tiles the last 55 bytes through to the end of the
      payload. */
  lemma CplInfo2Trailer()
    ensures Elements(3)[16..] == CPL_INFO2_TRAILER
    ensures Tiles(CPL_INFO2_TRAILER, -55, None)
  {
    assert TilesFrom(CPL_INFO2_TRAILER, 14, -1, None);
    assert TilesFrom(CPL_INFO2_TRAILER, 13, -5, None);
    assert TilesFrom(CPL_INFO2_TRAILER, 12, -9, None);
    assert TilesFrom(CPL_INFO2_TRAILER, 11, -25, None);
    assert TilesFrom(CPL_INFO2_TRAILER, 10, -29, None);
    assert TilesFrom(CPL_INFO2_TRAILER, 9, -33, None);
    assert TilesFrom(CPL_INFO2_TRAILER, 8, -37, None);
    assert TilesFrom(CPL_INFO2_TRAILER, 7, -41, None);
    assert TilesFrom(CPL_INFO2_TRAILER, 6, -45, None);
    assert TilesFrom(CPL_INFO2_TRAILER, 5, -49, None);
    assert TilesFrom(CPL_INFO2_TRAILER, 4, -51, None);
    assert TilesFrom(CPL_INFO2_TRAILER, 3, -52, None);
    assert TilesFrom(CPL_INFO2_TRAILER, 2, -53, None);
    assert TilesFrom(CPL_INFO2_TRAILER, 1, -54, None);
  }

  /** GetKDMInfo2's trailer, from its sixth element on, tiles the last 293
      bytes through to the end. */
  lemma KdmInfo2Trailer()
    ensures Name(14) == "GetKDMInfo2"
    ensures Span(Elements(14)[4]) == (56, Some(-293))
    ensures TilesFrom(Elements(14), 5, -293, None)
  {
    assert TilesFrom(Elements(14), 11, -1, None);
    assert TilesFrom(Elements(14), 10, -257, None);
    assert TilesFrom(Elements(14), 9, -289, None);
    assert TilesFrom(Elements(14), 8, -290, None);
    assert TilesFrom(Elements(14), 7, -291, None);
    assert TilesFrom(Elements(14), 6, -292, None);
  }

  /** GetLog and GetLogLastId declare reserved0 as [1:1] and reserved1 as
      [2:2], which read nothing from any payload. */
  lemma ReservedFieldsEmpty(payload: seq<byte>)
    ensures Name(17) == "GetLog" && Name(18) == "GetLogLastId"
    ensures Elements(17)[1].Name() == "reserved0" && Elements(17)[2].Name() == "reserved1"
    ensures Elements(18)[1].Name() == "reserved0" && Elements(18)[2].Name() == "reserved1"
    ensures forall k :: 1 <= k <= 2 ==>
      && PySlice(payload, Span(Elements(17)[k]).0, Span(Elements(17)[k]).1) == []
      && PySlice(payload, Span(Elements(18)[k]).0, Span(Elements(18)[k]).1) == []
  {
    EmptySlice(payload, 1);
    EmptySlice(payload, 2);
  }

  /** Each marker record of a GetCPLMarker payload holds the label text of
      record bytes [0:16] and the offset of record bytes [16:20]. */
  lemma CplMarkerRecords(b: seq<byte>, i: nat)
    requires i < BatchLength(b)
    ensures Name(10) == "GetCPLMarker" && Elements(10)[0] == Batch("markers", 0, Some(-1), MARKER_FIELDS)
    ensures var item := BatchItems(MARKER_FIELDS, b)[i];
      var chunk := Chunk(b, i, ItemSize(b));
      && item.Dict?
      && item.entries.Keys == {"label", "offset"}
      && item.entries["label"] == Decode(BytesToText, PySlice(chunk, 0, Some(16)))
      && item.entries["offset"] == Decode(BytesToInt, PySlice(chunk, 16, Some(20)))
  {
    MarkerEntry();
    BatchItem(MARKER_FIELDS, b, i);
    MarkerRecord(Chunk(b, i, ItemSize(b)));
  }

  /** Entry 10 is GetCPLMarker, whose first element is the marker batch. */
  lemma MarkerEntry()
    ensures Name(10) == "GetCPLMarker" && Elements(10)[0] == Batch("markers", 0, Some(-1), MARKER_FIELDS)
  {
  }

  /** The record the marker fields read from one chunk. */
  lemma MarkerRecord(chunk: seq<byte>)
    ensures var item := DecodeRecord(MARKER_FIELDS, chunk);
      && item.Keys == {"label", "offset"}
      && item["label"] == Decode(BytesToText, PySlice(chunk, 0, Some(16)))
      && item["offset"] == Decode(BytesToInt, PySlice(chunk, 16, Some(20)))
  {
    var subs := MARKER_FIELDS;
    assert DistinctOutputs(subs);
    DecodeRecordField(subs, chunk, 0);
    DecodeRecordField(subs, chunk, 1);
    DecodeRecordKeys(subs, chunk);
    assert subs[..1] == [subs[0]];
  }
}

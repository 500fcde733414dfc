/**
 * The request definitions: for each request the client can send, its name, its
 * 3-byte key written as hex, and its parameters with their static keyword
 * arguments (dcitools/devices/doremi/requests.py). The table is kept as three
 * parallel functions of the declaration index, with the inverse lookups
 * IndexOfName and IndexOfHex that make distinctness checkable.
 */
module Requests {
  import opened Wrappers
  import opened Bytes
  import opened Message

  /** The number of declared requests. */
  const COUNT: nat := 35

  function Name(i: nat): string
    requires i < COUNT
  {
    match i
    case 0 => "GetCPLList"
    case 1 => "GetCPLInfo"
    case 2 => "GetCPLInfo2"
    case 3 => "DeleteCPL"
    case 4 => "StoreCPL"
    case 5 => "RetrieveCPL"
    case 6 => "ValidateCPL"
    case 7 => "GetCPLSize"
    case 8 => "GetCPLMarker"
    case 9 => "GetCPLPlayStat"
    case 10 => "GetKDMList"
    case 11 => "GetKDMInfo"
    case 12 => "GetKDMInfo2"
    case 13 => "GetSPLList"
    case 14 => "StoreSPL"
    case 15 => "ValidateSPL"
    case 16 => "StatusSPL"
    case 17 => "StatusSPL2"
    case 18 => "PlaySPL"
    case 19 => "PauseSPL"
    case 20 => "AddSchedule2"
    case 21 => "GetScheduleInfo2"
    case 22 => "GetCurrentSchedule"
    case 23 => "GetNextSchedule"
    case 24 => "SetSchedulerEnable"
    case 25 => "GetSchedulerEnable"
    case 26 => "GetProductInfo"
    case 27 => "GetTimeZone"
    case 28 => "WhoAmI"
    case 29 => "GetProductCertificate"
    case 30 => "GetAPIProtocolVersion"
    case 31 => "GetLog"
    case 32 => "GetLogLastId"
    case 33 => "IngestAddJob"
    case 34 => "IngestGetJobStatus"
  }

  function Hex(i: nat): string
    requires i < COUNT
  {
    match i
    case 0 => "010100"
    case 1 => "010300"
    case 2 => "010301"
    case 3 => "010500"
    case 4 => "010900"
    case 5 => "010700"
    case 6 => "010B00"
    case 7 => "010D00"
    case 8 => "010F00"
    case 9 => "011100"
    case 10 => "020100"
    case 11 => "020300"
    case 12 => "020301"
    case 13 => "030100"
    case 14 => "031F00"
    case 15 => "032500"
    case 16 => "031B00"
    case 17 => "031B01"
    case 18 => "030B00"
    case 19 => "030D00"
    case 20 => "040101"
    case 21 => "040701"
    case 22 => "040900"
    case 23 => "040B00"
    case 24 => "040D00"
    case 25 => "040F00"
    case 26 => "050100"
    case 27 => "051F00"
    case 28 => "0E0B00"
    case 29 => "050300"
    case 30 => "050500"
    case 31 => "110100"
    case 32 => "110300"
    case 33 => "070F00"
    case 34 => "071D00"
  }

  function Elements(i: nat): seq<Element>
    requires i < COUNT
  {
    match i
    case 1 => [Request("uuid", UuidToBytes, map[])]
    case 2 => [Request("uuid", UuidToBytes, map[])]
    case 3 => [Request("uuid", UuidToBytes, map[])]
    case 4 => [Request("xml", TextToBytes, map[])]
    case 5 => [Request("uuid", UuidToBytes, map[])]
    case 6 => [
      Request("uuid", UuidToBytes, map[]),
      Request("time", TextToBytes, map["size" := 32]),
      Request("level", IntToBytes, map[])
    ]
    case 7 => [Request("uuid", UuidToBytes, map[])]
    case 8 => [Request("uuid", UuidToBytes, map[])]
    case 9 => [Request("uuid", UuidToBytes, map[])]
    case 11 => [Request("uuid", UuidToBytes, map[])]
    case 12 => [Request("uuid", UuidToBytes, map[])]
    case 14 => [Request("xml", TextToBytes, map[])]
    case 15 => [
      Request("uuid", UuidToBytes, map[]),
      Request("time", TextToBytes, map["size" := 32]),
      Request("level", IntToBytes, map[])
    ]
    case 17 => [Request("flags", IntToBytes, map["size" := 4])]
    case 20 => [
      Request("spl_id", UuidToBytes, map[]),
      Request("time", TextToBytes, map["size" := 32]),
      Request("duration", IntToBytes, map["size" := 32]),
      Request("flags", IntToBytes, map["size" := 64]),
      Request("annotation_text", TextToBytes, map["size" := 128])
    ]
    case 21 => [Request("id", UuidToBytes, map["size" := 64])]
    case 24 => [Request("enable", BoolToBytes, map[])]
    case 29 => [Request("type", IntToBytes, map["bit" := 8])]
    case 31 => [
      Request("database", TextToBytes, map["size" := 8]),
      Request("idmin", IntToBytes, map["bit" := 64]),
      Request("idmax", IntToBytes, map["bit" := 64])
    ]
    case 32 => [Request("database", TextToBytes, map["size" := 8])]
    case 33 => [Request("xml", TextToBytes, map[])]
    case 34 => [Request("job_id", IntToBytes, map["size" := 64])]
    case _ => []
  }

  /** The inverse of Name: the index declared with a name, or -1. */
  function IndexOfName(name: string): int
  {
    match name
    case "GetCPLList" => 0
    case "GetCPLInfo" => 1
    case "GetCPLInfo2" => 2
    case "DeleteCPL" => 3
    case "StoreCPL" => 4
    case "RetrieveCPL" => 5
    case "ValidateCPL" => 6
    case "GetCPLSize" => 7
    case "GetCPLMarker" => 8
    case "GetCPLPlayStat" => 9
    case "GetKDMList" => 10
    case "GetKDMInfo" => 11
    case "GetKDMInfo2" => 12
    case "GetSPLList" => 13
    case "StoreSPL" => 14
    case "ValidateSPL" => 15
    case "StatusSPL" => 16
    case "StatusSPL2" => 17
    case "PlaySPL" => 18
    case "PauseSPL" => 19
    case "AddSchedule2" => 20
    case "GetScheduleInfo2" => 21
    case "GetCurrentSchedule" => 22
    case "GetNextSchedule" => 23
    case "SetSchedulerEnable" => 24
    case "GetSchedulerEnable" => 25
    case "GetProductInfo" => 26
    case "GetTimeZone" => 27
    case "WhoAmI" => 28
    case "GetProductCertificate" => 29
    case "GetAPIProtocolVersion" => 30
    case "GetLog" => 31
    case "GetLogLastId" => 32
    case "IngestAddJob" => 33
    case "IngestGetJobStatus" => 34
    case _ => -1
  }

  /** The inverse of Hex: the index declared with a hex key, or -1. */
  function IndexOfHex(hex: string): int
  {
    match hex
    case "010100" => 0
    case "010300" => 1
    case "010301" => 2
    case "010500" => 3
    case "010900" => 4
    case "010700" => 5
    case "010B00" => 6
    case "010D00" => 7
    case "010F00" => 8
    case "011100" => 9
    case "020100" => 10
    case "020300" => 11
    case "020301" => 12
    case "030100" => 13
    case "031F00" => 14
    case "032500" => 15
    case "031B00" => 16
    case "031B01" => 17
    case "030B00" => 18
    case "030D00" => 19
    case "040101" => 20
    case "040701" => 21
    case "040900" => 22
    case "040B00" => 23
    case "040D00" => 24
    case "040F00" => 25
    case "050100" => 26
    case "051F00" => 27
    case "0E0B00" => 28
    case "050300" => 29
    case "050500" => 30
    case "110100" => 31
    case "110300" => 32
    case "070F00" => 33
    case "071D00" => 34
    case _ => -1
  }

  lemma Entry0()
    ensures ValidKey(Hex(0)) && IndexOfHex(Hex(0)) == 0 && IndexOfName(Name(0)) == 0
  {
  }

  lemma Entry1()
    ensures ValidKey(Hex(1)) && IndexOfHex(Hex(1)) == 1 && IndexOfName(Name(1)) == 1
  {
  }

  lemma Entry2()
    ensures ValidKey(Hex(2)) && IndexOfHex(Hex(2)) == 2 && IndexOfName(Name(2)) == 2
  {
  }

  lemma Entry3()
    ensures ValidKey(Hex(3)) && IndexOfHex(Hex(3)) == 3 && IndexOfName(Name(3)) == 3
  {
  }

  lemma Entry4()
    ensures ValidKey(Hex(4)) && IndexOfHex(Hex(4)) == 4 && IndexOfName(Name(4)) == 4
  {
  }

  lemma Entry5()
    ensures ValidKey(Hex(5)) && IndexOfHex(Hex(5)) == 5 && IndexOfName(Name(5)) == 5
  {
  }

  lemma Entry6()
    ensures ValidKey(Hex(6)) && IndexOfHex(Hex(6)) == 6 && IndexOfName(Name(6)) == 6
  {
  }

  lemma Entry7()
    ensures ValidKey(Hex(7)) && IndexOfHex(Hex(7)) == 7 && IndexOfName(Name(7)) == 7
  {
  }

  lemma Entry8()
    ensures ValidKey(Hex(8)) && IndexOfHex(Hex(8)) == 8 && IndexOfName(Name(8)) == 8
  {
  }

  lemma Entry9()
    ensures ValidKey(Hex(9)) && IndexOfHex(Hex(9)) == 9 && IndexOfName(Name(9)) == 9
  {
  }

  lemma Entry10()
    ensures ValidKey(Hex(10)) && IndexOfHex(Hex(10)) == 10 && IndexOfName(Name(10)) == 10
  {
  }

  lemma Entry11()
    ensures ValidKey(Hex(11)) && IndexOfHex(Hex(11)) == 11 && IndexOfName(Name(11)) == 11
  {
  }

  lemma Entry12()
    ensures ValidKey(Hex(12)) && IndexOfHex(Hex(12)) == 12 && IndexOfName(Name(12)) == 12
  {
  }

  lemma Entry13()
    ensures ValidKey(Hex(13)) && IndexOfHex(Hex(13)) == 13 && IndexOfName(Name(13)) == 13
  {
  }

  lemma Entry14()
    ensures ValidKey(Hex(14)) && IndexOfHex(Hex(14)) == 14 && IndexOfName(Name(14)) == 14
  {
  }

  lemma Entry15()
    ensures ValidKey(Hex(15)) && IndexOfHex(Hex(15)) == 15 && IndexOfName(Name(15)) == 15
  {
  }

  lemma Entry16()
    ensures ValidKey(Hex(16)) && IndexOfHex(Hex(16)) == 16 && IndexOfName(Name(16)) == 16
  {
  }

  lemma Entry17()
    ensures ValidKey(Hex(17)) && IndexOfHex(Hex(17)) == 17 && IndexOfName(Name(17)) == 17
  {
  }

  lemma Entry18()
    ensures ValidKey(Hex(18)) && IndexOfHex(Hex(18)) == 18 && IndexOfName(Name(18)) == 18
  {
  }

  lemma Entry19()
    ensures ValidKey(Hex(19)) && IndexOfHex(Hex(19)) == 19 && IndexOfName(Name(19)) == 19
  {
  }

  lemma Entry20()
    ensures ValidKey(Hex(20)) && IndexOfHex(Hex(20)) == 20 && IndexOfName(Name(20)) == 20
  {
  }

  lemma Entry21()
    ensures ValidKey(Hex(21)) && IndexOfHex(Hex(21)) == 21 && IndexOfName(Name(21)) == 21
  {
  }

  lemma Entry22()
    ensures ValidKey(Hex(22)) && IndexOfHex(Hex(22)) == 22 && IndexOfName(Name(22)) == 22
  {
  }

  lemma Entry23()
    ensures ValidKey(Hex(23)) && IndexOfHex(Hex(23)) == 23 && IndexOfName(Name(23)) == 23
  {
  }

  lemma Entry24()
    ensures ValidKey(Hex(24)) && IndexOfHex(Hex(24)) == 24 && IndexOfName(Name(24)) == 24
  {
  }

  lemma Entry25()
    ensures ValidKey(Hex(25)) && IndexOfHex(Hex(25)) == 25 && IndexOfName(Name(25)) == 25
  {
  }

  lemma Entry26()
    ensures ValidKey(Hex(26)) && IndexOfHex(Hex(26)) == 26 && IndexOfName(Name(26)) == 26
  {
  }

  lemma Entry27()
    ensures ValidKey(Hex(27)) && IndexOfHex(Hex(27)) == 27 && IndexOfName(Name(27)) == 27
  {
  }

  lemma Entry28()
    ensures ValidKey(Hex(28)) && IndexOfHex(Hex(28)) == 28 && IndexOfName(Name(28)) == 28
  {
  }

  lemma Entry29()
    ensures ValidKey(Hex(29)) && IndexOfHex(Hex(29)) == 29 && IndexOfName(Name(29)) == 29
  {
  }

  lemma Entry30()
    ensures ValidKey(Hex(30)) && IndexOfHex(Hex(30)) == 30 && IndexOfName(Name(30)) == 30
  {
  }

  lemma Entry31()
    ensures ValidKey(Hex(31)) && IndexOfHex(Hex(31)) == 31 && IndexOfName(Name(31)) == 31
  {
  }

  lemma Entry32()
    ensures ValidKey(Hex(32)) && IndexOfHex(Hex(32)) == 32 && IndexOfName(Name(32)) == 32
  {
  }

  lemma Entry33()
    ensures ValidKey(Hex(33)) && IndexOfHex(Hex(33)) == 33 && IndexOfName(Name(33)) == 33
  {
  }

  lemma Entry34()
    ensures ValidKey(Hex(34)) && IndexOfHex(Hex(34)) == 34 && IndexOfName(Name(34)) == 34
  {
  }

  /** Every declared key is six upper-case hex digits, and the declared names
      and keys are inverted by IndexOfName and IndexOfHex. */
  lemma EntryFacts(i: nat)
    requires i < COUNT
    ensures ValidKey(Hex(i)) && IndexOfHex(Hex(i)) == i && IndexOfName(Name(i)) == i
  {
    if i == 0 { Entry0(); }
    else if i == 1 { Entry1(); }
    else if i == 2 { Entry2(); }
    else if i == 3 { Entry3(); }
    else if i == 4 { Entry4(); }
    else if i == 5 { Entry5(); }
    else if i == 6 { Entry6(); }
    else if i == 7 { Entry7(); }
    else if i == 8 { Entry8(); }
    else if i == 9 { Entry9(); }
    else if i == 10 { Entry10(); }
    else if i == 11 { Entry11(); }
    else if i == 12 { Entry12(); }
    else if i == 13 { Entry13(); }
    else if i == 14 { Entry14(); }
    else if i == 15 { Entry15(); }
    else if i == 16 { Entry16(); }
    else if i == 17 { Entry17(); }
    else if i == 18 { Entry18(); }
    else if i == 19 { Entry19(); }
    else if i == 20 { Entry20(); }
    else if i == 21 { Entry21(); }
    else if i == 22 { Entry22(); }
    else if i == 23 { Entry23(); }
    else if i == 24 { Entry24(); }
    else if i == 25 { Entry25(); }
    else if i == 26 { Entry26(); }
    else if i == 27 { Entry27(); }
    else if i == 28 { Entry28(); }
    else if i == 29 { Entry29(); }
    else if i == 30 { Entry30(); }
    else if i == 31 { Entry31(); }
    else if i == 32 { Entry32(); }
    else if i == 33 { Entry33(); }
    else if i == 34 { Entry34(); }
  }


  /** Definition i, as the MessageDefinition constructor builds it. */
  function Definition(i: nat): (d: MessageDefinition)
    requires i < COUNT
    ensures d.name == Name(i) && d.elements == Elements(i)
    ensures |d.key| == 3 && ToHex(d.key) == Hex(i)
  {
    EntryFacts(i);
    ValidKeyDefines(Name(i), Hex(i), Elements(i));
    Define(Name(i), Hex(i), Some(Elements(i))).value
  }

  /** REQUESTS, in declaration order. */
  function All(): (r: seq<MessageDefinition>)
    ensures |r| == COUNT
    ensures forall i :: 0 <= i < COUNT ==> r[i] == Definition(i)
  {
    seq(COUNT, i requires 0 <= i < COUNT => Definition(i))
  }

  /** No two requests share a name, and no two share a key. */
  lemma Distinct()
    ensures DistinctNames(All()) && DistinctKeys(All())
  {
    var ms := All();
    forall i, j | 0 <= i < j < |ms|
      ensures ms[i].name != ms[j].name && ms[i].key != ms[j].key
    {
      EntryFacts(i);
      EntryFacts(j);
    }
  }

  /** Each index of the registry built over REQUESTS maps a definition's
      name, its key bytes and its hex key text to that definition. */
  lemma Registry(l: MessageList, i: nat)
    requires l.Valid() && l.messages == All()
    requires i < COUNT
    ensures l.GetByName(Name(i)) == Some(Definition(i))
    ensures l.GetByKey(Raw(Definition(i).key)) == Success(Some(Definition(i)))
    ensures l.GetByKey(Named(Hex(i))) == Success(Some(Definition(i)))
    ensures l.Get(Named(Name(i))) == Success(Some(Definition(i)))
  {
    Distinct();
    LookupExact(l, i);
  }

  /** The requests declared without parameters have no element names. */
  lemma ParameterlessRequests()
    ensures 0 <= IndexOfName("GetCPLList") < COUNT
    ensures 0 <= IndexOfName("GetKDMList") < COUNT
    ensures 0 <= IndexOfName("GetSPLList") < COUNT
    ensures 0 <= IndexOfName("StatusSPL") < COUNT
    ensures 0 <= IndexOfName("PlaySPL") < COUNT
    ensures 0 <= IndexOfName("PauseSPL") < COUNT
    ensures 0 <= IndexOfName("GetCurrentSchedule") < COUNT
    ensures 0 <= IndexOfName("GetNextSchedule") < COUNT
    ensures 0 <= IndexOfName("GetSchedulerEnable") < COUNT
    ensures 0 <= IndexOfName("GetProductInfo") < COUNT
    ensures 0 <= IndexOfName("GetTimeZone") < COUNT
    ensures 0 <= IndexOfName("WhoAmI") < COUNT
    ensures 0 <= IndexOfName("GetAPIProtocolVersion") < COUNT
    ensures Elements(IndexOfName("GetCPLList")) == []
    ensures Elements(IndexOfName("GetKDMList")) == []
    ensures Elements(IndexOfName("GetSPLList")) == []
    ensures Elements(IndexOfName("StatusSPL")) == []
    ensures Elements(IndexOfName("PlaySPL")) == []
    ensures Elements(IndexOfName("PauseSPL")) == []
    ensures Elements(IndexOfName("GetCurrentSchedule")) == []
    ensures Elements(IndexOfName("GetNextSchedule")) == []
    ensures Elements(IndexOfName("GetSchedulerEnable")) == []
    ensures Elements(IndexOfName("GetProductInfo")) == []
    ensures Elements(IndexOfName("GetTimeZone")) == []
    ensures Elements(IndexOfName("WhoAmI")) == []
    ensures Elements(IndexOfName("GetAPIProtocolVersion")) == []
  {
  }

  /** ValidateCPL and ValidateSPL take the same parameters: a UUID, a time
      text of size 32 and an integer level. */
  lemma ValidateLayouts()
    ensures Name(6) == "ValidateCPL" && Name(15) == "ValidateSPL"
    ensures Elements(6) == Elements(15)
    ensures ElementNames(Definition(6)) == ["uuid", "time", "level"]
    ensures Elements(6)[1] == Request("time", TextToBytes, map["size" := 32])
  {
  }

  /** AddSchedule2's parameters in order, with their declared sizes. */
  lemma AddSchedule2Layout()
    ensures Name(20) == "AddSchedule2"
    ensures |Elements(20)| == 5
    ensures Elements(20)[1].kwargs == map["size" := 32] && Elements(20)[2].kwargs == map["size" := 32]
    ensures Elements(20)[3].kwargs == map["size" := 64] && Elements(20)[4].kwargs == map["size" := 128]
    ensures ElementNames(Definition(20)) == ["spl_id", "time", "duration", "flags", "annotation_text"]
  {
    NamesOfFive(Definition(20));
  }

  lemma NamesOfFive(d: MessageDefinition)
    requires |d.elements| == 5 && d.elements[0].Request? && d.elements[0].name == "spl_id"
    requires d.elements[1].Request? && d.elements[1].name == "time"
    requires d.elements[2].Request? && d.elements[2].name == "duration"
    requires d.elements[3].Request? && d.elements[3].name == "flags"
    requires d.elements[4].Request? && d.elements[4].name == "annotation_text"
    ensures ElementNames(d) == ["spl_id", "time", "duration", "flags", "annotation_text"]
  {
  }

  /** Static keyword arguments are kept as declared. */
  lemma KeywordArguments()
    ensures Name(29) == "GetProductCertificate" && Elements(29) == [Request("type", IntToBytes, map["bit" := 8])]
    ensures Name(31) == "GetLog" && Elements(31)[1].kwargs == map["bit" := 64] && Elements(31)[2].kwargs == map["bit" := 64]
    ensures Name(17) == "StatusSPL2" && Elements(17) == [Request("flags", IntToBytes, map["size" := 4])]
  {
  }
}

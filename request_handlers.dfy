/**
 * The request handlers of the Doremi protocol: each turns the arguments of a
 * command call into the data bytes of the request.  The handlers build a list
 * of integers field by field and hand it to array('B'), which refuses any
 * item that is not a byte.
 *
 * Python arguments whose type the handler inspects (compares with an integer,
 * tests with `isdigit`, measures with `len`) are modelled as `Arg`; the other
 * parameters take the Dafny type the handler's body requires.
 */
module RequestHandlers {
  import opened Wrappers
  import opened Bytes

  /** A Python argument of one of the types the handlers compare. */
  datatype Arg = NoneArg | IntArg(i: int) | BoolArg(b: bool) | StrArg(s: string)

  /** `a == n` for an integer n: booleans compare equal to 0 and 1, text and
      None never equal a number. */
  predicate EqualsInt(a: Arg, n: int)
  {
    match a
    case IntArg(i) => i == n
    case BoolArg(b) => (if b then 1 else 0) == n
    case _ => false
  }

  /** str(a) */
  function PyStr(a: Arg): string
  {
    match a
    case NoneArg => "None"
    case IntArg(i) => IntText(i)
    case BoolArg(b) => if b then "True" else "False"
    case StrArg(s) => s
  }

  /** int(a): numbers convert, text goes through TextToInt once its white
      space is stripped, None raises TypeError. */
  function ToInt(a: Arg): Result<int>
  {
    match a
    case NoneArg => Failure(TypeError)
    case IntArg(i) => Success(i)
    case BoolArg(b) => Success(if b then 1 else 0)
    case StrArg(s) => TextToInt(Strip(s))
  }

  /** Decimal digits with single underscores between them. */
  predicate DigitGroups(s: string)
    decreases |s|
  {
    |s| > 0 && IsDigitChar(s[0])
    && (|s| == 1 || DigitGroups(s[1..]) || (s[1] == '_' && DigitGroups(s[2..])))
  }

  /** int() of stripped text: an optional sign, then digit groups, whose
      digits give the value; anything else raises ValueError. */
  function TextToInt(t: string): Result<int>
  {
    var signed := |t| > 0 && (t[0] == '-' || t[0] == '+');
    var body := if signed then t[1..] else t;
    if !DigitGroups(body) then Failure(ValueError)
    else
      var v := DecimalValue(RemoveChar(body, '_'));
      Success(if signed && t[0] == '-' then 0 - v else v)
  }

  /** A run of digits is a single digit group and has no underscore. */
  lemma {:induction false} DigitsAreGroups(s: string)
    requires |s| > 0 && forall i :: 0 <= i < |s| ==> IsDigitChar(s[i])
    ensures DigitGroups(s) && RemoveChar(s, '_') == s
  {
    if |s| > 1 {
      DigitsAreGroups(s[1..]);
    }
  }

  /** Digit text converts to its decimal value. */
  lemma DigitTextValue(s: string)
    requires IsDigits(s)
    ensures ToInt(StrArg(s)) == Success(DecimalValue(s))
  {
    AllDigitsEach(s);
    StripEnds(s);
    DigitsAreGroups(s);
  }

  /** TextToInt reads back the decimal text of any integer. */
  lemma TextToIntText(n: int)
    ensures TextToInt(IntText(n)) == Success(n)
  {
    var d := DecimalText(if n < 0 then -n else n);
    DecimalRoundTrip(if n < 0 then -n else n);
    AllDigitsEach(d);
    DigitsAreGroups(d);
    if n < 0 {
      assert IntText(n)[1..] == d;
    }
  }

  /** The decimal text of an integer has no white space at its ends. */
  lemma IntTextEnds(n: int)
    ensures var s := IntText(n); s != [] && !IsSpace(s[0]) && !IsSpace(s[|s| - 1])
  {
    var d := DecimalText(if n < 0 then -n else n);
    DecimalRoundTrip(if n < 0 then -n else n);
    AllDigitsEach(d);
    assert IntText(n)[|IntText(n)| - 1] == d[|d| - 1];
  }

  /** int(str(n)) == n: an integer passed as its decimal text converts to
      the same integer. */
  lemma IntTextRoundTrip(n: int)
    ensures ToInt(StrArg(IntText(n))) == Success(n)
    ensures IsDigits(IntText(n)) <==> n >= 0
  {
    IntTextEnds(n);
    StripEnds(IntText(n));
    TextToIntText(n);
    if n >= 0 {
      DecimalRoundTrip(n);
    } else if AllDigits(IntText(n)) {
      AllDigitsFirst(IntText(n));
    }
  }

  /** int() ignores white space around the number: int(' 12\n') == 12. */
  lemma IntTextPadded(n: int, ws1: string, ws2: string)
    requires forall i :: 0 <= i < |ws1| ==> IsSpace(ws1[i])
    requires forall i :: 0 <= i < |ws2| ==> IsSpace(ws2[i])
    ensures ToInt(StrArg(ws1 + IntText(n) + ws2)) == Success(n)
  {
    IntTextEnds(n);
    StripPadded(ws1, IntText(n), ws2);
    TextToIntText(n);
  }

  /** int() ignores white space after the number: int('1\n') == 1. */
  lemma IntTextTrailing(n: int, ws: string)
    requires forall i :: 0 <= i < |ws| ==> IsSpace(ws[i])
    ensures ToInt(StrArg(IntText(n) + ws)) == Success(n)
  {
    IntTextEnds(n);
    StripPadded([], IntText(n), ws);
    assert [] + IntText(n) + ws == IntText(n) + ws;
    TextToIntText(n);
  }

  /** int() accepts an underscore between two runs of digits and reads the
      digits alone: int('1_000') == 1000. */
  lemma UnderscoreDigits(a: string, b: string)
    requires IsDigits(a) && IsDigits(b)
    ensures ToInt(StrArg(a + "_" + b)) == Success(DecimalValue(a + b))
  {
    AllDigitsEach(a);
    AllDigitsEach(b);
    var s := a + "_" + b;
    assert s[|s| - 1] == b[|b| - 1];
    StripEnds(s);
    GroupsValue(a, b);
  }

  lemma GroupsValue(a: string, b: string)
    requires |a| > 0 && forall i :: 0 <= i < |a| ==> IsDigitChar(a[i])
    requires |b| > 0 && forall i :: 0 <= i < |b| ==> IsDigitChar(b[i])
    ensures TextToInt(a + "_" + b) == Success(DecimalValue(a + b))
  {
    DigitsAreGroups(a);
    DigitsAreGroups(b);
    GroupsJoin(a, b);
    JoinRemoved(a, b);
  }

  lemma JoinRemoved(a: string, b: string)
    requires RemoveChar(a, '_') == a && RemoveChar(b, '_') == b
    ensures RemoveChar(a + "_" + b, '_') == a + b
  {
    var u: string := "_";
    assert u[1..] == [];
    assert RemoveChar(u, '_') == [];
    RemoveCharConcat(a, u, '_');
    assert RemoveChar(a + u, '_') == a;
    RemoveCharConcat(a + u, b, '_');
  }

  lemma {:induction false} GroupsJoin(a: string, b: string)
    requires |a| > 0 && forall i :: 0 <= i < |a| ==> IsDigitChar(a[i])
    requires DigitGroups(b)
    ensures DigitGroups(a + "_" + b)
  {
    var s := a + "_" + b;
    if |a| == 1 {
      assert s[2..] == b;
    } else {
      GroupsJoin(a[1..], b);
      assert s[1..] == a[1..] + "_" + b;
    }
  }

  // ---------------------------------------------------------------------------
  // Fixed-width text fields
  // ---------------------------------------------------------------------------

  /** add_schedule_request_handler: the SPL UUID, the start time as a long and
      the display name in exactly 128 bytes. */
  method AddScheduleRequest(splId: string, timeBegin: int, displayName: string)
    returns (r: Result<seq<byte>>)
    ensures r.Success? <==> 0 <= timeBegin < Pow256(8) && UuidToBytes(splId).Success?
    ensures !(0 <= timeBegin < Pow256(8)) ==> r == Failure(OverflowError)
    ensures 0 <= timeBegin < Pow256(8) && UuidToBytes(splId).Failure? ==> r == Failure(ValueError)
    ensures r.Success? ==> |r.value| == 152
    ensures r.Success? ==> r.value[..16] == UuidToBytes(splId).value
    ensures r.Success? ==> BigEndian(r.value[16..24]) == timeBegin
    ensures r.Success? ==> r.value[24..] == PaddedUtf8(displayName, 128)
    ensures r.Success? && IsPlainAscii(displayName) && |displayName| <= 128 ==>
      CutAtNul(r.value[24..]) == AsciiBytes(displayName)
  {
    var timeBeginBytes := Pack(timeBegin, 8);
    if timeBeginBytes.Failure? {
      return Failure(timeBeginBytes.error);
    }
    var splIdBytes := UuidToBytes(splId);
    if splIdBytes.Failure? {
      return Failure(splIdBytes.error);
    }
    var displayNameBytes := PaddedUtf8(displayName, 128);
    if IsPlainAscii(displayName) && |displayName| <= 128 {
      PaddedUtf8Short(displayName, 128);
    }
    var byteArray: seq<byte> := [];
    byteArray := byteArray + splIdBytes.value;
    byteArray := byteArray + timeBeginBytes.value;
    byteArray := byteArray + displayNameBytes;
    assert byteArray[16..24] == timeBeginBytes.value;
    return Success(byteArray);
  }

  /** The fields of an add-schedule-2 request, in order: SPL id, start
      time, duration, flags, annotation. */
  predicate Schedule2Layout(b: seq<byte>, spl: seq<byte>, time: seq<byte>, duration: int, flags: int,
                            annotation: seq<byte>)
  {
    var t := |time|;
    && |b| == 16 + t + 4 + 8 + 128
    && b[..16] == spl
    && b[16..16 + t] == time
    && BigEndian(b[16 + t..20 + t]) == duration
    && BigEndian(b[20 + t..28 + t]) == flags
    && b[28 + t..] == annotation
  }

  lemma Schedule2Fields(spl: seq<byte>, time: seq<byte>, duration: seq<byte>, flags: seq<byte>,
                        annotation: seq<byte>)
    requires |spl| == 16 && |duration| == 4 && |flags| == 8 && |annotation| == 128
    ensures Schedule2Layout(spl + time + duration + flags + annotation, spl, time,
                            BigEndian(duration), BigEndian(flags), annotation)
  {
    var b := spl + time + duration + flags + annotation;
    var t := |time|;
    assert b[..16] == spl;
    assert b[16..16 + t] == time;
    assert b[16 + t..20 + t] == duration;
    assert b[20 + t..28 + t] == flags;
    assert b[28 + t..] == annotation;
  }

  /** The arguments for which an add-schedule-2 request can be built. */
  predicate Schedule2Accepted(splId: string, timeBegin: string, duration: Arg, flags: Arg)
  {
    && UuidToBytes(splId).Success?
    && ToInt(flags).Success? && ToInt(duration).Success?
    && 0 <= ToInt(duration).value < Pow256(4)
    && 0 <= ToInt(flags).value < Pow256(8)
    && IsLatin1(timeBegin)
  }

  /** The part of add_schedule2_request_handler after the conversions: the
      SPL bytes, the start time padded with NUL to at least 32 characters
      (never cut), the duration as a word, the flags as a long and the
      annotation in exactly 128 bytes. */
  method PackSchedule2(splBytes: seq<byte>, timeBegin: string, duration: int, flags: int, annotation: string)
    returns (r: Result<seq<byte>>)
    requires |splBytes| == 16
    ensures r.Success? <==> 0 <= duration < Pow256(4) && 0 <= flags < Pow256(8) && IsLatin1(timeBegin)
    ensures r.Success? ==> Schedule2Layout(r.value, splBytes, PaddedLatin1(timeBegin, 32).value,
                                           duration, flags, PaddedUtf8(annotation, 128))
  {
    var timeBeginBytes := Ords(LJust(timeBegin, 32, '\0'));
    var durationBytes := Pack(duration, 4);
    if durationBytes.Failure? {
      return Failure(durationBytes.error);
    }
    var flagBytes := Pack(flags, 8);
    if flagBytes.Failure? {
      return Failure(flagBytes.error);
    }
    var annotationBytes := PaddedUtf8(annotation, 128);
    var byteArray: seq<int> := [];
    byteArray := byteArray + splBytes;
    byteArray := byteArray + timeBeginBytes;
    byteArray := byteArray + durationBytes.value;
    byteArray := byteArray + flagBytes.value;
    byteArray := byteArray + annotationBytes;
    var tail := durationBytes.value + flagBytes.value + annotationBytes;
    assert byteArray == splBytes + timeBeginBytes + tail;
    ByteArrayParts(splBytes, timeBeginBytes, tail);
    r := ByteArray(byteArray);
    if r.Success? {
      assert PaddedLatin1(timeBegin, 32) == ByteArray(timeBeginBytes);
      var time := PaddedLatin1(timeBegin, 32).value;
      assert r.value == splBytes + time + durationBytes.value + flagBytes.value + annotationBytes;
      Schedule2Fields(splBytes, time, durationBytes.value, flagBytes.value, annotationBytes);
    }
  }

  /** add_schedule2_request_handler: the conversions of the SPL id, the
      flags and the duration, in that order, then the packing. */
  method AddSchedule2Request(splId: string, timeBegin: string, duration: Arg, flags: Arg, annotation: string)
    returns (r: Result<seq<byte>>)
    ensures r.Success? <==> Schedule2Accepted(splId, timeBegin, duration, flags)
    ensures UuidToBytes(splId).Failure? ==> r == Failure(ValueError)
    ensures r.Success? ==> Schedule2Layout(r.value, UuidToBytes(splId).value, PaddedLatin1(timeBegin, 32).value,
                                           ToInt(duration).value, ToInt(flags).value, PaddedUtf8(annotation, 128))
  {
    var splIdBytes := UuidToBytes(splId);
    if splIdBytes.Failure? {
      return Failure(splIdBytes.error);
    }
    var flagValue := ToInt(flags);
    if flagValue.Failure? {
      return Failure(flagValue.error);
    }
    var durationValue := ToInt(duration);
    if durationValue.Failure? {
      return Failure(durationValue.error);
    }
    r := PackSchedule2(splIdBytes.value, timeBegin, durationValue.value, flagValue.value, annotation);
  }

  /** The fields of a validation request, in order: item id, time, level. */
  predicate ValidateLayout(b: seq<byte>, item: seq<byte>, time: seq<byte>, level: int)
  {
    var t := |time|;
    && |b| == 16 + t + 4
    && b[..16] == item
    && b[16..16 + t] == time
    && BigEndian(b[16 + t..]) == level
  }

  lemma ValidateFields(item: seq<byte>, time: seq<byte>, level: seq<byte>)
    requires |item| == 16 && |level| == 4
    ensures ValidateLayout(item + time + level, item, time, BigEndian(level))
  {
    var b := item + time + level;
    assert b[..16] == item;
    assert b[16..16 + |time|] == time;
    assert b[16 + |time|..] == level;
  }

  /** The part of validate_item_request_handler after the UUID conversion:
      the time text padded with NUL to at least 32 characters, then int(level)
      packed as a word. */
  method PackValidation(itemBytes: seq<byte>, time: string, level: Arg) returns (r: Result<seq<byte>>)
    requires |itemBytes| == 16
    ensures r.Success? <==> ToInt(level).Success? && 0 <= ToInt(level).value < Pow256(4) && IsLatin1(time)
    ensures ToInt(level).Failure? ==> r == Failure(ToInt(level).error)
    ensures r.Success? ==> ValidateLayout(r.value, itemBytes, PaddedLatin1(time, 32).value, ToInt(level).value)
  {
    var timeBytes := Ords(LJust(time, 32, '\0'));
    var levelValue := ToInt(level);
    if levelValue.Failure? {
      return Failure(levelValue.error);
    }
    var levelBytes := Pack(levelValue.value, 4);
    if levelBytes.Failure? {
      return Failure(levelBytes.error);
    }
    var byteArray: seq<int> := [];
    byteArray := byteArray + itemBytes;
    byteArray := byteArray + timeBytes;
    byteArray := byteArray + levelBytes.value;
    assert byteArray == itemBytes + timeBytes + levelBytes.value;
    ByteArrayParts(itemBytes, timeBytes, levelBytes.value);
    r := ByteArray(byteArray);
    if r.Success? {
      assert PaddedLatin1(time, 32) == ByteArray(timeBytes);
      ValidateFields(itemBytes, PaddedLatin1(time, 32).value, levelBytes.value);
    }
  }

  /** validate_item_request_handler: the item UUID, the time text padded
      with NUL to at least 32 characters and the validation level as a word. */
  method ValidateItemRequest(itemUuid: string, time: string, level: Arg) returns (r: Result<seq<byte>>)
    ensures r.Success? <==>
      && UuidToBytes(itemUuid).Success?
      && ToInt(level).Success? && 0 <= ToInt(level).value < Pow256(4)
      && IsLatin1(time)
    ensures UuidToBytes(itemUuid).Failure? ==> r == Failure(ValueError)
    ensures r.Success? ==>
      ValidateLayout(r.value, UuidToBytes(itemUuid).value, PaddedLatin1(time, 32).value, ToInt(level).value)
    ensures r.Success? && |time| <= 32 && NoNul(time) ==> CutAtNul(r.value[16..48]) == Ords(time)
  {
    var uuidBytes := UuidToBytes(itemUuid);
    if uuidBytes.Failure? {
      return Failure(uuidBytes.error);
    }
    r := PackValidation(uuidBytes.value, time, level);
    if r.Success? && |time| <= 32 && NoNul(time) {
      PaddedLatin1Short(time, 32);
    }
  }

  /** execute_macro_cue_request_handler: the macro name in exactly 64 bytes. */
  method ExecuteMacroCueRequest(macroName: string) returns (r: seq<byte>)
    ensures r == PaddedUtf8(macroName, 64)
    ensures |r| == 64
    ensures IsPlainAscii(macroName) && |macroName| <= 64 ==> CutAtNul(r) == AsciiBytes(macroName)
    ensures IsPlainAscii(macroName) && |macroName| > 64 ==> r == AsciiBytes(macroName)[..64]
  {
    var macroNameBytes := PaddedUtf8(macroName, 64);
    if IsPlainAscii(macroName) {
      if |macroName| <= 64 {
        PaddedUtf8Short(macroName, 64);
      } else {
        PaddedUtf8Long(macroName, 64);
      }
    }
    var byteArray: seq<byte> := [];
    byteArray := byteArray + macroNameBytes;
    return byteArray;
  }

  // ---------------------------------------------------------------------------
  // Whitelisted flags
  // ---------------------------------------------------------------------------

  /** get_product_certificate_request_handler: int(cert_type) must be 0 (SMPTE)
      or 1 (MPEG Interop), sent as one byte; any other type raises. */
  function ProductCertificateRequest(certType: Arg): (r: Result<seq<byte>>)
    ensures r.Success? <==> ToInt(certType) == Success(0) || ToInt(certType) == Success(1)
    ensures r.Success? ==> r.value == [ToInt(certType).value]
    ensures ToInt(certType).Failure? ==> r == Failure(ToInt(certType).error)
    ensures ToInt(certType).Success? && r.Failure? ==>
      r.error == Exception("Invalid Certificate Type requested: " + IntText(ToInt(certType).value))
  {
    match ToInt(certType)
    case Failure(e) => Failure(e)
    case Success(n) =>
      if n == 0 then Success([0])
      else if n == 1 then Success([1])
      else Failure(Exception("Invalid Certificate Type requested: " + IntText(n)))
  }

  /** A certificate type given as decimal text is handled like the number. */
  lemma CertificateTypeText(n: int)
    ensures ProductCertificateRequest(StrArg(IntText(n))) == ProductCertificateRequest(IntArg(n))
    ensures ProductCertificateRequest(IntArg(n)).Success? <==> n == 0 || n == 1
  {
    IntTextRoundTrip(n);
  }

  /** set_scheduler_request_handler: True, 1 or 'true' enable, False, 0 or
      'false' disable, anything else raises. */
  function SetSchedulerRequest(enabled: Arg): (r: Result<seq<byte>>)
    ensures r.Success? <==>
      EqualsInt(enabled, 1) || enabled == StrArg("true") || EqualsInt(enabled, 0) || enabled == StrArg("false")
    ensures r.Success? ==> |r.value| == 1
    ensures r.Success? ==> (r.value[0] == 1 <==> EqualsInt(enabled, 1) || enabled == StrArg("true"))
    ensures r.Failure? ==> r.error.Exception?
  {
    if EqualsInt(enabled, 1) || enabled == StrArg("true") then Success([1])
    else if EqualsInt(enabled, 0) || enabled == StrArg("false") then Success([0])
    else Failure(Exception("\"Enabled\" parameter to SetSchedulerEnable  should be boolean"))
  }

  // ---------------------------------------------------------------------------
  // Security-manager log filter
  // ---------------------------------------------------------------------------

  /** The argument is given: neither None nor the empty text. */
  predicate Supplied(a: Arg)
  {
    a != NoneArg && a != StrArg("")
  }

  /** An event-id bound that the filter uses: given, and str() of it is all
      digits. */
  predicate DigitArg(a: Arg)
  {
    Supplied(a) && IsDigits(PyStr(a))
  }

  lemma DigitArgValue(a: Arg)
    requires DigitArg(a)
    ensures ToInt(a).Success? && ToInt(a).value >= 0
  {
    match a
    case IntArg(i) => IntTextRoundTrip(i);
    case StrArg(s) => DigitTextValue(s);
    case BoolArg(_) =>
  }

  /** The bound sent for an event id: its value when the filter uses it, 0
      otherwise. */
  function EventBound(a: Arg): nat
  {
    if DigitArg(a) then
      DigitArgValue(a);
      ToInt(a).value
    else 0
  }

  /** A timestamp argument: integers are taken as they are, anything else is
      converted by the time parser. */
  function Timestamp(a: Arg, timeOf: Arg -> Result<int>): Result<int>
  {
    if a.IntArg? then Success(a.i) else timeOf(a)
  }

  /** The time bound sent: the converted timestamp when given, 0 otherwise. */
  function TimeBound(a: Arg, timeOf: Arg -> Result<int>): int
  {
    if Supplied(a) && Timestamp(a, timeOf).Success? then Timestamp(a, timeOf).value else 0
  }

  /** `a != None and len(a) == 36`: len() of a number raises TypeError. */
  function UuidArg(a: Arg): Result<bool>
  {
    match a
    case NoneArg => Success(false)
    case StrArg(s) => Success(|s| == 36)
    case _ => Failure(TypeError)
  }

  predicate IsUuidArg(a: Arg)
  {
    a.StrArg? && |a.s| == 36
  }

  /** The id used when no UUID is given: 32 zero digits. */
  const ZERO_ID: string := "00000000000000000000000000000000"

  lemma {:induction false} ZeroHex(k: nat)
    ensures ToLowerHex(seq(k, _ => 0)) == seq(2 * k, _ => '0')
  {
    if k > 0 {
      var z: seq<byte> := seq(k, _ => 0);
      assert z[1..] == seq(k - 1, _ => 0);
      ZeroHex(k - 1);
      assert ToLowerHex(z) == ['0', '0'] + seq(2 * (k - 1), _ => '0');
    }
  }

  /** The zero id converts to sixteen zero bytes. */
  lemma ZeroIdBytes()
    ensures UuidToBytes(ZERO_ID) == Success(seq(16, _ => 0))
  {
    var z: seq<byte> := seq(16, _ => 0);
    ZeroHex(16);
    assert ZERO_ID == ToLowerHex(z);
    NoHyphenInHex(z);
    LowerHexRoundTrip(z);
  }

  /** The id bytes sent: the UUID when one is given, zeros otherwise. */
  function IdBytes(a: Arg): seq<byte>
  {
    if IsUuidArg(a) && UuidToBytes(a.s).Success? then UuidToBytes(a.s).value else seq(16, _ => 0)
  }

  /** The strict-mode byte: 2 and 1 select the SMPTE and strict logs, any
      other value all logs. */
  function StrictByte(strictMode: Arg): byte
  {
    if EqualsInt(strictMode, 2) then 2 else if EqualsInt(strictMode, 1) then 1 else 0
  }

  /** A mask from six criteria flags, flag k giving bit k. */
  function MaskOf(f0: bool, f1: bool, f2: bool, f3: bool, f4: bool, f5: bool): nat
  {
    (if f0 then 1 else 0) + (if f1 then 2 else 0) + (if f2 then 4 else 0)
    + (if f3 then 8 else 0) + (if f4 then 16 else 0) + (if f5 then 32 else 0)
  }

  /** The filter mask: one bit per criterion the request sets. */
  function FilterMask(eventIdMin: Arg, eventIdMax: Arg, startTimestamp: Arg, endTimestamp: Arg,
                      cplId: Arg, kdmId: Arg): nat
  {
    MaskOf(DigitArg(eventIdMin), DigitArg(eventIdMax), Supplied(startTimestamp), Supplied(endTimestamp),
           IsUuidArg(cplId), IsUuidArg(kdmId))
  }

  /** Bit k of m. */
  predicate Bit(m: nat, k: nat)
  {
    if k == 0 then m % 2 == 1 else Bit(m / 2, k - 1)
  }

  lemma HalfStep(b: nat, y: nat)
    requires b < 2
    ensures (b + 2 * y) % 2 == b && (b + 2 * y) / 2 == y
  {
  }

  /** Prepending bit b to y: bit 0 is b, and bit k+1 is bit k of y. */
  lemma ShiftBits(b: nat, y: nat)
    requires b < 2
    ensures Bit(b + 2 * y, 0) <==> b == 1
    ensures forall k: nat {:trigger Bit(y, k)} :: Bit(b + 2 * y, k + 1) == Bit(y, k)
  {
    HalfStep(b, y);
  }

  /** Bit k of a mask is set exactly when flag k is. */
  lemma MaskBits(f0: bool, f1: bool, f2: bool, f3: bool, f4: bool, f5: bool)
    ensures var m := MaskOf(f0, f1, f2, f3, f4, f5);
      && m < 64
      && (Bit(m, 0) <==> f0) && (Bit(m, 1) <==> f1) && (Bit(m, 2) <==> f2)
      && (Bit(m, 3) <==> f3) && (Bit(m, 4) <==> f4) && (Bit(m, 5) <==> f5)
  {
    var b0: nat := if f0 then 1 else 0;
    var b1: nat := if f1 then 1 else 0;
    var b2: nat := if f2 then 1 else 0;
    var b3: nat := if f3 then 1 else 0;
    var b4: nat := if f4 then 1 else 0;
    var b5: nat := if f5 then 1 else 0;
    var m4 := b4 + 2 * b5;
    var m3 := b3 + 2 * m4;
    var m2 := b2 + 2 * m3;
    var m1 := b1 + 2 * m2;
    var m := b0 + 2 * m1;
    assert m == MaskOf(f0, f1, f2, f3, f4, f5);
    ShiftBits(b0, m1);
    ShiftBits(b1, m2);
    ShiftBits(b2, m3);
    ShiftBits(b3, m4);
    ShiftBits(b4, b5);
    ShiftBits(b5, 0);
  }

  /** Bit k of the filter mask is set exactly when criterion k is used: the
      event-id bounds when they are digit strings, the times when given, the
      ids when they have 36 characters. */
  lemma FilterMaskBits(eventIdMin: Arg, eventIdMax: Arg, startTimestamp: Arg, endTimestamp: Arg,
                       cplId: Arg, kdmId: Arg)
    ensures var m := FilterMask(eventIdMin, eventIdMax, startTimestamp, endTimestamp, cplId, kdmId);
      && m < 64
      && (Bit(m, 0) <==> DigitArg(eventIdMin))
      && (Bit(m, 1) <==> DigitArg(eventIdMax))
      && (Bit(m, 2) <==> Supplied(startTimestamp))
      && (Bit(m, 3) <==> Supplied(endTimestamp))
      && (Bit(m, 4) <==> IsUuidArg(cplId))
      && (Bit(m, 5) <==> IsUuidArg(kdmId))
  {
    MaskBits(DigitArg(eventIdMin), DigitArg(eventIdMax), Supplied(startTimestamp), Supplied(endTimestamp),
             IsUuidArg(cplId), IsUuidArg(kdmId));
  }

  /** The criteria of a log request once its arguments are read: the
      strict-mode byte, the filter mask and the values to send. */
  datatype LogFilter = LogFilter(strictMode: byte, mask: nat, minId: int, maxId: int,
                                 startTime: int, endTime: int, cplText: string, kdmText: string)

  /** The arguments the first half of the handler accepts: the given
      timestamps convert, and the ids are text or None. */
  predicate FilterAccepted(startTimestamp: Arg, endTimestamp: Arg, cplId: Arg, kdmId: Arg,
                           timeOf: Arg -> Result<int>)
  {
    && (Supplied(startTimestamp) ==> Timestamp(startTimestamp, timeOf).Success?)
    && (Supplied(endTimestamp) ==> Timestamp(endTimestamp, timeOf).Success?)
    && UuidArg(cplId).Success? && UuidArg(kdmId).Success?
  }

  /** The id text sent: the argument when it has 36 characters, the zero id
      otherwise. */
  function IdText(a: Arg): string
  {
    if IsUuidArg(a) then a.s else ZERO_ID
  }

  /** The criteria a log request sends for its arguments. */
  function Criteria(eventIdMin: Arg, eventIdMax: Arg, startTimestamp: Arg, endTimestamp: Arg,
                    cplId: Arg, kdmId: Arg, strictMode: Arg, timeOf: Arg -> Result<int>): LogFilter
  {
    LogFilter(
      StrictByte(strictMode),
      FilterMask(eventIdMin, eventIdMax, startTimestamp, endTimestamp, cplId, kdmId),
      EventBound(eventIdMin), EventBound(eventIdMax),
      TimeBound(startTimestamp, timeOf), TimeBound(endTimestamp, timeOf),
      IdText(cplId), IdText(kdmId))
  }

  /** An event-id bound as the handler reads it: used, and converted with
      int(), when it is a digit string; 0 otherwise. */
  method ReadEventBound(a: Arg) returns (value: int, given: bool)
    ensures given == DigitArg(a) && value == EventBound(a)
    ensures given ==> ToInt(a) == Success(value) && value >= 0
  {
    given := DigitArg(a);
    value := 0;
    if given {
      DigitArgValue(a);
      value := ToInt(a).value;
    }
  }

  /** A time bound as the handler reads it: used when given, integers as
      they are and anything else through the time parser, whose failure
      propagates. */
  method ReadTimeBound(a: Arg, timeOf: Arg -> Result<int>) returns (r: Result<int>, given: bool)
    ensures given == Supplied(a)
    ensures r.Success? <==> (given ==> Timestamp(a, timeOf).Success?)
    ensures r.Failure? ==> r.error == Timestamp(a, timeOf).error
    ensures r.Success? ==> r.value == TimeBound(a, timeOf)
  {
    given := Supplied(a);
    if !given {
      return Success(0), given;
    }
    if a.IntArg? {
      return Success(a.i), given;
    }
    r := timeOf(a);
  }

  /** An id as the handler reads it: the text when it has 36 characters,
      the zero id otherwise; len() of a number raises TypeError. */
  method ReadId(a: Arg) returns (r: Result<string>, given: bool)
    ensures r.Success? <==> UuidArg(a).Success?
    ensures r.Failure? ==> r.error == TypeError
    ensures given == IsUuidArg(a)
    ensures r.Success? ==> r.value == IdText(a)
  {
    given := IsUuidArg(a);
    if !(a.NoneArg? || a.StrArg?) {
      return Failure(TypeError), given;
    }
    if given {
      r := Success(a.s);
    } else {
      r := Success(ZERO_ID);
    }
  }

  /** The strict-mode byte: 2 and 1 select the SMPTE and strict logs, any
      other value all logs. */
  method ReadStrictMode(strictMode: Arg) returns (b: byte)
    ensures b == StrictByte(strictMode)
  {
    if EqualsInt(strictMode, 2) {
      b := 2;
    } else if EqualsInt(strictMode, 1) {
      b := 1;
    } else {
      b := 0;
    }
  }

  /** The filter mask, OR-ed together one criterion at a time. */
  method BuildMask(f0: bool, f1: bool, f2: bool, f3: bool, f4: bool, f5: bool) returns (m: nat)
    ensures m == MaskOf(f0, f1, f2, f3, f4, f5) && m < 64
  {
    var filterMask: bv8 := 0;
    if f0 {
      filterMask := filterMask | 1;
    }
    if f1 {
      filterMask := filterMask | 2;
    }
    if f2 {
      filterMask := filterMask | 4;
    }
    if f3 {
      filterMask := filterMask | 8;
    }
    if f4 {
      filterMask := filterMask | 16;
    }
    if f5 {
      filterMask := filterMask | 32;
    }
    m := filterMask as int;
  }

  /** A filter whose every field is the one the arguments give is their
      criteria. */
  lemma CriteriaOf(eventIdMin: Arg, eventIdMax: Arg, startTimestamp: Arg, endTimestamp: Arg,
                   cplId: Arg, kdmId: Arg, strictMode: Arg, timeOf: Arg -> Result<int>, f: LogFilter)
    requires f.strictMode == StrictByte(strictMode)
    requires f.mask == MaskOf(DigitArg(eventIdMin), DigitArg(eventIdMax), Supplied(startTimestamp),
                              Supplied(endTimestamp), IsUuidArg(cplId), IsUuidArg(kdmId))
    requires f.minId == EventBound(eventIdMin) && f.maxId == EventBound(eventIdMax)
    requires f.startTime == TimeBound(startTimestamp, timeOf) && f.endTime == TimeBound(endTimestamp, timeOf)
    requires f.cplText == IdText(cplId) && f.kdmText == IdText(kdmId)
    ensures f == Criteria(eventIdMin, eventIdMax, startTimestamp, endTimestamp, cplId, kdmId, strictMode, timeOf)
  {
  }

  /** The first half of get_sm_log_request_handler: the strict-mode byte and
      the filter mask, with the value of each criterion (0 when not given).
      The timestamps are converted before the ids are measured, so a
      timestamp error comes first. */
  method ReadLogFilter(eventIdMin: Arg, eventIdMax: Arg, startTimestamp: Arg, endTimestamp: Arg,
                       cplId: Arg, kdmId: Arg, strictMode: Arg, timeOf: Arg -> Result<int>)
    returns (r: Result<LogFilter>)
    ensures r.Success? <==> FilterAccepted(startTimestamp, endTimestamp, cplId, kdmId, timeOf)
    ensures r.Success? ==> r.value.mask < 64
    ensures r.Success? ==>
      r.value == Criteria(eventIdMin, eventIdMax, startTimestamp, endTimestamp, cplId, kdmId, strictMode, timeOf)
  {
    var strictModeByte := ReadStrictMode(strictMode);
    var minId, minGiven := ReadEventBound(eventIdMin);
    var maxId, maxGiven := ReadEventBound(eventIdMax);
    var startTime, startGiven := ReadTimeBound(startTimestamp, timeOf);
    var endTime, endGiven := ReadTimeBound(endTimestamp, timeOf);
    var cplText, cplGiven := ReadId(cplId);
    var kdmText, kdmGiven := ReadId(kdmId);
    var filterMask := BuildMask(minGiven, maxGiven, startGiven, endGiven, cplGiven, kdmGiven);
    if startTime.Failure? {
      r := Failure(startTime.error);
    } else if endTime.Failure? {
      r := Failure(endTime.error);
    } else if cplText.Failure? {
      r := Failure(cplText.error);
    } else if kdmText.Failure? {
      r := Failure(kdmText.error);
    } else {
      var f := LogFilter(strictModeByte, filterMask, minId, maxId, startTime.value, endTime.value,
                         cplText.value, kdmText.value);
      CriteriaOf(eventIdMin, eventIdMax, startTimestamp, endTimestamp, cplId, kdmId, strictMode, timeOf, f);
      r := Success(f);
    }
  }

  /** The numeric fields of a log request, in order. */
  predicate NumbersLayout(b: seq<byte>, f: LogFilter)
  {
    && |b| == 26
    && b[0] == f.strictMode
    && b[1] == f.mask
    && BigEndian(b[2..6]) == f.minId
    && BigEndian(b[6..10]) == f.maxId
    && BigEndian(b[10..18]) == f.startTime
    && BigEndian(b[18..26]) == f.endTime
  }

  /** The fields of a log request, in order: the numbers, then the ids. */
  predicate LogLayout(b: seq<byte>, f: LogFilter)
  {
    && |b| == 58
    && NumbersLayout(b[..26], f)
    && UuidToBytes(f.cplText) == Success(b[26..42])
    && UuidToBytes(f.kdmText) == Success(b[42..58])
  }

  /** The numbers of a filter that fit their fields. */
  predicate NumbersFit(f: LogFilter)
  {
    && f.mask < 256
    && 0 <= f.minId < Pow256(4) && 0 <= f.maxId < Pow256(4)
    && 0 <= f.startTime < Pow256(8) && 0 <= f.endTime < Pow256(8)
  }

  /** The values of a filter that fit their fields. */
  predicate LogFilterFits(f: LogFilter)
  {
    && NumbersFit(f)
    && UuidToBytes(f.cplText).Success? && UuidToBytes(f.kdmText).Success?
  }

  lemma NumberFields(head: seq<byte>, minB: seq<byte>, maxB: seq<byte>, startB: seq<byte>, endB: seq<byte>)
    requires |head| == 2 && |minB| == 4 && |maxB| == 4 && |startB| == 8 && |endB| == 8
    ensures var b := head + minB + maxB + startB + endB;
      && |b| == 26 && b[..2] == head
      && b[2..6] == minB && b[6..10] == maxB && b[10..18] == startB && b[18..26] == endB
  {
  }

  /** get_sm_log_request_handler, second half: the strict-mode byte, the
      mask, the event-id bounds as words and the time bounds as longs. */
  method PackLogNumbers(f: LogFilter) returns (r: Result<seq<byte>>)
    requires f.mask < 256
    ensures r.Success? <==> NumbersFit(f)
    ensures r.Success? ==> NumbersLayout(r.value, f)
  {
    var minBytes := Pack(f.minId, 4);
    if minBytes.Failure? {
      return Failure(minBytes.error);
    }
    var maxBytes := Pack(f.maxId, 4);
    if maxBytes.Failure? {
      return Failure(maxBytes.error);
    }
    var startBytes := Pack(f.startTime, 8);
    if startBytes.Failure? {
      return Failure(startBytes.error);
    }
    var endBytes := Pack(f.endTime, 8);
    if endBytes.Failure? {
      return Failure(endBytes.error);
    }
    var byteArray: seq<byte> := [];
    byteArray := byteArray + [f.strictMode];
    byteArray := byteArray + [f.mask];
    byteArray := byteArray + minBytes.value;
    byteArray := byteArray + maxBytes.value;
    byteArray := byteArray + startBytes.value;
    byteArray := byteArray + endBytes.value;
    NumberFields([f.strictMode, f.mask], minBytes.value, maxBytes.value, startBytes.value, endBytes.value);
    assert byteArray == [f.strictMode, f.mask] + minBytes.value + maxBytes.value + startBytes.value + endBytes.value;
    return Success(byteArray);
  }

  /** get_sm_log_request_handler, second half: the numbers followed by the
      CPL and KDM ids, 58 bytes. */
  method PackLogFilter(f: LogFilter) returns (r: Result<seq<byte>>)
    requires f.mask < 256
    ensures r.Success? <==> LogFilterFits(f)
    ensures r.Success? ==> LogLayout(r.value, f)
  {
    var numbers := PackLogNumbers(f);
    if numbers.Failure? {
      return Failure(numbers.error);
    }
    var cplBytes := UuidToBytes(f.cplText);
    if cplBytes.Failure? {
      return Failure(cplBytes.error);
    }
    var kdmBytes := UuidToBytes(f.kdmText);
    if kdmBytes.Failure? {
      return Failure(kdmBytes.error);
    }
    var byteArray := numbers.value;
    byteArray := byteArray + cplBytes.value;
    byteArray := byteArray + kdmBytes.value;
    assert byteArray[..26] == numbers.value;
    assert byteArray[26..42] == cplBytes.value;
    assert byteArray[42..58] == kdmBytes.value;
    return Success(byteArray);
  }

  /** The arguments for which the log request can be built. */
  predicate SmLogAccepted(eventIdMin: Arg, eventIdMax: Arg, startTimestamp: Arg, endTimestamp: Arg,
                          cplId: Arg, kdmId: Arg, strictMode: Arg, timeOf: Arg -> Result<int>)
  {
    && FilterAccepted(startTimestamp, endTimestamp, cplId, kdmId, timeOf)
    && LogFilterFits(Criteria(eventIdMin, eventIdMax, startTimestamp, endTimestamp, cplId, kdmId, strictMode, timeOf))
  }

  /** get_sm_log_request_handler: strict-mode byte, filter mask, event-id
      bounds (words), time bounds (longs) and the CPL and KDM ids, 58 bytes.
      A criterion that is not given is sent as zero (see UnsetIds) and
      its mask bit is clear (see FilterMaskBits). */
  method SmLogRequest(eventIdMin: Arg, eventIdMax: Arg, startTimestamp: Arg, endTimestamp: Arg,
                      cplId: Arg, kdmId: Arg, strictMode: Arg, timeOf: Arg -> Result<int>)
    returns (r: Result<seq<byte>>)
    ensures r.Success? <==>
      SmLogAccepted(eventIdMin, eventIdMax, startTimestamp, endTimestamp, cplId, kdmId, strictMode, timeOf)
    ensures r.Success? ==>
      LogLayout(r.value, Criteria(eventIdMin, eventIdMax, startTimestamp, endTimestamp, cplId, kdmId, strictMode, timeOf))
  {
    var filter := ReadLogFilter(eventIdMin, eventIdMax, startTimestamp, endTimestamp, cplId, kdmId,
                                strictMode, timeOf);
    AcceptedOf(eventIdMin, eventIdMax, startTimestamp, endTimestamp, cplId, kdmId, strictMode, timeOf, filter);
    if filter.Failure? {
      return Failure(filter.error);
    }
    r := PackLogFilter(filter.value);
  }

  /** The log request is accepted exactly when the filter is read and its
      values fit their fields. */
  lemma AcceptedOf(eventIdMin: Arg, eventIdMax: Arg, startTimestamp: Arg, endTimestamp: Arg,
                   cplId: Arg, kdmId: Arg, strictMode: Arg, timeOf: Arg -> Result<int>, f: Result<LogFilter>)
    requires f.Success? <==> FilterAccepted(startTimestamp, endTimestamp, cplId, kdmId, timeOf)
    requires f.Success? ==>
      f.value == Criteria(eventIdMin, eventIdMax, startTimestamp, endTimestamp, cplId, kdmId, strictMode, timeOf)
    ensures SmLogAccepted(eventIdMin, eventIdMax, startTimestamp, endTimestamp, cplId, kdmId, strictMode, timeOf)
      <==> f.Success? && LogFilterFits(f.value)
  {
  }


  /** An id that is not given is sent as sixteen zero bytes. */
  lemma UnsetIds(eventIdMin: Arg, eventIdMax: Arg, startTimestamp: Arg, endTimestamp: Arg,
                 cplId: Arg, kdmId: Arg, strictMode: Arg, timeOf: Arg -> Result<int>)
    ensures var f := Criteria(eventIdMin, eventIdMax, startTimestamp, endTimestamp, cplId, kdmId, strictMode, timeOf);
      && (!IsUuidArg(cplId) ==> UuidToBytes(f.cplText) == Success(seq(16, _ => 0)))
      && (!IsUuidArg(kdmId) ==> UuidToBytes(f.kdmText) == Success(seq(16, _ => 0)))
  {
    ZeroIdBytes();
  }
}

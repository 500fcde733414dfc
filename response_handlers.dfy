/**
 * The hand-written response handlers of the Doremi protocol: each turns the
 * data bytes of a response into a dictionary.  The list decoders walk the
 * payload with a moving position; they are modelled as methods with loops,
 * each proved equal to a specification function about which the layout
 * properties are proved as lemmas.
 *
 * Python 2 semantics are kept where they decide the outcome: `ord()` of an
 * empty slice raises TypeError, indexing past the end raises IndexError, and
 * `/` on integers floors.
 */
module ResponseHandlers {
  import opened Wrappers
  import opened Bytes
  import opened Values
  import Message
  import RequestHandlers

  // ---------------------------------------------------------------------------
  // Reading single bytes and integers
  // ---------------------------------------------------------------------------

  /** ord(data[-1:]): the slice of an empty payload is empty, and ord() of
      an empty string raises TypeError. */
  function LastByte(data: seq<byte>): (r: Result<int>)
    ensures r.Success? <==> |data| > 0
    ensures r.Success? ==> r.value == data[|data| - 1]
    ensures r.Failure? ==> r.error == TypeError
  {
    var s := PySlice(data, -1, None);
    if |s| == 1 then Success(s[0] as int) else Failure(TypeError)
  }

  /** ord(data[i:i+1]) for i >= 0: TypeError past the end. */
  function ByteSlice(data: seq<byte>, i: nat): (r: Result<int>)
    ensures r.Success? <==> i < |data|
    ensures r.Success? ==> r.value == data[i]
    ensures r.Failure? ==> r.error == TypeError
  {
    var s := PySlice(data, i, Some(i + 1));
    if |s| == 1 then Success(s[0] as int) else Failure(TypeError)
  }

  /** ord(data[i]) for an index that may be negative: IndexError outside. */
  function ByteAt(data: seq<byte>, i: int): (r: Result<int>)
    ensures r.Success? <==> -|data| <= i < |data|
    ensures r.Success? && i >= 0 ==> r.value == data[i]
    ensures r.Success? && i < 0 ==> r.value == data[|data| + i]
    ensures r.Failure? ==> r.error == IndexError
  {
    if 0 <= i < |data| then Success(data[i] as int)
    else if -|data| <= i < 0 then Success(data[|data| + i] as int)
    else Failure(IndexError)
  }

  /** byte_array_2_word / _long / _short of data[at:at+w] (big-endian,
      lenient on a short slice). */
  function WordAt(data: seq<byte>, at: nat, w: nat): nat
  {
    BigEndian(PySlice(data, at, Some(at + w)))
  }

  // ---------------------------------------------------------------------------
  // check_response
  // ---------------------------------------------------------------------------

  /** The Python objects check_response can be handed: a value built by a
      handler, or the type object `dict` itself. */
  datatype PyObject = Instance(v: Value) | DictType

  /** check_response as evidently intended: a dictionary whose 'response'
      entry is 0 (a missing entry counts as 1). */
  predicate ResponseOk(d: Record)
  {
    "response" in d && d["response"] == Int(0)
  }

  /** Python truthiness: a type object is true, an empty value false. */
  predicate Truthy(d: PyObject)
  {
    match d
    case DictType => true
    case Instance(Int(i)) => i != 0
    case Instance(Str(b)) => |b| > 0
    case Instance(Text(t)) => |t| > 0
    case Instance(Bool(b)) => b
    case Instance(List(items)) => |items| > 0
    case Instance(Dict(entries)) => |entries| > 0
  }

  /** check_response as written: `d and d is dict` tests identity with the
      type object `dict`, not the type of d, so the 'response' entry is
      consulted only for an object that is no dictionary instance. */
  predicate CheckResponse(d: PyObject)
  {
    && Truthy(d)
    && d == DictType
    && d.Instance? && d.v.Dict? && ResponseOk(d.v.entries)
  }

  /** No dictionary (no value at all) passes the check. */
  lemma CheckResponseNever(v: Value)
    ensures !CheckResponse(Instance(v))
  {
  }

  // ---------------------------------------------------------------------------
  // Counted UUID lists: get_uuid_list, get_kdm_info, get_cpl_info
  // ---------------------------------------------------------------------------

  /** The `size` bytes at `at` as UUID text. */
  function UuidAt(data: seq<byte>, at: nat, size: nat): Value
  {
    Text(UuidText(PySlice(data, at, Some(at + size))))
  }

  /** Entry i of a counted UUID list whose entries start at `start`: the
      chunk data[start+i*size : start+(i+1)*size] as UUID text. */
  function UuidEntry(data: seq<byte>, start: nat, size: nat, i: nat): Value
  {
    UuidAt(data, start + i * size, size)
  }

  /** The `count` entries of a counted UUID list. */
  function UuidEntries(data: seq<byte>, start: nat, count: nat, size: nat): (r: seq<Value>)
    ensures |r| == count
    ensures forall i :: 0 <= i < count ==> r[i] == UuidEntry(data, start, size, i)
  {
    seq(count, i requires 0 <= i < count => UuidEntry(data, start, size, i))
  }

  /** The loop shared by the UUID list handlers: the count is the word at
      `offset`, the entry size the word after it, and the entries follow,
      the position moving by the entry size each time. */
  method ReadUuidBatch(data: seq<byte>, offset: nat) returns (count: nat, size: nat, list: seq<Value>)
    ensures count == WordAt(data, offset, 4) && size == WordAt(data, offset + 4, 4)
    ensures list == UuidEntries(data, offset + 8, count, size)
  {
    count := WordAt(data, offset, 4);
    size := WordAt(data, offset + 4, 4);
    list := ReadUuidEntries(data, offset + 8, count, size);
  }

  /** The loop itself: `count` entries of `size` bytes from `start`. */
  method ReadUuidEntries(data: seq<byte>, start: nat, count: nat, size: nat) returns (list: seq<Value>)
    ensures list == UuidEntries(data, start, count, size)
  {
    var position := start;
    list := [];
    for item := 0 to count
      invariant position == start + item * size
      invariant list == UuidEntries(data, start, item, size)
    {
      var entry := UuidAt(data, position, size);
      UuidEntryAt(data, start, size, item, position, list);
      position := position + size;
      list := list + [entry];
    }
  }

  /** One turn of the loop: the entry read at `position`, past `item`
      earlier entries, extends the list by entry `item`, and the next entry
      starts `size` bytes further on. */
  lemma UuidEntryAt(data: seq<byte>, start: nat, size: nat, item: nat, position: nat, list: seq<Value>)
    requires position == start + item * size
    requires list == UuidEntries(data, start, item, size)
    ensures list + [UuidAt(data, position, size)] == UuidEntries(data, start, item + 1, size)
    ensures position + size == start + (item + 1) * size
  {
    assert (item + 1) * size == item * size + size;
    UuidEntriesStep(data, start, item, size);
  }

  lemma UuidEntriesStep(data: seq<byte>, start: nat, n: nat, size: nat)
    ensures UuidEntries(data, start, n + 1, size) == UuidEntries(data, start, n, size) + [UuidEntry(data, start, size, n)]
  {
    var p := UuidEntries(data, start, n, size);
    var a, b := UuidEntries(data, start, n + 1, size), p + [UuidEntry(data, start, size, n)];
    forall k | 0 <= k < n + 1
      ensures a[k] == b[k]
    {
      if k < n {
        assert b[k] == p[k];
      }
    }
  }

  /** An entry read from a complete 16-byte chunk is the canonical text of
      those bytes, which converts back to them. */
  lemma UuidEntryRoundTrip(data: seq<byte>, start: nat, i: nat)
    requires start + (i + 1) * 16 <= |data|
    ensures UuidEntry(data, start, 16, i).text == UuidText(data[start + i * 16..start + (i + 1) * 16])
    ensures UuidToBytes(UuidEntry(data, start, 16, i).text) == Success(data[start + i * 16..start + (i + 1) * 16])
  {
    var lo := start + i * 16;
    assert PySlice(data, lo, Some(lo + 16)) == data[lo..lo + 16];
    UuidRoundTrip(data[lo..lo + 16]);
  }

  /** What get_uuid_list_response_handler returns. */
  function UuidListReply(data: seq<byte>): Result<Record>
  {
    var response := LastByte(data);
    if response.Failure? then Failure(response.error)
    else
      Success(map["response" := Int(response.value),
                  "list" := List(UuidEntries(data, 8, WordAt(data, 0, 4), WordAt(data, 4, 4)))])
  }

  /** get_uuid_list_response_handler: the loop, then the dictionary. */
  method GetUuidListResponse(data: seq<byte>) returns (r: Result<Record>)
    ensures r == UuidListReply(data)
  {
    var itemCount, itemSize, uuidList := ReadUuidBatch(data, 0);
    var response := LastByte(data);
    if response.Failure? {
      return Failure(response.error);
    }
    r := Success(map["response" := Int(response.value), "list" := List(uuidList)]);
  }

  /** The reply holds exactly `count` entries, count being the word in
      bytes [0:4]; entry i is read from the record chunk
      [8+i*size : 8+(i+1)*size] exactly as the generic batch decoder reads
      record i; 'response' is the last byte, and an empty payload raises
      TypeError. */
  lemma UuidListShape(data: seq<byte>, i: nat)
    ensures UuidListReply(data).Success? <==> |data| > 0
    ensures UuidListReply(data).Failure? ==> UuidListReply(data).error == TypeError
    ensures UuidListReply(data).Success? ==>
      var reply := UuidListReply(data).value;
      && reply["response"] == Int(data[|data| - 1])
      && reply["list"].List?
      && |reply["list"].items| == Message.BatchLength(data)
      && (i < |reply["list"].items| ==>
            reply["list"].items[i] == Text(UuidText(Message.Chunk(data, i, Message.ItemSize(data)))))
  {
    var size := WordAt(data, 4, 4);
    assert 8 + i * size + size == 8 + (i + 1) * size;
  }

  /** The entries of a get_kdm_info reply: key ids as a counted batch at
      byte 48, after the KDM and CPL ids and the validity bounds. */
  function KdmInfoReply(data: seq<byte>): Result<Record>
  {
    var response := LastByte(data);
    if response.Failure? then Failure(response.error)
    else
      var count, size := WordAt(data, 48, 4), WordAt(data, 52, 4);
      Success(map[
        "kdm_id" := Text(UuidText(PySlice(data, 0, Some(16)))),
        "cpl_id" := Text(UuidText(PySlice(data, 16, Some(32)))),
        "not_valid_before" := Text(IntText(WordAt(data, 32, 8))),
        "not_valid_after" := Text(IntText(WordAt(data, 40, 8))),
        "response" := Int(response.value),
        "key_id_batch" := Dict(map[
          "number_of_items" := Int(count),
          "item_length" := Int(size),
          "list" := List(UuidEntries(data, 56, count, size))])])
  }

  /** get_kdm_info_response_handler: the fixed fields (the last byte is read
      while the dictionary is built, before the loop), then the loop. */
  method GetKdmInfoResponse(data: seq<byte>) returns (r: Result<Record>)
    ensures r == KdmInfoReply(data)
  {
    var response := LastByte(data);
    if response.Failure? {
      return Failure(response.error);
    }
    var responseData := map[
      "kdm_id" := Text(UuidText(PySlice(data, 0, Some(16)))),
      "cpl_id" := Text(UuidText(PySlice(data, 16, Some(32)))),
      "not_valid_before" := Text(IntText(WordAt(data, 32, 8))),
      "not_valid_after" := Text(IntText(WordAt(data, 40, 8))),
      "response" := Int(response.value)];
    var numItems, itemLength, keyIdList := ReadUuidBatch(data, 48);
    responseData := responseData["key_id_batch" := Dict(map[
      "number_of_items" := Int(numItems),
      "item_length" := Int(itemLength),
      "list" := List(keyIdList)])];
    r := Success(responseData);
  }

  /** The key-id batch of a KDM info reply counts the word at byte 48 and
      reads entry i from byte 56 + i*size; the validity bounds are the
      decimal text of the longs at bytes 32 and 40. */
  lemma KdmInfoShape(data: seq<byte>)
    ensures KdmInfoReply(data).Success? <==> |data| > 0
    ensures KdmInfoReply(data).Success? ==>
      var reply := KdmInfoReply(data).value;
      && reply["key_id_batch"].Dict?
      && reply["key_id_batch"].entries["number_of_items"] == Int(WordAt(data, 48, 4))
      && reply["key_id_batch"].entries["list"] == List(UuidEntries(data, 56, WordAt(data, 48, 4), WordAt(data, 52, 4)))
      && reply["not_valid_before"] == Text(IntText(WordAt(data, 32, 8)))
      && DecimalValue(reply["not_valid_before"].text) == WordAt(data, 32, 8)
      && reply["not_valid_after"] == Text(IntText(WordAt(data, 40, 8)))
      && DecimalValue(reply["not_valid_after"].text) == WordAt(data, 40, 8)
  {
    if |data| > 0 {
      var before, after := WordAt(data, 32, 8), WordAt(data, 40, 8);
      var count, size := WordAt(data, 48, 4), WordAt(data, 52, 4);
      var kdm, cpl := Text(UuidText(PySlice(data, 0, Some(16)))), Text(UuidText(PySlice(data, 16, Some(32))));
      var list := List(UuidEntries(data, 56, count, size));
      var reply := map["kdm_id" := kdm, "cpl_id" := cpl, "not_valid_before" := Text(IntText(before)),
        "not_valid_after" := Text(IntText(after)), "response" := Int(data[|data| - 1] as int),
        "key_id_batch" := Dict(map["number_of_items" := Int(count), "item_length" := Int(size), "list" := list])];
      assert KdmInfoReply(data) == Success(reply);
      KdmInfoKeys(kdm, cpl, Text(IntText(before)), Text(IntText(after)), Int(data[|data| - 1] as int),
        Int(count), Int(size), list);
      DateText(reply["not_valid_before"], before);
      DateText(reply["not_valid_after"], after);
    }
  }

  /** A date written as the decimal text of n reads back as n. */
  lemma DateText(v: Value, n: nat)
    requires v == Text(IntText(n))
    ensures DecimalValue(v.text) == n
  {
    DecimalRoundTrip(n);
  }

  /** The keys of the KDM info dictionary are distinct, so each reads back
      what was stored under it. */
  lemma KdmInfoKeys(kdm: Value, cpl: Value, before: Value, after: Value, response: Value, count: Value, size: Value, list: Value)
    ensures var reply := map["kdm_id" := kdm, "cpl_id" := cpl, "not_valid_before" := before,
        "not_valid_after" := after, "response" := response,
        "key_id_batch" := Dict(map["number_of_items" := count, "item_length" := size, "list" := list])];
      && reply["not_valid_before"] == before
      && reply["not_valid_after"] == after
      && reply["key_id_batch"].Dict?
      && reply["key_id_batch"].entries["number_of_items"] == count
      && reply["key_id_batch"].entries["list"] == list
  {
  }

  // ---------------------------------------------------------------------------
  // Strided lists: get_schedule_list and ingest_get_event_list
  // ---------------------------------------------------------------------------

  /** range(lo, hi, 8): the positions of the eight-byte steps. */
  function Range8(lo: int, hi: int): seq<int>
    decreases if lo < hi then hi - lo else 0
  {
    if lo >= hi then [] else [lo] + Range8(lo + 8, hi)
  }

  /** range(lo, hi, 8) holds ceil((hi - lo) / 8) values, the k-th being
      lo + 8k. */
  lemma {:induction false} Range8Shape(lo: int, hi: int)
    ensures |Range8(lo, hi)| == if lo < hi then (hi - lo + 7) / 8 else 0
    ensures forall k :: 0 <= k < |Range8(lo, hi)| ==> Range8(lo, hi)[k] == lo + 8 * k
    decreases if lo < hi then hi - lo else 0
  {
    if lo < hi {
      Range8Shape(lo + 8, hi);
      var rest := Range8(lo + 8, hi);
      assert Range8(lo, hi) == [lo] + rest;
      forall k | 1 <= k < |Range8(lo, hi)|
        ensures Range8(lo, hi)[k] == lo + 8 * k
      {
        assert Range8(lo, hi)[k] == rest[k - 1];
      }
    }
  }

  /** The payload without its last (response) byte: data[:-1]. */
  function Body(data: seq<byte>): (r: seq<byte>)
    ensures |r| == if |data| > 0 then |data| - 1 else 0
  {
    PySlice(data, 0, Some(-1))
  }

  /** The schedule id at position pos: a little-endian long read from the
      whole payload, so a step that reaches the end takes in the last byte. */
  function ScheduleEntry(data: seq<byte>, pos: int): int
  {
    LittleEndian(PySlice(data, pos, Some(pos + 8)))
  }

  /** The ids a schedule-list reply yields: one per position of
      range(0, len(data[:-1]), 8). */
  function ScheduleEntries(data: seq<byte>): (r: seq<int>)
  {
    var positions := Range8(0, |Body(data)|);
    seq(|positions|, k requires 0 <= k < |positions| => ScheduleEntry(data, positions[k]))
  }

  /** get_schedule_list_response_handler: the loop over the positions. */
  method ScheduleListLoop(data: seq<byte>) returns (scheduleList: seq<int>)
    ensures scheduleList == ScheduleEntries(data)
  {
    var positions := Range8(0, |Body(data)|);
    scheduleList := [];
    for j := 0 to |positions|
      invariant |scheduleList| == j
      invariant forall k :: 0 <= k < j ==> scheduleList[k] == ScheduleEntry(data, positions[k])
    {
      var pos := positions[j];
      scheduleList := scheduleList + [LittleEndian(PySlice(data, pos, Some(pos + 8)))];
    }
  }

  /** What get_schedule_list_response_handler returns. */
  function ScheduleListReply(data: seq<byte>): Result<Record>
  {
    var response := LastByte(data);
    if response.Failure? then Failure(response.error)
    else Success(map["schedule_list" := List(Ints(ScheduleEntries(data))), "response" := Int(response.value)])
  }

  /** Integers as Python values. */
  function Ints(xs: seq<int>): (r: seq<Value>)
    ensures |r| == |xs| && forall k :: 0 <= k < |xs| ==> r[k] == Int(xs[k])
  {
    seq(|xs|, k requires 0 <= k < |xs| => Int(xs[k]))
  }

  method GetScheduleListResponse(data: seq<byte>) returns (r: Result<Record>)
    ensures r == ScheduleListReply(data)
  {
    var scheduleList := ScheduleListLoop(data);
    var response := LastByte(data);
    if response.Failure? {
      return Failure(response.error);
    }
    r := Success(map["schedule_list" := List(Ints(scheduleList)), "response" := Int(response.value)]);
  }

  /** A schedule-list reply holds ceil((n-1)/8) ids for a payload of n bytes,
      id k being the little-endian long at 8k; when n-1 is a multiple of 8
      every id lies wholly before the response byte. */
  lemma ScheduleListShape(data: seq<byte>)
    ensures |ScheduleEntries(data)| == (|Body(data)| + 7) / 8
    ensures forall k :: 0 <= k < |ScheduleEntries(data)| ==> ScheduleEntries(data)[k] == ScheduleEntry(data, 8 * k)
    ensures |Body(data)| % 8 == 0 ==>
      forall k :: 0 <= k < |ScheduleEntries(data)| ==> 8 * k + 8 <= |Body(data)|
  {
    var n := |Body(data)|;
    Range8Shape(0, n);
    var e := ScheduleEntries(data);
    assert |e| == (n + 7) / 8;
    if n % 8 == 0 {
      forall k | 0 <= k < |e|
        ensures 8 * k + 8 <= n
      {
        WholeBlocks(n, k);
      }
    }
  }

  /** When n is a multiple of 8, each of the ceil(n/8) blocks ends by n. */
  lemma WholeBlocks(n: nat, k: nat)
    requires n % 8 == 0 && k < (n + 7) / 8
    ensures 8 * k + 8 <= n
  {
    assert n == 8 * (n / 8);
    assert (n + 7) / 8 == n / 8;
  }

  /** The event id at item k: a little-endian word. */
  function EventEntry(data: seq<byte>, k: nat): int
  {
    LittleEndian(PySlice(data, 4 * k, Some(4 * k + 4)))
  }

  /** The ids of an event-list reply: len(data[:-1]) / 4 of them (Python 2
      integer division floors). */
  function EventEntries(data: seq<byte>): (r: seq<int>)
  {
    seq(|Body(data)| / 4, k requires 0 <= k < |Body(data)| / 4 => EventEntry(data, k))
  }

  /** ingest_get_event_list_response_handler: the loop, its position moving
      by four bytes per item. */
  method EventListLoop(data: seq<byte>) returns (eventList: seq<int>)
    ensures eventList == EventEntries(data)
  {
    var itemCount := |Body(data)| / 4;
    var position := 0;
    eventList := [];
    for item := 0 to itemCount
      invariant position == 4 * item
      invariant |eventList| == item
      invariant forall k :: 0 <= k < item ==> eventList[k] == EventEntry(data, k)
    {
      var eventId := LittleEndian(PySlice(data, position, Some(position + 4)));
      position := position + 4;
      eventList := eventList + [eventId];
    }
  }

  /** What ingest_get_event_list_response_handler returns. */
  function EventListReply(data: seq<byte>): Result<Record>
  {
    var response := LastByte(data);
    if response.Failure? then Failure(response.error)
    else Success(map["response" := Int(response.value), "event_list" := List(Ints(EventEntries(data)))])
  }

  method IngestGetEventListResponse(data: seq<byte>) returns (r: Result<Record>)
    ensures r == EventListReply(data)
  {
    var eventList := EventListLoop(data);
    var response := LastByte(data);
    if response.Failure? {
      return Failure(response.error);
    }
    r := Success(map["response" := Int(response.value), "event_list" := List(Ints(eventList))]);
  }

  /** An event-list reply holds floor((n-1)/4) ids, each a whole four-byte
      word lying before the response byte. */
  lemma EventListShape(data: seq<byte>, k: nat)
    requires k < |EventEntries(data)|
    ensures |EventEntries(data)| * 4 <= |Body(data)| < |EventEntries(data)| * 4 + 4
    ensures 4 * k + 4 < |data|
    ensures EventEntries(data)[k] == LittleEndian(data[4 * k..4 * k + 4])
  {
    assert PySlice(data, 4 * k, Some(4 * k + 4)) == data[4 * k..4 * k + 4];
  }

  // ---------------------------------------------------------------------------
  // ingest_get_job_list
  // ---------------------------------------------------------------------------

  /** A job record: its id, its event count and its status byte. */
  datatype Job = Job(jobId: nat, eventCnt: nat, status: byte)

  /** The dictionary a job record becomes. */
  function JobValue(job: Job): Value
  {
    Dict(map["job_id" := Int(job.jobId), "job_status" := Int(job.status), "event_cnt" := Int(job.eventCnt)])
  }

  /** A list of job records as Python values. */
  function JobValues(jobs: seq<Job>): (r: seq<Value>)
    ensures |r| == |jobs| && forall k :: 0 <= k < |jobs| ==> r[k] == JobValue(jobs[k])
  {
    seq(|jobs|, k requires 0 <= k < |jobs| => JobValue(jobs[k]))
  }

  /** One 12-byte job record at index: the job id (long), the event count
      (short), the status byte, and one byte that is skipped. */
  function JobRecord(data: seq<byte>, index: nat): Result<Job>
  {
    var status := ByteSlice(data, index + 10);
    if status.Failure? then Failure(status.error)
    else Success(Job(WordAt(data, index, 8), WordAt(data, index + 8, 2), status.value))
  }

  /** r with prefix put before its list, failures unchanged. */
  function Prepend(prefix: seq<Job>, r: Result<seq<Job>>): Result<seq<Job>>
  {
    if r.Failure? then r else Success(prefix + r.value)
  }

  /** n records of a group, the first at start. */
  function JobRecords(data: seq<byte>, start: nat, n: nat): Result<seq<Job>>
    decreases n
  {
    if n == 0 then Success([])
    else
      var job := JobRecord(data, start);
      if job.Failure? then Failure(job.error)
      else Prepend([job.value], JobRecords(data, start + 12, n - 1))
  }

  /** The index after n records from start. */
  function GroupEnd(start: nat, n: nat): (r: nat)
    ensures r >= start
    decreases n
  {
    if n == 0 then start else GroupEnd(start + 12, n - 1)
  }

  /** The jobs from index on: while a byte other than the last remains,
      a group header (item count, then a length that is not used) and its
      records. */
  function JobList(data: seq<byte>, index: nat): Result<seq<Job>>
    decreases |data| - index
  {
    if !(|data| - 1 > index) then Success([])
    else
      var items := WordAt(data, index, 4);
      var group := JobRecords(data, index + 8, items);
      if group.Failure? then group
      else Prepend(group.value, JobList(data, GroupEnd(index + 8, items)))
  }

  /** One record of the inner loop of ingest_get_job_list_response_handler,
      its index moving over the 12 bytes. */
  method ReadJobRecord(data: seq<byte>, start: nat) returns (r: Result<Job>)
    ensures r == JobRecord(data, start)
  {
    var index := start;
    var jobId := WordAt(data, index, 8);
    index := index + 8;
    var eventCnt := WordAt(data, index, 2);
    index := index + 2;
    var status := ByteSlice(data, index);
    if status.Failure? {
      return Failure(status.error);
    }
    r := Success(Job(jobId, eventCnt, status.value));
  }

  /** Part way through a group of `items` records from start: the records
      read so far are group, the next is at index, i of them done. */
  predicate GroupSoFar(data: seq<byte>, start: nat, items: nat, i: nat, index: nat, group: seq<Job>)
    requires i <= items
  {
    JobRecords(data, start, items) == Prepend(group, JobRecords(data, index, items - i))
    && GroupEnd(start, items) == GroupEnd(index, items - i)
  }

  /** The inner loop of ingest_get_job_list_response_handler: `items`
      records from start; the index it ends on. */
  method ReadJobGroup(data: seq<byte>, start: nat, items: nat) returns (r: Result<seq<Job>>, end: nat)
    ensures r == JobRecords(data, start, items)
    ensures r.Success? ==> end == GroupEnd(start, items)
  {
    var index := start;
    var group: seq<Job> := [];
    GroupBegin(data, start, items);
    for i := 0 to items
      invariant GroupSoFar(data, start, items, i, index, group)
    {
      var job := ReadJobRecord(data, index);
      GroupAdvance(data, start, items, i, index, group, job);
      if job.Failure? {
        return Failure(job.error), index;
      }
      group := group + [job.value];
      index := index + 12;
    }
    GroupDone(data, start, items, index, group);
    r, end := Success(group), index;
  }

  /** Nothing read yet. */
  lemma GroupBegin(data: seq<byte>, start: nat, items: nat)
    ensures GroupSoFar(data, start, items, 0, start, [])
  {
    if JobRecords(data, start, items).Success? {
      assert [] + JobRecords(data, start, items).value == JobRecords(data, start, items).value;
    }
  }

  /** All records read. */
  lemma GroupDone(data: seq<byte>, start: nat, items: nat, index: nat, group: seq<Job>)
    requires GroupSoFar(data, start, items, items, index, group)
    ensures JobRecords(data, start, items) == Success(group)
    ensures GroupEnd(start, items) == index
  {
    assert group + [] == group;
  }

  /** One record further into a group: the group fails with the record, or
      the record joins the records read so far. */
  lemma GroupAdvance(data: seq<byte>, start: nat, items: nat, i: nat, index: nat, group: seq<Job>, job: Result<Job>)
    requires i < items && job == JobRecord(data, index)
    requires GroupSoFar(data, start, items, i, index, group)
    ensures job.Failure? ==> JobRecords(data, start, items) == Failure(job.error)
    ensures job.Success? ==> GroupSoFar(data, start, items, i + 1, index + 12, group + [job.value])
  {
    JobRecordsFirst(data, index, items - i);
    if job.Success? {
      PrependTwice(group, [job.value], JobRecords(data, index + 12, items - (i + 1)));
    }
  }

  /** A run of records starts with its first record: it fails with it, or
      continues after it. */
  lemma JobRecordsFirst(data: seq<byte>, start: nat, n: nat)
    requires n > 0
    ensures JobRecord(data, start).Failure? ==> JobRecords(data, start, n) == Failure(JobRecord(data, start).error)
    ensures JobRecord(data, start).Success? ==>
      JobRecords(data, start, n) == Prepend([JobRecord(data, start).value], JobRecords(data, start + 12, n - 1))
    ensures GroupEnd(start, n) == GroupEnd(start + 12, n - 1)
  {
  }

  /** Prepending twice is prepending the concatenation. */
  lemma PrependTwice(a: seq<Job>, b: seq<Job>, r: Result<seq<Job>>)
    ensures Prepend(a, Prepend(b, r)) == Prepend(a + b, r)
  {
    if r.Success? {
      assert a + (b + r.value) == (a + b) + r.value;
    }
  }

  /** The outer loop of ingest_get_job_list_response_handler. */
  method JobListLoop(data: seq<byte>) returns (r: Result<seq<Job>>)
    ensures r == JobList(data, 0)
  {
    var index := 0;
    var ingests: seq<Job> := [];
    assert JobList(data, 0).Success? ==> [] + JobList(data, 0).value == JobList(data, 0).value;
    while |data| - 1 > index
      invariant JobList(data, 0) == Prepend(ingests, JobList(data, index))
      decreases |data| - index
    {
      var items := WordAt(data, index, 4);
      index := index + 4;
      var length := WordAt(data, index, 4);
      index := index + 4;
      var group, end := ReadJobGroup(data, index, items);
      if group.Failure? {
        return Failure(group.error);
      }
      PrependTwice(ingests, group.value, JobList(data, end));
      ingests := ingests + group.value;
      index := end;
    }
    assert ingests + [] == ingests;
    r := Success(ingests);
  }

  /** What ingest_get_job_list_response_handler returns. */
  function JobListReply(data: seq<byte>): Result<Record>
  {
    var jobs := JobList(data, 0);
    if jobs.Failure? then Failure(jobs.error)
    else
      var response := ByteAt(data, -1);
      if response.Failure? then Failure(response.error)
      else Success(map["job_list" := List(JobValues(jobs.value)), "response" := Int(response.value)])
  }

  method IngestGetJobListResponse(data: seq<byte>) returns (r: Result<Record>)
    ensures r == JobListReply(data)
  {
    var jobs := JobListLoop(data);
    if jobs.Failure? {
      return Failure(jobs.error);
    }
    var response := ByteAt(data, -1);
    if response.Failure? {
      return Failure(response.error);
    }
    r := Success(map["job_list" := List(JobValues(jobs.value)), "response" := Int(response.value)]);
  }

  /** A group spans its 8-byte header and 12 bytes per record, so each turn
      of the outer loop moves the index on by at least 8. */
  lemma {:induction false} GroupEndValue(start: nat, n: nat)
    ensures GroupEnd(start, n) == start + 12 * n
    decreases n
  {
    if n > 0 {
      GroupEndValue(start + 12, n - 1);
    }
  }

  /** Two payloads of one length that agree from byte `from` on. */
  predicate SameFrom(a: seq<byte>, b: seq<byte>, from: nat)
  {
    |a| == |b| && forall i :: from <= i < |a| ==> a[i] == b[i]
  }

  lemma SliceSameFrom(a: seq<byte>, b: seq<byte>, from: nat, at: nat, w: nat)
    requires SameFrom(a, b, from) && from <= at
    ensures PySlice(a, at, Some(at + w)) == PySlice(b, at, Some(at + w))
  {
  }

  lemma {:induction false} RecordsSameFrom(a: seq<byte>, b: seq<byte>, from: nat, start: nat, n: nat)
    requires SameFrom(a, b, from) && from <= start
    ensures JobRecords(a, start, n) == JobRecords(b, start, n)
    decreases n
  {
    if n > 0 {
      JobRecordSameFrom(a, b, from, start);
      RecordsSameFrom(a, b, from, start + 12, n - 1);
      RecordsStep(a, start, n);
      RecordsStep(b, start, n);
    }
  }

  /** n records are the first record followed by the n - 1 after it. */
  lemma RecordsStep(data: seq<byte>, start: nat, n: nat)
    requires n > 0
    ensures var job := JobRecord(data, start);
      JobRecords(data, start, n) ==
        if job.Failure? then Failure(job.error) else Prepend([job.value], JobRecords(data, start + 12, n - 1))
  {
  }

  lemma JobRecordSameFrom(a: seq<byte>, b: seq<byte>, from: nat, start: nat)
    requires SameFrom(a, b, from) && from <= start
    ensures JobRecord(a, start) == JobRecord(b, start)
  {
    SliceSameFrom(a, b, from, start, 8);
    SliceSameFrom(a, b, from, start + 8, 2);
    assert ByteSlice(a, start + 10) == ByteSlice(b, start + 10);
  }

  lemma {:induction false} JobListSameFrom(a: seq<byte>, b: seq<byte>, from: nat, index: nat)
    requires SameFrom(a, b, from) && from <= index
    ensures JobList(a, index) == JobList(b, index)
    decreases |a| - index
  {
    if |a| - 1 > index {
      var items := WordAt(a, index, 4);
      SliceSameFrom(a, b, from, index, 4);
      RecordsSameFrom(a, b, from, index + 8, items);
      JobListSameFrom(a, b, from, GroupEnd(index + 8, items));
    }
  }

  /** The record length declared in a group header (bytes 4 to 8 of the
      first group) is read but never used: payloads that differ only there
      decode to the same jobs. */
  lemma JobLengthIgnored(a: seq<byte>, b: seq<byte>)
    requires |a| == |b|
    requires forall i :: 0 <= i < |a| && !(4 <= i < 8) ==> a[i] == b[i]
    ensures JobList(a, 0) == JobList(b, 0)
  {
    if |a| - 1 > 0 {
      var items := WordAt(a, 0, 4);
      assert PySlice(a, 0, Some(4)) == PySlice(b, 0, Some(4));
      assert SameFrom(a, b, 8);
      RecordsSameFrom(a, b, 8, 8, items);
      JobListSameFrom(a, b, 8, GroupEnd(8, items));
    }
  }

  // ---------------------------------------------------------------------------
  // validate_cpl
  // ---------------------------------------------------------------------------

  /** What validate_cpl_response_handler returns: the result and error-code
      bytes, the response byte, and the message between them cut at the
      first NUL (empty when the payload has no room for one). */
  function ValidateCplReply(data: seq<byte>): (r: Result<Record>)
    ensures r.Success? <==> |data| >= 2
    ensures r.Failure? ==> r.error == TypeError
  {
    var result := ByteSlice(data, 0);
    var errorCode := ByteSlice(data, 1);
    if result.Failure? then Failure(result.error)
    else if errorCode.Failure? then Failure(errorCode.error)
    else
      var response := LastByte(data);
      var lenErrorMsgs := |data| - 3;
      var errorMsgs := if lenErrorMsgs > 0 then CutAtNul(PySlice(data, 2, Some(2 + lenErrorMsgs))) else [];
      Success(map["result" := Int(result.value), "error_code" := Int(errorCode.value),
                  "response" := Int(response.value), "error_msgs" := Str(errorMsgs)])
  }

  /** A validation reply built from a result, an error code, a message
      without NUL and a response byte decodes back to those four. */
  lemma ValidateCplRoundTrip(result: byte, errorCode: byte, msg: seq<byte>, response: byte)
    requires 0 !in msg
    ensures var r := ValidateCplReply([result, errorCode] + msg + [response]);
      && r.Success?
      && r.value["result"] == Int(result as int)
      && r.value["error_code"] == Int(errorCode as int)
      && r.value["response"] == Int(response as int)
      && r.value["error_msgs"] == Str(msg)
  {
    var data := [result, errorCode] + msg + [response];
    if |msg| > 0 {
      assert PySlice(data, 2, Some(2 + |data| - 3)) == msg + [];
      CutAtNulPadded(msg, []);
    }
  }

  /** A message padded with NULs reads back as the message. */
  lemma ValidateCplPadded(result: byte, errorCode: byte, msg: seq<byte>, pad: nat, response: byte)
    requires 0 !in msg
    ensures var r := ValidateCplReply([result, errorCode] + msg + seq(pad, _ => 0 as byte) + [response]);
      r.Success? && r.value["error_msgs"] == Str(msg)
  {
    var zeros := seq(pad, _ => 0 as byte);
    var data := [result, errorCode] + msg + zeros + [response];
    if |msg| + pad > 0 {
      assert PySlice(data, 2, Some(2 + |data| - 3)) == msg + zeros;
      CutAtNulPadded(msg, zeros);
    }
  }

  // ---------------------------------------------------------------------------
  // get_cpl_info
  // ---------------------------------------------------------------------------

  /** The content-kind labels; any other kind is 'Unknown'. */
  function ContentKindText(kind: byte): (t: string)
    ensures kind == 0 || (10 < kind < 128) || kind > 128 ==> t == "Unknown"
  {
    match kind
    case 1 => "Feature"
    case 2 => "Trailer"
    case 3 => "Test"
    case 4 => "Teaser"
    case 5 => "Rating"
    case 6 => "Advertisement"
    case 7 => "Short"
    case 8 => "Transitional"
    case 9 => "PSA"
    case 10 => "Policy"
    case 128 => "Live CPL"
    case _ => "Unknown"
  }

  /** The fixed-offset fields of a CPL info reply (168 bytes and the
      response byte). */
  function CplInfoFields(data: seq<byte>): Record
    requires |data| >= 168
  {
    map[
      "id" := Text(UuidText(PySlice(data, 0, Some(16)))),
      "storage" := Int(data[16] as int),
      "content_kind" := Int(data[145] as int),
      "edit_rate_a" := Int(WordAt(data, 150, 4)),
      "edit_rate_b" := Int(WordAt(data, 154, 4)),
      "picture_encoding" := Int(data[158] as int),
      "picture_height" := Int(WordAt(data, 161, 2)),
      "picture_encryption" := Int(data[163] as int),
      "sound_encoding" := Int(data[164] as int),
      "sound_channel_count" := Int(data[165] as int),
      "sound_quantization_bits" := Int(data[166] as int),
      "sound_encryption" := Int(data[167] as int),
      "content_title_text" := Str(CutAtNul(PySlice(data, 17, Some(145)))),
      "content_kind_text" := Text(ContentKindText(data[145])),
      "duration" := Int(WordAt(data, 146, 4)),
      "picture_width" := Int(WordAt(data, 159, 2)),
      "response" := Int(data[|data| - 1] as int)]
  }

  /** The key-id batch of a CPL info reply: a count at 168, an item length
      at 172, and the entries from 176. */
  function CplKeyBatch(data: seq<byte>): Value
  {
    var count, size := WordAt(data, 168, 4), WordAt(data, 172, 4);
    Dict(map["number_of_items" := Int(count), "item_length" := Int(size),
             "list" := List(UuidEntries(data, 176, count, size))])
  }

  /** The batch the loop reads at 168 is the reference key batch. */
  lemma CplKeyBatchRead(data: seq<byte>, count: nat, size: nat, list: seq<Value>)
    requires count == WordAt(data, 168, 4) && size == WordAt(data, 172, 4)
    requires list == UuidEntries(data, 176, count, size)
    ensures Dict(map["number_of_items" := Int(count), "item_length" := Int(size), "list" := List(list)]) == CplKeyBatch(data)
  {
  }

  /** What get_cpl_info_response_handler returns: every indexed read up to
      byte 167 raises IndexError on a shorter payload. */
  function CplInfoReply(data: seq<byte>): Result<Record>
  {
    if |data| < 168 then Failure(IndexError)
    else Success(CplInfoFields(data)["crypto_key_id_batch" := CplKeyBatch(data)])
  }

  /** get_cpl_info_response_handler: the fixed fields, then the loop over
      the key ids. */
  method GetCplInfoResponse(data: seq<byte>) returns (r: Result<Record>)
    ensures r == CplInfoReply(data)
  {
    var last := ByteAt(data, 167);
    if last.Failure? {
      return Failure(IndexError);
    }
    var info := CplInfoFields(data);
    var numItems, itemLength, cryptoKeyIdList := ReadUuidBatch(data, 168);
    var batch := Dict(map[
      "number_of_items" := Int(numItems),
      "item_length" := Int(itemLength),
      "list" := List(cryptoKeyIdList)]);
    CplKeyBatchRead(data, numItems, itemLength, cryptoKeyIdList);
    info := info["crypto_key_id_batch" := batch];
    r := Success(info);
  }

  /** The title of a CPL info reply is the 128 bytes from 17 cut at the
      first NUL, and its kind label follows the table at byte 145. */
  lemma CplInfoTitle(data: seq<byte>, title: seq<byte>)
    requires |data| >= 168 && data[17..145] == title
    ensures CplInfoReply(data).Success?
    ensures CplInfoReply(data).value["content_title_text"] == Str(CutAtNul(title))
    ensures CplInfoReply(data).value["content_kind_text"] == Text(ContentKindText(data[145]))
  {
    CplInfoTextFields(data);
    assert PySlice(data, 17, Some(145)) == title;
  }

  /** The two label fields of the fixed part, as read from the payload. */
  lemma CplInfoTextFields(data: seq<byte>)
    requires |data| >= 168
    ensures CplInfoFields(data)["content_title_text"] == Str(CutAtNul(PySlice(data, 17, Some(145))))
    ensures CplInfoFields(data)["content_kind_text"] == Text(ContentKindText(data[145]))
  {
  }

  /** The numeric fields of a CPL info reply are read from their own bytes,
      the response is the last byte, and the key ids follow at 168. */
  lemma CplInfoNumbers(data: seq<byte>)
    requires |data| >= 168
    ensures CplInfoReply(data).Success?
    ensures CplInfoReply(data).value["duration"] == Int(BigEndian(data[146..150]))
    ensures CplInfoReply(data).value["picture_width"] == Int(BigEndian(data[159..161]))
    ensures CplInfoReply(data).value["response"] == Int(data[|data| - 1] as int)
    ensures CplInfoReply(data).value["crypto_key_id_batch"] == CplKeyBatch(data)
  {
    assert PySlice(data, 146, Some(150)) == data[146..150];
    assert PySlice(data, 159, Some(161)) == data[159..161];
  }

  /** A CPL info reply fails exactly when the payload is shorter than 168
      bytes. */
  lemma CplInfoFailure(data: seq<byte>)
    ensures CplInfoReply(data).Failure? <==> |data| < 168
    ensures CplInfoReply(data).Failure? ==> CplInfoReply(data).error == IndexError
  {
  }

  // ---------------------------------------------------------------------------
  // get_scheduler
  // ---------------------------------------------------------------------------

  /** What get_scheduler_response_handler returns: the first byte as a
      boolean when it is 0 or 1, 'Error' otherwise, and the last byte. */
  function SchedulerReply(data: seq<byte>): (r: Result<Record>)
    ensures r.Success? <==> |data| > 0
    ensures r.Failure? ==> r.error == IndexError
  {
    var first := ByteAt(data, 0);
    if first.Failure? then Failure(first.error)
    else
      var enabled := if first.value == 0 then Bool(false) else if first.value == 1 then Bool(true) else Text("Error");
      Success(map["enabled" := enabled, "response" := Int(ByteAt(data, -1).value)])
  }

  /** The byte set_scheduler_request_handler sends for a flag reads back as
      that flag. */
  lemma SchedulerRoundTrip(enabled: RequestHandlers.Arg, response: byte)
    requires RequestHandlers.SetSchedulerRequest(enabled).Success?
    ensures var sent := RequestHandlers.SetSchedulerRequest(enabled).value;
      var r := SchedulerReply(sent + [response]);
      && r.Success?
      && r.value["enabled"] == Bool(RequestHandlers.EqualsInt(enabled, 1) || enabled == RequestHandlers.StrArg("true"))
      && r.value["response"] == Int(response as int)
  {
  }

  /** Any first byte other than 0 and 1 reads as 'Error'. */
  lemma SchedulerError(data: seq<byte>)
    requires |data| > 0 && data[0] > 1
    ensures SchedulerReply(data).Success? && SchedulerReply(data).value["enabled"] == Text("Error")
  {
  }

  // ---------------------------------------------------------------------------
  // snmp_get
  // ---------------------------------------------------------------------------

  /** The value type and value of an SNMP reply: the first two lines of the
      text before the first NUL, IndexError when there is only one; nothing
      when the text is empty. */
  function SnmpValues(data: seq<byte>): Result<Option<(seq<byte>, seq<byte>)>>
  {
    var raw := CutAtNul(Body(data));
    if raw == [] then Success(None)
    else
      var values := Split(raw, 10);
      if |values| < 2 then Failure(IndexError)
      else Success(Some((values[0], values[1])))
  }

  /** The result dictionary with the value fields added, if any were read. */
  function WithValues(result: Record, values: Result<Option<(seq<byte>, seq<byte>)>>): Result<Record>
  {
    match values
    case Failure(e) => Failure(e)
    case Success(None) => Success(result)
    case Success(Some((valueType, value))) => Success(result["value_type" := Str(valueType)]["value" := Str(value)])
  }

  /** snmp_get_response_handler as written: the value fields are added only
      when check_response accepts the result dictionary. */
  function SnmpGetReply(data: seq<byte>): (r: Result<Record>)
    ensures r.Success? <==> |data| > 0
  {
    var response := ByteAt(data, -1);
    if response.Failure? then Failure(response.error)
    else
      var result := map["response" := Int(response.value)];
      if CheckResponse(Instance(Dict(result))) then WithValues(result, SnmpValues(data)) else Success(result)
  }

  /** Because check_response never accepts a dictionary, an SNMP reply holds
      only its response byte, whatever the payload says. */
  lemma SnmpValueNeverRead(data: seq<byte>)
    requires |data| > 0
    ensures SnmpGetReply(data) == Success(map["response" := Int(data[|data| - 1] as int)])
  {
    CheckResponseNever(Dict(map["response" := Int(data[|data| - 1] as int)]));
  }

  /** snmp_get_response_handler with the response check it evidently
      intends: a zero response byte. */
  function SnmpGetReplyFixed(data: seq<byte>): Result<Record>
  {
    var response := ByteAt(data, -1);
    if response.Failure? then Failure(response.error)
    else
      var result := map["response" := Int(response.value)];
      if ResponseOk(result) then WithValues(result, SnmpValues(data)) else Success(result)
  }

  /** With the intended check, a successful reply of the form
      type '\n' value response yields its value type and value. */
  lemma SnmpFixedRoundTrip(valueType: seq<byte>, value: seq<byte>)
    requires 0 !in valueType && 10 !in valueType
    requires 0 !in value && 10 !in value
    ensures var r := SnmpGetReplyFixed(valueType + [10] + value + [0]);
      && r.Success?
      && r.value["response"] == Int(0)
      && r.value["value_type"] == Str(valueType)
      && r.value["value"] == Str(value)
  {
    var raw := valueType + [10] + value;
    var data := raw + [0];
    assert Body(data) == raw + [];
    CutAtNulPadded(raw, []);
    SplitAfter(valueType, 10, value);
  }
}

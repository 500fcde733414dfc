/**
 * The declarative message model: message definitions with a 3-byte key and an
 * ordered element list, request elements, response elements over Python slice
 * offsets, counted batches of fixed-size records, and the registry that indexes
 * a list of definitions by name and by key (dcitools/devices/doremi/message.py).
 */
module Message {
  import opened Wrappers
  import opened Bytes
  import opened Values

  /** The toolbox encoders a request element names. */
  datatype Encoder = IntToBytes | TextToBytes | UuidToBytes | BoolToBytes

  /** The toolbox decoders a response element names. */
  datatype Decoder = BytesToInt | BytesToText | BytesToUuid | BytesToUuidList

  /** A response element: a name, slice offsets into the payload, a decoder and
      an optional translation table from decoded integers to labels. */
  datatype Field = Field(name: string, start: int, end: Option<int>, decoder: Decoder,
                         translate: Option<map<int, string>>)

  /** The elements a definition can hold: a request parameter with its static
      keyword arguments (`size=`, `bit=`), a response field, or a batch of
      fixed-size records. */
  datatype Element =
    | Request(name: string, encoder: Encoder, kwargs: map<string, int>)
    | Response(field: Field)
    | Batch(name: string, start: int, end: Option<int>, subs: seq<Field>)
  {
    function Name(): string
    {
      match this
      case Request(n, _, _) => n
      case Response(f) => f.name
      case Batch(n, _, _, _) => n
    }
  }

  datatype MessageDefinition = MessageDefinition(name: string, key: seq<byte>, elements: seq<Element>)

  /** Builds a definition from its hex key; a key that is not hex text fails as
      bytes.fromhex does (white space between byte pairs is skipped). A
      missing element list is an empty one. */
  function Define(name: string, hex: string, elements: Option<seq<Element>>): (r: Result<MessageDefinition>)
    ensures r.Success? <==> FromHex(hex).Some?
    ensures r.Success? ==> r.value.name == name && 2 * |r.value.key| == |DropByteSpace(hex)|
    ensures r.Success? ==> r.value.elements == elements.GetOr([])
    ensures r.Success? && (forall i :: 0 <= i < |hex| ==> IsUpperHex(hex[i])) ==> ToHex(r.value.key) == hex
  {
    match FromHex(hex)
    case None => Failure(ValueError)
    case Some(key) =>
      FromHexDigits(hex);
      if forall i :: 0 <= i < |hex| ==> IsUpperHex(hex[i]) then
        FromHexNoSpace(hex);
        UpperHexDecodes(hex);
        Success(MessageDefinition(name, key, elements.GetOr([])))
      else Success(MessageDefinition(name, key, elements.GetOr([])))
  }

  /** The key's bytes are the pairs of hex digits of the text once its
      white space is gone: Define(n, '0A 01 00', e) has key 0A 01 00. */
  lemma DefineKey(name: string, hex: string, elements: Option<seq<Element>>)
    ensures var r := Define(name, hex, elements);
      r.Success? ==> HexPairs(DropByteSpace(hex)) == Some(r.value.key)
  {
    FromHexDigits(hex);
  }

  /** The keys of the tables: six upper-case hex digits. */
  predicate ValidKey(hex: string)
  {
    |hex| == 6 && forall k :: 0 <= k < |hex| ==> IsUpperHex(hex[k])
  }

  /** A table key defines successfully, as 3 bytes that print back as the key. */
  lemma ValidKeyDefines(name: string, hex: string, elements: seq<Element>)
    requires ValidKey(hex)
    ensures Define(name, hex, Some(elements)).Success?
    ensures |Define(name, hex, Some(elements)).value.key| == 3
    ensures ToHex(Define(name, hex, Some(elements)).value.key) == hex
  {
    UpperHexDecodes(hex);
  }

  /** The element names in declared order. */
  function ElementNames(d: MessageDefinition): (r: seq<string>)
    ensures |r| == |d.elements|
    ensures forall i :: 0 <= i < |r| ==> r[i] == d.elements[i].Name()
  {
    seq(|d.elements|, i requires 0 <= i < |d.elements| => d.elements[i].Name())
  }

  // ---------------------------------------------------------------------------
  // Decoding response fields and batches
  // ---------------------------------------------------------------------------

  /** The toolbox decoders (assumed: unsigned big-endian integers, text up to
      the first NUL with one character per byte, canonical UUID text, and a
      list of UUIDs over consecutive 16-byte chunks). */
  function Decode(dec: Decoder, b: seq<byte>): Value
  {
    match dec
    case BytesToInt => Int(BigEndian(b))
    case BytesToText => Text(BytesToChars(CutAtNul(b)))
    case BytesToUuid => Text(UuidText(b))
    case BytesToUuidList =>
      List(seq(|b| / 16, k requires 0 <= k < |b| / 16 => Text(UuidText(b[16 * k..16 * k + 16]))))
  }

  /** A table is consulted only when it is present and not empty. */
  predicate Translates(e: Field)
  {
    e.translate.Some? && |e.translate.value| > 0
  }

  const UNKNOWN_VALUE: string := "unknown value"

  /** table.get(value, 'unknown value'). */
  function Translate(table: map<int, string>, v: Value): (r: Value)
    ensures r.Text?
    ensures v.Int? && v.i in table ==> r.text == table[v.i]
    ensures !(v.Int? && v.i in table) ==> r.text == UNKNOWN_VALUE
  {
    if v.Int? && v.i in table then Text(table[v.i]) else Text(UNKNOWN_VALUE)
  }

  /** The dictionary keys one field writes. */
  function FieldKeys(e: Field): set<string>
  {
    {e.name} + (if Translates(e) then {e.name + "_text"} else {})
  }

  /** One step of the record loop: the field's value, then its label. */
  function AddField(item: Record, e: Field, chunk: seq<byte>): Record
  {
    var item' := item[e.name := Decode(e.decoder, PySlice(chunk, e.start, e.end))];
    if Translates(e) then item'[e.name + "_text" := Translate(e.translate.value, item'[e.name])]
    else item'
  }

  /** The record the field loop builds from one chunk. */
  function DecodeRecord(subs: seq<Field>, chunk: seq<byte>): Record
  {
    if subs == [] then map[]
    else AddField(DecodeRecord(subs[..|subs| - 1], chunk), subs[|subs| - 1], chunk)
  }

  /** The record count: the integer in bytes [0:4]. */
  function BatchLength(b: seq<byte>): nat
  {
    BigEndian(PySlice(b, 0, Some(4)))
  }

  /** The record size: the integer in bytes [4:8]. */
  function ItemSize(b: seq<byte>): nat
  {
    BigEndian(PySlice(b, 4, Some(8)))
  }

  /** Record i: b[8+i*size : 8+(i+1)*size], clamped to the buffer. */
  function Chunk(b: seq<byte>, i: nat, size: nat): seq<byte>
  {
    PySlice(b, 8 + i * size, Some(8 + (i + 1) * size))
  }

  /** What the batch decoder returns: one dictionary per counted record. */
  function BatchItems(subs: seq<Field>, b: seq<byte>): (r: seq<Value>)
    ensures |r| == BatchLength(b)
  {
    seq(BatchLength(b), i requires 0 <= i < BatchLength(b) => Dict(DecodeRecord(subs, Chunk(b, i, ItemSize(b)))))
  }

  /** Item i of a batch is the record decoded from chunk i. */
  lemma BatchItem(subs: seq<Field>, b: seq<byte>, i: nat)
    requires i < BatchLength(b)
    ensures BatchItems(subs, b)[i] == Dict(DecodeRecord(subs, Chunk(b, i, ItemSize(b))))
  {
  }

  /** The decoder of a batch element: for each of the `length` records, read
      each sub-field from the record's own chunk. */
  method DecodeBatch(subs: seq<Field>, b: seq<byte>) returns (result: seq<Value>)
    ensures result == BatchItems(subs, b)
  {
    result := [];
    var length := BatchLength(b);
    var size := ItemSize(b);
    for i := 0 to length
      invariant |result| == i
      invariant forall k :: 0 <= k < i ==> result[k] == Dict(DecodeRecord(subs, Chunk(b, k, size)))
    {
      var item := DecodeItem(subs, Chunk(b, i, size));
      result := result + [Dict(item)];
    }
  }

  /** The inner loop of the batch decoder: one dictionary from one chunk. */
  method DecodeItem(subs: seq<Field>, chunk: seq<byte>) returns (item: Record)
    ensures item == DecodeRecord(subs, chunk)
  {
    item := map[];
    for j := 0 to |subs|
      invariant item == DecodeRecord(subs[..j], chunk)
    {
      var e := subs[j];
      assert subs[..j + 1][..j] == subs[..j];
      item := item[e.name := Decode(e.decoder, PySlice(chunk, e.start, e.end))];
      if e.translate.Some? && |e.translate.value| > 0 {
        item := item[e.name + "_text" := Translate(e.translate.value, item[e.name])];
      }
    }
    assert subs[..|subs|] == subs;
  }

  /** The batch yields exactly the count read from bytes [0:4], and a buffer
      shorter than its count still yields that many records. */
  lemma BatchCount(subs: seq<Field>, b: seq<byte>)
    ensures |BatchItems(subs, b)| == BigEndian(PySlice(b, 0, Some(4)))
    ensures |b| >= 4 ==> |BatchItems(subs, b)| == BigEndian(b[..4])
  {
  }

  /** A record chunk never exceeds the record size, is complete when the
      buffer reaches its end, and holds the bytes at offset 8 + i*size. */
  lemma ChunkShape(b: seq<byte>, i: nat, size: nat)
    ensures |Chunk(b, i, size)| <= size
    ensures 8 + (i + 1) * size <= |b| ==> |Chunk(b, i, size)| == size
    ensures 8 + i * size >= |b| ==> Chunk(b, i, size) == []
    ensures forall k :: 0 <= k < |Chunk(b, i, size)| ==> Chunk(b, i, size)[k] == b[8 + i * size + k]
  {
    assert 8 + (i + 1) * size == 8 + i * size + size;
  }

  /** The keys written by the fields of a list, all together. */
  function RecordKeys(subs: seq<Field>): set<string>
  {
    if subs == [] then {} else RecordKeys(subs[..|subs| - 1]) + FieldKeys(subs[|subs| - 1])
  }

  /** A record holds exactly the field names plus a `_text` key for each field
      with a non-empty table, and nothing else. */
  lemma {:induction false} DecodeRecordKeys(subs: seq<Field>, chunk: seq<byte>)
    ensures DecodeRecord(subs, chunk).Keys == RecordKeys(subs)
  {
    if subs != [] {
      DecodeRecordKeys(subs[..|subs| - 1], chunk);
    }
  }

  /** Every key in RecordKeys comes from one of the fields. */
  lemma {:induction false} RecordKeysMember(subs: seq<Field>, k: string)
    ensures k in RecordKeys(subs) <==> exists j :: 0 <= j < |subs| && k in FieldKeys(subs[j])
  {
    if subs != [] {
      var p := subs[..|subs| - 1];
      RecordKeysMember(p, k);
      if k in RecordKeys(p) {
        var j :| 0 <= j < |p| && k in FieldKeys(p[j]);
        assert subs[j] == p[j];
      }
      if exists j :: 0 <= j < |subs| && k in FieldKeys(subs[j]) {
        var j :| 0 <= j < |subs| && k in FieldKeys(subs[j]);
        if j < |p| {
          assert p[j] == subs[j];
        }
      }
    }
  }

  /** No two fields of a record write the same key. */
  predicate DistinctOutputs(subs: seq<Field>)
  {
    forall i, j :: 0 <= i < j < |subs| ==> FieldKeys(subs[i]) !! FieldKeys(subs[j])
  }

  /** When the fields write distinct keys, each field's value is its decoder
      applied to its own slice of the chunk, and its label is the table entry
      for that value or 'unknown value'. */
  lemma {:induction false} DecodeRecordField(subs: seq<Field>, chunk: seq<byte>, j: nat)
    requires DistinctOutputs(subs)
    requires j < |subs|
    ensures subs[j].name in DecodeRecord(subs, chunk)
    ensures DecodeRecord(subs, chunk)[subs[j].name] == Decode(subs[j].decoder, PySlice(chunk, subs[j].start, subs[j].end))
    ensures Translates(subs[j]) ==>
      && subs[j].name + "_text" in DecodeRecord(subs, chunk)
      && DecodeRecord(subs, chunk)[subs[j].name + "_text"] ==
         Translate(subs[j].translate.value, Decode(subs[j].decoder, PySlice(chunk, subs[j].start, subs[j].end)))
  {
    var n := |subs|;
    var e := subs[j];
    var p := subs[..n - 1];
    assert |e.name + "_text"| != |e.name|;
    if j == n - 1 {
      AddFieldOwn(DecodeRecord(p, chunk), e, chunk);
    } else {
      assert p[j] == e;
      DistinctPrefix(subs);
      DecodeRecordField(p, chunk, j);
      assert FieldKeys(e) !! FieldKeys(subs[n - 1]);
      AddFieldKeeps(DecodeRecord(p, chunk), subs[n - 1], chunk, e.name);
      if Translates(e) {
        AddFieldKeeps(DecodeRecord(p, chunk), subs[n - 1], chunk, e.name + "_text");
      }
    }
  }

  /** A field sets its own value and, with a table, its label. */
  lemma AddFieldOwn(item: Record, e: Field, chunk: seq<byte>)
    ensures e.name in AddField(item, e, chunk)
    ensures AddField(item, e, chunk)[e.name] == Decode(e.decoder, PySlice(chunk, e.start, e.end))
    ensures Translates(e) ==>
      && e.name + "_text" in AddField(item, e, chunk)
      && AddField(item, e, chunk)[e.name + "_text"] == Translate(e.translate.value, Decode(e.decoder, PySlice(chunk, e.start, e.end)))
  {
    assert |e.name + "_text"| != |e.name|;
  }

  /** A field leaves every key it does not write as it was. */
  lemma AddFieldKeeps(item: Record, e: Field, chunk: seq<byte>, k: string)
    requires k !in FieldKeys(e)
    ensures k in AddField(item, e, chunk) <==> k in item
    ensures k in item ==> AddField(item, e, chunk)[k] == item[k]
  {
  }

  /** Distinct outputs stay distinct without the last field. */
  lemma DistinctPrefix(subs: seq<Field>)
    requires DistinctOutputs(subs) && subs != []
    ensures DistinctOutputs(subs[..|subs| - 1])
  {
    var p := subs[..|subs| - 1];
    forall a, c | 0 <= a < c < |p|
      ensures FieldKeys(p[a]) !! FieldKeys(p[c])
    {
      assert p[a] == subs[a] && p[c] == subs[c];
    }
  }

  /** Without a table (or with an empty one) a field adds no `_text` key of its
      own: the key is present only if another field writes it. */
  lemma NoLabelWithoutTable(subs: seq<Field>, chunk: seq<byte>, j: nat)
    requires j < |subs| && !Translates(subs[j])
    requires forall i :: 0 <= i < |subs| ==> subs[j].name + "_text" !in FieldKeys(subs[i])
    ensures subs[j].name + "_text" !in DecodeRecord(subs, chunk)
  {
    DecodeRecordKeys(subs, chunk);
    RecordKeysMember(subs, subs[j].name + "_text");
  }

  // ---------------------------------------------------------------------------
  // The registry
  // ---------------------------------------------------------------------------

  /** The name index the constructor loop leaves: the last definition wins. */
  function NameIndex(ms: seq<MessageDefinition>): map<string, MessageDefinition>
  {
    if ms == [] then map[] else NameIndex(ms[..|ms| - 1])[ms[|ms| - 1].name := ms[|ms| - 1]]
  }

  /** The key index the constructor loop leaves: the last definition wins. */
  function KeyIndex(ms: seq<MessageDefinition>): map<seq<byte>, MessageDefinition>
  {
    if ms == [] then map[] else KeyIndex(ms[..|ms| - 1])[ms[|ms| - 1].key := ms[|ms| - 1]]
  }

  /** ms[j] is the last definition named `name`. */
  predicate LastNamed(ms: seq<MessageDefinition>, name: string, j: int)
  {
    0 <= j < |ms| && ms[j].name == name && forall k :: j < k < |ms| ==> ms[k].name != name
  }

  /** ms[j] is the last definition with key `key`. */
  predicate LastKeyed(ms: seq<MessageDefinition>, key: seq<byte>, j: int)
  {
    0 <= j < |ms| && ms[j].key == key && forall k :: j < k < |ms| ==> ms[k].key != key
  }

  /** A name is indexed exactly when some definition has it, and it maps to the
      last such definition. */
  lemma NameIndexLastWins(ms: seq<MessageDefinition>, name: string)
    ensures name in NameIndex(ms) <==> exists i :: 0 <= i < |ms| && ms[i].name == name
    ensures name in NameIndex(ms) ==> exists j :: LastNamed(ms, name, j) && NameIndex(ms)[name] == ms[j]
  {
    NameIndexDomain(ms, name);
    if name in NameIndex(ms) {
      NameIndexValue(ms, name);
    }
  }

  /** Which names the index holds. */
  lemma {:induction false} NameIndexDomain(ms: seq<MessageDefinition>, name: string)
    ensures name in NameIndex(ms) <==> exists i :: 0 <= i < |ms| && ms[i].name == name
  {
    if ms != [] {
      var p := ms[..|ms| - 1];
      NameIndexDomain(p, name);
      if exists i :: 0 <= i < |ms| && ms[i].name == name {
        var i :| 0 <= i < |ms| && ms[i].name == name;
        if i < |p| {
          assert p[i] == ms[i];
        }
      }
      if name in NameIndex(p) {
        var i :| 0 <= i < |p| && p[i].name == name;
        assert ms[i] == p[i];
      }
    }
  }

  /** What an indexed name maps to. */
  lemma {:induction false} NameIndexValue(ms: seq<MessageDefinition>, name: string)
    requires name in NameIndex(ms)
    ensures exists j :: LastNamed(ms, name, j) && NameIndex(ms)[name] == ms[j]
  {
    var p := ms[..|ms| - 1];
    if ms[|ms| - 1].name == name {
      assert LastNamed(ms, name, |ms| - 1);
    } else {
      NameIndexValue(p, name);
      var j :| LastNamed(p, name, j) && NameIndex(p)[name] == p[j];
      assert LastNamed(ms, name, j);
    }
  }

  /** A key is indexed exactly when some definition has it, and it maps to the
      last such definition. */
  lemma KeyIndexLastWins(ms: seq<MessageDefinition>, key: seq<byte>)
    ensures key in KeyIndex(ms) <==> exists i :: 0 <= i < |ms| && ms[i].key == key
    ensures key in KeyIndex(ms) ==> exists j :: LastKeyed(ms, key, j) && KeyIndex(ms)[key] == ms[j]
  {
    KeyIndexDomain(ms, key);
    if key in KeyIndex(ms) {
      KeyIndexValue(ms, key);
    }
  }

  /** Which keys the index holds. */
  lemma {:induction false} KeyIndexDomain(ms: seq<MessageDefinition>, key: seq<byte>)
    ensures key in KeyIndex(ms) <==> exists i :: 0 <= i < |ms| && ms[i].key == key
  {
    if ms != [] {
      var p := ms[..|ms| - 1];
      KeyIndexDomain(p, key);
      if exists i :: 0 <= i < |ms| && ms[i].key == key {
        var i :| 0 <= i < |ms| && ms[i].key == key;
        if i < |p| {
          assert p[i] == ms[i];
        }
      }
      if key in KeyIndex(p) {
        var i :| 0 <= i < |p| && p[i].key == key;
        assert ms[i] == p[i];
      }
    }
  }

  /** What an indexed key maps to. */
  lemma {:induction false} KeyIndexValue(ms: seq<MessageDefinition>, key: seq<byte>)
    requires key in KeyIndex(ms)
    ensures exists j :: LastKeyed(ms, key, j) && KeyIndex(ms)[key] == ms[j]
  {
    var p := ms[..|ms| - 1];
    if ms[|ms| - 1].key == key {
      assert LastKeyed(ms, key, |ms| - 1);
    } else {
      KeyIndexValue(p, key);
      var j :| LastKeyed(p, key, j) && KeyIndex(p)[key] == p[j];
      assert LastKeyed(ms, key, j);
    }
  }

  predicate DistinctNames(ms: seq<MessageDefinition>)
  {
    forall i, j :: 0 <= i < j < |ms| ==> ms[i].name != ms[j].name
  }

  predicate DistinctKeys(ms: seq<MessageDefinition>)
  {
    forall i, j :: 0 <= i < j < |ms| ==> ms[i].key != ms[j].key
  }

  /** With distinct names and keys each index maps every definition to itself. */
  lemma IndexExact(ms: seq<MessageDefinition>, i: nat)
    requires i < |ms|
    ensures ms[i].name in NameIndex(ms) && ms[i].key in KeyIndex(ms)
    ensures DistinctNames(ms) ==> NameIndex(ms)[ms[i].name] == ms[i]
    ensures DistinctKeys(ms) ==> KeyIndex(ms)[ms[i].key] == ms[i]
  {
    NameIndexLastWins(ms, ms[i].name);
    KeyIndexLastWins(ms, ms[i].key);
  }

  /** How a lookup key is passed: raw bytes (or a bytearray), or text. */
  datatype KeyArg = Raw(bytes: seq<byte>) | Named(text: string)

  /** A list of definitions indexed by name and by key. */
  class MessageList {
    var messages: seq<MessageDefinition>
    var indexByName: map<string, MessageDefinition>
    var indexByKey: map<seq<byte>, MessageDefinition>

    ghost predicate Valid()
      reads this
    {
      indexByName == NameIndex(messages) && indexByKey == KeyIndex(messages)
    }

    /** Fills both indexes in list order, so a later definition replaces an
        earlier one with the same name or key. */
    constructor(ms: seq<MessageDefinition>)
      ensures messages == ms && Valid()
    {
      messages := ms;
      var byName: map<string, MessageDefinition> := map[];
      var byKey: map<seq<byte>, MessageDefinition> := map[];
      for i := 0 to |ms|
        invariant byName == NameIndex(ms[..i])
        invariant byKey == KeyIndex(ms[..i])
      {
        assert ms[..i + 1][..i] == ms[..i];
        byKey := byKey[ms[i].key := ms[i]];
        byName := byName[ms[i].name := ms[i]];
      }
      assert ms[..|ms|] == ms;
      indexByName := byName;
      indexByKey := byKey;
    }

    /** index_by_name.get(name): the last definition with that name, or None. */
    function GetByName(name: string): (r: Option<MessageDefinition>)
      requires Valid()
      reads this
      ensures r.Some? <==> exists i :: 0 <= i < |messages| && messages[i].name == name
      ensures r.Some? ==> exists j :: LastNamed(messages, name, j) && r.value == messages[j]
    {
      NameIndexLastWins(messages, name);
      if name in indexByName then Some(indexByName[name]) else None
    }

    /** Lookup by key given as bytes, or as hex text that is decoded first (a
        non-hex text raises ValueError). */
    function GetByKey(k: KeyArg): (r: Result<Option<MessageDefinition>>)
      requires Valid()
      reads this
      ensures k.Named? && FromHex(k.text).None? <==> r.Failure?
      ensures r.Failure? ==> r.error == ValueError
      ensures r.Success? ==> var key := if k.Raw? then k.bytes else FromHex(k.text).value;
        (r.value.Some? <==> exists i :: 0 <= i < |messages| && messages[i].key == key) &&
        (r.value.Some? ==> exists j :: LastKeyed(messages, key, j) && r.value.value == messages[j])
    {
      var key := if k.Raw? then Some(k.bytes) else FromHex(k.text);
      match key
      case None => Failure(ValueError)
      case Some(key) =>
        KeyIndexLastWins(messages, key);
        Success(if key in indexByKey then Some(indexByKey[key]) else None)
    }

    /** Bytes are looked up by key (a name is text, so the name index never
        matches bytes); text is looked up by name, then decoded as a hex key. */
    function Get(k: KeyArg): (r: Result<Option<MessageDefinition>>)
      requires Valid()
      reads this
      ensures k.Raw? ==> r == GetByKey(k)
      ensures k.Named? && GetByName(k.text).Some? ==> r == Success(GetByName(k.text))
      ensures k.Named? && GetByName(k.text).None? ==> r == GetByKey(k)
    {
      match k
      case Raw(_) => GetByKey(k)
      case Named(name) => if name in indexByName then Success(Some(indexByName[name])) else GetByKey(k)
    }

    /** The indexed names: every name of the list, once. */
    function ListNames(): (r: set<string>)
      requires Valid()
      reads this
      ensures forall name :: name in r <==> exists i :: 0 <= i < |messages| && messages[i].name == name
    {
      forall name | name in indexByName.Keys ensures exists i :: 0 <= i < |messages| && messages[i].name == name {
        NameIndexLastWins(messages, name);
      }
      forall name | exists i :: 0 <= i < |messages| && messages[i].name == name ensures name in indexByName.Keys {
        NameIndexLastWins(messages, name);
      }
      indexByName.Keys
    }

    /** The indexed keys: every key of the list, once. */
    function ListKeys(): (r: set<seq<byte>>)
      requires Valid()
      reads this
      ensures forall key :: key in r <==> exists i :: 0 <= i < |messages| && messages[i].key == key
    {
      forall key | key in indexByKey.Keys ensures exists i :: 0 <= i < |messages| && messages[i].key == key {
        KeyIndexLastWins(messages, key);
      }
      forall key | exists i :: 0 <= i < |messages| && messages[i].key == key ensures key in indexByKey.Keys {
        KeyIndexLastWins(messages, key);
      }
      indexByKey.Keys
    }
  }

  /** Over a list with distinct names and keys every lookup finds the one
      definition: by name, by key bytes, by key as hex text, and through get. */
  lemma LookupExact(l: MessageList, i: nat)
    requires l.Valid() && DistinctNames(l.messages) && DistinctKeys(l.messages)
    requires i < |l.messages|
    ensures l.GetByName(l.messages[i].name) == Some(l.messages[i])
    ensures l.GetByKey(Raw(l.messages[i].key)) == Success(Some(l.messages[i]))
    ensures l.GetByKey(Named(ToHex(l.messages[i].key))) == Success(Some(l.messages[i]))
    ensures l.Get(Named(l.messages[i].name)) == Success(Some(l.messages[i]))
    ensures l.Get(Raw(l.messages[i].key)) == Success(Some(l.messages[i]))
  {
    IndexExact(l.messages, i);
    HexRoundTrip(l.messages[i].key);
  }

  /** get('0A 01 00') looks up the same key as get(b'\x0a\x01\x00'): the
      spaces between the byte pairs are skipped. */
  lemma GetSpacedKey(l: MessageList)
    requires l.Valid()
    ensures l.GetByKey(Named("0A 01 00")) == l.GetByKey(Raw([0x0A, 0x01, 0x00]))
  {
    FromHexSpaced();
  }

  /** A text that is neither a name of the list nor hex text makes `get` raise
      in the hex decoding instead of returning None. */
  lemma GetUnknownTextFails(l: MessageList, text: string)
    requires l.Valid()
    requires forall i :: 0 <= i < |l.messages| ==> l.messages[i].name != text
    requires FromHex(text).None?
    ensures l.Get(Named(text)) == Failure(ValueError)
  {
  }
}

# Doremi DCP2000 control-protocol codec, in Dafny

This project models the message codec of the `dcitools` client for Doremi
DCP2000 cinema servers and proves properties of it. The model has six parts.

- **Wrappers, Values, Bytes** are the shared vocabulary:
  - `Option`, and `Result` with the Python exceptions the code raises;
  - the Python values a decoder returns;
  - the byte helpers the code calls: Python slicing, big- and little-endian integers, the BER definite-form length of ITU-T X.690 section 8.1.3, hex text, UTF-8, NUL padding and cutting, UUID text, and `split`.
- **Message** is `message.py`:
  - `MessageDefinition` with its hex key and element list;
  - response fields with their slices and translation tables;
  - the `ResponseBatch` record loop, as a method proved against a function;
  - the `MessageList` registry, as a class whose name and key indexes are filled by its constructor.
- **Requests and Responses** are the two constant tables, `requests.py` and `responses.py`.
  - Each table is an indexed function of definitions.
  - Lemmas cover its keys, the distinctness of names and keys, the layouts and the tiling of the offset ranges.
- **Pairing** relates the two tables: a response key is its request key with the middle byte plus one.
- **RequestHandlers and ResponseHandlers** are the encoders and decoders of `handlers.py` that the command table uses.
  - Request encoders are methods that build the byte array step by step.
  - Response decoders are loops proved against reference functions.
  - The `GetSMLog` filter mask and the argument whitelists are modelled too.
- **Commands** is `commands.py`:
  - the `COMMANDS` table and its `NAMES` / `KEYS` indexes, where the last entry wins;
  - the request frame `header + key + ber + id + data`;
  - the rolling request identifier, as a class;
  - the socket, as a byte log plus an input sequence with a cursor;
  - `CommandCall.send`, `receive` and `send_and_receive`.
- **Cpl** is `parsers/cpl.py`: the `CPL` object as a class with `parse_edit_rate`, `from_cpl_info` and the `shortname` property.

Wherever a handler or a frame read can fail, the failure is modelled as a
`Result` whose error names the Python exception. Examples: an empty payload
under `ord(data[-1:])` is a `TypeError`, and an unknown response key is a
`KeyError`.

## Model

| member | source | states |
|---|---|---|
| Bytes.PySlice | dcitools/devices/doremi/message.py:69-71 | A slice has the length Python gives it after normalising negative bounds and clamping to the sequence. Element k is the element at the normalised start plus k. |
| Bytes.SliceConcat | dcitools/devices/doremi/responses.py:28-56 | Two adjacent slices whose normalised bounds are ordered make up the slice that spans both. |
| Bytes.LastSlice | dcitools/devices/doremi/responses.py:19 | `s[-1:]` is the last element, or empty for an empty sequence. |
| Bytes.BigEndianRoundTrip | dcitools/devices/doremi/commands.py:173 | Packing a number into w big-endian bytes and reading them back gives the number. |
| Bytes.Pack | dcitools/devices/doremi/handlers.py:849-852 | The word and long packers succeed exactly when the integer fits the width, and then yield w bytes whose big-endian value is the integer. |
| Bytes.MinimalBytesLength | dcitools/devices/doremi/commands.py:167 | A number below 256^w needs at most w octets without leading zeros. |
| Bytes.BerEncode | dcitools/devices/doremi/commands.py:165-167 | A length below 128 takes the one-octet short form. Above that, the long form is 0x80 plus the octet count, followed by the minimal big-endian octets. |
| Bytes.BerRoundTrip | dcitools/devices/doremi/commands.py:88 | Decoding an encoded length gives the length and the octets it occupies back, whatever bytes follow. |
| Bytes.BerExamples | dcitools/devices/doremi/commands.py:167 | The short/long boundary: 0, 4 and 127 take one octet; 128 is 81 80; 256 is 82 01 00. |
| Bytes.HexPairs | dcitools/devices/doremi/message.py:19 | Hex text without white space that decodes has half as many bytes as characters. |
| Bytes.DropByteSpace | dcitools/devices/doremi/message.py:19 | Removing the white space `bytes.fromhex` skips (space, tab, line feed, vertical tab, form feed, carriage return) leaves none of it. |
| Bytes.FromHexDigits | dcitools/devices/doremi/message.py:19 | When `bytes.fromhex` succeeds, its bytes are the pairs of hex digits of the text once the white space is removed, so there are half as many bytes as hex digits. |
| Bytes.FromHexNoSpace | dcitools/devices/doremi/message.py:19 | Hex text without white space decodes pair by pair. |
| Bytes.FromHexSkipsSpace | dcitools/devices/doremi/message.py:19 | White space in front of the text changes nothing. |
| Bytes.FromHexPair | dcitools/devices/doremi/message.py:19 | Two hex digits in front of a text decode exactly when the text does, and add their byte in front. |
| Bytes.FromHexSplitPair | dcitools/devices/doremi/message.py:19 | White space between the two digits of a pair makes the decoding fail. |
| Bytes.FromHexSpaced | dcitools/devices/doremi/message.py:99 | '0A 01 00' decodes to the bytes 0A 01 00. |
| Bytes.HexRoundTrip | dcitools/devices/doremi/message.py:19 | Upper-case hex text of any byte string decodes back to it, with or without the white-space rule. |
| Bytes.UpperHexDecodes | dcitools/devices/doremi/message.py:19 | Even-length upper-case hex text decodes, and re-encoding gives the same text. |
| Bytes.UpperHexInjective | dcitools/devices/doremi/message.py:19 | Distinct upper-case hex keys decode to distinct byte strings. |
| Bytes.ByteArray | dcitools/devices/doremi/handlers.py:153 | `array('B', xs)` succeeds exactly when every item fits a byte, keeps the items, and otherwise raises OverflowError. |
| Bytes.ByteArrayParts | dcitools/devices/doremi/handlers.py:180-186 | Byte items around a list of code points do not change whether `array('B')` accepts it, and appear unchanged around it. |
| Bytes.PaddedUtf8 | dcitools/devices/doremi/handlers.py:145-146 | Padding to n characters, encoding, then cutting to n bytes always gives exactly n bytes. |
| Bytes.PaddedUtf8Short | dcitools/devices/doremi/handlers.py:1074-1075 | An ASCII text of at most n characters is stored as its bytes followed by NULs, so it reads back by cutting at the first NUL. |
| Bytes.PaddedUtf8Long | dcitools/devices/doremi/handlers.py:1074-1075 | A longer ASCII text is truncated to its first n bytes. |
| Bytes.PaddedLatin1 | dcitools/devices/doremi/handlers.py:173 | The 32-character time field is padded with NULs but never truncated. It is refused exactly when a character does not fit a byte. |
| Bytes.PaddedLatin1Short | dcitools/devices/doremi/handlers.py:304 | A one-byte text without NUL reads back from its padded field by cutting at the first NUL. |
| Bytes.CutAtNul | dcitools/devices/doremi/handlers.py:227 | `split('\x00')[0]` is a NUL-free prefix, followed by a NUL whenever it is shorter than the input. |
| Bytes.CutAtNulPadded | dcitools/devices/doremi/handlers.py:620 | A NUL-free text followed by NUL padding reads back as the text. |
| Bytes.DecimalRoundTrip | dcitools/devices/doremi/handlers.py:811-812 | The decimal text of a natural number reads back as the number. |
| Bytes.UuidRoundTrip | dcitools/devices/doremi/handlers.py:197 | Formatting 16 bytes as canonical UUID text and converting the text back gives the same 16 bytes. |
| Bytes.Split | dcitools/parsers/cpl.py:21 | `split` with a one-element separator gives at least one piece. It gives exactly one, the input itself, when the separator is absent. |
| Bytes.SplitAfter | dcitools/devices/doremi/handlers.py:514 | Splitting a separator-free piece, a separator and a rest gives the piece followed by the split of the rest. |
| Message.Define | dcitools/devices/doremi/message.py:16-22 | A definition is built exactly when `bytes.fromhex` accepts the key. Its key has half as many bytes as the key has hex digits once the white space is removed. An upper-case key prints back as itself, and a missing element list is an empty one. |
| Message.DefineKey | dcitools/devices/doremi/message.py:19 | The key's bytes are the pairs of hex digits of the key text once its white space is removed. |
| Message.ValidKeyDefines | dcitools/devices/doremi/message.py:18-19 | A six-digit table key defines as 3 bytes that print back as the key. |
| Message.ElementNames | dcitools/devices/doremi/message.py:24-26 | The element names are listed in declared order, one per element. |
| Message.Translate | dcitools/devices/doremi/message.py:73-74 | The label is the table entry for an integer the table holds, and 'unknown value' otherwise. |
| Message.BatchItems | dcitools/devices/doremi/message.py:62-76 | A batch yields exactly the record count. |
| Message.DecodeBatch | dcitools/devices/doremi/message.py:62-76 | The nested loop returns the list of records the reference function defines. |
| Message.DecodeItem | dcitools/devices/doremi/message.py:68-74 | The inner loop builds the record the reference function defines from one chunk. |
| Message.BatchCount | dcitools/devices/doremi/message.py:65-67 | The number of records is the integer in bytes [0:4], even when the buffer is too short to hold them. |
| Message.ChunkShape | dcitools/devices/doremi/message.py:69 | A record chunk is never longer than the record size. It is complete when the buffer reaches its end and empty past the buffer, and it holds the bytes at offset 8 + i*size. |
| Message.DecodeRecordKeys | dcitools/devices/doremi/message.py:70-74 | A record holds exactly the field names, plus `_text` keys for the fields with a non-empty table. |
| Message.DecodeRecordField | dcitools/devices/doremi/message.py:70-74 | Each field's value is its decoder applied to its own slice of the chunk, and its label is the translation of that value. |
| Message.NoLabelWithoutTable | dcitools/devices/doremi/message.py:73 | A field without a table adds no `_text` key. |
| Message.NameIndexLastWins | dcitools/devices/doremi/message.py:89-91 | A name is indexed exactly when some definition has it, and it maps to the last such definition. |
| Message.KeyIndexLastWins | dcitools/devices/doremi/message.py:89-91 | A key is indexed exactly when some definition has it, and it maps to the last such definition. |
| Message.IndexExact | dcitools/devices/doremi/message.py:89-91 | With distinct names and keys, each index maps every definition to itself. |
| Message.MessageList.constructor | dcitools/devices/doremi/message.py:84-91 | The registry keeps the list and fills both indexes in list order. |
| Message.MessageList.GetByName | dcitools/devices/doremi/message.py:93-94 | The result is the last definition with the name, or None when no definition has it. |
| Message.MessageList.GetByKey | dcitools/devices/doremi/message.py:96-102 | Bytes are looked up as they are. Text is decoded by `bytes.fromhex` first, white space included, and text it refuses raises ValueError. The result is the last definition with the key, or None. |
| Message.MessageList.Get | dcitools/devices/doremi/message.py:104-108 | Bytes go to the key index. Text goes to the name index, then to the key index as hex. |
| Message.MessageList.ListNames | dcitools/devices/doremi/message.py:110-111 | The listed names are exactly the names of the definitions. |
| Message.MessageList.ListKeys | dcitools/devices/doremi/message.py:113-114 | The listed keys are exactly the keys of the definitions. |
| Message.LookupExact | dcitools/devices/doremi/message.py:93-108 | Over distinct names and keys, every lookup finds the one definition: by name, by key bytes, by key text, and through `get`. |
| Message.GetSpacedKey | dcitools/devices/doremi/message.py:96-102 | `get('0A 01 00')` finds the same definition as `get` with the bytes 0A 01 00. |
| Message.GetUnknownTextFails | dcitools/devices/doremi/message.py:104-108 | A text that is neither a known name nor hex makes `get` raise ValueError instead of returning None. |
| Requests.EntryFacts | dcitools/devices/doremi/requests.py:17-117 | Every request key is six upper-case hex digits, and each name and key identifies its own entry. |
| Requests.Definition | dcitools/devices/doremi/requests.py:17-117 | Each request definition has a 3-byte key that prints back as its declared hex, with its declared name and elements. |
| Requests.All | dcitools/devices/doremi/requests.py:14-120 | REQUESTS holds the 35 definitions in declaration order. |
| Requests.Distinct | dcitools/devices/doremi/requests.py:14-120 | No two requests share a name, and no two share a key. |
| Requests.Registry | dcitools/devices/doremi/requests.py:122 | The registry over REQUESTS maps each request's name, key bytes and key text to that request. |
| Requests.ParameterlessRequests | dcitools/devices/doremi/requests.py:17-99 | The thirteen requests declared without elements have no element names. |
| Requests.ValidateLayouts | dcitools/devices/doremi/requests.py:33-66 | ValidateCPL and ValidateSPL share the layout uuid, time (size 32), level. |
| Requests.AddSchedule2Layout | dcitools/devices/doremi/requests.py:75-81 | AddSchedule2 has, in order, spl_id, time (32), duration (32), flags (64) and annotation_text (128). |
| Requests.KeywordArguments | dcitools/devices/doremi/requests.py:68-106 | `size=` and `bit=` arguments are stored as declared. |
| Responses.EntryFacts | dcitools/devices/doremi/responses.py:15-245 | Every response key is six upper-case hex digits, each name and key identifies its own entry, and every `response` field reads `[-1:]`. |
| Responses.Definition | dcitools/devices/doremi/responses.py:15-245 | Each response definition has a 3-byte key that prints back as its declared hex, with its declared name and elements. |
| Responses.All | dcitools/devices/doremi/responses.py:14-250 | RESPONSES holds the 22 definitions in declaration order. |
| Responses.Distinct | dcitools/devices/doremi/responses.py:14-250 | No two responses share a name, and no two share a key. |
| Responses.Registry | dcitools/devices/doremi/responses.py:252 | The registry over RESPONSES maps each response's name, key bytes and key text to that response. |
| Responses.ResponseFieldIsLastByte | dcitools/devices/doremi/responses.py:19-238 | Every field named `response` reads exactly the last payload byte, or nothing from an empty payload. |
| Responses.NoResponseElement | dcitools/devices/doremi/responses.py:105-245 | GetProductInfo, GetCPLPlayStat and GetAPIProtocolVersion declare no `response` field. |
| Responses.TilingCovers | dcitools/devices/doremi/responses.py:88-103 | Fields whose slices tile a span read every byte of it exactly once, in order. |
| Responses.CplInfoFixedFields | dcitools/devices/doremi/responses.py:28-55 | The fifteen fixed fields of GetCPLInfo tile bytes 0 to 168. |
| Responses.CplInfoShared | dcitools/devices/doremi/responses.py:27-88 | GetCPLInfo and GetCPLInfo2 share those fields. The key-id list starts at 176 and ends at -1 or at -55 respectively. |
| Responses.CplInfo2Trailer | dcitools/devices/doremi/responses.py:88-103 | GetCPLInfo2's trailer tiles from -55 to the end of the payload. |
| Responses.KdmInfo2Trailer | dcitools/devices/doremi/responses.py:185-192 | GetKDMInfo2's trailer tiles from -293 to the end of the payload. |
| Responses.ReservedFieldsEmpty | dcitools/devices/doremi/responses.py:206-218 | reserved0 (1:1) and reserved1 (2:2) of GetLog and GetLogLastId are empty for any payload. |
| Responses.CplMarkerRecords | dcitools/devices/doremi/responses.py:151-157 | Each GetCPLMarker record holds exactly `label` (bytes 0-16 of its chunk, as text) and `offset` (bytes 16-20, as an integer). |
| Pairing.PairFacts | dcitools/devices/doremi/responses.py:15-245 | The response with a request's name, when there is one, has the request key with the middle byte plus one. |
| Pairing.ResponseNameFacts | dcitools/devices/doremi/responses.py:14-250 | Every response name is also a request name. |
| Pairing.KeyPairing | dcitools/devices/doremi/requests.py:17-117 | As bytes: the response key of a request's name equals the request key with its middle byte incremented. |
| RequestHandlers.DigitsAreGroups | dcitools/devices/doremi/handlers.py:171-172 | A run of digits is one digit group and holds no underscore. |
| RequestHandlers.DigitTextValue | dcitools/devices/doremi/handlers.py:917 | `int()` of a digit string is its decimal value. |
| RequestHandlers.TextToIntText | dcitools/devices/doremi/handlers.py:811-812 | The sign-and-digits reading gives back every integer from its decimal text. |
| RequestHandlers.IntTextEnds | dcitools/devices/doremi/handlers.py:811-812 | The decimal text of an integer has no white space at either end, so `strip()` keeps it. |
| RequestHandlers.IntTextPadded | dcitools/devices/doremi/handlers.py:305 | `int()` ignores white space on both sides of the number: `int(' 12\n') == 12`. |
| RequestHandlers.IntTextTrailing | dcitools/parsers/cpl.py:22 | `int()` ignores white space after the number: `int('1\n') == 1`. |
| RequestHandlers.UnderscoreDigits | dcitools/devices/doremi/handlers.py:171-172 | An underscore between two runs of digits is accepted and ignored: `int('1_000') == 1000`. |
| RequestHandlers.GroupsValue | dcitools/devices/doremi/handlers.py:171-172 | Two runs of digits joined by an underscore read as the digits of both. |
| RequestHandlers.JoinRemoved | dcitools/devices/doremi/handlers.py:171-172 | Removing the underscores of two underscore-free runs joined by one gives the two runs. |
| RequestHandlers.GroupsJoin | dcitools/devices/doremi/handlers.py:171-172 | A run of digits, an underscore and digit groups make digit groups. |
| RequestHandlers.IntTextRoundTrip | dcitools/devices/doremi/handlers.py:811-812 | `int(str(n)) == n` for every integer, and `str(n).isdigit()` holds exactly for n >= 0. |
| RequestHandlers.AddScheduleRequest | dcitools/devices/doremi/handlers.py:134-153 | 152 bytes: the SPL UUID, the start time as a long, and the display name in 128 bytes. An overflowing time raises OverflowError and a bad UUID raises ValueError. |
| RequestHandlers.PackSchedule2 | dcitools/devices/doremi/handlers.py:173-186 | After the conversions the request packs when the duration and flags fit their widths and the time fits one byte per character. The fields are laid out in order. |
| RequestHandlers.AddSchedule2Request | dcitools/devices/doremi/handlers.py:165-186 | Accepted exactly for a valid UUID, integer-convertible duration and flags that fit, and a one-byte time. The result is the field layout. A bad UUID raises ValueError. |
| RequestHandlers.PackValidation | dcitools/devices/doremi/handlers.py:304-312 | The time padded to 32 bytes and the level as a word follow the item id. A level that does not convert raises its conversion error. |
| RequestHandlers.ValidateItemRequest | dcitools/devices/doremi/handlers.py:291-312 | Accepted exactly for a valid UUID, a level that converts and fits a word, and a one-byte time; the result is the uuid/time/level layout. |
| RequestHandlers.ExecuteMacroCueRequest | dcitools/devices/doremi/handlers.py:1065-1080 | Always exactly 64 bytes. A short ASCII name reads back by cutting at NUL; a long one is truncated to 64. |
| RequestHandlers.ProductCertificateRequest | dcitools/devices/doremi/handlers.py:911-923 | Accepted only for `int(cert_type)` equal to 0 or 1, sent as that one byte. Other numbers raise the 'Invalid Certificate Type' exception, and conversion errors pass through. |
| RequestHandlers.CertificateTypeText | dcitools/devices/doremi/handlers.py:917 | A certificate type given as decimal text is handled like the number. |
| RequestHandlers.SetSchedulerRequest | dcitools/devices/doremi/handlers.py:938-944 | Only True/1/'true' (byte 1) and False/0/'false' (byte 0) are accepted; anything else raises. |
| RequestHandlers.DigitArgValue | dcitools/devices/doremi/handlers.py:811-812 | An event-id bound that passes `isdigit` converts to a non-negative integer. |
| RequestHandlers.ZeroIdBytes | dcitools/devices/doremi/handlers.py:840 | The zero id text converts to sixteen zero bytes. |
| RequestHandlers.MaskBits | dcitools/devices/doremi/handlers.py:809-844 | Bit k of a six-flag mask is set exactly when flag k is, and the mask is below 64. |
| RequestHandlers.FilterMaskBits | dcitools/devices/doremi/handlers.py:809-844 | Bits 1, 2, 4, 8, 16 and 32 are set exactly when, respectively, these are given: a digit min id, a digit max id, a start, an end, a 36-character cpl id, a 36-character kdm id. |
| RequestHandlers.ReadEventBound | dcitools/devices/doremi/handlers.py:811-821 | An event-id bound is used exactly when it is a digit string, and then it is its integer; otherwise it is 0. |
| RequestHandlers.ReadTimeBound | dcitools/devices/doremi/handlers.py:823-835 | A time bound is used when it is given; integers are taken as they are, and other values go through the time parser, whose errors pass through. |
| RequestHandlers.ReadId | dcitools/devices/doremi/handlers.py:837-844 | An id with 36 characters is kept and sets its bit. Otherwise the zero id is used. `len()` of a number raises TypeError. |
| RequestHandlers.ReadStrictMode | dcitools/devices/doremi/handlers.py:800-806 | The strict-mode byte is 2 or 1 when given, and 0 otherwise. |
| RequestHandlers.BuildMask | dcitools/devices/doremi/handlers.py:809-844 | OR-ing the criteria one at a time gives the mask of the set flags, below 64. |
| RequestHandlers.ReadLogFilter | dcitools/devices/doremi/handlers.py:800-844 | The first half of the handler succeeds exactly when the time bounds convert and the ids have a length. It yields the criteria of the arguments. |
| RequestHandlers.PackLogNumbers | dcitools/devices/doremi/handlers.py:848-862 | The numbers pack exactly when they fit their widths, as strict byte, mask, two words and two longs. |
| RequestHandlers.PackLogFilter | dcitools/devices/doremi/handlers.py:848-865 | The filter packs exactly when every field fits, as the numbers followed by the two 16-byte ids. |
| RequestHandlers.SmLogRequest | dcitools/devices/doremi/handlers.py:779-865 | The request is built exactly for accepted arguments, and is the log layout of their criteria. |
| RequestHandlers.UnsetIds | dcitools/devices/doremi/handlers.py:840-844 | An id that is not given is sent as sixteen zero bytes. |
| ResponseHandlers.LastByte | dcitools/devices/doremi/handlers.py:201 | `ord(data[-1:])` is the last byte, and raises TypeError on an empty payload. |
| ResponseHandlers.ByteSlice | dcitools/devices/doremi/handlers.py:220-221 | `ord(data[i:i+1])` is byte i, and raises TypeError past the end. |
| ResponseHandlers.ByteAt | dcitools/devices/doremi/handlers.py:933-934 | `ord(data[i])` indexes from either end, and raises IndexError outside. |
| ResponseHandlers.CheckResponseNever | dcitools/devices/doremi/handlers.py:27-33 | As written, `check_response` accepts no dictionary. |
| ResponseHandlers.UuidEntries | dcitools/devices/doremi/handlers.py:196-199 | The list has `count` entries, entry i being the UUID text of its own stride. |
| ResponseHandlers.ReadUuidBatch | dcitools/devices/doremi/handlers.py:191-194 | Reads the count and size words, then the entries the reference function defines. |
| ResponseHandlers.ReadUuidEntries | dcitools/devices/doremi/handlers.py:195-199 | The loop, moving the position by the entry size each turn, returns exactly the entries the reference function defines. |
| ResponseHandlers.UuidEntryRoundTrip | dcitools/devices/doremi/handlers.py:197 | An entry read from a complete 16-byte chunk is its canonical text, which converts back to the chunk. |
| ResponseHandlers.GetUuidListResponse | dcitools/devices/doremi/handlers.py:189-201 | The method returns what the reference reply function defines. |
| ResponseHandlers.UuidListShape | dcitools/devices/doremi/handlers.py:189-201 | The reply exists exactly for a non-empty payload. `response` is the last byte, and the list has as many entries as bytes [0:4] count. |
| ResponseHandlers.GetKdmInfoResponse | dcitools/devices/doremi/handlers.py:234-260 | The method returns what the reference reply function defines. |
| ResponseHandlers.KdmInfoShape | dcitools/devices/doremi/handlers.py:236-258 | The reply exists exactly when the data is non-empty. The key-id batch counts the word at 48 and reads the entries from 56 with the stride at 52. `not_valid_before` and `not_valid_after` are the decimal text of the longs at 32 and 40, and each reads back as that long. |
| ResponseHandlers.Range8Shape | dcitools/devices/doremi/handlers.py:125 | `range(lo, hi, 8)` has ceil((hi-lo)/8) values, the k-th being lo + 8k. |
| ResponseHandlers.ScheduleListLoop | dcitools/devices/doremi/handlers.py:124-126 | The loop collects the ids the reference function defines. |
| ResponseHandlers.GetScheduleListResponse | dcitools/devices/doremi/handlers.py:122-131 | The method returns what the reference reply function defines. |
| ResponseHandlers.ScheduleListShape | dcitools/devices/doremi/handlers.py:125-126 | A payload of n bytes yields ceil((n-1)/8) ids, id k being read at 8k. Each one is a whole long when 8 divides n-1. |
| ResponseHandlers.EventListLoop | dcitools/devices/doremi/handlers.py:321-328 | The loop collects the ids the reference function defines. |
| ResponseHandlers.IngestGetEventListResponse | dcitools/devices/doremi/handlers.py:315-333 | The method returns what the reference reply function defines. |
| ResponseHandlers.EventListShape | dcitools/devices/doremi/handlers.py:321-328 | A payload of n bytes yields floor((n-1)/4) ids, each the little-endian word of its own four bytes. |
| ResponseHandlers.ReadJobRecord | dcitools/devices/doremi/handlers.py:452-460 | One 12-byte record: the job id long, the event count short and the status byte. |
| ResponseHandlers.ReadJobGroup | dcitools/devices/doremi/handlers.py:451-460 | The inner loop reads `items` records and ends after them. |
| ResponseHandlers.JobListLoop | dcitools/devices/doremi/handlers.py:446-460 | The outer loop returns the jobs the reference function defines, and terminates. |
| ResponseHandlers.IngestGetJobListResponse | dcitools/devices/doremi/handlers.py:441-464 | The method returns what the reference reply function defines. |
| ResponseHandlers.GroupEndValue | dcitools/devices/doremi/handlers.py:447-459 | A group takes an 8-byte header plus 12 bytes per record. |
| ResponseHandlers.JobLengthIgnored | dcitools/devices/doremi/handlers.py:449 | The record length declared in a group header does not affect the jobs read. |
| ResponseHandlers.ValidateCplReply | dcitools/devices/doremi/handlers.py:216-231 | The reply exists exactly for payloads of at least two bytes; shorter ones raise TypeError. |
| ResponseHandlers.ValidateCplRoundTrip | dcitools/devices/doremi/handlers.py:219-229 | A reply built from a result, an error code, a NUL-free message and a response byte reads back field for field. |
| ResponseHandlers.ValidateCplPadded | dcitools/devices/doremi/handlers.py:227 | A message padded with NULs reads back as the message. |
| ResponseHandlers.ContentKindText | dcitools/devices/doremi/handlers.py:622-635 | Kinds outside 1-10 and 128 read as 'Unknown'. |
| ResponseHandlers.GetCplInfoResponse | dcitools/devices/doremi/handlers.py:615-662 | The method returns what the reference reply function defines. |
| ResponseHandlers.CplInfoTitle | dcitools/devices/doremi/handlers.py:620-635 | The title is bytes 17 to 145 cut at NUL, and the kind label is the table label of byte 145. |
| ResponseHandlers.CplInfoNumbers | dcitools/devices/doremi/handlers.py:636-661 | The duration, picture width and response are read from their own bytes, and the key batch is built from 168 on. |
| ResponseHandlers.CplInfoFailure | dcitools/devices/doremi/handlers.py:619-646 | A CPL info reply fails exactly when the payload is shorter than 168 bytes, with IndexError. |
| ResponseHandlers.SchedulerReply | dcitools/devices/doremi/handlers.py:931-935 | The reply exists exactly for a non-empty payload; an empty one raises IndexError. |
| ResponseHandlers.SchedulerRoundTrip | dcitools/devices/doremi/handlers.py:931-944 | The byte SetSchedulerEnable sends for a flag reads back as that flag. |
| ResponseHandlers.SchedulerError | dcitools/devices/doremi/handlers.py:933 | A first byte other than 0 and 1 reads as 'Error'. |
| ResponseHandlers.SnmpGetReply | dcitools/devices/doremi/handlers.py:506-517 | As written, the reply exists exactly for a non-empty payload. |
| ResponseHandlers.SnmpValueNeverRead | dcitools/devices/doremi/handlers.py:510-511 | As written, an SNMP reply holds only `response`. |
| ResponseHandlers.SnmpFixedRoundTrip | dcitools/devices/doremi/handlers.py:510-516 | With the intended check, a successful reply `type\nvalue` yields `value_type` and `value`. |
| Commands.Entry | dcitools/devices/doremi/commands.py:203-422 | Every key is a 24-bit number, and every response entry has a handler. |
| Commands.AllCommands | dcitools/devices/doremi/commands.py:203-422 | COMMANDS holds the 146 entries in declaration order. |
| Commands.KeyBytes | dcitools/devices/doremi/commands.py:137 | A key is three bytes whose big-endian value is the key number. |
| Commands.FindNameLast | dcitools/devices/doremi/commands.py:425 | The name search finds the last request with the name, or reports that there is none. |
| Commands.FindKeyLast | dcitools/devices/doremi/commands.py:424 | The key search finds the last response with the key, or reports that there is none. |
| Commands.NameMapLastWins | dcitools/devices/doremi/commands.py:425 | The name comprehension holds exactly the names the search finds, each mapped to the last request so named. |
| Commands.KeyMapLastWins | dcitools/devices/doremi/commands.py:424 | The key comprehension holds exactly the keys the search finds, each mapped to the last response so keyed. |
| Commands.IndexesLastWins | dcitools/devices/doremi/commands.py:424-425 | NAMES and KEYS keep the last request per name and the last response per key. |
| Commands.ExecuteMacroCueName | dcitools/devices/doremi/commands.py:414 | NAMES['ExecuteMacroCue'] is the second definition: key 0A0900 with the macro-name encoder, not the 0A0100 one of line 351. |
| Commands.ExecuteMacroCueKey | dcitools/devices/doremi/commands.py:352 | KEYS[0A0200] is the ExecuteMacroCue response, which replaced GetMacroCueList's of line 346. |
| Commands.NamesEntry | dcitools/devices/doremi/commands.py:425 | Every command in NAMES is a request of the table, under its own name. |
| Commands.KeysEntry | dcitools/devices/doremi/commands.py:424 | Every command in KEYS is a response of the table with a handler, under its own key. |
| Commands.RequestIdBytes | dcitools/devices/doremi/commands.py:173 | An identifier is packed as four bytes whose big-endian value is the identifier. |
| Commands.NextId | dcitools/devices/doremi/commands.py:169-173 | With inc the counter advances by one and wraps to 0 at 60000. Without inc it is unchanged. It stays below 60000. |
| Commands.IdAfterValue | dcitools/devices/doremi/commands.py:172 | After n increments from 0 the identifier is n mod 60000. |
| Commands.FirstRequestId | dcitools/devices/doremi/commands.py:18-173 | The first identifier sent is 1, as the bytes 00 00 00 01. |
| Commands.RequestCounter.constructor | dcitools/devices/doremi/commands.py:18 | The counter starts at 0. |
| Commands.RequestCounter.RequestId | dcitools/devices/doremi/commands.py:169-173 | The counter moves to its next value, and the returned four bytes encode the new value. |
| Commands.FrameLayout | dcitools/devices/doremi/commands.py:159-167 | A frame is the 13-byte header, the 3-byte key, the BER length of the data, the 4-byte identifier and the data, each recoverable at its offset. |
| Commands.RequestData | dcitools/devices/doremi/commands.py:175-179 | Without a handler the data is empty. One-argument handlers given another number of arguments raise TypeError. |
| Commands.ConstructResult | dcitools/devices/doremi/commands.py:159-167 | Construction fails with the handler's error when the handler fails, and with OverflowError when the data length cannot be BER-encoded; otherwise it succeeds. On success the frame is the header, the key, the BER length of the data, the next request identifier and the data, in that order. |
| Commands.Construct | dcitools/devices/doremi/commands.py:159-160 | Returns the constructed frame. The counter advances exactly once on success. |
| Commands.BigEndianInjective | dcitools/devices/doremi/commands.py:92 | Equal-length byte strings with the same value are equal, so a key number determines its key bytes. |
| Commands.Take | dcitools/devices/doremi/commands.py:85-90 | A read takes exactly n bytes from the front of the stream. Too few bytes time out, and a failed read consumes nothing. |
| Commands.Socket.Send | dcitools/devices/doremi/commands.py:69 | Sending appends to the output log and touches nothing else. |
| Commands.Socket.Receive | dcitools/devices/doremi/commands.py:85-90 | Receiving returns the read of the pending input and advances the cursor by what it consumed. |
| Commands.BerValue | dcitools/devices/doremi/commands.py:88 | The four length bytes read as the definite-form length at their front, or nothing. |
| Commands.ReadFrame | dcitools/devices/doremi/commands.py:85-90 | 13, 3, 4 and 4 bytes are read, then the BER length minus 4. On success the five parts and the rest reassemble the input. |
| Commands.ReceiveFrame | dcitools/devices/doremi/commands.py:85-90 | The five socket reads, in order, yield the frame read and advance the cursor by what it consumed. |
| Commands.Decode | dcitools/devices/doremi/commands.py:111 | A response without a handler raises TypeError. The UUID-list responses are decoded by the UUID-list reply. |
| Commands.ReceiveResult | dcitools/devices/doremi/commands.py:85-111 | A failed read passes its error through, and an unknown key raises KeyError. Otherwise the KEYS handler decodes the data. |
| Commands.SendResult | dcitools/devices/doremi/commands.py:61-67 | An unknown name raises the 'does not exists' Exception. Other failures come out as Exception or ParameterException. A success carries the NAMES key. |
| Commands.ExecuteMacroCueSent | dcitools/devices/doremi/commands.py:62 | An ExecuteMacroCue request goes out under key 0A0900. |
| Commands.CommandCall.constructor | dcitools/devices/doremi/commands.py:47-55 | A call keeps its socket, counter and command name. |
| Commands.CommandCall.Send | dcitools/devices/doremi/commands.py:57-79 | On failure nothing is written and the counter is unchanged. On success the frame is written, the counter advances, and 0 is returned. |
| Commands.CommandCall.Receive | dcitools/devices/doremi/commands.py:81-112 | Returns the received reply and advances the cursor by the frame read. |
| Commands.CommandCall.SendAndReceive | dcitools/devices/doremi/commands.py:114-119 | A failed send raises before anything is read; otherwise the frame is sent and then the reply is received. |
| Commands.FrameMisread | dcitools/devices/doremi/commands.py:165-167 | As written, a frame read back comes out 4 bytes short of its data, when it can be read at all. |
| Commands.EmptyFrameTimesOut | dcitools/devices/doremi/commands.py:85-88 | As written, a frame without data is 21 bytes. Its one-octet BER field and three identifier bytes fill the BER read, and the identifier read times out after 20 bytes. |
| Commands.LongFormLayout | dcitools/devices/doremi/commands.py:85-88 | A frame with a four-byte long-form BER field has the header, key, count, identifier and data at the offsets `receive` reads. |
| Commands.LongFormMisread | dcitools/devices/doremi/commands.py:88 | With the long form and a count of the data alone, the frame reads back 4 data bytes short and leaves its last 4 bytes unread. |
| Commands.EmptyLongFormFails | dcitools/devices/doremi/commands.py:88 | With the long form and a count of the data alone, a frame without data asks for -4 bytes: ValueError. |
| Commands.FrameFixedRoundTrip | dcitools/devices/doremi/commands.py:85-90 | A frame whose BER counts the identifier too reads back field for field and consumes exactly itself. |
| Commands.ReceiveRoundTrip | dcitools/devices/doremi/commands.py:85-111 | A corrected frame under a known key is decoded by that key's handler. |
| Cpl.Lower | dcitools/parsers/cpl.py:50 | `lower()` keeps the length and leaves no upper-case letter. Every character is kept or is the lower form of an upper-case one. |
| Cpl.Replace | dcitools/parsers/cpl.py:50 | Replacing a character leaves none of it, and changes nothing else. |
| Bytes.Strip | dcitools/parsers/cpl.py:50 | `strip()` leaves no white space at either end and adds no character. |
| Bytes.LStrip | dcitools/parsers/cpl.py:50 | The left strip is a suffix with no white space at its front, and everything it drops is white space. |
| Bytes.RStrip | dcitools/parsers/cpl.py:50 | The right strip is a prefix with no white space at its end, and everything it drops is white space. |
| Bytes.StripPadded | dcitools/devices/doremi/handlers.py:305 | Stripping white space from both sides of a text with non-space ends gives the text. |
| Bytes.StripEnds | dcitools/parsers/cpl.py:50 | A text with non-space ends is stripped to itself. |
| Bytes.LStripSpace | dcitools/parsers/cpl.py:50 | The left strip drops leading white space up to the first non-space character. |
| Bytes.RStripSpace | dcitools/parsers/cpl.py:50 | The right strip drops trailing white space after the last non-space character. |
| Cpl.BeforeFirst | dcitools/parsers/cpl.py:50 | `split(sep)[0]` is the prefix before the first separator, or everything. |
| Cpl.Primary | dcitools/parsers/cpl.py:50 | The first candidate has no '_' or '-' and is no longer than the title. |
| Cpl.Fallback | dcitools/parsers/cpl.py:52 | The fallback has no '_' or '-' and is no longer than the title. |
| Cpl.ShortNameWithoutFtr | dcitools/parsers/cpl.py:50-53 | A title without 'FTR' whose ends are not white space, '-' or '_' leaves a first candidate as long as the title, so the short name is the fallback: the text before the first '_', with dashes turned into spaces, stripped and lower-cased. |
| Cpl.ShortNameOfCleanTitle | dcitools/parsers/cpl.py:50-53 | A title that is already clean (no 'FTR', '_', '-' or upper-case letter, no white space at its ends) is its own short name. |
| Cpl.ShortNameClean | dcitools/parsers/cpl.py:50-53 | A short name has no '_', '-', upper-case letter or outer white space, and is no longer than the title. |
| Cpl.ShortNameBeforeFtr | dcitools/parsers/cpl.py:50-51 | A clean name followed by 'FTR' and a long enough rest gives back that name. |
| Cpl.EditRateTrailing | dcitools/parsers/cpl.py:20-22 | A line break after the denominator stays in the second token, which still converts: '24 1\n' gives 24 and 1. |
| Cpl.SplitTrailing | dcitools/parsers/cpl.py:21-22 | Splitting 'a b' followed by space-free text gives the two tokens, the second carrying that text. |
| Cpl.EditRateTokens | dcitools/parsers/cpl.py:20-22 | Splitting the text 'a b' at spaces gives two tokens that convert back to a and b. |
| Cpl.Cpl.constructor | dcitools/parsers/cpl.py:12-18 | The defaults are 'Unknown' texts, duration 0 and edit rate 1/1. |
| Cpl.Cpl.Of | dcitools/parsers/cpl.py:12-18 | Every field holds its argument. |
| Cpl.Cpl.ParseEditRate | dcitools/parsers/cpl.py:20-22 | edit_rate_a and then edit_rate_b are the first two space-separated tokens as integers. A bad first token changes nothing, and a missing second token raises IndexError after the first is set. |
| Cpl.Cpl.SetEditRateA | dcitools/parsers/cpl.py:21 | Sets edit_rate_a and keeps every other field. |
| Cpl.Cpl.SetEditRateB | dcitools/parsers/cpl.py:22 | Sets edit_rate_b and keeps every other field. |
| Cpl.Cpl.FromCplInfo | dcitools/parsers/cpl.py:36-45 | A reply for the nil UUID changes nothing; any other reply sets all six fields. |
| Cpl.Cpl.ShortName | dcitools/parsers/cpl.py:47-53 | The property is clean and no longer than the title. |

## Left out

- The socket transport and connection lifecycle are left out. The socket is a log of sent bytes and an input sequence with a cursor.
  - A read of a negative count raises ValueError; this is an assumption.
  - A read of more bytes than remain is a Timeout that consumes nothing.
- The helpers of the external `toolbox` / `tbx` libraries are not part of this model. They are specified, as assumptions, as follows:
  - `int_2_ber` / `ber_2_int` are the definite-form length of ITU-T X.690 section 8.1.3. `ber_2_int` reads the length at the front of its four bytes and ignores what follows it.
  - `pack_word`, `long_2_byte_array` and the other packers are unsigned big-endian of fixed width, and an out-of-range value raises OverflowError.
  - The `bytes_to_*` readers are big-endian and lenient on short input.
  - UUID conversion is between 16 bytes and the canonical 8-4-4-4-12 lower-case text. Other lengths are covered by the Bytes.UuidText line below.
  - `get_time_from_string` is a function parameter of the log request.
- Commands.RequestData: only SetSchedulerEnable and GetProductCertificate call their encoder directly. Every other request handler is reached through an `encode` parameter, because `construct` forwards arbitrary positional arguments. The encoders that are modelled (RequestHandlers) are proved on their own.
- Commands.Decode: the decoders modelled in ResponseHandlers are called directly. The rest of the about forty response handlers, which are single dictionary expressions, are reached through a `decode` parameter.
- Commands.SendResult: the message of the 'does not exists' exception leaves out the text of the KeyError that `send` appends to it.
- `header()` is stated as the 13-byte constant it returns. The hex decoding of its literal is not restated as a lemma.
- `receive` does not check the header it reads, and neither does the model.
- The debug logging, `pretty_print_command`, `explain` and `to_hex` are output text only, and are left out. `CommandCall.__call__` is `send_and_receive` and has no member of its own.
- The timeout of each command is kept in the table (90 seconds for StoreKDM, 3600 otherwise) but is never used by the codec.
- `add_schedule_request_handler` unpacks a 3-tuple; the model takes its three items as parameters.
- Python 2 division (`len(data[:-1]) / 4`) is modelled as floor division of the non-negative length.
- Python 2 `str`/`bytes` mixing is left out. Bytes are a sequence of values 0..255, and `ord()` of a one-byte slice is that byte.
- Dynamic attribute dispatch is left out: `MessageList.__getattr__`, `MessageListWrapper`, `DoremiServer.__getattr__` and the lazy loader.
- The CLI, the HTTP facade, the SNMP helpers, `spl.py` and the packaging scripts are not part of this model.
- Cpl.Lower: `lower()` is modelled for ASCII letters only; Unicode case mapping is left out.
- Bytes.Strip: `strip()` removes the white space of the first 128 code points (space, 9 to 13 and 28 to 31). Unicode spaces such as U+00A0 and U+2028 are left out.
- RequestHandlers.ToInt: text is stripped as `strip()` does, then read as an optional sign and ASCII digits with single underscores between digits. Unicode white space beyond the first 128 code points and non-ASCII decimal digits (such as Arabic-Indic digits) are left out, so text using them is a ValueError in the model.
- RequestHandlers.Arg: an argument is None, an int, a bool or a str. Floats are not modelled. So the model does not capture that `int(1.5)` truncates to 1, that `1.0 == True` and `0.0 == False` select a value in `set_scheduler_request_handler`, or that a float event-id bound fails `str(x).isdigit()` and reaches `int()` unchanged.
- RequestHandlers.DigitArg: `isdigit()` is modelled for ASCII digits only. Other Unicode digits such as '²', for which `isdigit()` is true and `int()` fails, are left out.
- Bytes.UuidText: the tbx conversion of bytes that are not 16 long is assumed to give their plain lower-case hex text. Whether the real helper does that or raises an error is not known. The case arises for a UUID-list reply whose item size is not 16, and for a reply shorter than its declared layout.
- Cpl.Cpl.FromCplInfo: the CPL info dictionary is a datatype with the six fields used, so a KeyError for a missing key is not modelled. `int(duration)` is the identity on the integer the decoder produced.
- `CPL.fps`, `seconds`, `hms_duration` and `__str__` use floating point and text formatting, and are left out.

## Findings

| source | as written | input that shows it | evidently intended | confidence | as-written member | corrected member |
|---|---|---|---|---|---|---|
| dcitools/devices/doremi/commands.py:165-167 | The BER field of a request frame counts only the data. The receiver of the same protocol reads `ber - 4` data bytes after the 4-byte identifier (commands.py:88). | A request without data, with `int_2_ber` taken as the one-octet short form: the frame is 21 bytes and its BER field is 00. `receive` reads four BER bytes, 00 and three identifier bytes, and then times out on the identifier. If the field is written in the four-byte long form instead (83 00 00 00), the frame reaches `receive(-4)`, a ValueError. Any long-form frame with 4 or more data bytes reads back 4 bytes short. | The BER field counts the identifier and the data, as the receive side assumes. It is also written in the four-byte long form, so that it fills the four bytes `receive` reads. | not executed | Commands.FrameMisread, Commands.EmptyFrameTimesOut, Commands.LongFormMisread, Commands.EmptyLongFormFails | Commands.FrameFixed, Commands.FrameFixedRoundTrip |
| dcitools/devices/doremi/handlers.py:27-33 | `check_response` tests `d is dict`, which compares a dictionary with the type object and is always false. `snmp_get_response_handler` (handlers.py:506-517) therefore never reads the SNMP value. | Any SNMP reply, e.g. the bytes of `INTEGER\n5` followed by a response byte 0: the result holds only `response`. | Test `isinstance(d, dict)`, so that a reply whose response byte is 0 yields `value_type` and `value`. | not executed | ResponseHandlers.SnmpGetReply, ResponseHandlers.SnmpValueNeverRead | ResponseHandlers.SnmpGetReplyFixed, ResponseHandlers.SnmpFixedRoundTrip |

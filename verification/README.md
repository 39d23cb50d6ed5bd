# Verification of the pico-radio core

This project models the parts of the repository where behaviour is hardest to see from one function, and proves
what they do for every input and every run:

- the server side of NetworkTables 4.1 (`src/nt/ntinstance.cpp`): topics, clients, subscriptions, publishers,
  announcements, value updates and the two outgoing caches of each client, as a state machine over all events;
- the MessagePack codec, the records and binary frames built from it, and the JSON reader of text frames;
- WebSocket framing of RFC 6455: fragmentation, masking, parsing, reassembly;
- SHA-1 of FIPS 180-4 and Base64 of RFC 4648, as the handshake uses them;
- the lease table of the DHCP server, over a clock that wraps.

Loops and objects of the program are methods and classes here. Each is proved against a function, and the laws are
proved about the functions. `dafny verify dfyconfig.toml` checks everything.

## Files

| file | content |
|---|---|
| `Fips180.dfy`, `Sha1.dfy`, `Sha1Stream.dfy`, `Base64.dfy` | the standard's hash, the unrolled compression, the streaming object, Base64 |
| `Maybes.dfy`, `Bytes.dfy`, `Floats.dfy`, `MsgPackFormat.dfy`, `MsgPackLaws.dfy`, `MsgPackSpec.dfy`, `MsgPackCodec.dfy` | the option type, bytes, floating-point numbers as their fields, byte formats and readers, round trips, the published format byte by byte, packer and unpacker objects |
| `WebSocketFrames.dfy`, `WebSocketMessages.dfy`, `WebSocketReceiver.dfy`, `WebSocketConnection.dfy`, `WebSocketClosing.dfy` | frames, fragmentation, reassembly, the connection object, close frames and what any bytes are parsed into |
| `Dhcp.dfy` | the lease table and its runs |
| `Decimals.dfy`, `JsonCursor.dfy`, `JsonMessages.dfy`, `JsonRoundTrip.dfy`, `JsonLosses.dfy`, `JsonUnpacker.dfy`, `Json.dfy` | decimal numbers, the JSON cursor, the message loop, its round trip, exactly when messages are lost, the reader object, a JSON reader for what the server writes |
| `NtValues.dfy`, `NtRecords.dfy`, `NtFrames.dfy`, `Batching.dfy`, `NtStream.dfy` | values and types, the decode loop, its method form, the caches, frames as groups of records |
| `NtArrivals.dfy`, `NtLosses.dfy` | exactly when all updates arrive, through the format and a socket; runs in which they do not |
| `NtClient.dfy`, `NtClientLaws.dfy` | what the server holds for one client, and what every operation on it keeps |
| `NtServer.dfy`, `NtServerInvariant.dfy`, `NtMetaTopics.dfy`, `NtNames.dfy`, `NtFailures.dfy`, `NtMirrors.dfy`, `NtTheorems.dfy` | the state machine, its invariants, meta-topics, client names, failing assertions, what clients may rely on |
| `NtClientRules.dfy`, `NtMaps.dfy`, `NtIds.dfy` | an induction principle for what holds of a client after every run; its maps and its ids |
| `NtSubscriptions.dfy`, `NtInterest.dfy` | what a subscription covers, character by character, and who is sent which values because of it |
| `NtTopics.dfy`, `NtLists.dfy`, `NtMetaProperties.dfy` | what every event does to one topic, and what the lists of clients, subscribers and publishers hold |
| `NtFreshness.dfy` | what was last sent to a client about a topic is what the topic holds |
| `NtViews.dfy`, `NtGains.dfy` | what a client is sent about one topic: exactly what each event adds, and all of it over a run |
| `NtWire.dfy`, `NtOvertaking.dfy` | the order of frames on the wire, exactly when it is kept, and a run that breaks it |
| `NtInstance.dfy`, `NtHandleFrame.dfy`, `NtRequests.dfy` | the server object with its loops; text and binary frames as series of steps; what a message asks for |
| `NtTexts.dfy`, `NtProtocol.dfy` | what a client reads from the text frames sent to it; names, codes and numbers of the protocol |

## How the server is modelled

A step of the state machine is what the program does while it holds `stateMutex`: one message of a text frame, the
end of a text frame, one record of a binary frame, a connect or disconnect, one local call, a flush. Inputs that the
program takes from outside are parameters of a step: the clock (one reading per step), the order in which a hash table
is walked, and the packing of the contents of meta-topics (abstract functions of the maps they are packed from).
`queue` and `log` of a client and `keptCached` of a topic are history: they record what was queued for the client, in
which order it left for the socket, and whether the cached property has been on since creation. `failed` records that
an assertion of the program did not hold. A message or record of a client that is not connected does nothing, as the
checks at the start of a frame have it. A floating-point number is its sign, exponent and fraction; `float(val)` and
`ldexp` are functions of these.

## Where the code departs from its intent

The model follows the code; these are the places, with the lemma that shows each.

- `src/websocket.cpp:605` sends middle fragments from the start of the message. `DeliveredBytes` says which byte
  arrives at every place of every message, and `DeliveredIff` which messages arrive intact; `AdvancingPlan` and
  `EndToEndAdvancing` show that the offset of line 627 would carry all of them.
- `include/msgpack/msgpack.hpp:1583` keeps four bits of a string length where the packer writes five
  (`StrComesBackIff`, `StrCut`), and `unpack_array_header` does not recognise sizes 11 to 15 (`HeaderComesBackIff`).
- Reading an integer as a signed one follows the published format except that the marker of eight unsigned bytes is taken
  for the number -49 (`SignedAsSpecified`, `UnsignedReadSigned`); reading one as an unsigned one follows it modulo 2^64
  except for -1 to -32 (`UnsignedAsSpecified`).
- Floating-point numbers are read with an unsigned exponent (1482, 1531), so a normal number below one in size becomes
  infinite (`SmallBecomesInfinite`), and packing that again is undefined. Whole numbers travel as integers, and of
  these the bytes of -1 to -32 are read as 255 to 224, and a double passes through a float (1540, 1546).
  `FloatComesBackIff` says exactly which numbers come back.
- Through both of these and the fragments of line 605, a client receives all updates if each survives the format and is
  carried whole (`UpdatesArriveIff`, over every run); up to arrays of more than two fragments, only then. Records of
  up to two fragments are always carried (`ShortSurvives`). In `BigValueChanges` a run writes 4000 bytes, and other
  bytes arrive; in `HalfIsLost` a run writes 0.5.
- The loop over a binary frame never ends if it comes in front of a byte that is no array header, and on no other
  frame (`StuckIff`). Any frame that begins with such a byte is one, also behind whole records (`StuckAtOnce`,
  `StuckBehindRecords`).
- Of the assertions of `src/nt/ntinstance.cpp` in the modelled steps, two fail, each on one kind of input (`StepFailsIff`,
  `RunFailsIff`). Line 832 looks up `$pub$` and the published name, which is not there for a name starting with `$` unless
  the program itself has published a topic called so (`MetaPublishStops`). And `assign` (line 453) asserts a valid value,
  while a record with the type code 99 is read as an invalid one (`UnassignedValueStops`).
- Two clients that ask for the same name with an `@` in it get the same name (`NameIsNewIff`, and the run of
  `SameNameTwice`). If every name asked for can be granted, or has no `@`, names differ in every run (`RunDistinct`,
  `RunWithoutAtSigns`).
- Records are flushed without text: by the local flush (2181-2190), after a record from a client (1067), and when the
  binary cache is full. So a record can overtake the announcement of its id (`LocalUpdateOvertakes` is a run).
  From an ordered wire, a binary flush keeps the order if and only if no topic with a record in the binary cache has its
  first announcement in the text cache (`BinaryKeepsOrderIff`); the end of a text frame always keeps it
  (`EndOfTextKeepsOrder`). The promise that an announcement comes first is about the order of queueing.
- Text frames of several messages can be 513 characters long, one more than the constant (`TextLimitIsReached`), exactly
  if the cache was not empty and cached text and new message have 510 characters together (`LimitExceededIff`).
- `unpack_default_bool` does not take a `null`. As the last entry of an update it makes the reader run into the next
  message, which is lost: a frame is read as it was written if and only if no message but the last ends so
  (`FrameReadIff`).
- Names are written into messages without escapes. A client that reads JSON gets a text frame as it is meant if and only if
  no name in it needs one (`FramesAreJsonIff`, `TextReadIff`).
- A close frame without a status is answered but leaves the connection open and handling frames; a second one closes it, and
  the connection never counts as closed gracefully (`BareClose`, `TwoBareCloses`, `src/websocket.cpp:498-501`).
- The lists `$sub$` and `$pub$` of a topic are packed anew when somebody subscribes, unsubscribes, publishes or unpublishes,
  and otherwise keep what they held, also when a client of theirs leaves (`StepLists`).
- A length of 65535 is written with eight length bytes although two would do (`LengthCodeMinimalIff`).
- `operator[]` lookups of absent keys in `src/nt/ntinstance.cpp` insert null entries; they are modelled as lookups. A
  `setproperties` for an unknown name (944) leaves one in `topics`, a value for an unknown publisher id (1056, 2154) one in
  `publishers`, and later loops over these maps dereference it. On runs with such inputs the theorems about runs,
  `RunNeverFails` and `NtLists.RunMirrored` among them, describe the intended form of the program. Returns that leave the mutex
  taken (607-608, 1052-1053) are modelled as steps that end.

## Model

| member | source | states |
|---|---|---|
| Sha1Gates.Choice | src/sha1.hpp:73-77 | the cheaper expression of the first twenty rounds equals Ch of FIPS 180-4 section 4.1.1, bit by bit |
| Sha1Gates.Majority | src/sha1.hpp:93-98 | the expression of rounds 40 to 59 equals Maj of section 4.1.1 |
| Sha1.Expand | src/sha1.hpp:64-67 | blk over the 16-word ring gives word t of the 80-word schedule |
| Sha1.Overwrite | src/sha1.hpp:79-84 | overwriting slot t mod 16 keeps the ring equal to the last sixteen schedule words |
| Sha1.R0 | src/sha1.hpp:73-77 | one of the first sixteen rounds is the round of section 6.1.2 with renamed registers |
| Sha1.R1 | src/sha1.hpp:79-84 | rounds 16 to 19 extend the schedule in place and are the round of the standard |
| Sha1.R2 | src/sha1.hpp:86-91 | the same for rounds 20 to 39 |
| Sha1.R3 | src/sha1.hpp:93-98 | the same for rounds 40 to 59 |
| Sha1.R4 | src/sha1.hpp:100-105 | the same for rounds 60 to 79 |
| Sha1.Transform | src/sha1.hpp:111-211 | for every digest and block the unrolled rounds compute the compression function of FIPS 180-4 |
| Fips180.PaddingIsLeast | src/sha1.hpp:323-329 | the number of zero bytes is the least that section 5.1.1 allows |
| Sha1Stream.HashShort | src/sha1.hpp:323-346 | hashing the rest in one block gives the hash of the padded message |
| Sha1Stream.HashLong | src/sha1.hpp:334-346 | the same when the padding needs a second block |
| Sha1Stream.TotalBitsAreTheLength | src/sha1.hpp:320-321 | the bit count kept modulo 2^64 is the message length that the padding must carry |
| Sha1Stream.SHA1.Update | src/sha1.hpp:227-246 | appends to the message hashed so far, however it is split over calls |
| Sha1Stream.SHA1.Final | src/sha1.hpp:318-361 | returns the Base64 of the FIPS 180-4 hash of the whole message and leaves the object as new |
| Sha1Stream.SHA1.Reset | src/sha1.hpp:45-57 | starts an empty message |
| Sha1Stream.BufferToBlock | src/sha1.hpp:213-220 | sixteen big-endian words of the 64 bytes |
| Base64.EncodeLoop | src/sha1.hpp:271-312 | main loop and both tails together write the encoding of the input |
| Base64.EncodeLength | src/sha1.hpp:280 | exactly 4 * ceil(n / 3) characters |
| Base64.DecodeEncode | src/sha1.hpp:271-312 | a decoder after RFC 4648 section 4 returns the input, for every byte string |
| Base64.EncodeDecode | src/sha1.hpp:271-312 | that decoder accepts nothing but encodings |
| MsgPackCodec.TwosComplement | include/msgpack/msgpack.hpp:390-440 | the low bits of the two's complement |
| MsgPackCodec.Packer.PackInt64 | include/msgpack/msgpack.hpp:446-504 | the ladder of widths appends the signed format; all values but the least |
| MsgPackCodec.Packer.PackUint64 | include/msgpack/msgpack.hpp:506-565 | the ladder of unsigned widths appends the unsigned format |
| MsgPackCodec.Packer.PackBool | include/msgpack/msgpack.hpp:572-582 | appends one of the two boolean markers |
| MsgPackCodec.Packer.PackStr | include/msgpack/msgpack.hpp:660-695 | appends the string format, nothing from the size limit on |
| MsgPackCodec.Packer.PackBin | include/msgpack/msgpack.hpp:697-728 | appends the binary format |
| MsgPackCodec.Packer.PackArrayHeader | include/msgpack/msgpack.hpp:248-275 | appends the header of an array |
| MsgPackCodec.Packer.PackArray | include/msgpack/msgpack.hpp:324-332 | appends a header and every element in order |
| MsgPackCodec.Packer.PackFloat | include/msgpack/msgpack.hpp:584-658 | a whole number as an integer, any other one as its sign, exponent and mantissa, bit by bit in the loop |
| MsgPackCodec.Unpacker.SafeData | include/msgpack/msgpack.hpp:826-832 | the byte under the pointer, or 0 and an error |
| MsgPackCodec.Unpacker.SafeIncrement | include/msgpack/msgpack.hpp:834-845 | one step, at most to one past the end |
| MsgPackCodec.Unpacker.UnpackInt64 | include/msgpack/msgpack.hpp:1163-1234 | the signed reading of any bytes, by marker |
| MsgPackCodec.Unpacker.UnpackUint64 | include/msgpack/msgpack.hpp:1362-1434 | the unsigned reading of any bytes; eight bytes are added to what the variable held before, modulo 2^64 |
| MsgPackCodec.Unpacker.UnpackBool | include/msgpack/msgpack.hpp:1436-1451 | the boolean reading, with its error |
| MsgPackCodec.Unpacker.UnpackArrayHeader | include/msgpack/msgpack.hpp:777-811 | the size, or none without moving |
| MsgPackCodec.Unpacker.UnpackStr | include/msgpack/msgpack.hpp:1551-1595 | the string reading, with the four-bit mask |
| MsgPackCodec.Unpacker.UnpackBin | include/msgpack/msgpack.hpp:1597-1636 | the binary reading |
| MsgPackCodec.Unpacker.UnpackArray | include/msgpack/msgpack.hpp:883-930 | the size and then every element |
| MsgPackCodec.Unpacker.UnpackFloat | include/msgpack/msgpack.hpp:1453-1549 | the floating-point reading of any bytes, by marker |
| MsgPackCodec.MantissaMask | include/msgpack/msgpack.hpp:602-611 | doubling and taking the integral part yields the bits of the mantissa |
| MsgPackCodec.ReadMantissa | include/msgpack/msgpack.hpp:1465-1472 | adding up halves, quarters and so on yields the mantissa of the bits |
| MsgPackCodec.FromBits | include/msgpack/msgpack.hpp:1464-1483 | mantissa, wrapped exponent and ldexp give the number that is read |
| MsgPackLaws.IntRoundTrip | include/msgpack/msgpack.hpp:1163-1234 | every int64 comes back, exactly its bytes are consumed and no error is set, whatever follows |
| MsgPackLaws.UintRoundTrip | include/msgpack/msgpack.hpp:1362-1434 | the same for every uint64 |
| MsgPackLaws.BoolRoundTrip | include/msgpack/msgpack.hpp:1436-1451 | the same for booleans |
| MsgPackLaws.FloatComesBackIff | include/msgpack/msgpack.hpp:584-658 | a float or double below 2^63 is read back in every context exactly if it is zero, or whole with at most 24 bits and not from -1 to -32, or not whole and at least one in size |
| MsgPackLaws.SmallBecomesInfinite | include/msgpack/msgpack.hpp:1482-1483 | every normal number below one in size is read as infinite |
| Floats.WholeThereAndBackIff | include/msgpack/msgpack.hpp:1487-1498 | a whole number below 2^63 comes back from its integer exactly if it is a float, or a double of at most 24 bits |
| Floats.RoundedIsNearest | include/msgpack/msgpack.hpp:1491 | the float that an integer becomes is a nearest one |
| MsgPackLaws.StrComesBackIff | include/msgpack/msgpack.hpp:1551-1595 | a string is read back in every context exactly if its length is below 16 or from 32 up to the limit |
| MsgPackLaws.StrCut | include/msgpack/msgpack.hpp:1583 | lengths 16 to 31: what is read, and what stays in front of the following bytes |
| MsgPackLaws.BinRoundTrip | include/msgpack/msgpack.hpp:1597-1636 | every byte vector below the limit comes back, self-delimiting |
| MsgPackLaws.HeaderComesBackIff | include/msgpack/msgpack.hpp:777-811 | an array header is recognised exactly for up to 10, or 16 and more elements |
| MsgPackLaws.ArrayRoundTrip | include/msgpack/msgpack.hpp:883-930 | arrays of booleans, integers or fitting strings come back, self-delimiting |
| MsgPackSpec.PackedAsSpecified | include/msgpack/msgpack.hpp:248-728 | every value is written as the published format has it, with the literal marker bytes, for any reader and whatever follows |
| MsgPackSpec.SignedAsSpecified | include/msgpack/msgpack.hpp:1163-1234 | on every integer of the format, signed or unsigned of any width, the signed reading gives that integer and stops behind it; only the marker of eight unsigned bytes is taken for a number itself |
| MsgPackSpec.UnsignedAsSpecified | include/msgpack/msgpack.hpp:1362-1434 | the unsigned reading gives the integer modulo 2^64, but reads the bytes of -1 to -32 as they stand |
| MsgPackSpec.OtherBytesRead | include/msgpack/msgpack.hpp:1228-1231 | a byte that starts no integer is read as a signed byte |
| MsgPackSpec.ByteAsSpecified | include/msgpack/msgpack.hpp:1236-1258 | a byte is read behind either marker of one byte, or as it stands |
| MsgPackSpec.BooleanAsSpecified | include/msgpack/msgpack.hpp:1436-1451 | the two markers of the format are read as the two values, and any other byte is an error that changes nothing |
| MsgPackSpec.TextAsSpecified | include/msgpack/msgpack.hpp:1551-1595 | on every string of the format the reading gives that string, without its last sixteen bytes if the short length has its fifth bit |
| MsgPackSpec.BinaryAsSpecified | include/msgpack/msgpack.hpp:1597-1636 | on every byte vector of the format the reading gives it |
| MsgPackSpec.ArrayAsSpecified | include/msgpack/msgpack.hpp:777-811 | on every array header the size, except that 11 to 15 in short form are no header to one of the two readers |
| MsgPackSpec.FloatAsSpecified | include/msgpack/msgpack.hpp:1453-1549 | a floating-point number is read from its own format or from any integer |
| MsgPackSpec.UnsignedReadSigned | include/msgpack/msgpack.hpp:1221-1231 | an integer packed as unsigned comes back from the signed reading exactly below 2^32 |
| MsgPackSpec.SignedReadUnsigned | include/msgpack/msgpack.hpp:1362-1434 | an integer packed as signed comes back from the unsigned reading modulo 2^64, or as one byte from -32 to -1 |
| MsgPackSpec.IdInEitherForm | src/nt/ntinstance.cpp:990-996 | a record whose id was packed as an unsigned number decodes to that id |
| XorBytes.XorInvolution | src/websocket.cpp:417-423 | masking a byte twice with the same key byte restores it |
| WebSocketConnection.MaskPayload | src/websocket.cpp:417-423 | each byte in place is combined with key byte i mod 4, and no other byte changes |
| WebSocketConnection.WebSocket.SendFrame | src/websocket.cpp:640-689 | exactly the bytes of the encoded frame are written, for one payload or two in a row |
| WebSocketConnection.WebSocket.Send | src/websocket.cpp:529-638 | the fragmentation loop ends and writes exactly the frames of the plan |
| WebSocketConnection.WebSocket.HandleFrame | src/websocket.cpp:425-517 | the receiver's next state, and exactly the bytes of the answer, for every frame |
| WebSocketConnection.WebSocket.PollLoop | src/websocket.cpp:318-415 | for every byte stream: the whole state is that of handling the frames that parsing it yields, closed if the stream breaks off in a frame, and the bytes written are exactly the answers to the frames that were handled |
| WebSocketClosing.ParsedIff | src/websocket.cpp:331-415 | for any bytes: they start with a frame exactly if the opcode is one of six and all bytes are there |
| WebSocketClosing.ParsedFrame | src/websocket.cpp:331-415 | opcode, FIN, length and every byte of the payload, unmasked by the key byte at its place |
| WebSocketClosing.CloseEnds | src/websocket.cpp:489-496 | after a close frame with a status nothing is handled or answered, the connection is closed and counts as closed gracefully, and the frame is echoed unless a close frame was sent before |
| WebSocketClosing.BareClose | src/websocket.cpp:498-501 | a close frame without a status is answered with 1000 and the connection stays open, or is closed if a close frame was sent before |
| WebSocketClosing.TwoBareCloses | src/websocket.cpp:498-501 | two of them: one close frame is written, the second closes the connection, and it does not count as closed gracefully |
| WebSocketClosing.OneCloseFrame | src/websocket.cpp:489-502 | over every series of frames at most one close frame is written |
| WebSocketClosing.CloseEndsStream | src/websocket.cpp:331-496 | on the wire: behind a close frame with a status no byte whatever is handled, and the answers are the pongs before it and its echo |
| WebSocketFrames.FrameRoundTrip | src/websocket.cpp:331-415 | a parsed frame is the encoded one, and parsing stops right behind it (RFC 6455 section 5.2) |
| WebSocketFrames.StreamRoundTrip | src/websocket.cpp:318-415 | a stream of frames parses into the same frames |
| WebSocketFrames.LengthCodeMinimalIff | src/websocket.cpp:551-552 | the length coding is the shortest one except for 65535 |
| WebSocketMessages.FragmentShape | src/websocket.cpp:561-638 | first frame has the opcode, later ones are continuations, only the last has FIN, lengths add up, every packet fits |
| WebSocketMessages.DeliveredBytes | src/websocket.cpp:594-629 | of an oversized message as many bytes are sent as it has; before the last fragment byte i is byte i mod f of the message, for the fragment size f, and from there on byte i |
| WebSocketMessages.DeliveredIff | src/websocket.cpp:570-629 | the payloads add up to the message exactly if it fits one packet or its middle parts repeat the first |
| WebSocketMessages.TwoFragmentsDeliver | src/websocket.cpp:570-629 | every message of up to two fragments is carried |
| WebSocketMessages.ThreeFragmentsFail | src/websocket.cpp:605 | a message of three fragments that is not |
| WebSocketMessages.AdvancingPlan | src/websocket.cpp:583-627 | with an advancing offset every message of every length is carried |
| WebSocketReceiver.Reassembly | src/websocket.cpp:425-517 | with pings and pongs anywhere between, one message reaches the callback, unfragmented, with its opcode and bytes; every ping is answered |
| WebSocketReceiver.EndToEnd | src/websocket.cpp:331-638 | fragment, mask, encode, parse, unmask, reassemble gives the original message exactly under the condition of the sender |
| WebSocketReceiver.EndToEndAdvancing | src/websocket.cpp:331-638 | with an advancing offset it always does |
| DhcpLeases.ExpiredExactly | src/dhcpserver.c:258-259 | for every age, when the wrapped difference of the truncated expiry counts as expired |
| DhcpLeases.ExpiryWindow | src/dhcpserver.c:258-259 | never within a day, always from 65,536 ms past the day until 2^31 ms past it |
| DhcpLeases.DhcpServer.Search | src/dhcpserver.c:241-272 | the loop picks the least lease of the MAC, else the first free or expired one, else none, and clears as the choice says |
| DhcpLeases.DiscoverClearsOne | src/dhcpserver.c:250-266 | at most one lease is cleared, one seen as expired and not of the asking MAC |
| DhcpLeases.Index | src/dhcpserver.c:279-295 | which requested addresses are the server's |
| DhcpLeases.DhcpServer.Process | src/dhcpserver.c:237-323 | reply and table after each message |
| DhcpLeases.OfferIsHonoured | src/dhcpserver.c:239-318 | an offered address is acknowledged when it is requested next |
| DhcpLeases.OfferedAddress | src/dhcpserver.c:241-272 | which of the eight addresses is offered, and when none: the first that the MAC holds, else the first that nobody holds or that has expired |
| DhcpLeases.AcknowledgedIff | src/dhcpserver.c:279-323 | a request is acknowledged exactly for an address of the server that the MAC or nobody holds, expired or not; only that lease is written |
| DhcpLeases.RenewalIsGranted | src/dhcpserver.c:279-323 | in every run: whoever had an address acknowledged within the last day gets it again when asking for it |
| DhcpLeases.LeaseSafety | src/dhcpserver.c:237-318 | over every run: no address goes to another MAC within 86,400,000 ms of any acknowledgement to a nonzero MAC |
| Decimals.DecimalRoundTrip | src/nt/ntinstance.cpp:1698 | a written number is read back whatever non-digit follows |
| JsonCursor.KeyRoundTrip | include/nt/ntjson.hpp:109-124 | a quoted string is read exactly, skipping what comes before it |
| JsonCursor.IntRoundTrip | include/nt/ntjson.hpp:128-149 | a 32-bit number before a comma or brace is read exactly |
| JsonCursor.BoolRoundTrip | include/nt/ntjson.hpp:151-184 | the two words are read exactly |
| JsonUnpacker.Unpacker.SafeFindAfter | include/nt/ntjson.hpp:357-365 | ends on every text, never moves back or further than one past the end |
| JsonUnpacker.Unpacker.SafeFindAny | include/nt/ntjson.hpp:379-383 | the same, and overwrites the error code |
| JsonUnpacker.Unpacker.UnpackKey | include/nt/ntjson.hpp:109-124 | the key and the cursor after it, for every text |
| JsonUnpacker.Unpacker.UnpackInt | include/nt/ntjson.hpp:128-149 | the number and the cursor after it, for every text |
| JsonUnpacker.Unpacker.UnpackBool | include/nt/ntjson.hpp:151-184 | the value and the cursor after it, for every text |
| JsonUnpacker.Unpacker.PeekTypeHere | include/nt/ntjson.hpp:231-303 | the type of the next value, without moving |
| JsonUnpacker.KeyAdvances | src/nt/ntinstance.cpp:687-692 | while there is a next value, reading a key moves the cursor strictly |
| JsonMessages.ReadMessage | src/nt/ntinstance.cpp:663-967 | a pass of the message loop takes at least a character if there is one |
| JsonUnpacker.ParseFrame | src/nt/ntinstance.cpp:656-969 | the message loop ends on every text and yields the messages of its functional form |
| JsonLosses.FrameReadIff | src/nt/ntinstance.cpp:656-969 | a frame of clean strings and 32-bit numbers is read as the messages written if and only if no message but the last ends in a null |
| NtRequests.SubscriptionAsked | src/nt/ntinstance.cpp:679-740 | each option is as its last entry in the message says; without one 100 ms, not all, not topics only, no prefix |
| NtRequests.PublicationAsked | src/nt/ntinstance.cpp:765-832 | each property is as its last entry that is no null says; without one not persistent, not retained, cached |
| NtRequests.ChangeAsked | src/nt/ntinstance.cpp:904-957 | a property is changed to what its last entry says, and kept if that is a null or there is none |
| Json.ValueReadIff | src/nt/ntinstance.cpp:1165-1185 | for every JSON value put together from strings as they are: a reader gets it back, and stops behind it, exactly if no string in it needs an escape |
| NtTexts.TextReadIff | src/nt/ntinstance.cpp:1165-1310 | an announcement or property update is read as what it means exactly if its strings need no escape; no other message means the same |
| NtTexts.FramesAreJsonIff | src/nt/ntinstance.cpp:1799-1807 | in every run each text frame that was sent is read as the array of what its messages mean, the queued ones in their order, exactly if no name in it needs an escape |
| NtValues.NameGivesCode | src/nt/ntinstance.cpp:96-215 | the announced type name stands for the code that updates carry |
| NtValues.CodeRoundTrip | src/nt/ntinstance.cpp:199-215 | the code an update carries stands for a type with the same code |
| NtProtocol.NamedType | src/nt/ntinstance.cpp:96-215 | the fourteen type names with their codes: a topic published with a name is announced with it and its records carry that code; any other name stands for raw |
| NtProtocol.CodedType | src/nt/ntinstance.cpp:993-996 | each code of the protocol is read as a type with that code |
| NtProtocol.NothingYet | src/nt/ntinstance.cpp:278-382 | a topic without a value is sent as false, 0, the empty string, no bytes or the empty array, byte by byte |
| NtProtocol.KeyOfId | src/nt/ntinstance.cpp:1056 | the id of a record is used as the 32-bit integer that is congruent to it |
| NtValues.AssignKeepsType | src/nt/ntinstance.cpp:451-506 | a value never changes its type, and ignores data of another one |
| NtValues.AssignTakesIff | src/nt/ntinstance.cpp:451-506 | data of the same API type is taken over exactly unless it wraps between signed and unsigned |
| NtRecords.FrameRoundTrip | src/nt/ntinstance.cpp:979-996 | the loop ends on every frame of whole records and yields the same ids, times, codes and values in order |
| NtRecords.PassShrinks | src/nt/ntinstance.cpp:984-1080 | a pass takes bytes, or reports the end, or changes nothing at all |
| NtRecords.StuckForGood | src/nt/ntinstance.cpp:984-1080 | where the loop is stuck, no later pass changes anything |
| NtRecords.StuckIff | src/nt/ntinstance.cpp:984-1080 | the loop never ends exactly on the frames where finitely many passes, none running out of bytes, lead in front of a byte that is no array header |
| NtRecords.StuckAtOnce | include/msgpack/msgpack.hpp:777-811 | it never ends on any frame that starts with such a byte |
| NtRecords.StuckBehindRecords | src/nt/ntinstance.cpp:984-1080 | nor with such a byte behind any number of whole records |
| NtRecords.RttRoundTrip | src/nt/ntinstance.cpp:998-1012 | the answer to a time request brings back the number that was sent, with the server's time |
| NtFrames.PackRttReply | src/nt/ntinstance.cpp:1004-1010 | the bytes of that answer |
| NtFrames.PackRecord | src/nt/ntinstance.cpp:1514-1528 | the bytes of an update are its encoded record |
| NtFrames.DecodeLoop | src/nt/ntinstance.cpp:979-1080 | the loop on the unpacker object yields the records and the ending of its functional form |
| Batching.Lossless | src/nt/ntinstance.cpp:1799-1817 | over every sequence of queueing and flushing, frames and cache hold exactly the queued messages in order, and frames keep to the limit |
| Batching.FlushAllEmpties | include/nt/ntinstance.h:329-359 | an explicit flush leaves nothing in the cache |
| Batching.FrameLimits | include/nt/ntinstance.h:16-17 | 512 bytes for a binary frame of several records, 513 for a text frame of several messages |
| Batching.LeavesIff | src/nt/ntinstance.cpp:1799-1817 | a cache leaves exactly if it holds something that comes to more than 512 with the next message |
| Batching.TextLimitIsReached | src/nt/ntinstance.cpp:1184-1187 | a text frame of 513 characters occurs |
| Batching.LimitExceededIff | src/nt/ntinstance.cpp:1184-1187 | queueing a text makes a frame of several above 512 characters exactly if the cache was not empty and both have 510 together |
| Batching.ClientCaches.QueueText | src/nt/ntinstance.cpp:1227-1230 | flush if needed, comma, append: the cache is the joined messages |
| Batching.ClientCaches.QueueBinary | src/nt/ntinstance.cpp:1528-1530 | flush if needed, append: the cache is the joined records |
| Batching.ClientCaches.FlushText | src/nt/ntinstance.cpp:1799-1807 | a frame sent is the joined messages in brackets |
| Batching.ClientCaches.FlushBinary | src/nt/ntinstance.cpp:1809-1817 | a frame sent is the joined records |
| NtArrivals.EndToEndIff | src/nt/ntinstance.cpp:1510-1532 | for every sequence of updates and flushes, as handed to the socket or as its fragments carry it: all come back in order and each frame is read to its end if every record survives; without long arrays only then |
| NtClientLaws.AnnounceCachedKeeps | src/nt/ntinstance.cpp:1451-1466 | afterwards every cached subscribed topic is announced, and the client's history stays consistent |
| NtClientLaws.PublishInitialKeeps | src/nt/ntinstance.cpp:1720-1733 | afterwards no announced topic with subscribed values waits for one |
| NtServerInvariant.RunKeeps | src/nt/ntinstance.cpp:645-978 | ids, histories, caches, types and completeness are consistent after every run |
| NtTheorems.AnnounceComesFirst | src/nt/ntinstance.cpp:1145-1232 | in every run an update is queued only after an announcement of its id and topic to the same client |
| NtTheorems.IdsNeverChange | src/nt/ntinstance.cpp:1152-1164 | all announcements to a client, repeated ones too: same topic if and only if same id, below the next id |
| NtTheorems.TypesAgree | src/nt/ntinstance.cpp:1518-1525 | an update carries the code of the announced type |
| NtTheorems.SentIffQueued | src/nt/ntinstance.cpp:1526 | initialPublish is set exactly when an update of the topic was queued |
| NtTheorems.AnnouncesAreComplete | src/nt/ntinstance.cpp:1382-1466 | every topic that a client subscribes to and that has been cached since creation was announced to it |
| NtTheorems.FramesAreLossless | src/nt/ntinstance.cpp:1799-1817 | in every run, frames and caches of a client hold exactly its queue |
| NtArrivals.UpdatesArriveIff | src/websocket.cpp:529-638 | in every run, once the cache is flushed: a client receives all updates queued for it, in order, if every record survives the format and the socket; without long arrays only then |
| NtArrivals.ShortSurvives | src/websocket.cpp:570-629 | a record of up to two fragments that the format does not change survives |
| NtLosses.BigValueChanges | src/websocket.cpp:605 | a run that writes 4000 bytes: the frame handed to the socket holds the value, and its fragments carry another one |
| NtLosses.HalfIsLost | include/msgpack/msgpack.hpp:1531 | a run that writes the double 0.5, which does not arrive |
| NtTheorems.AfterTextFrame | src/nt/ntinstance.cpp:971-976 | after a text frame every cache is empty and the sender waits for no value |
| NtTheorems.AfterValue | src/nt/ntinstance.cpp:1067 | after a record every binary cache is empty |
| NtTheorems.AfterFlush | src/nt/ntinstance.cpp:606-619 | so it is after a flush from outside and when a client has left |
| NtIds.IdsCountUp | src/nt/ntinstance.cpp:1152-1164 | in every run the first announcement of a topic to a client gives it as id the number of topics announced to that client before |
| NtMaps.RunMaps | src/nt/ntinstance.cpp:731-894 | in every run that has not failed the subscriptions and publishers of a client are what its messages since it connected have made of none, and those of the server what the calls on it have |
| NtClientRules.RunHolds | src/nt/ntinstance.cpp:583-1082 | whatever all operations on a client keep, under what its own messages may list and publish, holds of it after every run |
| NtFreshness.LatestValue | src/nt/ntinstance.cpp:1510-1568 | in every run, for every client and topic with a value sent: the last update queued carries the value that the topic has now, and so does the last one that has left whenever the binary cache is empty |
| NtGains.StepGains | src/nt/ntinstance.cpp:583-1082 | every step from every state of a run: exactly which announcement, property update or value update, and nothing else, is added to what a client is sent about an ordinary topic |
| NtSubscriptions.SubscribedIff | src/nt/ntinstance.cpp:1316-1380 | for every map of subscriptions and every name, character by character: subscribed exactly if a listed string is the name, or the name starts with it for a prefix subscription and it starts with `$` if the name does |
| NtInterest.FanOutIff | src/nt/ntinstance.cpp:1546-1563 | a new value of any topic is queued for a client exactly if the topic was announced to it and it was sent a value before or has a subscription that lists the topic and is not for topics only |
| NtInterest.NotifyIff | src/nt/ntinstance.cpp:1642-1687 | a change of properties of any topic is told exactly to the clients with a subscription that lists it |
| NtInterest.AnnounceIff | src/nt/ntinstance.cpp:1382-1433 | a new topic of any name is announced exactly to its publisher, with the publisher's id, and to the clients with a subscription that lists it, with its type and properties |
| NtInterest.StepValues | src/nt/ntinstance.cpp:1546-1733 | over every run: exactly which updates of an ordinary topic each event adds for a client, by what was queued for it before and the strings its subscriptions list |
| NtInterest.NoValuesForTopicsOnly | src/nt/ntinstance.cpp:1551 | in every run in which a client has only subscribed to topics no value is ever queued for it |
| NtInterest.NothingAboutDollars | src/nt/ntinstance.cpp:1322-1363 | in every run in which a client has only listed and published names without `$` in front, nothing about a name with one is queued for it, however short its prefixes are |
| NtGains.RunGains | src/nt/ntinstance.cpp:1145-1733 | over every run: all that was ever queued for a client about an ordinary topic is what the events since it connected add, in order |
| NtNames.ClientsAfter | src/nt/ntinstance.cpp:583-619 | only connecting and disconnecting change who is connected |
| NtWire.BinaryKeepsOrderIff | src/nt/ntinstance.cpp:1809-1817 | from an ordered wire, a binary flush keeps every update behind the announcement of its id if and only if no topic with a cached update has its first announcement still in the text cache |
| NtWire.TextKeepsOrder | src/nt/ntinstance.cpp:1799-1807 | a text flush always keeps the order |
| NtWire.EndOfTextKeepsOrder | src/nt/ntinstance.cpp:971-976 | so does the end of a text frame, for every client |
| NtOvertaking.LocalUpdateOvertakes | src/nt/ntinstance.cpp:2043-2190 | for every value: a run of connect, subscribe, end of frame, local publish, local update and local flush after which its record is on the wire and the announcement of the id is not |
| NtMetaTopics.NameIsNewIff | src/nt/ntinstance.cpp:1689-1706 | a new client's name is unused exactly if the request has no `@` or the request with `@1` is free |
| NtNames.SameNameTwice | src/nt/ntinstance.cpp:1695 | a run of two connects that ends with two clients of one name |
| NtNames.RunDistinct | src/nt/ntinstance.cpp:583-597 | in every run whose connects can be granted a new name, whatever is published, client names are pairwise distinct |
| NtNames.RunWithoutAtSigns | src/nt/ntinstance.cpp:1689-1706 | so in every run whose requested names have no `@` |
| NtLists.RunMirrored | src/nt/ntinstance.cpp:1833-1923 | after every run that has not failed, with grantable names and no `$` name published by the program itself, client names differ, `$clients` holds the packing of exactly the names of the clients connected now, `$clientsub$` and `$clientpub$` the current maps of every client, `$serversub` and `$serverpub` those of the server |
| NtLists.StepLists | src/nt/ntinstance.cpp:1925-1979 | after every event the lists of clients, of subscribers and of publishers either pack exactly who is meant now, for the events that say so, or hold what they held |
| NtLists.StepKeepsTopic | src/nt/ntinstance.cpp:583-1082 | an event changes no topic but the few it is about |
| NtLists.StepTopic | src/nt/ntinstance.cpp:583-1082 | what each event makes of an ordinary topic: whether it is there, its value, and its properties as they were given or before |
| NtMetaProperties.RunKeepsProperties | src/nt/ntinstance.cpp:1583-1633 | in every run a meta-topic that nobody publishes or sets properties of is not persistent, but retained and cached |
| NtFailures.StepFailsIff | src/nt/ntinstance.cpp:453-832 | from every state that has not failed an event makes an assertion fail exactly if it publishes a `$` name without a list of publishers, or brings an invalid value for a topic that there is |
| NtFailures.RunFailsIff | src/nt/ntinstance.cpp:583-1082 | a run fails exactly if it has such an event in the state it meets |
| NtFailures.MetaPublishStops | src/nt/ntinstance.cpp:832 | a client that connects and publishes `$x` stops the server |
| NtFailures.UnassignedValueStops | src/nt/ntinstance.cpp:453 | a client that connects, publishes and sends a record with the type code 99 stops it |
| NtFailures.RunNeverFails | src/nt/ntinstance.cpp:1855-1979 | in every run with ordinary published names and valid values no assertion fails |
| NtFailures.PublishFailsIff | src/nt/ntinstance.cpp:821-832 | exactly which publish messages make the assertion fail |
| NtInstance.IsSubscribedBy | src/nt/ntinstance.cpp:1316-1341 | the loop over the strings of a subscription: one of them lists the name, character by character |
| NtInstance.IsSubscribedAny | src/nt/ntinstance.cpp:1343-1380 | the loop over the subscriptions of a client: one of them, for values one that is not for topics only, lists the name |
| NtInstance.NetworkTableInstance.SendTopicUpdate | src/nt/ntinstance.cpp:1539-1568 | the loop over the clients takes, for each, the fan-out step of which NtInterest.FanOutIff says whom it reaches |
| NtInstance.NetworkTableInstance.AnnounceTopicAll | src/nt/ntinstance.cpp:1382-1433 | the loop over the clients takes the announcing step |
| NtInstance.NetworkTableInstance.UpdateTopicProperties | src/nt/ntinstance.cpp:1642-1687 | the loop over the clients takes the notifying step |
| NtInstance.NetworkTableInstance.FlushAllText | include/nt/ntinstance.h:336-343 | the loop over the clients flushes all text |
| NtInstance.NetworkTableInstance.FlushAllBinary | include/nt/ntinstance.h:352-359 | the loop over the clients flushes all records |
| NtInstance.NetworkTableInstance.NextNumber | src/nt/ntinstance.cpp:1689-1706 | one more than the greatest number in use for the name, at least 1 |
| NtInstance.NetworkTableInstance.AnnounceCachedTopics | src/nt/ntinstance.cpp:1451-1466 | the loop over the topics takes the announcing step of one client |
| NtInstance.NetworkTableInstance.PublishInitialValues | src/nt/ntinstance.cpp:1720-1733 | the loop over the announced topics sends the missing values |
| NtInstance.NetworkTableInstance.PublishTopicAs | src/nt/ntinstance.cpp:1575-1640 | topic, announcements, meta-topics and their refresh |
| NtInstance.NetworkTableInstance.ClientConnected | src/nt/ntinstance.cpp:583-597 | takes the connecting step, after which NtLists.RunMirrored and NtLists.StepLists hold |
| NtInstance.NetworkTableInstance.ClientDisconnected | src/nt/ntinstance.cpp:606-619 | takes the disconnecting step, after which they hold, too |
| NtInstance.NetworkTableInstance.OnSubscribe | src/nt/ntinstance.cpp:731-755 | takes the subscribing step |
| NtInstance.NetworkTableInstance.OnUnsubscribe | src/nt/ntinstance.cpp:850-869 | takes the unsubscribing step |
| NtInstance.NetworkTableInstance.OnPublish | src/nt/ntinstance.cpp:811-832 | takes the publishing step |
| NtInstance.NetworkTableInstance.OnUnpublish | src/nt/ntinstance.cpp:887-894 | takes the unpublishing step |
| NtInstance.NetworkTableInstance.OnSetProperties | src/nt/ntinstance.cpp:944-957 | takes the property step |
| NtInstance.NetworkTableInstance.OnEndOfText | src/nt/ntinstance.cpp:971-976 | takes the step at the end of a text frame |
| NtInstance.NetworkTableInstance.OnValue | src/nt/ntinstance.cpp:1048-1068 | takes the step of one record |
| NtInstance.NetworkTableInstance.LocallyPublish | src/nt/ntinstance.cpp:2043-2076 | takes the local publishing step |
| NtInstance.NetworkTableInstance.LocallySubscribe | src/nt/ntinstance.cpp:1982-2005 | takes the local subscribing step |
| NtInstance.NetworkTableInstance.LocallyUnsubscribe | src/nt/ntinstance.cpp:2016-2031 | takes the local unsubscribing step |
| NtInstance.NetworkTableInstance.LocallyUnpublish | src/nt/ntinstance.cpp:2089-2104 | takes the local unpublishing step |
| NtInstance.NetworkTableInstance.LocallySetProperties | src/nt/ntinstance.cpp:2116-2133 | takes the local property step |
| NtInstance.NetworkTableInstance.LocallyUpdate | src/nt/ntinstance.cpp:2146-2165 | takes the local update step |
| NtHandleFrame.HandleTextFrame | src/nt/ntinstance.cpp:649-978 | a text frame is the steps of its messages and the closing step, each allowed in its state |
| NtHandleFrame.HandleBinaryFrame | src/nt/ntinstance.cpp:979-1082 | a binary frame is one value step for each record that it decodes to, in order, each allowed in its state |
| NtHandleFrame.TextCausesItsSteps | src/nt/ntinstance.cpp:649-978 | a frame of written messages causes exactly the steps they stand for, whatever unset variables hold, if and only if no message but the last ends in a null |
| NtHandleFrame.RunsGoOn | src/nt/ntinstance.cpp:621-627 | the steps of a frame continue a run, so what holds of runs holds after frames |

## Left out

- Sockets, lwIP, UDP, tasks, semaphores, allocation and timeouts: reads return whole fields, writes and allocations succeed, and the mutex is always taken.
- Floating-point numbers from 2^63 on, infinite ones and those that are not numbers: packing them is undefined, so nothing is claimed about their bytes.
- Line reading in `src/textstream.cpp`, and the handshake, accept loop and dispatch queue of `src/wsserver.cpp`.
- NetworkTables client mode, the entry, publisher, subscriber and topic wrappers, `unannounce` messages (never sent by a handler).
- The server's own announced topics and all user callbacks: callbacks are taken to return true and not to call back.
- RTT requests (id -1) in the server state: the answer bypasses the caches and changes nothing, so it is modelled only as bytes.
- The bytes of the meta-topics: they are abstract functions of the names, subscriptions and publishers they are packed from.
- `ClientData`, `Topic`, `Subscription` and `Publisher` are values in maps, so sharing of pointers between them is not modelled.
- Client numbers, topic ids and the times are unbounded integers; the overflow of a 64-bit counter is not modelled.
- NtFrames.PackRecord: does not cover a number for which packing is undefined.
- MsgPackCodec.Packer.PackInt64: does not cover the least 64-bit integer, for which `llabs` is undefined.
- MsgPackCodec.Packer.PackArray: does not cover elements for which packing an integer or a floating-point number is undefined.
- MsgPackCodec.Packer.PackFloat: covers numbers below 2^63, because the conversion of others to an integer is undefined.
- NtFrames.PackRttReply: does not cover an answer with a number for which packing is undefined.
- NtRecords.FrameRoundTrip: covers records that the format does not change; NtArrivals.UpdatesArriveIff shows that this is exact.
- NtArrivals.UpdatesArriveIff: for arrays of more than two fragments only the sufficient half, because other bytes may read as the same elements: any byte that is no boolean reads as false.
- NtGains.RunGains: is about topics whose names do not start with `$`; of the meta-topics NtInterest.FanOutIff, NtFreshness.LatestValue and NtLists.StepLists speak.
- Json.ValueReadIff: the reader is one of compact JSON with whole numbers and without escapes, which is all that the server writes.
- NtTheorems.AnnounceComesFirst: orders the queue and not the frames on the wire; NtWire.BinaryKeepsOrderIff says when those are in order, too.
- JsonLosses.FrameReadIff: covers strings without quotation marks, because escapes are not read by the code at all, and messages written with their fields in one order, although the reader takes any.
- JsonUnpacker.Unpacker.UnpackInt: a number too large for 32 bits leaves an undetermined result, given as Nothing; as the value of `periodic` it is modelled as 0.
- NtLists.RunMirrored: covers runs in which the program itself publishes no name that starts with `$`, because it could then write such a topic.
- NtServer.Sound: restricts runs to local publishing with types of the interface; the internal type of unassigned values is not published.
- Field layout of DHCP packets and options, and the replies' other fields.

# A verified model of the XRootD monitoring shoveler

The repository collects XRootD monitoring packets, correlates logins, opens and
closes into transfer records, and ships messages through queues to a broker.
This project models its stateful core in Dafny and proves what that core is
meant to guarantee, over all inputs and all runs.

How the files hang together:

- `BigEndian`, `Text`, `Numbers`: byte layouts, string cutting, decimal numbers
  and the two ways the program reads them.
- `Records`, `FStream`, `FStreamWire`, `FStreamOffsets`: the f-stream walker, as a
  cursor over bytes that equals a function on the unread bytes; its inverse, an
  encoder; and every type code, flag and byte position as a number.
- `UserInfoText`, `KeyValue`, `SettingTexts`, `Packets`, `PacketWire`, `Datagrams`,
  `WireTransfer`, `Sessions`, `SessionExample`: the two user-info parsers, the `&key=value` parsers,
  datagrams of every kind as they are sent, read and refused, and the way from
  datagrams to the record of a transfer or of a whole session.
- `Keys`, `StateMap`: the string keys, built step by step in a buffer, and the
  expiring maps.
- `CorrelatorModel`, `Correlator`: every handler as the writes and records that
  follow from what it reads; and the class with four maps and user objects
  changed through references, each of whose methods equals that model.
- `PacketEffects`: what each packet leaves in the maps, entry by entry.
- `ServerIsolation`, `IsolationLimits`, `CloseMatching`, `UserHistory`,
  `Attribution`: theorems over whole runs. The handlers are generic in the key
  type, so the program's string-keyed machine and an ideal machine for a single
  server with typed keys run the same handlers, and the first is proved to refine
  the second. `IsolationLimits` says exactly between which servers that holds.
- `History`, `CloseRecords`: a second account of the correlator that knows no maps,
  and reads off the list of a server's packets, backwards, what they say of an id,
  a file, a user or the server. The program's maps and records are
  proved to be exactly what it says, in any traffic, and from it follows, case by
  case, who and what each record is about.
- `ConfirmationQueue`, `WorkQueue`, `EnrichmentWorkers`, `DropWarnings`: the
  memory/disk queue, the paged queue, its workers as interleaved steps, and the
  warnings about dropped records.
- `PublishPipeline`, `AckConsumer`: delivery to the broker, and the batched
  acknowledgements of messages that come from one.

The mutex-protected classes are modelled as classes whose methods are proved
equal to a function of the old state; the lemmas are about those functions.
Where goroutines interleave, the model is a set of atomic steps and the lemmas
speak of every run of enabled steps.

## Where the code and its documentation part

- The comment on f-stream packets says the leading time record is skipped; it is
  skipped by its own size, but a time record met later is always read as 28
  bytes. `FStreamWire.LaterTimeOfDay` says exactly when that is right, and
  `Packets.PacketLosesRecords` that a 24-byte one at the end of a packet costs the
  packet all its records.
- Close statistics and the user id of an open are guarded by the bytes left in the
  packet, not in the record. `FStreamWire.NeighboursDoNotShow` gives exactly the
  records that are read from their own bytes alone.
- A nameless open is meant to be named by a dictionary packet. Its path is never
  used: `Attribution.PathFallback` gives the name for every dictionary text.
- A `T` packet is meant to add a token to a user. One without a readable user
  dictionary id is handled as a login. `PacketWire.TokenPacketWipes` and
  `WireTransfer.TokenWipesInTraffic` follow such a datagram until the user's
  authorization, application and codes are gone; `UserHistory.TokenPacketKeeps` and
  `UserHistory.TokenPacketInTraffic` say exactly when a `T` packet leaves them
  alone.
- User keys keep the low 32 bits of pid and sid; `Keys.UserInfosSharingAKey` says
  exactly which user infos share a key.
- A remote address that goes on from another with `-userinfo` can share that
  server's user keys. `Keys.ServersSharingAKey` gives exactly the pairs of servers
  this happens to, over the user infos that come out of the two parsers, and
  `IsolationLimits.IsolationExactly` that these pairs, and only these, get into each
  other's records. The other theorems over runs ask only that no sender is such a
  partner of the server they speak of; `Keys.UntaggedIsApart` is a simple guard for
  that.
- The consumer forgets its count when an acknowledgement sent ahead of a rejection
  fails. While rejections get through no failed or unread message is ever
  acknowledged (`AckConsumer.AcksAreSafe`), but processed messages can stay
  unacknowledged even after a clean stop: `AckConsumer.LostAckIsForgotten` is such
  a run, and `AckConsumer.StopLeavesOpen` says exactly which messages it happens to.
  `AckConsumer.WrongAcks` says exactly which failed messages are acknowledged when
  rejections are lost.

## Model

| member | source | states |
|---|---|---|
| BigEndian.NumberOfBytes | parser/xrootd_parser.go:49-107 | writing a number in a big-endian field and reading it back is the identity on the field's range |
| BigEndian.SignedOfUnsigned | parser/xrootd_parser.go:835-892 | the two's-complement conversion of a field undoes the encoding of exactly the signed numbers that fit it |
| BigEndian.FieldsOfPack | parser/xrootd_parser.go:49-107 | a packed struct is read back field by field, whatever bytes follow it |
| FStream.TrimNuls | parser/xrootd_parser.go:937-940 | the file name loses exactly its trailing NUL bytes |
| FStream.Reader.Read | parser/xrootd_parser.go:792-838 | a struct read advances by the struct's size, and a short one uses up what is left |
| FStream.ReadClose | parser/xrootd_parser.go:854-899 | the close case yields the record of the specification and leaves the cursor at the record's declared end |
| FStream.ReadOpen | parser/xrootd_parser.go:901-952 | the same for the open case, with the optional user id and the rest of the record as name |
| FStream.ReadRecord | parser/xrootd_parser.go:807-975 | one turn of the loop: stop, fail or advance by at least 8 bytes, as the unread bytes alone decide |
| FStream.SkipTimeOfDay | parser/xrootd_parser.go:778-803 | a leading time record is skipped by its own size, anything else is left in place |
| FStream.ParseFileRecords | parser/xrootd_parser.go:772-978 | the cursor loop computes the recursive reading of the unread bytes, without ever reading outside them |
| FStreamWire.EncodedTime | parser/xrootd_parser.go:835-852 | a 28-byte time record in front of any bytes is read back whole |
| FStreamWire.EncodedClose | parser/xrootd_parser.go:854-899 | a close, with or without operation statistics, is read back whole |
| FStreamWire.EncodedOpen | parser/xrootd_parser.go:901-952 | an open, with or without a user id, is read back without the padding of its name |
| FStreamWire.EncodedOther | parser/xrootd_parser.go:954-975 | a disconnect is read back; a record of unknown type is stepped over |
| FStreamWire.RoundTrip | parser/xrootd_parser.go:772-978 | an encoded body, with or without a leading time record, is read back as exactly its records of known type, in order |
| FStreamWire.Truncation | parser/xrootd_parser.go:807-826 | cut at any byte, a body yields without error exactly the records lying wholly before the cut |
| FStreamWire.WhollyBeforeIsFront | parser/xrootd_parser.go:807-826 | these are the first so many records, and their bytes end before the cut |
| FStreamWire.RecordBound | parser/xrootd_parser.go:807-978 | on every byte string, eight times the number of records is at most the number of bytes |
| FStreamWire.LaterTimeOfDay | parser/xrootd_parser.go:835-852 | a time record inside the loop is stepped over correctly if and only if it is 28 bytes long, fails the packet if and only if fewer than 28 bytes are left, and ends the walk if it claims more than 16384 |
| FStreamWire.TrailingTimeOfDay | parser/xrootd_parser.go:835-852 | a 24-byte time record behind any well-formed body makes the walker fail |
| FStreamWire.NeighboursDoNotShow | parser/xrootd_parser.go:854-952 | a record is read the same whatever follows it if and only if it is long enough for what its type and flags announce |
| FStreamOffsets.TimeAt | parser/xrootd_parser.go:29-38 | a record of type 2 is a time record: each field in the bytes it is read from, 28 in all |
| FStreamOffsets.CloseAt | parser/xrootd_parser.go:854-899 | a record of type 0 is a close: three signed 8-byte counters from byte 8 on, and statistics from byte 32 on if flag bit 1 is set and 80 bytes are left |
| FStreamOffsets.OpsAreBytes | parser/xrootd_parser.go:870-895 | the twelve statistics, each in its bytes |
| FStreamOffsets.OpenAt | parser/xrootd_parser.go:901-952 | a record of type 1 is an open: size from byte 8 on, with flag bit 0 a user id from byte 16 on, and the rest as name |
| FStreamOffsets.OthersAt | parser/xrootd_parser.go:954-975 | type 4 is a disconnect whose id is the user's, other types are stepped over, and a size under 8, over 16384 or over what is left stops the walk |
| FStreamOffsets.LeadAt | parser/xrootd_parser.go:778-803 | only a leading record of type 2 is skipped, by the size in its bytes 2 and 3 |
| Numbers.AtoiRoundTrip | collector/correlator.go:646-653 | the error-ignoring integer reader reads back every printed int64 |
| Numbers.ScanIntRoundTrip | parser/xrootd_parser.go:450-501 | so does the scanning one |
| Numbers.ScanUint32RoundTrip | parser/xrootd_parser.go:603-646 | and the unsigned one every printed uint32 |
| Numbers.AtoiOf | collector/correlator.go:646-653 | of any text: the number if it is a sign and digits, cut off at the ends of int64; 0 for anything else unless digits over 64 bits come first |
| Numbers.ScanIntOf | parser/xrootd_parser.go:485-492 | of any text: blanks are skipped, then a sign and digits are the number if it is an int64, whatever follows |
| Numbers.ScanUint32Of | parser/xrootd_parser.go:603-646 | the same without a sign, up to 4294967295 |
| Numbers.ParseUint32Of | collector/correlator.go:583-615 | a number is read if and only if the text is digits only and at most 4294967295 |
| Text.HexRoundTrip | collector/key_builder.go:159-166 | a number in hexadecimal spells itself in the digits 0-9 and a-f, without leading zeros |
| UserInfoText.CollectorRoundTrip | collector/correlator.go:619-663 | the collector's parser reads back a printed user info if and only if no '@' or '/' is in the protocol, no '@' or '.' in the username, no '/' in the username without a protocol, and pid and sid are int64 |
| UserInfoText.ParserRoundTrip | parser/xrootd_parser.go:450-501 | the packet parser reads back a printed user info if and only if no '/' is in the protocol, no ':' in the username, no '@' in the host, no '/' in either without a protocol, and pid and sid are int64 |
| UserInfoText.ParsersAgree | collector/correlator.go:619-663 | on everything both can print the two parsers return the same, the original |
| UserInfoText.CollectorOf | collector/correlator.go:619-663 | where the collector's parser cuts any text: host behind the first '@', protocol in front of the first '/' before it, username in front of the first '.'; a missing protocol is none |
| UserInfoText.NumbersOf | collector/correlator.go:646-653 | whose pid and sid are what stands in front of and behind the first ':' |
| UserInfoText.CollectorRefuses | collector/correlator.go:619-645 | it refuses exactly the texts without '@' or without '.' in the login |
| UserInfoText.PacketOf | parser/xrootd_parser.go:450-501 | where the packet parser cuts any text, and when it refuses pid or sid |
| UserInfoText.PacketRefuses | parser/xrootd_parser.go:450-501 | it refuses what has no ':' in front of the last '@', or no '.' in front of that |
| UserInfoText.PacketMadeExactly | parser/xrootd_parser.go:450-501 | the user infos the packet parser makes of a line: exactly those with no '/' in the protocol, ':' in the username, '@' in the host or line break, and int64 pid and sid |
| UserInfoText.CollectorMadeExactly | collector/correlator.go:619-663 | those the collector's parser makes: exactly those with no '/' or '@' in the protocol, '@' or '.' in the username or line break, and int64 pid and sid |
| UserInfoText.ParsedInfosAreClean | collector/correlator.go:619-663 | whatever either parser makes of a line has a key the injectivity lemmas apply to |
| KeyValue.Bytesplit | parser/xrootd_parser.go:708-721 | the loop returns the parts between separators, without an empty one at the end |
| KeyValue.JoinParts | parser/xrootd_parser.go:708-721 | joining the parts restores the input but for one trailing separator |
| KeyValue.ParseAuthInfo | parser/xrootd_parser.go:505-552 | each field is the last non-empty setting of its key |
| KeyValue.AuthRoundTrip | parser/xrootd_parser.go:505-552 | a printed authorization is read back if and only if no value holds '&'; '=' in values and empty values are fine |
| KeyValue.ParseTokenInfo | parser/xrootd_parser.go:603-646 | the same for tokens, with the last readable user dictionary id |
| KeyValue.TokenRoundTrip | parser/xrootd_parser.go:603-646 | a printed token is read back if and only if no value holds '&' and the id fits 32 bits |
| KeyValue.ParseServerInfo | parser/xrootd_parser.go:650-687 | the same for server identification |
| KeyValue.ServerRoundTrip | parser/xrootd_parser.go:650-687 | a printed server identification is read back if and only if no value holds '&' |
| KeyValue.ParseEAInfo | collector/correlator.go:583-615 | the id is the last readable one, and each code the number in the last setting of its key, 0 for one that is no number |
| KeyValue.EARoundTrip | collector/correlator.go:583-615 | printed codes are read back if and only if they are in range |
| SettingTexts.AuthText | parser/xrootd_parser.go:505-552 | the text of an authorization, key by key: p, n, h, o, r, g, m, x, y and I |
| SettingTexts.TokenText | parser/xrootd_parser.go:603-646 | of a token: Uc, s, n, o, r and g |
| SettingTexts.ServerText | parser/xrootd_parser.go:650-687 | of a server identification: site, port, inst, pgm and ver |
| SettingTexts.CodesText | collector/correlator.go:583-615 | of codes: Uc, Ec and Ac |
| SettingTexts.LastOneWins | parser/xrootd_parser.go:505-552 | in any text of settings, in any order and with repeated keys, the last setting of a key that sets anything counts |
| SettingTexts.AbsentIsEmpty | parser/xrootd_parser.go:505-552 | and without one the value is empty |
| SettingTexts.FieldsByKey | parser/xrootd_parser.go:505-687 | which key sets which field of an authorization, a token and a server identification, in any such text |
| SettingTexts.CodesByKey | collector/correlator.go:583-615 | the same for codes |
| Packets.ParsePacket | parser/xrootd_parser.go:257-393 | every byte string is refused or becomes the packet of the specification, by header length, type code and, for g-stream packets, their header and lines |
| Packets.ParsedIsShaped | parser/xrootd_parser.go:257-393 | every parsed packet carries only user infos the key theorems apply to |
| Packets.OwnDatagrams | collector/correlator.go:319-390 | a server's events are those of the datagrams with its address and start time in the header |
| Packets.DatagramIsolation | collector/correlator.go:319-390 | isolation from raw datagrams on: streams that agree on a server's datagrams agree on its records, whatever bytes others send |
| Packets.DatagramsAlone | collector/correlator.go:319-390 | in particular with the stream of its datagrams alone |
| Packets.PacketRecords | parser/xrootd_parser.go:772-978 | a packet with a well-formed f-stream body hands the correlator exactly its known records |
| Packets.PacketRecordBound | parser/xrootd_parser.go:772-978 | a packet of n bytes has at most (n - 8) / 8 records |
| Packets.PacketLosesRecords | parser/xrootd_parser.go:331-343 | a packet that ends with a 24-byte time record hands over none of its records |
| Datagrams.WrongLength | parser/xrootd_parser.go:257-293 | a datagram that is cut or extended against the length in its bytes 2 and 3 is refused |
| Datagrams.XmlRead | parser/xrootd_parser.go:257-275 | one that starts with '<' is passed by without a header |
| Datagrams.UnknownKind | parser/xrootd_parser.go:295-393 | a type code that is none of XRootD's is refused |
| Datagrams.PassedBy | parser/xrootd_parser.go:377-393 | types t, x, p and r are accepted and are no event |
| Datagrams.GStreamRead | parser/xrootd_parser.go:726-768 | a g-stream packet is accepted if and only if it has 24 bytes and lines that are all JSON |
| Datagrams.MappingRead | parser/xrootd_parser.go:396-410 | a d, i or U packet of 12 bytes keeps its own kind, with its id in bytes 8 to 11 and its text behind |
| Datagrams.ServerRead | parser/xrootd_parser.go:296-320 | an = packet is a server identification if and only if it has a second line, else one more dictionary packet |
| Datagrams.NoUserInfo | parser/xrootd_parser.go:413-445 | a login or token whose first line is no user info is refused |
| Datagrams.MappingPacket | parser/xrootd_parser.go:357-376 | an encoded d, i or U datagram is parsed into exactly its kind, id and text |
| Datagrams.ServerPacket | parser/xrootd_parser.go:650-687 | an encoded server identification is parsed into exactly its settings |
| Datagrams.PlainServerPacket | parser/xrootd_parser.go:296-320 | without a second line into a dictionary packet |
| Datagrams.RecordsInOrder | collector/correlator.go:349-390 | an encoded f-stream datagram is one event for each of its known records, in order |
| PacketWire.LoginPacket | parser/xrootd_parser.go:413-445 | an encoded login datagram is parsed into exactly the record it was made of |
| PacketWire.TokenPacket | parser/xrootd_parser.go:557-600 | so is an encoded token datagram |
| PacketWire.TokenPacketWipes | collector/correlator.go:886-944 | a token datagram without a user id replaces the user it is about: no authorization, application or codes are left |
| PacketWire.SubjectOnly | collector/correlator.go:925-943 | one such datagram, character by character |
| WireTransfer.StreamPacketRead | parser/xrootd_parser.go:331-343 | an encoded f-stream datagram is parsed into exactly its known records |
| WireTransfer.TransferOverTheWire | collector/correlator.go:319-390 | a login, an open and a close, each in a datagram of its own, among any datagrams of servers that cannot share a key with this one and any cleanups: exactly one record, with every modelled field of it |
| WireTransfer.TokenWipesInTraffic | collector/correlator.go:886-944 | in such a stream, after a token datagram without a user id the program's user map holds the token and nothing else of the user |
| Sessions.SessionOverTheWire | collector/correlator.go:319-390 | a server identification, a login, an application, codes, a token, an open and a close, each in a datagram of its own, among any others and any cleanups: exactly one record, with the site, the user, and every word sent of that user and the file |
| SessionExample.WholeSession | collector/correlator.go:319-390 | one such session spelled out, with its texts character by character: it can be sent |
| Sessions.PathOverTheWire | collector/correlator.go:976-1038 | a path datagram, an open under no user id and the close: exactly one record, of the user the path came with |
| Sessions.CloseOverTheWire | collector/correlator.go:1371-1383 | a close datagram alone: exactly one record, with the start of its server, user 0, and everything else unknown |
| Keys.BuildDictKey | collector/key_builder.go:77-86 | the buffer ends up as the key the injectivity lemmas are about |
| Keys.BuildDictIDKey | collector/key_builder.go:89-98 | likewise |
| Keys.BuildFileKey | collector/key_builder.go:101-110 | likewise |
| Keys.BuildTimeKey | collector/key_builder.go:113-124 | likewise, with a signed stream id |
| Keys.BuildUserInfoKey | collector/key_builder.go:127-144 | likewise, with pid and sid cut to 32 bits |
| Keys.BuildServerID | collector/key_builder.go:147-156 | likewise |
| Keys.ServerIdInjective | collector/key_builder.go:147-156 | equal server ids mean equal start times and addresses |
| Keys.DictKeysInjective | collector/key_builder.go:77-98 | equal path or dictionary keys mean equal servers, kinds and ids, for every server string |
| Keys.FileKeysInjective | collector/key_builder.go:101-124 | equal file or time keys mean equal servers, kinds, file ids and stream ids, negative ones included |
| Keys.SharedIsContinued | collector/key_builder.go:127-144 | a parsed user's key shared with a longer server id means that id goes on from the other in one of four ways |
| Keys.ContinuedIsShared | collector/key_builder.go:127-144 | and for each of them there are parsed users whose key the two share |
| Keys.ServersSharingAKey | collector/key_builder.go:127-144 | so two servers can share a user key if and only if one id goes on from the other that way |
| Keys.ApartAddresses | collector/key_builder.go:147-156 | of server ids with the same start time, only the addresses matter for that |
| Keys.UntaggedIsApart | collector/key_builder.go:127-156 | addresses in which "-userinfo" is never followed by '-' or the end are never such a pair |
| Keys.UserKeysInjective | collector/key_builder.go:127-144 | user keys of parsed user infos are injective for servers that are not such a pair |
| Keys.UserInfosSharingAKey | collector/key_builder.go:127-144 | two user infos share a key if and only if server, protocol, username and host agree and pid and sid agree modulo 2^32 |
| Keys.TaggedAddressCollides | collector/key_builder.go:127-156 | two given servers and users that share a key |
| Keys.RenderInjective | collector/key_builder.go:77-156 | within each map, equal keys mean equal servers and equal typed keys |
| StateMaps.StateMap.Set | collector/state.go:42-61 | stores with a fresh expiry, unless the map is full and the key new |
| StateMaps.StateMap.Get | collector/state.go:64-79 | the stored value unless absent or expired |
| StateMaps.StateMap.Delete | collector/state.go:82-86 | removes the key and nothing else |
| StateMaps.StateMap.Cleanup | collector/state.go:112-127 | the loop removes exactly the expired entries and counts them |
| StateMaps.StateMap.GetAll | collector/state.go:136-150 | the loop collects exactly the keys a Get would answer, each with its answer |
| StateMaps.AnswersAsIdeal | collector/state.go:42-150 | over any run without a limit, lookups and snapshots answer from the last Set or Delete and the clock alone, whatever cleanups interleave |
| StateMaps.LimitHolds | collector/state.go:42-79 | over any run with a limit the map never outgrows it, and the next Get answers a Set with its value if and only if the key was present or there was room; a refused Set changes nothing |
| Correlators.Correlator.constructor | collector/correlator.go:216-283 | four empty maps with one configuration |
| Correlators.Correlator.GetServerID | collector/correlator.go:445-447 | the id of the packet's sender, without touching a map |
| Correlators.Correlator.UpdateUser | collector/correlator.go:496-503 | a change through the shared user object and the renewed expiry together are one store of the changed user |
| Correlators.Correlator.HandlePath | collector/correlator.go:471-485 | a 'd' packet writes what the model writes |
| Correlators.Correlator.HandleApp | collector/correlator.go:487-515 | an 'i' packet updates or creates the user |
| Correlators.Correlator.HandleCodes | collector/correlator.go:516-571 | a 'U' packet updates or creates the user its id stands for, or else the one it names |
| Correlators.Correlator.HandleDictIDRecord | collector/correlator.go:452-573 | all three, and the raw text when the first line is no user info |
| Correlators.Correlator.HandleUserRecord | collector/correlator.go:886-944 | a login replaces the user; a token is added to a known user |
| Correlators.Correlator.HandleDisconnect | collector/correlator.go:948-972 | the dictionary and user entries go, file entries stay |
| Correlators.Correlator.HandleServerInfo | collector/correlator.go:875-880 | the server's entry is renewed |
| Correlators.Correlator.HandleFileOpen | collector/correlator.go:789-823 | the file state of the open, named by the record or by raw dictionary text |
| Correlators.Correlator.HandleFileClose | collector/correlator.go:826-853 | exactly one record, from the open or standalone, and the open is dropped |
| Correlators.Correlator.HandleTimeRecord | collector/correlator.go:856-870 | a file state under the time key |
| Correlators.Correlator.GetUserInfo | collector/correlator.go:976-1038 | the user by id, or else through the path mapping of the file, without changing any map |
| Correlators.Correlator.CreateCorrelatedRecord | collector/correlator.go:1123-1383 | the record's identity, file and counter fields |
| Correlators.Correlator.ProcessPacket | collector/correlator.go:319-390 | a packet's effect and records are those of its jobs, run in order |
| Correlators.Correlator.Cleanup | collector/state.go:112-127 | one janitor turn on any of the maps, the user objects included |
| PacketEffects.PathTables | collector/correlator.go:471-485 | a 'd' packet makes its id stand for the user, with a path or without, and a path is kept for its file id beside it |
| PacketEffects.RawTables | collector/correlator.go:452-470 | any dictionary packet whose first line is no user info is kept as text for its file id |
| PacketEffects.AppTables | collector/correlator.go:487-515 | an 'i' packet makes its id stand for the user and sets the application of that user, live or new |
| PacketEffects.NewCodesTables | collector/correlator.go:516-571 | codes of an id that stands for nobody make it stand for the user named, who gets them |
| PacketEffects.CodesTables | collector/correlator.go:516-571 | codes of an id that stands for a user go to that user, whoever is named |
| PacketEffects.IgnoredTables | collector/correlator.go:452-573 | and nothing is kept of the other dictionary packets |
| PacketEffects.TokenTables | collector/correlator.go:886-923 | a token of an id that stands for a live user changes nothing but that user's token |
| PacketEffects.LostToken | collector/correlator.go:886-923 | any other token with a user id changes nothing |
| PacketEffects.TimeTables | collector/correlator.go:856-870 | a time record is kept, field by field, under a key of its own |
| PacketEffects.DisconnectTables | collector/correlator.go:948-972 | a disconnect forgets the id and the user it stands for, and nothing else |
| ServerIsolation.KeysApart | collector/key_builder.go:77-156 | servers that are not such a pair share no key in any of the maps |
| ServerIsolation.SameOutcome | collector/correlator.go:319-390 | the string-keyed machine and the typed one make the same writes and records for the server at hand |
| ServerIsolation.OtherEvent | collector/correlator.go:319-390 | a packet of another server, or a cleanup, leaves a server's view as it was |
| ServerIsolation.RecordsNameTheirServer | collector/correlator.go:1123-1383 | every record bears the id of the server whose packet caused it |
| ServerIsolation.RunRefines | collector/correlator.go:319-390 | over any run with any cleanups, a server's records are those of its own typed machine fed its own packets |
| ServerIsolation.TablesRefine | collector/state.go:42-150 | and what the maps hold for it at the end is what that machine holds |
| ServerIsolation.Isolation | collector/correlator.go:319-390 | two runs that agree on a server's packets agree on its records |
| ServerIsolation.AsIfAlone | collector/correlator.go:319-390 | in particular with the run of that server's packets alone, without cleanups |
| IsolationLimits.IsolationExactly | collector/correlator.go:319-390 | a server's records are its own whatever another one sends, in every run of the two and any cleanups, if and only if no users that the parsers can make share a key between the two |
| IsolationLimits.Counterexample | collector/correlator.go:452-573 | for every pair of which some do, a run of packets that the parsers accept, in which the other server's login or application packet shows in this one's record |
| CloseMatching.CloseStep | collector/correlator.go:826-853 | a close emits one record named by the history of opens and closes, and ends that file's open |
| CloseMatching.RunMatches | collector/correlator.go:789-870 | over a run, the names and sizes are those the history of opens and closes determines |
| CloseMatching.ClosesAreMatched | collector/correlator.go:349-390 | in any interleaving, each close of a server carries the name and size of the latest unexpired open since the file's last close, or "unknown" |
| CloseMatching.OnePerClose | collector/correlator.go:349-390 | as many records as closes |
| CloseMatching.NoOpenTwice | collector/correlator.go:826-853 | no open is matched with two closes |
| UserHistory.LoginStep | collector/correlator.go:925-943 | a login leaves exactly its own data under the user's key |
| UserHistory.JobStep | collector/correlator.go:452-972 | what any packet does to a live user's entry is the one effect it has on it, with a renewed expiry, or nothing |
| UserHistory.LastWriterPerField | collector/correlator.go:487-571 | without login or disconnect, and with no gap longer than the time to live, each field of a user is the last word said on it and its expiry that of the last effect |
| UserHistory.SinceLogin | collector/correlator.go:886-944 | in any interleaving with other servers and cleanups, the program's map holds the login's authorization, the last application, the last token and the last codes |
| UserHistory.TokenPacketKeeps | collector/correlator.go:882-944 | a token packet leaves a live user's authorization, application and codes alone if and only if it names a user id, is about another user, or there are none |
| UserHistory.TokenPacketInTraffic | collector/correlator.go:882-944 | the same of the program's user map, in any interleaving with other servers and cleanups |
| UserHistory.AlwaysOwnKeyed | collector/correlator.go:452-972 | after any run, with any limit, every entry of the program's user map sits under the key that its own user info has for a server that sent a packet |
| Attribution.TransferIsAttributed | collector/correlator.go:789-1383 | a login, an open under its id and the close give exactly one record, with that identity, the last words on the user since, the open's name and size and the close's counters, among any other packets that do not rewrite those entries |
| Attribution.PlainTransfer | collector/correlator.go:789-1383 | with nothing in between, that holds for every login, open and close within the time to live |
| Attribution.TransferInTraffic | collector/correlator.go:319-390 | the same record is among those of the whole program's run, in any interleaving with other servers and cleanups |
| Attribution.PathFallback | collector/correlator.go:471-485 | what a nameless open is named after a dictionary packet for its file id, for every text and any packets in between: the whole text if its first line is no user info, nothing if a path follows, and as before if none does |
| Attribution.OpenInTraffic | collector/correlator.go:789-823 | what the program's file map holds for an open, in any interleaving with other servers and cleanups |
| Attribution.PathFallbackInTraffic | collector/correlator.go:795-802 | so the same of the name it holds there |
| History.DictsSaid | collector/correlator.go:452-972 | over any run, ids and paths in the dictionary are what the packets, read backwards without any map, last said of them |
| History.UsersSaid | collector/correlator.go:452-972 | so are users, known or not, whatever packets created, changed or dropped them |
| History.FileIsSaid | collector/correlator.go:789-870 | and files and streams |
| History.ServersSaid | collector/correlator.go:875-880 | and the server |
| History.CloseIsDue | collector/correlator.go:826-1383 | so the record of a close is the one that history is due |
| CloseRecords.RecordsAreDue | collector/correlator.go:319-390 | in any interleaving with other servers and cleanups, the program's records for a server are exactly those, one for each close, in order |
| CloseRecords.RecordIsDue | collector/correlator.go:319-390 | in particular the record of each close, told by the number of closes before it |
| CloseRecords.MapsAsSaid | collector/correlator.go:319-390 | and the program's maps hold exactly what the server's packets say, of every file, stream, id, path and user and of the server |
| CloseRecords.IdInTraffic | collector/correlator.go:452-573 | in any traffic, an id stands in the program's dictionary for whom the last path, application or login named, or the first codes |
| CloseRecords.NeverNamed | collector/correlator.go:976-996 | an id that no packet names stands for nobody |
| CloseRecords.UserByDictionary | collector/correlator.go:976-1038 | in any traffic, a close under such an id is that user's: name, host and protocol, and all that is known of the user |
| CloseRecords.UserByPath | collector/correlator.go:997-1012 | in any traffic, a close under no user id or an unknown one is that of the user its file's path came with |
| CloseRecords.UserUnknown | collector/correlator.go:1145-1165 | with neither, user is the user id in hexadecimal as a signed 32-bit number, and nothing else is known |
| CloseRecords.UserHexSpells | collector/key_builder.go:159-166 | that name spells the id, with a minus sign from 2^31 on |
| CloseRecords.NoLoginKnown | collector/correlator.go:1014-1030 | without a login, an application or codes nothing but the name is known of a user |
| CloseRecords.OpenedClose | collector/correlator.go:789-853 | in any traffic, the close of an open has the start time, name and size of the open and its own time and counters |
| CloseRecords.StandaloneClose | collector/correlator.go:1371-1383 | a close without an unexpired open has one record too: the start of its server, name unknown, size 0, its own counters, and the user of its own user id |
| CloseRecords.NotOpenSaid | collector/correlator.go:826-853 | that is so exactly if the last open or close of the file is a close or an expired open, or there is none |
| CloseRecords.LatestSaid | collector/correlator.go:826-853 | which is when the history of opens and closes has no latest open |
| CloseRecords.SiteOfServer | collector/correlator.go:1295-1301 | in any traffic, a record's site is that of the server's last identification while it lives and names one, and UNKNOWN otherwise |
| CloseRecords.SiteUnknown | collector/correlator.go:1295-1301 | and UNKNOWN without an identification |
| ConfirmationQueues.ConfirmationQueue.constructor | queue.go:130-156 | opens on the disk tier if it holds anything |
| ConfirmationQueues.ConfirmationQueue.Size | queue.go:158-166 | the number of waiting messages |
| ConfirmationQueues.ConfirmationQueue.EnqueueToExchange | queue.go:193-227 | the new tiers, with the spill loop, and the number of messages moved |
| ConfirmationQueues.ConfirmationQueue.DequeueLocked | queue.go:230-260 | the message and the new tiers, with the reload loop, and the number of messages moved; empty exactly when both tiers are |
| ConfirmationQueues.PutAppends | queue.go:193-227 | an arrival joins the end of the one FIFO, spill or not, and keeps at most one tier in use and at most 99 messages in memory |
| ConfirmationQueues.TakePops | queue.go:230-260 | a delivery takes its head, reload or not |
| ConfirmationQueues.SavingsOfPut | queue.go:193-227 | a spill is paid for by what the hysteresis saved, plus two moves |
| ConfirmationQueues.SavingsOfTake | queue.go:230-260 | a reload is, plus one move |
| ConfirmationQueues.FirstInFirstOut | queue.go:193-278 | over any run, what it was opened with and what arrived is what was delivered and what is waiting, in order |
| ConfirmationQueues.TierTraffic | queue.go:193-260 | messages moved between the tiers never exceed twice the arrivals plus the deliveries plus 99 for each opening |
| ConfirmationQueues.ConfirmationQueue.Close | queue.go:281-285 | what is on disk stays there |
| ConfirmationQueues.Reopen | queue.go:130-156 | a queue opened over what a closed one left holds all of it in disk mode and nothing otherwise |
| ConfirmationQueues.RestartLoses | queue.go:281-285 | over any run, a clean close and reopening keeps the disk tier and loses the memory tier, at most 99 messages, none in disk mode |
| ConfirmationQueues.RunKeeps | queue.go:130-285 | over runs with restarts, every message is delivered, waiting or among those lost, exactly once |
| ConfirmationQueues.SpillsAtAHundred | queue.go:193-227 | from an empty queue, k arrivals without a delivery are in disk mode if and only if k is at least 100 |
| ConfirmationQueues.ReloadsBelowFifty | queue.go:230-260 | from a queue opened over n messages, k deliveries leave the rest waiting, still on disk if and only if they are at least 50, so that the first delivery leaves disk mode if and only if n is at most 50; with the messages moved |
| WorkQueue.EnrichmentWorkQueue.EnqueueLocked | collector/enrichment.go:80-92 | the pages after an append, with a new page clipped to the remaining capacity |
| WorkQueue.EnrichmentWorkQueue.Enqueue | collector/enrichment.go:97-115 | accepted if and only if open and below capacity; refused without a trace otherwise |
| WorkQueue.EnrichmentWorkQueue.Dequeue | collector/enrichment.go:119-149 | the first request of the first page, and the shrunken or dropped page; done if and only if closed and empty |
| WorkQueue.EnrichmentWorkQueue.Close | collector/enrichment.go:152-160 | closed, nothing else changed |
| WorkQueue.OfferAppends | collector/enrichment.go:80-115 | an accepted request joins the end of the line; size, full pages and the bound on allocated slots are kept |
| WorkQueue.PopTakesHead | collector/enrichment.go:119-149 | a dequeue takes the head of the line and keeps the same |
| WorkQueue.RunRefines | collector/enrichment.go:70-160 | over every run the paged queue gives the answers of a plain bounded FIFO |
| WorkQueue.FreshRefines | collector/enrichment.go:70-78 | from a new queue on, those of an empty one with its capacity, 1000000 unless configured |
| WorkQueue.PagesFill | collector/enrichment.go:50-92 | a new queue's n requests lie in pages of 4096, the last one clipped to the capacity |
| EnrichmentWorkers.StepKeeps | collector/enrichment.go:97-160 | every step of producers, workers and Close keeps the invariant |
| EnrichmentWorkers.NoLostWakeup | collector/enrichment.go:97-160 | in every reachable state a parked worker means no more requests than woken workers and an open queue; exited workers left a closed, empty queue; accepted is handed out plus waiting, in order |
| EnrichmentWorkers.NeverStuck | collector/enrichment.go:119-149 | while a request waits some worker can move |
| EnrichmentWorkers.DrainStep | collector/enrichment.go:227-237 | after Close each worker step brings the drain exactly one step nearer its end |
| EnrichmentWorkers.Drain | collector/enrichment.go:227-237 | so over any run the worker steps taken and those left add up |
| EnrichmentWorkers.FullDrain | collector/enrichment.go:152-160 | none is left if and only if no worker can move, and then all have exited and every accepted request went to exactly one worker |
| DropWarnings.IsPowerOfTen | collector/enrichment.go:411-422 | true if and only if the number is 10^k for some k |
| DropWarnings.WarningsAreLogarithmic | collector/enrichment.go:192-201 | n drops reach the warning exactly floor(log10 n) + 1 times |
| DropWarnings.Enricher.EnqueueForEnrichment | collector/enrichment.go:178-202 | counts exactly the drops of a full open queue, and has warned floor(log10 n) + 1 times |
| AckConsumer.RabbitMQReader.OnMessage | input/rabbitmq_input.go:303-341 | one message read: ack what came before and nack, or count and ack by the hundred |
| AckConsumer.RabbitMQReader.Consume | input/rabbitmq_input.go:249-342 | the loop over pushes, reads, ticks, a stop or a closed channel computes the session the lemmas are about, and fails if and only if the channel closes first |
| AckConsumer.FateOfEveryMessage | input/rabbitmq_input.go:266-342 | whatever acks and nacks are lost: a message that was read is nacked exactly if it failed and its nack got through, and otherwise acked exactly if an ack for its tag or a later one got through; an unread one is left alone |
| AckConsumer.AckedExactlyWhenProcessed | input/rabbitmq_input.go:266-342 | while acks and nacks get through, the last unackedCount messages read, at most 99, are processed and open, every other one read is acked or nacked as it succeeded or failed, and unread ones are open |
| AckConsumer.AcksByTheHundred | input/rabbitmq_input.go:328-340 | after n successful reads with every ack sent and no tick or failure, unackedCount is n % 100, and exactly the tags up to n - n % 100 are acked |
| AckConsumer.StopSettlesAll | input/rabbitmq_input.go:277-285 | stopping then leaves nothing that was read open |
| AckConsumer.StopLeavesOpen | input/rabbitmq_input.go:303-322 | in general, after a stop whose own ack gets through, a processed message is open if and only if a later failure lost the ack ahead of its nack, with something to ack, no success after it and no ack that got through between |
| AckConsumer.LostAckIsForgotten | input/rabbitmq_input.go:310-316 | a run with every nack and the stop's ack sent in which a processed message stays open |
| AckConsumer.SettledForGood | input/rabbitmq_input.go:266-342 | no event changes a settled tag |
| AckConsumer.WrongAcks | input/rabbitmq_input.go:303-341 | a failed message is acked if and only if its nack was lost and an ack for a later tag got through |
| AckConsumer.AcksAreSafe | input/rabbitmq_input.go:303-341 | while nacks get through, every acked message was read and processed, however many acks fail |
| AckConsumer.LostNackIsAcked | input/rabbitmq_input.go:318-322 | a run in which a lost nack gets a failed message acked |
| PublishPipeline.StepKeeps | amqp.go:176-200 | every step of the queue, the feeder, the channel and the workers keeps the pipeline invariant |
| PublishPipeline.ChannelHoldsAThousand | amqp.go:50 | the channel never holds more than 1000 messages |
| PublishPipeline.ChannelFills | amqp.go:176-200 | and without a worker's step it takes 1000 |
| PublishPipeline.OneWorkerPublishesInOrder | amqp.go:252-307 | with one worker, published, held, in the channel, with the feeder and queued make up the arrivals in order, whatever pushes fail |
| PublishPipeline.NothingLostOrDoubled | amqp.go:252-307 | with any number of workers each message is in those places as often as it arrived |
| PublishPipeline.StepsForward | amqp.go:176-200 | every step but an arrival or a failed push brings the end one step nearer |
| PublishPipeline.NeverStuck | amqp.go:176-307 | while a message is inside, some step forward is possible |
| PublishPipeline.AllPublished | amqp.go:176-307 | with nothing inside, everything that arrived has been published, in order with one worker |

## Left out

- Correlators.Correlator.CreateCorrelatedRecord: computed fields (averages, directory names, the split of a DN, virtual organisation, user domain, SciTags names, address family) are not in a record; they are functions of the fields that are.
- Correlators.Correlator.constructor: the enrichment queue, the DNS cache and the routing configuration are not part of the class; the queue is a module of its own.
- DNS: lookups, their cache and the flags that ask for them; the isolation theorems are for DNS enrichment off.
- Entry limits: the map and class contracts cover any `max_entries`; isolation, close matching, user history and the second account are for the default, no limit, because a shared limit couples servers.
- Time: one packet is handled at one instant; the program reads the clock at each map operation. Times are integers of any unit.
- Servers' port and host extraction, which only feeds counters and computed fields.
- The "invalid state type" error of a close: each map holds one type here, so the branch cannot be written; no handler stores another type.
- Packets.ParsePacket: whether a line of a g-stream packet is blank or decodes as JSON is a parameter, and its events are not read; they never reach the handlers.
- IsolationLimits.IsolationExactly: packets have no greatest length here, and user infos any characters; a packet of the program is at most 65535 bytes long, which addresses of that length would exceed.
- Packets.Parsed: code, sequence number and raw data of a packet are dropped where the correlator does not look at them.
- Numbers.ScanInt: Unicode blanks and newlines in front of a number are not skipped; printed numbers have none.
- Locks: each method of a mutex-protected class is one atomic step; the janitor's turn is an event that may come anywhere.
- WorkQueue: pages are values with a count of free slots, so the shared backing array under a shrunken page is not modelled, nor is clearing a taken slot.
- WorkQueue.EnrichmentWorkQueue.Dequeue: the method starts past the wait; waiting, Signal and Broadcast are steps of EnrichmentWorkers.
- ConfirmationQueues: the disk queue is a persistent FIFO without I/O errors; segment quarantine, crashes and the blocking wait (a delivery from an empty queue is a step that cannot be taken) are not modelled.
- PublishPipeline: runs without cancellation; the program drops the message in hand when a worker is cancelled. Sessions, reconnects and token renewal are a push that succeeds or fails.
- AckConsumer.RabbitMQReader.Consume: a message is a success flag for decoding and forwarding it; a message taken while stopping counts as a success, as in the program. The broker may push any number of messages ahead, not just the prefetch count of 1000. A lost connection's redeliveries are not modelled.
- DropWarnings: the drop counter is unbounded rather than 64 bits wide.
- Prometheus counters, logging, configuration, XML summaries, the drop filter and the WLCG form of a record.

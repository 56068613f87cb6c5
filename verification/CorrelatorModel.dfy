// The correlator as a state machine. Every handler first reads the four state
// maps and then writes them, so it is given here as the writes and records
// that follow from what it reads. The keys are a parameter: the program's maps
// are keyed by rendered strings, the ideal per-server maps by the typed keys
// themselves, and both are driven by the same handlers.
module CorrelatorModel {
  import opened BigEndian
  import opened Records
  import opened Text
  import opened Numbers
  import opened UserInfoText
  import opened KeyValue
  import opened Keys
  import opened StateMaps

  // ---- What the maps hold

  datatype FileState = FileState(fileId: nat, userId: nat, openTime: int, fileSize: int, filename: string,
                                 serverId: string, streamId: int, createdAt: int)

  datatype UserState = UserState(userId: nat, userInfo: UserInfo, authInfo: AuthInfo, tokenInfo: TokenInfo,
                                 appInfo: string, experimentId: int, activityId: int, createdAt: int)

  // The three things the dictionary map stores.
  datatype DictValue =
    | RawText(text: string)
    | PathInfo(path: string, userInfo: UserInfo)
    | KnownUser(userInfo: UserInfo)

  datatype Tables<!K> = Tables(files: Table<K, FileState>, users: Table<K, UserState>,
                               dicts: Table<K, DictValue>, servers: Table<K, ServerInfo>)

  // ---- What comes in and what goes out

  // The sender of a packet: server start time and remote address.
  datatype Origin = Origin(serverStart: int, remoteAddr: string)

  function IdOf(o: Origin): string
  {
    ServerId(o.serverStart, o.remoteAddr)
  }

  // One handler call.
  datatype Job =
    | ServerJob(info: ServerInfo)
    | MappingJob(packetType: char, dictId: nat, text: string)
    | UserJob(user: UserRecord)
    | FileJob(file: FileRecord)

  // What ProcessPacket calls, in order.
  function Jobs(body: Body): seq<Job>
  {
    match body
    case Xml => []
    case Server(info) => [ServerJob(info)]
    case Mapping(packetType, dictId, text) => [MappingJob(packetType, dictId, text)]
    case User(rec) => [UserJob(rec)]
    case Files(records) => seq(|records|, i requires 0 <= i < |records| => FileJob(records[i]))
  }

  // A collector record, without the fields that are computed from these alone.
  datatype Record = Record(timestamp: int, startTime: int, serverId: string, remoteAddr: string, site: string,
                           user: string, host: string, protocol: string, authInfo: AuthInfo, tokenInfo: TokenInfo,
                           appInfo: string, experimentId: int, activityId: int,
                           filename: string, fileSize: int, xfr: StatXFR, ops: StatOPS)

  datatype Write =
    | PutFile(key: LocalKey, file: FileState)
    | DropFile(key: LocalKey)
    | PutUser(key: LocalKey, user: UserState)
    | DropUser(key: LocalKey)
    | PutDict(key: LocalKey, value: DictValue)
    | DropDict(key: LocalKey)
    | PutServer(info: ServerInfo)

  datatype Outcome = Outcome(writes: seq<Write>, records: seq<Record>)

  // How keys are made, how long entries live, and what the clock shows.
  datatype Setting<!K> = Setting(key: (string, LocalKey) -> K, ttl: nat, maxEntries: int, now: int)

  // ---- Reading

  function FileAt<K>(c: Setting<K>, t: Tables<K>, server: string, k: LocalKey): Option<FileState>
  {
    Lookup(t.files, c.key(server, k), c.now)
  }

  function UserAt<K>(c: Setting<K>, t: Tables<K>, server: string, k: LocalKey): Option<UserState>
  {
    Lookup(t.users, c.key(server, k), c.now)
  }

  function DictAt<K>(c: Setting<K>, t: Tables<K>, server: string, k: LocalKey): Option<DictValue>
  {
    Lookup(t.dicts, c.key(server, k), c.now)
  }

  function ServerAt<K>(c: Setting<K>, t: Tables<K>, server: string): Option<ServerInfo>
  {
    Lookup(t.servers, c.key(server, ServerKey), c.now)
  }

  // ---- handleDictIDRecord

  function NewUser(userId: nat, info: UserInfo, now: int): UserState
  {
    UserState(userId, info, NO_AUTH, NO_TOKEN, "", 0, 0, now)
  }

  // The user state under an info's key, or a new one.
  function UserOr<K>(c: Setting<K>, t: Tables<K>, server: string, info: UserInfo, userId: nat): UserState
  {
    var found := UserAt(c, t, server, UserKeyOf(info));
    if found.Some? then found.value else NewUser(userId, info, c.now)
  }

  function PathWrites(dictId: nat, info: UserInfo, rest: Option<string>): seq<Write>
  {
    (if rest.Some? then [PutDict(PathKey(dictId), PathInfo(rest.value, info))] else []) +
    [PutDict(DictIdKey(dictId), KnownUser(info))]
  }

  function AppWrites<K>(c: Setting<K>, t: Tables<K>, server: string, dictId: nat, info: UserInfo, app: string)
    : seq<Write>
  {
    [PutDict(DictIdKey(dictId), KnownUser(info)),
     PutUser(UserKeyOf(info), UserOr(c, t, server, info, dictId).(appInfo := app))]
  }

  function CodeWrites<K>(c: Setting<K>, t: Tables<K>, server: string, info: UserInfo, codes: EAInfo): seq<Write>
  {
    var known := DictAt(c, t, server, DictIdKey(codes.udid));
    if codes.udid == 0 || (known.Some? && !known.value.KnownUser?) then []
    else
      var user := if known.Some? then known.value.userInfo else info;
      var state :=
        UserOr(c, t, server, user, codes.udid).(experimentId := codes.experimentId, activityId := codes.activityId);
      (if known.None? then [PutDict(DictIdKey(codes.udid), KnownUser(info))] else []) +
      [PutUser(UserKeyOf(user), state)]
  }

  function RestOf(text: string): Option<string>
  {
    if '\n' in text then Some(After(text, '\n')) else None
  }

  // Once the user info is known.
  function InfoWrites<K>(c: Setting<K>, t: Tables<K>, server: string, packetType: char, dictId: nat, info: UserInfo,
                         rest: Option<string>): seq<Write>
  {
    if packetType == 'd' then PathWrites(dictId, info, rest)
    else if packetType == 'i' && rest.Some? then AppWrites(c, t, server, dictId, info, rest.value)
    else if packetType == 'U' && rest.Some? then CodeWrites(c, t, server, info, EAOf(Split(rest.value, '&')))
    else []
  }

  function MappingWrites<K>(c: Setting<K>, t: Tables<K>, server: string, packetType: char, dictId: nat, text: string)
    : seq<Write>
  {
    match CollectorUserInfo(Before(text, '\n'))
    case Err => [PutDict(PathKey(dictId), RawText(text))]
    case Ok(info) => InfoWrites(c, t, server, packetType, dictId, info, RestOf(text))
  }

  // ---- handleUserRecord

  function TokenWrites<K>(c: Setting<K>, t: Tables<K>, server: string, token: TokenInfo): seq<Write>
  {
    match DictAt(c, t, server, DictIdKey(token.userDictId))
    case Some(KnownUser(info)) =>
      (match UserAt(c, t, server, UserKeyOf(info))
       case Some(user) => [PutUser(UserKeyOf(info), user.(tokenInfo := token))]
       case None => [])
    case _ => []
  }

  function UserWrites<K>(c: Setting<K>, t: Tables<K>, server: string, rec: UserRecord): seq<Write>
  {
    if rec.tokenInfo.userDictId != 0 then TokenWrites(c, t, server, rec.tokenInfo)
    else
      [PutDict(DictIdKey(rec.dictId), KnownUser(rec.userInfo)),
       PutUser(UserKeyOf(rec.userInfo),
               UserState(rec.dictId, rec.userInfo, rec.authInfo, rec.tokenInfo, "", 0, 0, c.now))]
  }

  // ---- File records

  function AsText(bytes: seq<byte>): string
  {
    seq(|bytes|, i requires 0 <= i < |bytes| => bytes[i] as char)
  }

  // The name in the record, or else the raw text stored for its file id.
  function OpenName<K>(c: Setting<K>, t: Tables<K>, server: string, rec: FileRecord): string
    requires rec.OpenRecord?
  {
    if rec.lfn != [] || rec.header.fileId == 0 then AsText(rec.lfn)
    else
      match DictAt(c, t, server, PathKey(rec.header.fileId))
      case Some(RawText(text)) => text
      case _ => ""
  }

  function OpenState<K>(c: Setting<K>, t: Tables<K>, o: Origin, rec: FileRecord): FileState
    requires rec.OpenRecord?
  {
    var userId := if rec.header.userId != 0 then rec.header.userId else rec.user;
    FileState(rec.header.fileId, userId, o.serverStart, rec.fileSize, OpenName(c, t, IdOf(o), rec), IdOf(o), 0, c.now)
  }

  function TimeState(c: Setting, o: Origin, rec: FileRecord): FileState
    requires rec.TimeRecord?
  {
    FileState(rec.header.fileId, rec.header.userId, rec.tBeg, 0, "", IdOf(o), rec.sid, c.now)
  }

  // getUserInfo: by user id, or else through the path mapping of the file id.
  function InfoFor<K>(c: Setting<K>, t: Tables<K>, server: string, userId: nat, fileId: nat): Option<UserInfo>
  {
    var byUser := if userId != 0 then DictAt(c, t, server, DictIdKey(userId)) else None;
    if byUser.Some? && byUser.value.KnownUser? then Some(byUser.value.userInfo)
    else if fileId == 0 then None
    else
      match DictAt(c, t, server, PathKey(fileId))
      case Some(PathInfo(_, info)) => Some(info)
      case _ => None
  }

  function UserFor<K>(c: Setting<K>, t: Tables<K>, server: string, userId: nat, fileId: nat): Option<UserState>
  {
    match InfoFor(c, t, server, userId, fileId)
    case None => None
    case Some(info) =>
      match UserAt(c, t, server, UserKeyOf(info))
      case Some(user) => Some(user)
      case None => Some(NewUser(0, info, 0))
  }

  function SiteFor<K>(c: Setting<K>, t: Tables<K>, server: string): string
  {
    match ServerAt(c, t, server)
    case Some(info) => if info.site != "" then info.site else "UNKNOWN"
    case None => "UNKNOWN"
  }

  // int32(userID) in hexadecimal, for users nothing is known about.
  function UserHex(userId: nat): string
  {
    var low := userId % TWO_TO_THE_32;
    SignedHex(if low < 0x8000_0000 then low else low - TWO_TO_THE_32)
  }

  // createCorrelatedRecord: users and sites are looked up under the server id
  // kept in the file state.
  function RecordFor<K>(c: Setting<K>, t: Tables<K>, o: Origin, file: FileState, close: FileRecord): Record
    requires close.CloseRecord?
  {
    var site := SiteFor(c, t, file.serverId);
    match UserFor(c, t, file.serverId, file.userId, file.fileId)
    case None =>
      Record(c.now, file.openTime, IdOf(o), o.remoteAddr, site, UserHex(file.userId), "unknown", "unknown",
             NO_AUTH, NO_TOKEN, "", 0, 0, file.filename, file.fileSize, close.xfr, close.ops)
    case Some(u) =>
      Record(c.now, file.openTime, IdOf(o), o.remoteAddr, site, u.userInfo.username, u.userInfo.host,
             u.userInfo.protocol, u.authInfo, u.tokenInfo.(userDictId := 0), u.appInfo, u.experimentId, u.activityId,
             file.filename, file.fileSize, close.xfr, close.ops)
  }

  // What a close without a known open is taken to close.
  function UnknownFile(o: Origin, close: FileRecord): FileState
  {
    FileState(close.header.fileId, close.header.userId, o.serverStart, 0, "unknown", IdOf(o), 0, 0)
  }

  function FileOutcome<K>(c: Setting<K>, t: Tables<K>, o: Origin, rec: FileRecord): Outcome
  {
    var key := FileKey(rec.header.fileId);
    match rec
    case OpenRecord(_, _, _, _) => Outcome([PutFile(key, OpenState(c, t, o, rec))], [])
    case CloseRecord(_, _, _) =>
      (match FileAt(c, t, IdOf(o), key)
       case None => Outcome([], [RecordFor(c, t, o, UnknownFile(o, rec), rec)])
       case Some(file) => Outcome([DropFile(key)], [RecordFor(c, t, o, file, rec)]))
    case TimeRecord(_, _, _, sid) => Outcome([PutFile(TimeKey(rec.header.fileId, sid), TimeState(c, o, rec))], [])
    case DisconnectRecord(_, userId) =>
      match DictAt(c, t, IdOf(o), DictIdKey(userId))
      case Some(KnownUser(info)) => Outcome([DropDict(DictIdKey(userId)), DropUser(UserKeyOf(info))], [])
      case _ => Outcome([], [])
  }

  // ---- One job

  function JobOutcome<K>(c: Setting<K>, t: Tables<K>, o: Origin, job: Job): Outcome
  {
    match job
    case ServerJob(info) => Outcome([PutServer(info)], [])
    case MappingJob(packetType, dictId, text) => Outcome(MappingWrites(c, t, IdOf(o), packetType, dictId, text), [])
    case UserJob(user) => Outcome(UserWrites(c, t, IdOf(o), user), [])
    case FileJob(file) => FileOutcome(c, t, o, file)
  }

  function Written<K(==)>(c: Setting<K>, t: Tables<K>, server: string, w: Write): Tables<K>
  {
    match w
    case PutFile(k, f) => t.(files := Store(t.files, c.key(server, k), f, c.now, c.ttl, c.maxEntries))
    case DropFile(k) => t.(files := Remove(t.files, c.key(server, k)))
    case PutUser(k, u) => t.(users := Store(t.users, c.key(server, k), u, c.now, c.ttl, c.maxEntries))
    case DropUser(k) => t.(users := Remove(t.users, c.key(server, k)))
    case PutDict(k, v) => t.(dicts := Store(t.dicts, c.key(server, k), v, c.now, c.ttl, c.maxEntries))
    case DropDict(k) => t.(dicts := Remove(t.dicts, c.key(server, k)))
    case PutServer(info) => t.(servers := Store(t.servers, c.key(server, ServerKey), info, c.now, c.ttl, c.maxEntries))
  }

  function AllWritten<K(==)>(c: Setting<K>, t: Tables<K>, server: string, ws: seq<Write>): Tables<K>
    decreases |ws|
  {
    if ws == [] then t else AllWritten(c, Written(c, t, server, ws[0]), server, ws[1..])
  }

  lemma OneWrite<K>(c: Setting<K>, t: Tables<K>, server: string, w: Write)
    ensures AllWritten(c, t, server, []) == t
    ensures AllWritten(c, t, server, [w]) == Written(c, t, server, w)
  {
    assert [w][1..] == [];
    hide Written;
  }

  lemma TwoWrites<K>(c: Setting<K>, t: Tables<K>, server: string, w: Write, w': Write)
    ensures AllWritten(c, t, server, [w, w']) == Written(c, Written(c, t, server, w), server, w')
  {
    assert [w, w'][1..] == [w'];
    OneWrite(c, Written(c, t, server, w), server, w');
    hide Written;
  }

  function AfterJob<K(==)>(c: Setting<K>, t: Tables<K>, o: Origin, job: Job): Tables<K>
  {
    AllWritten(c, t, IdOf(o), JobOutcome(c, t, o, job).writes)
  }

  // What each job comes to.
  lemma ServerAfter<K>(c: Setting<K>, t: Tables<K>, o: Origin, info: ServerInfo)
    ensures AfterJob(c, t, o, ServerJob(info)) == Written(c, t, IdOf(o), PutServer(info))
  {
    OneWrite(c, t, IdOf(o), PutServer(info));
    hide AllWritten, Written, IdOf;
  }

  lemma OpenAfter<K>(c: Setting<K>, t: Tables<K>, o: Origin, rec: FileRecord)
    requires rec.OpenRecord?
    ensures AfterJob(c, t, o, FileJob(rec)) ==
            Written(c, t, IdOf(o), PutFile(FileKey(rec.header.fileId), OpenState(c, t, o, rec)))
  {
    OneWrite(c, t, IdOf(o), PutFile(FileKey(rec.header.fileId), OpenState(c, t, o, rec)));
    hide AllWritten, Written, IdOf, OpenState;
  }

  lemma TimeAfter<K>(c: Setting<K>, t: Tables<K>, o: Origin, rec: FileRecord)
    requires rec.TimeRecord?
    ensures AfterJob(c, t, o, FileJob(rec)) ==
            Written(c, t, IdOf(o), PutFile(TimeKey(rec.header.fileId, rec.sid), TimeState(c, o, rec)))
  {
    OneWrite(c, t, IdOf(o), PutFile(TimeKey(rec.header.fileId, rec.sid), TimeState(c, o, rec)));
    hide AllWritten, Written, IdOf, TimeState;
  }

  lemma CloseAfter<K>(c: Setting<K>, t: Tables<K>, o: Origin, rec: FileRecord)
    requires rec.CloseRecord?
    ensures var file, k := FileAt(c, t, IdOf(o), FileKey(rec.header.fileId)), FileKey(rec.header.fileId);
            && AfterJob(c, t, o, FileJob(rec)) == (if file.Some? then Written(c, t, IdOf(o), DropFile(k)) else t)
            && JobOutcome(c, t, o, FileJob(rec)).records ==
               [RecordFor(c, t, o, if file.Some? then file.value else UnknownFile(o, rec), rec)]
  {
    OneWrite(c, t, IdOf(o), DropFile(FileKey(rec.header.fileId)));
    hide AllWritten, Written, IdOf, RecordFor, UnknownFile, FileAt;
  }

  lemma DisconnectAfter<K>(c: Setting<K>, t: Tables<K>, o: Origin, rec: FileRecord)
    requires rec.DisconnectRecord?
    ensures var known, s := DictAt(c, t, IdOf(o), DictIdKey(rec.userId)), IdOf(o);
            AfterJob(c, t, o, FileJob(rec)) ==
            if known.Some? && known.value.KnownUser? then
              Written(c, Written(c, t, s, DropDict(DictIdKey(rec.userId))), s,
                      DropUser(UserKeyOf(known.value.userInfo)))
            else t
  {
    var known := DictAt(c, t, IdOf(o), DictIdKey(rec.userId));
    hide AllWritten, Written, IdOf, UserKeyOf, DictAt;
    var first := DropDict(DictIdKey(rec.userId));
    OneWrite(c, t, IdOf(o), first);
    if known.Some? && known.value.KnownUser? {
      TwoWrites(c, t, IdOf(o), first, DropUser(UserKeyOf(known.value.userInfo)));
    }
  }

  lemma LoginAfter<K>(c: Setting<K>, t: Tables<K>, o: Origin, rec: UserRecord)
    requires rec.tokenInfo.userDictId == 0
    ensures var u := UserState(rec.dictId, rec.userInfo, rec.authInfo, rec.tokenInfo, "", 0, 0, c.now);
            AfterJob(c, t, o, UserJob(rec)) ==
            Written(c, Written(c, t, IdOf(o), PutDict(DictIdKey(rec.dictId), KnownUser(rec.userInfo))), IdOf(o),
                    PutUser(UserKeyOf(rec.userInfo), u))
  {
    var u := UserState(rec.dictId, rec.userInfo, rec.authInfo, rec.tokenInfo, "", 0, 0, c.now);
    hide AllWritten, Written, IdOf, UserKeyOf;
    TwoWrites(c, t, IdOf(o), PutDict(DictIdKey(rec.dictId), KnownUser(rec.userInfo)),
              PutUser(UserKeyOf(rec.userInfo), u));
  }

  // ---- Runs: handler calls and cleanups of any map at any time

  datatype MapName = FileMap | UserMap | DictMap | ServerMap

  datatype Event = Handle(origin: Origin, job: Job, at: int) | Cleanup(which: MapName, at: int)

  function SweptTables<K>(t: Tables<K>, which: MapName, now: int): Tables<K>
  {
    match which
    case FileMap => t.(files := Swept(t.files, now))
    case UserMap => t.(users := Swept(t.users, now))
    case DictMap => t.(dicts := Swept(t.dicts, now))
    case ServerMap => t.(servers := Swept(t.servers, now))
  }

  // The configuration of a run; the clock is each event's own.
  datatype Machine<!K> = Machine(key: (string, LocalKey) -> K, ttl: nat, maxEntries: int)

  function At<K>(m: Machine<K>, now: int): Setting<K>
  {
    Setting(m.key, m.ttl, m.maxEntries, now)
  }

  function Step<K(==)>(m: Machine<K>, t: Tables<K>, e: Event): Tables<K>
  {
    match e
    case Handle(o, job, at) => AfterJob(At(m, at), t, o, job)
    case Cleanup(which, at) => SweptTables(t, which, at)
  }

  function Emitted<K>(m: Machine<K>, t: Tables<K>, e: Event): seq<Record>
  {
    match e
    case Handle(o, job, at) => JobOutcome(At(m, at), t, o, job).records
    case Cleanup(_, _) => []
  }

  function RunTables<K(==)>(m: Machine<K>, t: Tables<K>, events: seq<Event>): Tables<K>
    decreases |events|
  {
    if events == [] then t else RunTables(m, Step(m, t, events[0]), events[1..])
  }

  // The records of a run, each with the origin it was emitted for.
  function RunRecords<K(==)>(m: Machine<K>, t: Tables<K>, events: seq<Event>): seq<Record>
    decreases |events|
  {
    if events == [] then []
    else Emitted(m, t, events[0]) + RunRecords(m, Step(m, t, events[0]), events[1..])
  }

  // What a login and an open leave in unlimited maps.
  lemma LoginTables<K>(m: Machine<K>, t: Tables<K>, o: Origin, rec: UserRecord, at: int)
    requires rec.tokenInfo.userDictId == 0 && m.maxEntries == 0
    ensures var e, s := Handle(o, UserJob(rec), at), IdOf(o);
            var u := UserState(rec.dictId, rec.userInfo, rec.authInfo, rec.tokenInfo, "", 0, 0, at);
            Step(m, t, e) ==
            t.(dicts := t.dicts[m.key(s, DictIdKey(rec.dictId)) := Entry(KnownUser(rec.userInfo), at + m.ttl)],
               users := t.users[m.key(s, UserKeyOf(rec.userInfo)) := Entry(u, at + m.ttl)])
    ensures Emitted(m, t, Handle(o, UserJob(rec), at)) == []
  {
    var ws := UserWrites(At(m, at), t, IdOf(o), rec);
    TwoWrites(At(m, at), t, IdOf(o), ws[0], ws[1]);
    hide AllWritten, UserKeyOf, IdOf;
  }

  lemma OpenTables<K>(m: Machine<K>, t: Tables<K>, o: Origin, rec: FileRecord, at: int)
    requires rec.OpenRecord? && m.maxEntries == 0
    ensures var e, k := Handle(o, FileJob(rec), at), m.key(IdOf(o), FileKey(rec.header.fileId));
            && Step(m, t, e) == t.(files := t.files[k := Entry(OpenState(At(m, at), t, o, rec), at + m.ttl)])
            && Emitted(m, t, e) == []
  {
    var c := At(m, at);
    OneWrite(c, t, IdOf(o), PutFile(FileKey(rec.header.fileId), OpenState(c, t, o, rec)));
    hide AllWritten, OpenState, IdOf;
  }

  // A packet, processed at one instant.
  function PacketEvents(p: Packet, now: int): seq<Event>
  {
    var jobs := Jobs(p.body);
    seq(|jobs|, i requires 0 <= i < |jobs| => Handle(Origin(p.serverStart, p.remoteAddr), jobs[i], now))
  }

  function Empty<K>(): Tables<K>
  {
    Tables(map[], map[], map[], map[])
  }

  // The program's machine, and the ideal one for a single server.
  function StringMachine(ttl: nat, maxEntries: int): Machine<string>
  {
    Machine((server, k) => Render(server, k), ttl, maxEntries)
  }

  function TypedMachine(ttl: nat): Machine<LocalKey>
  {
    Machine((server, k) => k, ttl, 0)
  }
}

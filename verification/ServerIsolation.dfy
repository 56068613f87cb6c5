// The string-keyed maps refine typed maps of each server on its own: with no
// entry limit, what is emitted for a server depends on its own packets alone.
module ServerIsolation {
  import opened Records
  import opened Text
  import opened UserInfoText
  import opened KeyValue
  import opened Keys
  import opened StateMaps
  import opened CorrelatorModel

  // The keys a map is used with.
  predicate In(which: MapName, k: LocalKey)
  {
    match which
    case FileMap => InFileMap(k)
    case UserMap => k.UserKey? && Clean(k)
    case DictMap => InDictMap(k)
    case ServerMap => k.ServerKey?
  }

  // What the string-keyed map holds for one server is what the typed one holds.
  ghost predicate Sim<V(!new)>(m: Table<string, V>, server: string, t: Table<LocalKey, V>, which: MapName, now: int)
  {
    forall k :: In(which, k) ==> Live(m, Render(server, k), now) == Live(t, k, now)
  }

  lemma KeysApart(which: MapName, s: string, k: LocalKey, s': string, k': LocalKey)
    requires In(which, k) && In(which, k') && Apart(s, s')
    ensures Render(s, k) == Render(s', k') ==> s == s' && k == k'
  {
    if Render(s, k) == Render(s', k') {
      RenderInjective(s, k, s', k');
    }
  }

  lemma SimStore<V(!new)>(m: Table<string, V>, server: string, t: Table<LocalKey, V>, which: MapName, now: int,
                          k: LocalKey, v: V, ttl: nat)
    requires Sim(m, server, t, which, now) && In(which, k)
    ensures Sim(Store(m, Render(server, k), v, now, ttl, 0), server, Store(t, k, v, now, ttl, 0), which, now)
  {
    ApartFromItself(server);
    hide Render, Continues, In;
    forall k' | In(which, k') {
      KeysApart(which, server, k, server, k');
    }
  }

  lemma SimRemove<V(!new)>(m: Table<string, V>, server: string, t: Table<LocalKey, V>, which: MapName, now: int,
                           k: LocalKey)
    requires Sim(m, server, t, which, now) && In(which, k)
    ensures Sim(Remove(m, Render(server, k)), server, Remove(t, k), which, now)
  {
    ApartFromItself(server);
    hide Render, Continues, In;
    forall k' | In(which, k') {
      KeysApart(which, server, k, server, k');
    }
  }

  // Nothing another server writes shows.
  lemma SimOther<V(!new)>(m: Table<string, V>, server: string, t: Table<LocalKey, V>, which: MapName, now: int,
                          other: string, k: LocalKey, v: V, ttl: nat)
    requires Sim(m, server, t, which, now) && In(which, k) && Apart(other, server) && other != server
    ensures Sim(Store(m, Render(other, k), v, now, ttl, 0), server, t, which, now)
    ensures Sim(Remove(m, Render(other, k)), server, t, which, now)
  {
    hide Render, Continues, In;
    forall k' | In(which, k') {
      KeysApart(which, other, k, server, k');
    }
  }

  // Nor does a cleanup, or the passing of time.
  lemma SimLater<V(!new)>(m: Table<string, V>, server: string, t: Table<LocalKey, V>, which: MapName, now: int,
                   later: int)
    requires Sim(m, server, t, which, now) && now <= later
    ensures Sim(m, server, t, which, later) && Sim(Swept(m, later), server, t, which, later)
  {
    hide Render, In;
    forall k | In(which, k)
      ensures Live(m, Render(server, k), later) == Live(t, k, later)
      ensures Live(Swept(m, later), Render(server, k), later) == Live(t, k, later)
    {
      assert Live(m, Render(server, k), now) == Live(t, k, now);
    }
  }

  // ---- All four maps

  ghost predicate Refines(t: Tables<string>, server: string, i: Tables<LocalKey>, now: int)
  {
    && Sim(t.files, server, i.files, FileMap, now)
    && Sim(t.users, server, i.users, UserMap, now)
    && Sim(t.dicts, server, i.dicts, DictMap, now)
    && Sim(t.servers, server, i.servers, ServerMap, now)
  }

  predicate CleanValue(v: DictValue)
  {
    v.RawText? || Clean(UserKeyOf(v.userInfo))
  }

  // Stored user infos are parsed ones, and a file state lies under its own server.
  ghost predicate WellKept(t: Tables<string>)
  {
    && (forall key :: key in t.dicts ==> CleanValue(t.dicts[key].value))
    && (forall s: string, k: LocalKey ::
          InFileMap(k) && Render(s, k) in t.files ==> t.files[Render(s, k)].value.serverId == s)
  }

  predicate CleanWrite(w: Write, server: string)
  {
    match w
    case PutFile(k, f) => In(FileMap, k) && f.serverId == server
    case DropFile(k) => In(FileMap, k)
    case PutUser(k, _) => In(UserMap, k)
    case DropUser(k) => In(UserMap, k)
    case PutDict(k, v) => In(DictMap, k) && CleanValue(v)
    case DropDict(k) => In(DictMap, k)
    case PutServer(_) => true
  }

  predicate CleanWrites(ws: seq<Write>, server: string)
  {
    forall i :: 0 <= i < |ws| ==> CleanWrite(ws[i], server)
  }

  // User records come from the packet parser.
  predicate Shaped(job: Job)
  {
    job.UserJob? ==> PacketMade(job.user.userInfo)
  }

  function StringSetting(ttl: nat, now: int): Setting<string>
  {
    At(StringMachine(ttl, 0), now)
  }

  function TypedSetting(ttl: nat, now: int): Setting<LocalKey>
  {
    At(TypedMachine(ttl), now)
  }

  // ---- One write

  lemma WriteKeepsOwn(t: Tables<string>, server: string, i: Tables<LocalKey>, ttl: nat, now: int, w: Write)
    requires Refines(t, server, i, now) && CleanWrite(w, server)
    ensures Refines(Written(StringSetting(ttl, now), t, server, w), server,
                    Written(TypedSetting(ttl, now), i, server, w), now)
  {
    hide Sim, Store, Remove, Continues, Render;
    match w
    case PutFile(k, f) => SimStore(t.files, server, i.files, FileMap, now, k, f, ttl);
    case DropFile(k) => SimRemove(t.files, server, i.files, FileMap, now, k);
    case PutUser(k, u) => SimStore(t.users, server, i.users, UserMap, now, k, u, ttl);
    case DropUser(k) => SimRemove(t.users, server, i.users, UserMap, now, k);
    case PutDict(k, v) => SimStore(t.dicts, server, i.dicts, DictMap, now, k, v, ttl);
    case DropDict(k) => SimRemove(t.dicts, server, i.dicts, DictMap, now, k);
    case PutServer(info) => SimStore(t.servers, server, i.servers, ServerMap, now, ServerKey, info, ttl);
  }

  lemma WriteKeepsOthers(t: Tables<string>, server: string, i: Tables<LocalKey>, ttl: nat, now: int, w: Write,
                         other: string)
    requires Refines(t, server, i, now) && CleanWrite(w, other) && Apart(other, server) && other != server
    ensures Refines(Written(StringSetting(ttl, now), t, other, w), server, i, now)
  {
    hide Sim, Store, Remove, Continues, Render;
    match w
    case PutFile(k, f) => SimOther(t.files, server, i.files, FileMap, now, other, k, f, ttl);
    case DropFile(k) => SimOther(t.files, server, i.files, FileMap, now, other, k, UnknownState(), ttl);
    case PutUser(k, u) => SimOther(t.users, server, i.users, UserMap, now, other, k, u, ttl);
    case DropUser(k) => SimOther(t.users, server, i.users, UserMap, now, other, k, NewUser(0, NoInfo(), 0), ttl);
    case PutDict(k, v) => SimOther(t.dicts, server, i.dicts, DictMap, now, other, k, v, ttl);
    case DropDict(k) => SimOther(t.dicts, server, i.dicts, DictMap, now, other, k, RawText(""), ttl);
    case PutServer(info) => SimOther(t.servers, server, i.servers, ServerMap, now, other, ServerKey, info, ttl);
  }

  function UnknownState(): FileState { FileState(0, 0, 0, 0, "", "", 0, 0) }
  function NoInfo(): UserInfo { UserInfo("", "", 0, 0, "") }

  lemma WriteKeepsKept(t: Tables<string>, ttl: nat, now: int, w: Write, server: string)
    requires WellKept(t) && CleanWrite(w, server)
    ensures WellKept(Written(StringSetting(ttl, now), t, server, w))
  {
    hide Render, Clean, UserKeyOf;
    var t' := Written(StringSetting(ttl, now), t, server, w);
    if w.PutFile? {
      forall s: string, k: LocalKey | InFileMap(k) && Render(s, k) in t'.files
        ensures t'.files[Render(s, k)].value.serverId == s
      {
        if Render(s, k) == Render(server, w.key) {
          FileKeysInjective(s, k, server, w.key);
        }
      }
    }
  }

  // ---- A handler's writes

  lemma {:induction false} WritesKeepOwn(t: Tables<string>, server: string, i: Tables<LocalKey>, ttl: nat, now: int,
                                         ws: seq<Write>)
    requires Refines(t, server, i, now) && WellKept(t) && CleanWrites(ws, server)
    ensures var t' := AllWritten(StringSetting(ttl, now), t, server, ws);
            WellKept(t') && Refines(t', server, AllWritten(TypedSetting(ttl, now), i, server, ws), now)
    decreases |ws|
  {
    if ws != [] {
      assert CleanWrite(ws[0], server);
      WriteKeepsOwn(t, server, i, ttl, now, ws[0]);
      WriteKeepsKept(t, ttl, now, ws[0], server);
      hide Refines, WellKept, Written, Apart, CleanWrite;
      WritesKeepOwn(Written(StringSetting(ttl, now), t, server, ws[0]), server,
                    Written(TypedSetting(ttl, now), i, server, ws[0]), ttl, now, ws[1..]);
    }
  }

  lemma {:induction false} WritesKeepOthers(t: Tables<string>, server: string, i: Tables<LocalKey>, ttl: nat, now: int,
                                            ws: seq<Write>, other: string)
    requires Refines(t, server, i, now) && WellKept(t) && CleanWrites(ws, other)
    requires Apart(other, server) && other != server
    ensures var t' := AllWritten(StringSetting(ttl, now), t, other, ws);
            WellKept(t') && Refines(t', server, i, now)
    decreases |ws|
  {
    if ws != [] {
      assert CleanWrite(ws[0], other);
      WriteKeepsOthers(t, server, i, ttl, now, ws[0], other);
      WriteKeepsKept(t, ttl, now, ws[0], other);
      hide Refines, WellKept, Written, Apart, CleanWrite;
      WritesKeepOthers(Written(StringSetting(ttl, now), t, other, ws[0]), server, i, ttl, now, ws[1..], other);
    }
  }

  // ---- A handler only writes under clean keys of its own server

  lemma CleanDict(t: Tables<string>, server: string, ttl: nat, now: int, k: LocalKey)
    requires WellKept(t)
    ensures var v := DictAt(StringSetting(ttl, now), t, server, k);
            v.Some? ==> CleanValue(v.value)
  {
    hide Render, Clean, UserKeyOf;
  }

  lemma CleanInfo(t: Tables<string>, server: string, ttl: nat, now: int, packetType: char, dictId: nat, info: UserInfo,
                  rest: Option<string>)
    requires WellKept(t) && Clean(UserKeyOf(info))
    ensures CleanWrites(InfoWrites(StringSetting(ttl, now), t, server, packetType, dictId, info, rest), server)
  {
    if rest.Some? {
      CleanCodes(t, server, ttl, now, info, EAOf(Split(rest.value, '&')));
    }
    hide EAOf, Split, CodeWrites, WellKept, Clean, UserOr;
  }

  lemma CleanMapping(t: Tables<string>, server: string, ttl: nat, now: int, packetType: char, dictId: nat, text: string)
    requires WellKept(t)
    ensures CleanWrites(MappingWrites(StringSetting(ttl, now), t, server, packetType, dictId, text), server)
  {
    var info := CollectorUserInfo(Before(text, '\n'));
    CutFacts(text, '\n');
    ParsedInfosAreClean(Before(text, '\n'));
    if info.Ok? {
      CleanInfo(t, server, ttl, now, packetType, dictId, info.value, RestOf(text));
    }
    hide CollectorUserInfo, Before, RestOf, InfoWrites, WellKept, UserKeyOf;
  }

  lemma CleanCodes(t: Tables<string>, server: string, ttl: nat, now: int, info: UserInfo, codes: EAInfo)
    requires WellKept(t) && Clean(UserKeyOf(info))
    ensures CleanWrites(CodeWrites(StringSetting(ttl, now), t, server, info, codes), server)
  {
    CleanDict(t, server, ttl, now, DictIdKey(codes.udid));
    hide DictAt, WellKept, Clean, UserOr;
  }

  lemma CleanUserRecord(t: Tables<string>, server: string, ttl: nat, now: int, rec: UserRecord)
    requires WellKept(t) && Clean(UserKeyOf(rec.userInfo))
    ensures CleanWrites(UserWrites(StringSetting(ttl, now), t, server, rec), server)
  {
    CleanDict(t, server, ttl, now, DictIdKey(rec.tokenInfo.userDictId));
    hide DictAt, UserAt, WellKept, Clean;
  }

  lemma CleanFileOutcome(t: Tables<string>, o: Origin, ttl: nat, now: int, rec: FileRecord)
    requires WellKept(t)
    ensures CleanWrites(FileOutcome(StringSetting(ttl, now), t, o, rec).writes, IdOf(o))
  {
    if rec.DisconnectRecord? {
      CleanDict(t, IdOf(o), ttl, now, DictIdKey(rec.userId));
    }
    hide DictAt, FileAt, WellKept, Clean, IdOf, OpenName, RecordFor;
  }

  lemma CleanOutcome(t: Tables<string>, o: Origin, ttl: nat, now: int, job: Job)
    requires WellKept(t) && Shaped(job)
    ensures CleanWrites(JobOutcome(StringSetting(ttl, now), t, o, job).writes, IdOf(o))
  {
    match job
    case ServerJob(_) =>
    case MappingJob(packetType, dictId, text) => CleanMapping(t, IdOf(o), ttl, now, packetType, dictId, text);
    case UserJob(user) =>
      MadeIsClean(user.userInfo);
      CleanUserRecord(t, IdOf(o), ttl, now, user);
    case FileJob(file) => CleanFileOutcome(t, o, ttl, now, file);
  }

  // ---- What a handler reads, and so what it does

  lemma SameDict(t: Tables<string>, server: string, i: Tables<LocalKey>, ttl: nat, now: int, k: LocalKey)
    requires Refines(t, server, i, now) && WellKept(t) && InDictMap(k)
    ensures var v := DictAt(StringSetting(ttl, now), t, server, k);
            v == DictAt(TypedSetting(ttl, now), i, server, k) && (v.Some? ==> CleanValue(v.value))
  {
    hide Render, Clean, UserKeyOf;
    assert Live(t.dicts, Render(server, k), now) == Live(i.dicts, k, now);
  }

  lemma SameUser(t: Tables<string>, server: string, i: Tables<LocalKey>, ttl: nat, now: int, info: UserInfo)
    requires Refines(t, server, i, now) && Clean(UserKeyOf(info))
    ensures UserAt(StringSetting(ttl, now), t, server, UserKeyOf(info)) ==
            UserAt(TypedSetting(ttl, now), i, server, UserKeyOf(info))
  {
    var k := UserKeyOf(info);
    hide Render;
    assert In(UserMap, k);
    assert Live(t.users, Render(server, k), now) == Live(i.users, k, now);
  }

  lemma SameFile(t: Tables<string>, server: string, i: Tables<LocalKey>, ttl: nat, now: int, k: LocalKey)
    requires Refines(t, server, i, now) && WellKept(t) && InFileMap(k)
    ensures var f := FileAt(StringSetting(ttl, now), t, server, k);
            f == FileAt(TypedSetting(ttl, now), i, server, k) && (f.Some? ==> f.value.serverId == server)
  {
    hide Render;
    assert Live(t.files, Render(server, k), now) == Live(i.files, k, now);
  }

  lemma SameSite(t: Tables<string>, server: string, i: Tables<LocalKey>, ttl: nat, now: int)
    requires Refines(t, server, i, now)
    ensures SiteFor(StringSetting(ttl, now), t, server) == SiteFor(TypedSetting(ttl, now), i, server)
  {
    hide Render;
    assert In(ServerMap, ServerKey);
    assert Live(t.servers, Render(server, ServerKey), now) == Live(i.servers, ServerKey, now);
  }

  lemma SameInfo(t: Tables<string>, server: string, i: Tables<LocalKey>, ttl: nat, now: int,
                 packetType: char, dictId: nat, info: UserInfo, rest: Option<string>)
    requires Refines(t, server, i, now) && WellKept(t) && Clean(UserKeyOf(info))
    ensures InfoWrites(StringSetting(ttl, now), t, server, packetType, dictId, info, rest) ==
            InfoWrites(TypedSetting(ttl, now), i, server, packetType, dictId, info, rest)
  {
    SameUser(t, server, i, ttl, now, info);
    if rest.Some? {
      SameCodes(t, server, i, ttl, now, info, EAOf(Split(rest.value, '&')));
    }
    hide UserAt, EAOf, Split, UserKeyOf, CodeWrites, WellKept, Refines, Clean;
  }

  lemma SameMapping(t: Tables<string>, server: string, i: Tables<LocalKey>, ttl: nat, now: int,
                    packetType: char, dictId: nat, text: string)
    requires Refines(t, server, i, now) && WellKept(t)
    ensures MappingWrites(StringSetting(ttl, now), t, server, packetType, dictId, text) ==
            MappingWrites(TypedSetting(ttl, now), i, server, packetType, dictId, text)
  {
    var info := CollectorUserInfo(Before(text, '\n'));
    CutFacts(text, '\n');
    ParsedInfosAreClean(Before(text, '\n'));
    if info.Ok? {
      SameInfo(t, server, i, ttl, now, packetType, dictId, info.value, RestOf(text));
    }
    hide CollectorUserInfo, Before, RestOf, InfoWrites, WellKept, Refines, UserKeyOf;
  }

  lemma SameCodes(t: Tables<string>, server: string, i: Tables<LocalKey>, ttl: nat, now: int, info: UserInfo,
                  codes: EAInfo)
    requires Refines(t, server, i, now) && WellKept(t) && Clean(UserKeyOf(info))
    ensures CodeWrites(StringSetting(ttl, now), t, server, info, codes) ==
            CodeWrites(TypedSetting(ttl, now), i, server, info, codes)
  {
    SameDict(t, server, i, ttl, now, DictIdKey(codes.udid));
    var known := DictAt(StringSetting(ttl, now), t, server, DictIdKey(codes.udid));
    SameUser(t, server, i, ttl, now, info);
    if known.Some? && known.value.KnownUser? {
      SameUser(t, server, i, ttl, now, known.value.userInfo);
    }
    hide UserAt, DictAt, UserKeyOf, WellKept, Refines;
  }

  lemma SameUserRecord(t: Tables<string>, server: string, i: Tables<LocalKey>, ttl: nat, now: int, rec: UserRecord)
    requires Refines(t, server, i, now) && WellKept(t) && Clean(UserKeyOf(rec.userInfo))
    ensures UserWrites(StringSetting(ttl, now), t, server, rec) ==
            UserWrites(TypedSetting(ttl, now), i, server, rec)
  {
    var key := DictIdKey(rec.tokenInfo.userDictId);
    SameDict(t, server, i, ttl, now, key);
    var known := DictAt(StringSetting(ttl, now), t, server, key);
    if known.Some? && known.value.KnownUser? {
      SameUser(t, server, i, ttl, now, known.value.userInfo);
    }
    hide UserAt, DictAt, UserKeyOf, WellKept, Refines;
  }

  lemma SameUserFor(t: Tables<string>, server: string, i: Tables<LocalKey>, ttl: nat, now: int, userId: nat,
                    fileId: nat)
    requires Refines(t, server, i, now) && WellKept(t)
    ensures UserFor(StringSetting(ttl, now), t, server, userId, fileId) ==
            UserFor(TypedSetting(ttl, now), i, server, userId, fileId)
  {
    SameDict(t, server, i, ttl, now, DictIdKey(userId));
    SameDict(t, server, i, ttl, now, PathKey(fileId));
    var info := InfoFor(StringSetting(ttl, now), t, server, userId, fileId);
    if info.Some? {
      assert Clean(UserKeyOf(info.value)) by {
        hide DictAt, UserKeyOf, WellKept, Refines, Clean;
      }
      SameUser(t, server, i, ttl, now, info.value);
    }
    hide UserAt, DictAt, UserKeyOf, WellKept, Refines;
  }

  lemma SameRecord(t: Tables<string>, o: Origin, i: Tables<LocalKey>, ttl: nat, now: int, file: FileState,
                   close: FileRecord)
    requires Refines(t, IdOf(o), i, now) && WellKept(t) && close.CloseRecord? && file.serverId == IdOf(o)
    ensures RecordFor(StringSetting(ttl, now), t, o, file, close) ==
            RecordFor(TypedSetting(ttl, now), i, o, file, close)
  {
    SameSite(t, IdOf(o), i, ttl, now);
    SameUserFor(t, IdOf(o), i, ttl, now, file.userId, file.fileId);
    hide UserFor, SiteFor, IdOf, WellKept, Refines, UserHex;
  }

  lemma SameFileOutcome(t: Tables<string>, o: Origin, i: Tables<LocalKey>, ttl: nat, now: int, rec: FileRecord)
    requires Refines(t, IdOf(o), i, now) && WellKept(t)
    ensures FileOutcome(StringSetting(ttl, now), t, o, rec) ==
            FileOutcome(TypedSetting(ttl, now), i, o, rec)
  {
    var server := IdOf(o);
    hide IdOf;
    match rec
    case OpenRecord(header, _, _, _) =>
      SameDict(t, server, i, ttl, now, PathKey(header.fileId));
      hide DictAt, WellKept, Refines, AsText;
    case CloseRecord(header, _, _) =>
      SameFile(t, server, i, ttl, now, FileKey(header.fileId));
      var file := FileAt(StringSetting(ttl, now), t, server, FileKey(header.fileId));
      SameRecord(t, o, i, ttl, now, if file.Some? then file.value else UnknownFile(o, rec), rec);
      hide FileAt, RecordFor, WellKept, Refines;
    case TimeRecord(_, _, _, _) =>
    case DisconnectRecord(_, userId) =>
      SameDict(t, server, i, ttl, now, DictIdKey(userId));
      hide DictAt, WellKept, Refines, UserKeyOf;
  }

  // The string machine and the typed one do the same for the server at hand.
  lemma SameOutcome(t: Tables<string>, o: Origin, i: Tables<LocalKey>, ttl: nat, now: int, job: Job)
    requires Refines(t, IdOf(o), i, now) && WellKept(t) && Shaped(job)
    ensures JobOutcome(StringSetting(ttl, now), t, o, job) ==
            JobOutcome(TypedSetting(ttl, now), i, o, job)
  {
    match job
    case ServerJob(_) =>
    case MappingJob(packetType, dictId, text) => SameMapping(t, IdOf(o), i, ttl, now, packetType, dictId, text);
    case UserJob(user) =>
      MadeIsClean(user.userInfo);
      SameUserRecord(t, IdOf(o), i, ttl, now, user);
    case FileJob(file) => SameFileOutcome(t, o, i, ttl, now, file);
  }

  // ---- One event

  // The clock never runs backwards, user records are parsed ones, and no sender
  // can share a user key with the server at hand.
  ghost predicate Admissible(events: seq<Event>, now: int, server: string)
    decreases |events|
  {
    events != [] ==>
      && now <= events[0].at
      && (events[0].Handle? ==> Apart(IdOf(events[0].origin), server) && Shaped(events[0].job))
      && Admissible(events[1..], events[0].at, server)
  }

  // A server's own packets.
  predicate Mine(e: Event, server: string)
  {
    e.Handle? && IdOf(e.origin) == server
  }

  lemma CleanupKeeps(t: Tables<string>, server: string, i: Tables<LocalKey>, now: int, which: MapName, at: int)
    requires Refines(t, server, i, now) && WellKept(t) && now <= at
    ensures Refines(t, server, i, at)
    ensures Refines(SweptTables(t, which, at), server, i, at) && WellKept(SweptTables(t, which, at))
  {
    SimLater(t.files, server, i.files, FileMap, now, at);
    SimLater(t.users, server, i.users, UserMap, now, at);
    SimLater(t.dicts, server, i.dicts, DictMap, now, at);
    SimLater(t.servers, server, i.servers, ServerMap, now, at);
    hide Sim, Render, CleanValue;
  }

  lemma OwnEvent(t: Tables<string>, server: string, i: Tables<LocalKey>, ttl: nat, now: int, e: Event)
    requires Refines(t, server, i, now) && WellKept(t) && now <= e.at
    requires Mine(e, server) && Shaped(e.job)
    ensures var t' := Step(StringMachine(ttl, 0), t, e);
            WellKept(t') && Refines(t', server, Step(TypedMachine(ttl), i, e), e.at)
    ensures Emitted(StringMachine(ttl, 0), t, e) == Emitted(TypedMachine(ttl), i, e)
  {
    CleanupKeeps(t, server, i, now, FileMap, e.at);
    hide Refines, WellKept, Apart, JobOutcome, IdOf, CleanWrites, AllWritten, Shaped;
    SameOutcome(t, e.origin, i, ttl, e.at, e.job);
    CleanOutcome(t, e.origin, ttl, e.at, e.job);
    WritesKeepOwn(t, server, i, ttl, e.at, JobOutcome(StringSetting(ttl, e.at), t, e.origin, e.job).writes);
  }

  lemma OtherEvent(t: Tables<string>, server: string, i: Tables<LocalKey>, ttl: nat, now: int, e: Event)
    requires Refines(t, server, i, now) && WellKept(t) && now <= e.at && !Mine(e, server)
    requires e.Handle? ==> Apart(IdOf(e.origin), server) && Shaped(e.job)
    ensures var t' := Step(StringMachine(ttl, 0), t, e);
            WellKept(t') && Refines(t', server, i, e.at)
  {
    CleanupKeeps(t, server, i, now, if e.Cleanup? then e.which else FileMap, e.at);
    hide Refines, WellKept, Apart, JobOutcome, IdOf, CleanWrites, AllWritten, Shaped, SweptTables;
    if e.Handle? {
      CleanOutcome(t, e.origin, ttl, e.at, e.job);
      WritesKeepOthers(t, server, i, ttl, e.at, JobOutcome(StringSetting(ttl, e.at), t, e.origin, e.job).writes,
                       IdOf(e.origin));
    }
  }

  lemma RecordsNameTheirServer(m: Machine, t: Tables, e: Event)
    ensures forall r :: r in Emitted(m, t, e) ==> e.Handle? && r.serverId == IdOf(e.origin)
  {
    hide UserFor, SiteFor, IdOf, UserHex, OpenName, MappingWrites, UserWrites;
  }

  // ---- Whole runs

  function EventsOf(server: string, events: seq<Event>): seq<Event>
  {
    if events == [] then []
    else (if Mine(events[0], server) then [events[0]] else []) + EventsOf(server, events[1..])
  }

  function RecordsOf(server: string, records: seq<Record>): seq<Record>
  {
    if records == [] then []
    else (if records[0].serverId == server then [records[0]] else []) + RecordsOf(server, records[1..])
  }

  lemma {:induction false} RecordsAppend(server: string, a: seq<Record>, b: seq<Record>)
    ensures RecordsOf(server, a + b) == RecordsOf(server, a) + RecordsOf(server, b)
  {
    if a == [] {
      assert a + b == b;
    } else {
      assert (a + b)[1..] == a[1..] + b;
      RecordsAppend(server, a[1..], b);
    }
  }

  lemma {:induction false} AllOrNone(server: string, records: seq<Record>, own: bool)
    requires forall r :: r in records ==> (r.serverId == server <==> own)
    ensures RecordsOf(server, records) == if own then records else []
  {
    if records != [] {
      AllOrNone(server, records[1..], own);
    }
  }

  // Refinement over a whole run: the program's records for a server are those
  // of that server's own typed machine, fed its own packets and never cleaned.
  lemma {:induction false} RunRefines(t: Tables<string>, server: string, i: Tables<LocalKey>, ttl: nat, now: int,
                                      events: seq<Event>)
    requires Refines(t, server, i, now) && WellKept(t) && Admissible(events, now, server)
    ensures RecordsOf(server, RunRecords(StringMachine(ttl, 0), t, events)) ==
            RunRecords(TypedMachine(ttl), i, EventsOf(server, events))
    decreases |events|
  {
    hide Refines, WellKept, Apart, Emitted, Step, IdOf, Shaped;
    if events != [] {
      var m, e := StringMachine(ttl, 0), events[0];
      var t', rest := Step(m, t, e), events[1..];
      OneEvent(t, server, i, ttl, now, e, events);
      RecordsNameTheirServer(m, t, e);
      AllOrNone(server, Emitted(m, t, e), Mine(e, server));
      RecordsAppend(server, Emitted(m, t, e), RunRecords(m, t', rest));
      if Mine(e, server) {
        RunRefines(t', server, Step(TypedMachine(ttl), i, e), ttl, e.at, rest);
        assert EventsOf(server, events) == [e] + EventsOf(server, rest);
        assert ([e] + EventsOf(server, rest))[1..] == EventsOf(server, rest);
      } else {
        RunRefines(t', server, i, ttl, e.at, rest);
        assert [] + EventsOf(server, rest) == EventsOf(server, rest);
        assert [] + RecordsOf(server, RunRecords(m, t', rest)) == RecordsOf(server, RunRecords(m, t', rest));
      }
    }
  }

  lemma OneEvent(t: Tables<string>, server: string, i: Tables<LocalKey>, ttl: nat, now: int, e: Event,
                 events: seq<Event>)
    requires Refines(t, server, i, now) && WellKept(t) && Admissible(events, now, server) && events != []
    requires e == events[0]
    ensures var t' := Step(StringMachine(ttl, 0), t, e);
            WellKept(t') && Refines(t', server, if Mine(e, server) then Step(TypedMachine(ttl), i, e) else i, e.at)
    ensures Mine(e, server) ==> Emitted(StringMachine(ttl, 0), t, e) == Emitted(TypedMachine(ttl), i, e)
    ensures Admissible(events[1..], e.at, server)
  {
    hide Refines, WellKept, Apart, Emitted, Step, IdOf, Shaped;
    if Mine(e, server) {
      OwnEvent(t, server, i, ttl, now, e);
    } else {
      OtherEvent(t, server, i, ttl, now, e);
    }
  }

  lemma EmptyRefines(server: string, now: int)
    ensures Refines(Empty(), server, Empty(), now) && WellKept(Empty())
  {}

  function EndOf(now: int, events: seq<Event>): int
    decreases |events|
  {
    if events == [] then now else EndOf(events[0].at, events[1..])
  }

  // The same for what the maps hold at the end of a run.
  lemma {:induction false} TablesRefine(t: Tables<string>, server: string, i: Tables<LocalKey>, ttl: nat, now: int,
                                        events: seq<Event>)
    requires Refines(t, server, i, now) && WellKept(t) && Admissible(events, now, server)
    ensures Refines(RunTables(StringMachine(ttl, 0), t, events), server,
                    RunTables(TypedMachine(ttl), i, EventsOf(server, events)), EndOf(now, events))
    decreases |events|
  {
    hide Refines, WellKept, Apart, Step, IdOf, Shaped;
    if events != [] {
      var e, rest := events[0], events[1..];
      var t' := Step(StringMachine(ttl, 0), t, e);
      OneEvent(t, server, i, ttl, now, e, events);
      if Mine(e, server) {
        TablesRefine(t', server, Step(TypedMachine(ttl), i, e), ttl, e.at, rest);
        assert ([e] + EventsOf(server, rest))[1..] == EventsOf(server, rest);
      } else {
        TablesRefine(t', server, i, ttl, e.at, rest);
        assert [] + EventsOf(server, rest) == EventsOf(server, rest);
      }
    }
  }

  // Isolation: two runs in which a server sends the same packets at the same
  // times emit the same records for it, whatever other servers send and
  // whenever the maps are cleaned up.
  lemma Isolation(ttl: nat, start: int, addr: string, now: int, events: seq<Event>, events': seq<Event>)
    requires Admissible(events, now, ServerId(start, addr)) && Admissible(events', now, ServerId(start, addr))
    requires EventsOf(ServerId(start, addr), events) == EventsOf(ServerId(start, addr), events')
    ensures var s, m := ServerId(start, addr), StringMachine(ttl, 0);
            RecordsOf(s, RunRecords(m, Empty(), events)) == RecordsOf(s, RunRecords(m, Empty(), events'))
  {
    var s := ServerId(start, addr);
    EmptyRefines(s, now);
    RunRefines(Empty(), s, Empty(), ttl, now, events);
    RunRefines(Empty(), s, Empty(), ttl, now, events');
  }

  lemma {:induction false} OwnEventsOnly(server: string, events: seq<Event>)
    requires forall e :: e in events ==> Mine(e, server)
    ensures EventsOf(server, events) == events
  {
    if events != [] {
      OwnEventsOnly(server, events[1..]);
    }
  }

  lemma {:induction false} OwnEventsAre(server: string, events: seq<Event>)
    ensures forall e :: e in EventsOf(server, events) ==> Mine(e, server) && e in events
  {
    if events != [] {
      OwnEventsAre(server, events[1..]);
    }
  }

  lemma {:induction false} AdmissiblePart(server: string, now: int, events: seq<Event>)
    requires Admissible(events, now, server)
    ensures Admissible(EventsOf(server, events), now, server)
    decreases |events|
  {
    hide Apart, Shaped, IdOf;
    if events != [] {
      var e, own := events[0], EventsOf(server, events[1..]);
      AdmissiblePart(server, e.at, events[1..]);
      if Mine(e, server) {
        assert ([e] + own)[1..] == own;
      } else {
        assert [] + own == own;
      }
    }
  }

  // In particular the records for a server are those of a run with its packets
  // alone.
  lemma AsIfAlone(ttl: nat, start: int, addr: string, now: int, events: seq<Event>)
    requires Admissible(events, now, ServerId(start, addr))
    ensures var s, m := ServerId(start, addr), StringMachine(ttl, 0);
            RecordsOf(s, RunRecords(m, Empty(), events)) ==
            RecordsOf(s, RunRecords(m, Empty(), EventsOf(s, events)))
  {
    var s := ServerId(start, addr);
    OwnEventsAre(s, events);
    AdmissiblePart(s, now, events);
    OwnEventsOnly(s, EventsOf(s, events));
    Isolation(ttl, start, addr, now, events, EventsOf(s, events));
  }
}

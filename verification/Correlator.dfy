// The correlator as the program runs it: four expiring maps keyed by strings,
// and user states updated in place through the references the user map holds.
module Correlators {
  import opened BigEndian
  import opened Records
  import opened Text
  import opened UserInfoText
  import opened KeyValue
  import opened Keys
  import opened StateMaps
  import opened CorrelatorModel

  // What a packet changes in a user.
  datatype Change = NewApp(appInfo: string) | NewToken(tokenInfo: TokenInfo) | NewCodes(codes: EAInfo)

  function Changed(u: UserState, change: Change): UserState
  {
    match change
    case NewApp(appInfo) => u.(appInfo := appInfo)
    case NewToken(tokenInfo) => u.(tokenInfo := tokenInfo)
    case NewCodes(codes) => u.(experimentId := codes.experimentId, activityId := codes.activityId)
  }

  class UserObject {
    var userId: nat
    var userInfo: UserInfo
    var authInfo: AuthInfo
    var tokenInfo: TokenInfo
    var appInfo: string
    var experimentId: int
    var activityId: int
    var createdAt: int

    constructor (u: UserState)
      ensures Value() == u
    {
      userId, userInfo, authInfo, tokenInfo := u.userId, u.userInfo, u.authInfo, u.tokenInfo;
      appInfo, experimentId, activityId, createdAt := u.appInfo, u.experimentId, u.activityId, u.createdAt;
    }

    function Value(): UserState
      reads this
    {
      UserState(userId, userInfo, authInfo, tokenInfo, appInfo, experimentId, activityId, createdAt)
    }

    method Change(change: Change)
      modifies this
      ensures Value() == Changed(old(Value()), change)
    {
      match change {
        case NewApp(app) => appInfo := app;
        case NewToken(token) => tokenInfo := token;
        case NewCodes(codes) => experimentId, activityId := codes.experimentId, codes.activityId;
      }
    }
  }

  // ---- The user map's entries and the objects they refer to

  type UserEntries = map<string, Entry<UserObject>>

  ghost function Objects(entries: UserEntries): set<UserObject>
  {
    set k | k in entries :: entries[k].value
  }

  ghost predicate Distinct(entries: UserEntries)
  {
    forall k, k' :: k in entries && k' in entries && k != k' ==> entries[k].value != entries[k'].value
  }

  // What the entries say, with the objects read out.
  ghost function TableOf(entries: UserEntries): Table<string, UserState>
    reads Objects(entries)
  {
    map k | k in entries :: Entry(entries[k].value.Value(), entries[k].expiresAt)
  }

  lemma TableSize(entries: UserEntries)
    ensures |TableOf(entries)| == |entries|
  {
    assert TableOf(entries).Keys == entries.Keys;
    assert |TableOf(entries).Keys| == |TableOf(entries)| && |entries.Keys| == |entries|;
  }

  // Storing a reference stores what it refers to.
  lemma StoreReference(entries: UserEntries, key: string, u: UserObject, now: int, ttl: nat, maxEntries: int)
    requires Distinct(entries) && forall k :: k in entries && entries[k].value == u ==> k == key
    ensures var entries' := Store(entries, key, u, now, ttl, maxEntries);
            && Distinct(entries')
            && Objects(entries') <= Objects(entries) + {u}
            && TableOf(entries') == Store(TableOf(entries), key, u.Value(), now, ttl, maxEntries)
  {
    TableSize(entries);
    var e := Entry(u, now + ttl);
    assert TableOf(entries[key := e]) == TableOf(entries)[key := Entry(u.Value(), now + ttl)];
    hide TableOf;
  }

  // Changing one object through its reference changes the one entry it lies under.
  lemma InPlace(was: Table<string, UserState>, entries: UserEntries, key: string)
    requires key in entries && was.Keys == entries.Keys
    requires forall k :: k in entries && k != key ==> was[k] == Entry(entries[k].value.Value(), entries[k].expiresAt)
    ensures TableOf(entries) == was[key := Entry(entries[key].value.Value(), entries[key].expiresAt)]
  {}

  lemma StoreAgain<K, V>(m: Table<K, V>, key: K, e: Entry<V>, v: V, now: int, ttl: nat, maxEntries: int)
    requires key in m
    ensures Store(m[key := e], key, v, now, ttl, maxEntries) == Store(m, key, v, now, ttl, maxEntries)
  {}

  class Correlator {
    const stateMap: StateMap<FileState>
    const userMap: StateMap<UserObject>
    const dictMap: StateMap<DictValue>
    const serverMap: StateMap<ServerInfo>
    const ttl: nat
    const maxEntries: int

    ghost function Users(): set<UserObject>
      reads userMap
    {
      Objects(userMap.entries)
    }

    ghost function UserTable(): Table<string, UserState>
      reads userMap, Users()
    {
      TableOf(userMap.entries)
    }

    ghost function View(): Tables<string>
      reads stateMap, userMap, dictMap, serverMap, Users()
    {
      Tables(stateMap.entries, UserTable(), dictMap.entries, serverMap.entries)
    }

    // All maps share the configuration, and no user object lies under two keys.
    ghost predicate Valid()
      reads this, userMap
    {
      && stateMap.ttl == userMap.ttl == dictMap.ttl == serverMap.ttl == ttl
      && stateMap.maxEntries == userMap.maxEntries == dictMap.maxEntries == serverMap.maxEntries == maxEntries
      && Distinct(userMap.entries)
    }

    ghost function Clock(now: int): Setting<string>
    {
      At(StringMachine(ttl, maxEntries), now)
    }

    constructor (ttl: nat, maxEntries: int)
      ensures Valid() && View() == Empty() && this.ttl == ttl && this.maxEntries == maxEntries
      ensures fresh(stateMap) && fresh(userMap) && fresh(dictMap) && fresh(serverMap)
    {
      stateMap := new StateMap(ttl, maxEntries);
      userMap := new StateMap(ttl, maxEntries);
      dictMap := new StateMap(ttl, maxEntries);
      serverMap := new StateMap(ttl, maxEntries);
      this.ttl := ttl;
      this.maxEntries := maxEntries;
    }

    // ---- The user map and its objects

    method GetServerID(o: Origin) returns (server: string)
      ensures server == IdOf(o)
      ensures View() == old(View())
    {
      server := BuildServerID(o.serverStart, o.remoteAddr);
    }

    // userMap.Set of a reference.
    method SetUser(key: string, u: UserObject, now: int)
      requires Valid() && forall k :: k in userMap.entries && userMap.entries[k].value == u ==> k == key
      modifies userMap
      ensures Valid() && Users() <= old(Users()) + {u}
      ensures UserTable() == Store(old(UserTable()), key, u.Value(), now, ttl, maxEntries)
    {
      hide Store, Distinct, HasRoom;
      ghost var was := userMap.entries;
      var stored := userMap.Set(key, u, now);
      assert TableOf(was) == old(TableOf(userMap.entries));
      hide TableOf, Objects;
      StoreReference(was, key, u, now, ttl, maxEntries);
    }

    method NewUserAt(key: string, u: UserState, now: int)
      requires Valid()
      modifies userMap
      ensures Valid() && fresh(Users() - old(Users()))
      ensures UserTable() == Store(old(UserTable()), key, u, now, ttl, maxEntries)
    {
      var created := new UserObject(u);
      assert UserTable() == old(UserTable());
      SetUser(key, created, now);
    }

    method DeleteUser(key: string)
      requires Valid()
      modifies userMap
      ensures Valid() && Users() <= old(Users())
      ensures UserTable() == Remove(old(UserTable()), key)
    {
      userMap.Delete(key);
    }

    // A user is updated in place: through the reference, then stored again to
    // renew its expiry.
    method UpdateUser(key: string, change: Change, now: int) returns (found: bool)
      requires Valid()
      modifies userMap, Users()
      ensures Valid() && Users() <= old(Users())
      ensures found == Lookup(old(UserTable()), key, now).Some?
      ensures UserTable() == if found then
                               var u := Changed(Lookup(old(UserTable()), key, now).value, change);
                               Store(old(UserTable()), key, u, now, ttl, maxEntries)
                             else old(UserTable())
    {
      var user := userMap.Get(key, now);
      found := user.Some?;
      if found {
        var u := user.value;
        u.Change(change);
        InPlace(old(UserTable()), userMap.entries, key);
        StoreAgain(old(UserTable()), key, Entry(u.Value(), userMap.entries[key].expiresAt), u.Value(), now, ttl,
                   maxEntries);
        assert {u} <= Users();
        hide Store;
        SetUser(key, u, now);
      }
    }

    // ---- Single writes, as the model has them

    method SetDict(server: string, k: LocalKey, key: string, v: DictValue, now: int)
      requires Valid() && key == Render(server, k)
      modifies dictMap
      ensures Valid() && Users() == old(Users())
      ensures View() == Written(Clock(now), old(View()), server, PutDict(k, v))
    {
      hide Store, Render;
      var stored := dictMap.Set(key, v, now);
      assert UserTable() == old(UserTable());
    }

    lemma SameUsers(t: Tables<string>, server: string, k: LocalKey, v: DictValue, info: UserInfo, userId: nat, now: int)
      ensures UserOr(Clock(now), Written(Clock(now), t, server, PutDict(k, v)), server, info, userId) ==
              UserOr(Clock(now), t, server, info, userId)
    {
      hide Render, Store;
    }

    method StoreApp(server: string, key: string, info: UserInfo, dictId: nat, app: string, now: int)
      requires Valid() && key == Render(server, UserKeyOf(info))
      modifies userMap, Users()
      ensures Valid() && fresh(Users() - old(Users()))
      ensures View() == Written(Clock(now), old(View()), server,
                                PutUser(UserKeyOf(info),
                                        UserOr(Clock(now), old(View()), server, info, dictId).(appInfo := app)))
    {
      hide Lookup, Store, TableOf, Distinct, Render, UserKeyOf;
      var found := UpdateUser(key, NewApp(app), now);
      if !found {
        NewUserAt(key, NewUser(dictId, info, now).(appInfo := app), now);
      }
    }

    method StoreCodes(server: string, key: string, info: UserInfo, codes: EAInfo, now: int)
      requires Valid() && key == Render(server, UserKeyOf(info))
      modifies userMap, Users()
      ensures Valid() && fresh(Users() - old(Users()))
      ensures View() == Written(Clock(now), old(View()), server,
                                PutUser(UserKeyOf(info),
                                        UserOr(Clock(now), old(View()), server, info, codes.udid)
                                        .(experimentId := codes.experimentId, activityId := codes.activityId)))
    {
      hide Lookup, Store, TableOf, Distinct, Render, UserKeyOf;
      var found := UpdateUser(key, NewCodes(codes), now);
      if !found {
        NewUserAt(key, NewUser(codes.udid, info, now)
                       .(experimentId := codes.experimentId, activityId := codes.activityId), now);
      }
    }

    // The user under a key, read out of its object.
    method FindUser(server: string, info: UserInfo, now: int) returns (key: string, user: Option<UserObject>)
      requires Valid()
      ensures View() == old(View())
      ensures key == Render(server, UserKeyOf(info))
      ensures UserAt(Clock(now), View(), server, UserKeyOf(info)) ==
              if user.Some? then Some(user.value.Value()) else None
    {
      hide Render, UserKeyOf, Lookup, Distinct;
      key := BuildUserInfoKey(server, info);
      user := GetUser(key, now);
    }

    method GetUser(key: string, now: int) returns (user: Option<UserObject>)
      requires Valid()
      ensures Lookup(UserTable(), key, now) == if user.Some? then Some(user.value.Value()) else None
    {
      user := userMap.Get(key, now);
      hide Distinct;
    }

    method SetFile(server: string, k: LocalKey, key: string, f: FileState, now: int)
      requires Valid() && key == Render(server, k)
      modifies stateMap
      ensures Valid() && Users() == old(Users())
      ensures View() == Written(Clock(now), old(View()), server, PutFile(k, f))
    {
      hide Store, Render;
      var stored := stateMap.Set(key, f, now);
      assert UserTable() == old(UserTable());
    }

    method SetServer(server: string, info: ServerInfo, now: int)
      requires Valid()
      modifies serverMap
      ensures Valid() && Users() == old(Users())
      ensures View() == Written(Clock(now), old(View()), server, PutServer(info))
    {
      hide Store;
      var stored := serverMap.Set(server, info, now);
      assert UserTable() == old(UserTable());
    }

    method DropFileAt(server: string, k: LocalKey, key: string, now: int)
      requires Valid() && key == Render(server, k)
      modifies stateMap
      ensures Valid() && Users() == old(Users())
      ensures View() == Written(Clock(now), old(View()), server, DropFile(k))
    {
      hide Remove, Render;
      stateMap.Delete(key);
      assert UserTable() == old(UserTable());
    }

    method DropDictAt(server: string, k: LocalKey, key: string, now: int)
      requires Valid() && key == Render(server, k)
      modifies dictMap
      ensures Valid() && Users() == old(Users())
      ensures View() == Written(Clock(now), old(View()), server, DropDict(k))
    {
      hide Remove, Render;
      dictMap.Delete(key);
      assert UserTable() == old(UserTable());
    }

    method DropUserAt(server: string, k: LocalKey, key: string, now: int)
      requires Valid() && key == Render(server, k)
      modifies userMap
      ensures Valid() && Users() <= old(Users())
      ensures View() == Written(Clock(now), old(View()), server, DropUser(k))
    {
      hide Remove, Render;
      DeleteUser(key);
    }

    method SetNewUser(server: string, info: UserInfo, u: UserState, now: int)
      requires Valid()
      modifies userMap
      ensures Valid() && fresh(Users() - old(Users()))
      ensures View() == Written(Clock(now), old(View()), server, PutUser(UserKeyOf(info), u))
    {
      var key := BuildUserInfoKey(server, info);
      hide Store, Render, UserKeyOf, Distinct;
      NewUserAt(key, u, now);
    }

    method StoreToken(server: string, info: UserInfo, token: TokenInfo, now: int) returns (found: bool)
      requires Valid()
      modifies userMap, Users()
      ensures Valid() && fresh(Users() - old(Users()))
      ensures var u := UserAt(Clock(now), old(View()), server, UserKeyOf(info));
              && found == u.Some?
              && View() == if found then
                             Written(Clock(now), old(View()), server,
                                     PutUser(UserKeyOf(info), u.value.(tokenInfo := token)))
                           else old(View())
    {
      var key := BuildUserInfoKey(server, info);
      hide Lookup, Store, TableOf, Distinct, Render, UserKeyOf;
      found := UpdateUser(key, NewToken(token), now);
    }

    // ---- The handlers

    method HandlePath(server: string, dictId: nat, info: UserInfo, rest: Option<string>, now: int)
      requires Valid()
      modifies dictMap
      ensures Valid() && Users() == old(Users())
      ensures View() == AllWritten(Clock(now), old(View()), server, PathWrites(dictId, info, rest))
    {
      ghost var t, second := View(), PutDict(DictIdKey(dictId), KnownUser(info));
      OneWrite(Clock(now), t, server, second);
      if rest.Some? {
        TwoWrites(Clock(now), t, server, PutDict(PathKey(dictId), PathInfo(rest.value, info)), second);
        assert PathWrites(dictId, info, rest) == [PutDict(PathKey(dictId), PathInfo(rest.value, info)), second];
      } else {
        assert PathWrites(dictId, info, rest) == [second];
      }
      hide AllWritten, Written, Render, PathWrites, Valid, View, Users;
      if rest.Some? {
        var pathKey := BuildDictKey(server, dictId);
        SetDict(server, PathKey(dictId), pathKey, PathInfo(rest.value, info), now);
      }
      var userKey := BuildDictIDKey(server, dictId);
      SetDict(server, DictIdKey(dictId), userKey, KnownUser(info), now);
    }

    method HandleApp(server: string, dictId: nat, info: UserInfo, app: string, now: int)
      requires Valid()
      modifies dictMap, userMap, Users()
      ensures Valid() && fresh(Users() - old(Users()))
      ensures View() ==
              AllWritten(Clock(now), old(View()), server, AppWrites(Clock(now), old(View()), server, dictId, info, app))
    {
      ghost var t := View();
      TwoWrites(Clock(now), t, server, PutDict(DictIdKey(dictId), KnownUser(info)),
                PutUser(UserKeyOf(info), UserOr(Clock(now), t, server, info, dictId).(appInfo := app)));
      SameUsers(t, server, DictIdKey(dictId), KnownUser(info), info, dictId, now);
      hide AllWritten, Written, Render, Valid, View, UserOr, UserKeyOf;
      var dictKey := BuildDictIDKey(server, dictId);
      var userKey := BuildUserInfoKey(server, info);
      SetDict(server, DictIdKey(dictId), dictKey, KnownUser(info), now);
      StoreApp(server, userKey, info, dictId, app, now);
    }

    // The user info an experiment packet's id stands for, if it may be used.
    method FindDict(server: string, dictId: nat, now: int) returns (value: Option<DictValue>)
      ensures View() == old(View())
      ensures value == DictAt(Clock(now), View(), server, DictIdKey(dictId))
    {
      var key := BuildDictIDKey(server, dictId);
      value := dictMap.Get(key, now);
    }

    method FindPath(server: string, dictId: nat, now: int) returns (value: Option<DictValue>)
      ensures View() == old(View())
      ensures value == DictAt(Clock(now), View(), server, PathKey(dictId))
    {
      var key := BuildDictKey(server, dictId);
      value := dictMap.Get(key, now);
    }

    // What an experiment packet writes, write by write.
    lemma CodesWritten(t: Tables<string>, server: string, named: UserInfo, codes: EAInfo, info: UserInfo, now: int)
      requires var known := DictAt(Clock(now), t, server, DictIdKey(codes.udid));
               codes.udid != 0 && (known.Some? ==> known.value == KnownUser(info)) && (known.None? ==> info == named)
      ensures var known := DictAt(Clock(now), t, server, DictIdKey(codes.udid));
              var put := PutDict(DictIdKey(codes.udid), KnownUser(named));
              var t' := if known.None? then Written(Clock(now), t, server, put) else t;
              var u := UserOr(Clock(now), t', server, info, codes.udid)
                       .(experimentId := codes.experimentId, activityId := codes.activityId);
              AllWritten(Clock(now), t, server, CodeWrites(Clock(now), t, server, named, codes)) ==
              Written(Clock(now), t', server, PutUser(UserKeyOf(info), u))
    {
      var c := Clock(now);
      SameUsers(t, server, DictIdKey(codes.udid), KnownUser(named), info, codes.udid, now);
      var u := UserOr(c, t, server, info, codes.udid)
               .(experimentId := codes.experimentId, activityId := codes.activityId);
      var put, putUser := PutDict(DictIdKey(codes.udid), KnownUser(named)), PutUser(UserKeyOf(info), u);
      OneWrite(c, t, server, putUser);
      TwoWrites(c, t, server, put, putUser);
      hide AllWritten, Written, Render, UserOr, UserKeyOf, DictAt;
      assert [] + [putUser] == [putUser] && [put] + [putUser] == [put, putUser];
    }

    method HandleCodes(server: string, named: UserInfo, codes: EAInfo, now: int)
      requires Valid()
      modifies dictMap, userMap, Users()
      ensures Valid() && fresh(Users() - old(Users()))
      ensures View() ==
              AllWritten(Clock(now), old(View()), server, CodeWrites(Clock(now), old(View()), server, named, codes))
    {
      OneWrite(Clock(now), View(), server, PutServer(ServerInfo("", "", "", "", "")));
      hide AllWritten, Written, Render, Valid, View, UserOr, UserKeyOf, DictAt;
      if codes.udid == 0 {
        return;
      }
      var known := FindDict(server, codes.udid, now);
      if known.Some? && !known.value.KnownUser? {
        return;
      }
      var info := if known.Some? then known.value.userInfo else named;
      CodesWritten(View(), server, named, codes, info, now);
      hide CodeWrites;
      if known.None? {
        var dictKey := BuildDictIDKey(server, codes.udid);
        SetDict(server, DictIdKey(codes.udid), dictKey, KnownUser(named), now);
      }
      var userKey := BuildUserInfoKey(server, info);
      StoreCodes(server, userKey, info, codes, now);
    }

    method HandleDictIDRecord(o: Origin, packetType: char, dictId: nat, text: string, now: int)
      requires Valid()
      modifies dictMap, userMap, Users()
      ensures Valid() && fresh(Users() - old(Users()))
      ensures View() == AfterJob(Clock(now), old(View()), o, MappingJob(packetType, dictId, text))
    {
      var server := GetServerID(o);
      var parsed := CollectorUserInfo(Before(text, '\n'));
      OneWrite(Clock(now), View(), server, PutDict(PathKey(dictId), RawText(text)));
      hide AllWritten, Written, Render, CollectorUserInfo, Before, Valid, View, AppWrites, CodeWrites;
      hide PathWrites, EAOf, Split;
      if parsed.Err? {
        var key := BuildDictKey(server, dictId);
        SetDict(server, PathKey(dictId), key, RawText(text), now);
        return;
      }
      var rest := RestOf(text);
      if packetType == 'd' {
        HandlePath(server, dictId, parsed.value, rest, now);
      } else if packetType == 'i' && rest.Some? {
        HandleApp(server, dictId, parsed.value, rest.value, now);
      } else if packetType == 'U' && rest.Some? {
        var codes := ParseEAInfo(rest.value);
        HandleCodes(server, parsed.value, codes, now);
      }
    }

    method HandleUserRecord(o: Origin, rec: UserRecord, now: int)
      requires Valid()
      modifies dictMap, userMap, Users()
      ensures Valid() && fresh(Users() - old(Users()))
      ensures View() == AfterJob(Clock(now), old(View()), o, UserJob(rec))
    {
      hide Written, Render, Valid, View, UserKeyOf, IdOf;
      var server := GetServerID(o);
      if rec.tokenInfo.userDictId != 0 {
        assert AfterJob(Clock(now), View(), o, UserJob(rec)) ==
               AllWritten(Clock(now), View(), server, TokenWrites(Clock(now), View(), server, rec.tokenInfo));
        hide AllWritten, TokenWrites, AfterJob, Users;
        AugmentUser(server, rec.tokenInfo, now);
        return;
      }
      hide AllWritten, AfterJob;
      var user := UserState(rec.dictId, rec.userInfo, rec.authInfo, rec.tokenInfo, "", 0, 0, now);
      LoginAfter(Clock(now), View(), o, rec);
      var dictKey := BuildDictIDKey(server, rec.dictId);
      SetDict(server, DictIdKey(rec.dictId), dictKey, KnownUser(rec.userInfo), now);
      SetNewUser(server, rec.userInfo, user, now);
    }

    // The token branch.
    method AugmentUser(server: string, token: TokenInfo, now: int)
      requires Valid()
      modifies userMap, Users()
      ensures Valid() && fresh(Users() - old(Users()))
      ensures View() == AllWritten(Clock(now), old(View()), server, TokenWrites(Clock(now), old(View()), server, token))
    {
      hide AllWritten, Written, Render, Valid, View, UserKeyOf, DictAt, UserAt, TokenWrites;
      var known := FindDict(server, token.userDictId, now);
      TokenWritten(View(), server, token, now);
      if known.Some? && known.value.KnownUser? {
        var found := StoreToken(server, known.value.userInfo, token, now);
      }
    }

    lemma TokenWritten(t: Tables<string>, server: string, token: TokenInfo, now: int)
      ensures var c, known := Clock(now), DictAt(Clock(now), t, server, DictIdKey(token.userDictId));
              AllWritten(c, t, server, TokenWrites(c, t, server, token)) ==
              if known.Some? && known.value.KnownUser? then
                var k := UserKeyOf(known.value.userInfo);
                var u := UserAt(c, t, server, k);
                if u.Some? then Written(c, t, server, PutUser(k, u.value.(tokenInfo := token))) else t
              else t
    {
      var ws := TokenWrites(Clock(now), t, server, token);
      OneWrite(Clock(now), t, server, if ws == [] then PutServer(ServerInfo("", "", "", "", "")) else ws[0]);
      hide AllWritten, Written, Render, UserKeyOf, DictAt, UserAt;
    }

    method HandleServerInfo(o: Origin, info: ServerInfo, now: int)
      requires Valid()
      modifies serverMap
      ensures Valid() && Users() == old(Users())
      ensures View() == AfterJob(Clock(now), old(View()), o, ServerJob(info))
    {
      var server := GetServerID(o);
      hide AllWritten, Written, Valid, View, Users, IdOf, AfterJob;
      ServerAfter(Clock(now), View(), o, info);
      SetServer(server, info, now);
    }

    method OpenFilename(server: string, rec: FileRecord, now: int) returns (filename: string)
      requires rec.OpenRecord?
      ensures View() == old(View())
      ensures filename == OpenName(Clock(now), View(), server, rec)
    {
      hide DictAt;
      filename := AsText(rec.lfn);
      if rec.lfn == [] && rec.header.fileId != 0 {
        var val := FindPath(server, rec.header.fileId, now);
        if val.Some? && val.value.RawText? {
          filename := val.value.text;
        }
      }
    }

    method HandleFileOpen(o: Origin, rec: FileRecord, now: int)
      requires Valid() && rec.OpenRecord?
      modifies stateMap
      ensures Valid() && Users() == old(Users())
      ensures View() == AfterJob(Clock(now), old(View()), o, FileJob(rec))
    {
      var server := GetServerID(o);
      hide OpenName, AllWritten, Written, Render, AfterJob, Valid;
      OpenAfter(Clock(now), View(), o, rec);
      var filename := OpenFilename(server, rec, now);
      var userId := rec.header.userId;
      if userId == 0 {
        userId := rec.user;
      }
      var state := FileState(rec.header.fileId, userId, o.serverStart, rec.fileSize, filename, server, 0, now);
      var key := BuildFileKey(server, rec.header.fileId);
      hide View, Users;
      SetFile(server, FileKey(rec.header.fileId), key, state, now);
    }

    method HandleTimeRecord(o: Origin, rec: FileRecord, now: int)
      requires Valid() && rec.TimeRecord?
      modifies stateMap
      ensures Valid() && Users() == old(Users())
      ensures View() == AfterJob(Clock(now), old(View()), o, FileJob(rec))
    {
      var server := GetServerID(o);
      var key := BuildTimeKey(server, rec.header.fileId, rec.sid);
      var state := FileState(rec.header.fileId, rec.header.userId, rec.tBeg, 0, "", server, rec.sid, now);
      hide AllWritten, Written, Render, Valid, View, Users, IdOf, AfterJob;
      TimeAfter(Clock(now), View(), o, rec);
      SetFile(server, TimeKey(rec.header.fileId, rec.sid), key, state, now);
    }

    method HandleDisconnect(o: Origin, rec: FileRecord, now: int)
      requires Valid() && rec.DisconnectRecord?
      modifies dictMap, userMap
      ensures Valid() && Users() <= old(Users())
      ensures View() == AfterJob(Clock(now), old(View()), o, FileJob(rec))
    {
      var server := GetServerID(o);
      hide AllWritten, Written, Render, Valid, View, UserKeyOf, DictAt, IdOf, AfterJob;
      DisconnectAfter(Clock(now), View(), o, rec);
      var known := FindDict(server, rec.userId, now);
      if known.None? || !known.value.KnownUser? {
        return;
      }
      var info := known.value.userInfo;
      var dictKey := BuildDictIDKey(server, rec.userId);
      DropDictAt(server, DictIdKey(rec.userId), dictKey, now);
      var userKey := BuildUserInfoKey(server, info);
      DropUserAt(server, UserKeyOf(info), userKey, now);
    }

    // ---- Records

    method GetInfo(server: string, userId: nat, fileId: nat, now: int) returns (info: Option<UserInfo>)
      ensures View() == old(View())
      ensures info == InfoFor(Clock(now), View(), server, userId, fileId)
    {
      hide DictAt;
      info := None;
      if userId != 0 {
        var known := FindDict(server, userId, now);
        if known.Some? && known.value.KnownUser? {
          info := Some(known.value.userInfo);
        }
      }
      if info.None? && fileId != 0 {
        var val := FindPath(server, fileId, now);
        if val.Some? && val.value.PathInfo? {
          info := Some(val.value.userInfo);
        }
      }
    }

    method GetUserInfo(server: string, userId: nat, fileId: nat, now: int) returns (user: Option<UserState>)
      requires Valid()
      ensures View() == old(View())
      ensures user == UserFor(Clock(now), View(), server, userId, fileId)
    {
      hide InfoFor, UserAt, UserKeyOf, Valid;
      var info := GetInfo(server, userId, fileId, now);
      if info.None? {
        return None;
      }
      var key, found := FindUser(server, info.value, now);
      user := Some(if found.Some? then found.value.Value() else NewUser(0, info.value, 0));
    }

    method GetSite(server: string, now: int) returns (site: string)
      ensures View() == old(View())
      ensures site == SiteFor(Clock(now), View(), server)
    {
      site := "UNKNOWN";
      var val := serverMap.Get(server, now);
      if val.Some? && val.value.site != "" {
        site := val.value.site;
      }
    }

    method CreateCorrelatedRecord(o: Origin, file: FileState, close: FileRecord, now: int) returns (record: Record)
      requires Valid() && close.CloseRecord?
      ensures View() == old(View())
      ensures record == RecordFor(Clock(now), View(), o, file, close)
    {
      hide UserFor, SiteFor, Valid, View;
      var user := GetUserInfo(file.serverId, file.userId, file.fileId, now);
      var site := GetSite(file.serverId, now);
      var name, host, protocol := UserHex(file.userId), "unknown", "unknown";
      var auth, token, app, experimentId, activityId := NO_AUTH, NO_TOKEN, "", 0, 0;
      if user.Some? {
        var u := user.value;
        name, host, protocol := u.userInfo.username, u.userInfo.host, u.userInfo.protocol;
        auth, token, app := u.authInfo, u.tokenInfo.(userDictId := 0), u.appInfo;
        experimentId, activityId := u.experimentId, u.activityId;
      }
      record := Record(now, file.openTime, IdOf(o), o.remoteAddr, site, name, host, protocol, auth, token, app,
                       experimentId, activityId, file.filename, file.fileSize, close.xfr, close.ops);
    }

    method HandleFileClose(o: Origin, rec: FileRecord, now: int) returns (record: Record)
      requires Valid() && rec.CloseRecord?
      modifies stateMap
      ensures Valid() && Users() == old(Users())
      ensures View() == AfterJob(Clock(now), old(View()), o, FileJob(rec))
      ensures JobOutcome(Clock(now), old(View()), o, FileJob(rec)).records == [record]
    {
      var server := GetServerID(o);
      var key := BuildFileKey(server, rec.header.fileId);
      var val := stateMap.Get(key, now);
      assert val == FileAt(Clock(now), View(), server, FileKey(rec.header.fileId));
      hide AllWritten, Written, Render, Valid, View, Users, RecordFor, FileAt, IdOf, AfterJob, JobOutcome;
      CloseAfter(Clock(now), View(), o, rec);
      if val.None? {
        record := CreateCorrelatedRecord(o, UnknownFile(o, rec), rec, now);
        return;
      }
      record := CreateCorrelatedRecord(o, val.value, rec, now);
      DropFileAt(server, FileKey(rec.header.fileId), key, now);
    }

    // ---- Whole packets

    method HandleFileRecord(o: Origin, rec: FileRecord, now: int) returns (records: seq<Record>)
      requires Valid()
      modifies stateMap, dictMap, userMap
      ensures Valid() && Users() <= old(Users())
      ensures View() == AfterJob(Clock(now), old(View()), o, FileJob(rec))
      ensures records == JobOutcome(Clock(now), old(View()), o, FileJob(rec)).records
    {
      hide AfterJob, View, Valid;
      records := [];
      match rec {
        case OpenRecord(_, _, _, _) => HandleFileOpen(o, rec, now);
        case CloseRecord(_, _, _) =>
          var record := HandleFileClose(o, rec, now);
          records := [record];
        case TimeRecord(_, _, _, _) => HandleTimeRecord(o, rec, now);
        case DisconnectRecord(_, _) => HandleDisconnect(o, rec, now);
      }
    }

    // A job that is not a file record.
    method HandleJob(o: Origin, job: Job, now: int)
      requires Valid() && !job.FileJob?
      modifies serverMap, dictMap, userMap, Users()
      ensures Valid() && fresh(Users() - old(Users()))
      ensures View() == AfterJob(Clock(now), old(View()), o, job)
      ensures JobOutcome(Clock(now), old(View()), o, job).records == []
    {
      hide AfterJob, View, Valid;
      match job {
        case ServerJob(info) => HandleServerInfo(o, info, now);
        case MappingJob(packetType, dictId, text) => HandleDictIDRecord(o, packetType, dictId, text, now);
        case UserJob(user) => HandleUserRecord(o, user, now);
      }
    }

    ghost function Config(): Machine<string>
    {
      StringMachine(ttl, maxEntries)
    }

    // One more event of a run.
    lemma RunStep(t: Tables<string>, events: seq<Event>, i: nat)
      requires i < |events|
      ensures RunTables(Config(), t, events[i..]) == RunTables(Config(), Step(Config(), t, events[i]), events[i + 1..])
      ensures RunRecords(Config(), t, events[i..]) ==
              Emitted(Config(), t, events[i]) + RunRecords(Config(), Step(Config(), t, events[i]), events[i + 1..])
    {
      assert events[i..][1..] == events[i + 1..];
      hide Step, Emitted;
    }

    lemma RunEnd(t: Tables<string>, events: seq<Event>)
      ensures RunTables(Config(), t, events[|events|..]) == t && RunRecords(Config(), t, events[|events|..]) == []
    {}

    method ProcessFileRecords(o: Origin, files: seq<FileRecord>, now: int, ghost events: seq<Event>)
      returns (records: seq<Record>)
      requires Valid()
      requires |events| == |files| && forall i :: 0 <= i < |files| ==> events[i] == Handle(o, FileJob(files[i]), now)
      modifies stateMap, dictMap, userMap
      ensures Valid() && Users() <= old(Users())
      ensures View() == RunTables(Config(), old(View()), events)
      ensures records == RunRecords(Config(), old(View()), events)
    {
      hide AfterJob, View, Valid, JobOutcome, RunTables, RunRecords;
      records := [];
      var i := 0;
      assert events[0..] == events;
      while i < |files|
        invariant i <= |files| && Valid() && Users() <= old(Users())
        invariant RunTables(Config(), old(View()), events) == RunTables(Config(), View(), events[i..])
        invariant RunRecords(Config(), old(View()), events) == records + RunRecords(Config(), View(), events[i..])
      {
        RunStep(View(), events, i);
        var result := HandleFileRecord(o, files[i], now);
        records := records + result;
        i := i + 1;
      }
      RunEnd(View(), events);
    }

    method ProcessPacket(packet: Packet, now: int) returns (records: seq<Record>)
      requires Valid()
      modifies stateMap, userMap, dictMap, serverMap, Users()
      ensures Valid() && fresh(Users() - old(Users()))
      ensures View() == RunTables(Config(), old(View()), PacketEvents(packet, now))
      ensures records == RunRecords(Config(), old(View()), PacketEvents(packet, now))
    {
      var o := Origin(packet.serverStart, packet.remoteAddr);
      ghost var events := PacketEvents(packet, now);
      RunEnd(View(), []);
      if packet.body.Files? {
        records := ProcessFileRecords(o, packet.body.records, now, events);
      } else {
        records := [];
        hide AfterJob, View, Valid, JobOutcome;
        if packet.body.Xml? {
          return;
        }
        RunStep(View(), events, 0);
        assert events[0..] == events && events[1..] == events[|events|..];
        HandleJob(o, Jobs(packet.body)[0], now);
        RunEnd(View(), events);
      }
    }

    // One janitor's turn.
    method Cleanup(which: MapName, now: int)
      requires Valid()
      modifies stateMap, userMap, dictMap, serverMap
      ensures Valid() && Users() <= old(Users())
      ensures View() == SweptTables(old(View()), which, now)
    {
      hide Valid, View, Users, SweptTables;
      match which {
        case UserMap => CleanupUsers(now);
        case FileMap => CleanupFiles(now);
        case DictMap => CleanupDicts(now);
        case ServerMap => CleanupServers(now);
      }
    }

    method CleanupUsers(now: int)
      requires Valid()
      modifies userMap
      ensures Valid() && Users() <= old(Users())
      ensures View() == SweptTables(old(View()), UserMap, now)
    {
      var evicted := userMap.Cleanup(now);
      assert UserTable() == Swept(old(UserTable()), now);
      hide Swept, TableOf;
    }

    method CleanupFiles(now: int)
      requires Valid()
      modifies stateMap
      ensures Valid() && Users() == old(Users())
      ensures View() == SweptTables(old(View()), FileMap, now)
    {
      hide Swept;
      var evicted := stateMap.Cleanup(now);
      assert UserTable() == old(UserTable());
    }

    method CleanupDicts(now: int)
      requires Valid()
      modifies dictMap
      ensures Valid() && Users() == old(Users())
      ensures View() == SweptTables(old(View()), DictMap, now)
    {
      hide Swept;
      var evicted := dictMap.Cleanup(now);
      assert UserTable() == old(UserTable());
    }

    method CleanupServers(now: int)
      requires Valid()
      modifies serverMap
      ensures Valid() && Users() == old(Users())
      ensures View() == SweptTables(old(View()), ServerMap, now)
    {
      hide Swept;
      var evicted := serverMap.Cleanup(now);
      assert UserTable() == old(UserTable());
    }
  }
}

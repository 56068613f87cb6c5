// What the correlator knows of a user after any interleaving of user, app,
// token and experiment packets.
module UserHistory {
  import opened Records
  import opened Text
  import opened UserInfoText
  import opened KeyValue
  import opened Keys
  import opened StateMaps
  import opened CorrelatorModel
  import opened ServerIsolation

  // What a packet says about one user.
  datatype Effect =
    | Login(rec: UserRecord)
    | App(appInfo: string)
    | Token(tokenInfo: TokenInfo)
    | Codes(experimentId: int, activityId: int)
    | Gone
    | Nothing

  // The user a dictionary id stands for.
  function Resolved<K>(c: Setting<K>, t: Tables<K>, server: string, dictId: nat): Option<UserInfo>
  {
    match DictAt(c, t, server, DictIdKey(dictId))
    case Some(KnownUser(info)) => Some(info)
    case _ => None
  }

  // The user an experiment packet is about: the one its id stands for, or the
  // one named in the packet if the id stands for nothing yet.
  function Subject<K>(c: Setting<K>, t: Tables<K>, server: string, named: UserInfo, codes: EAInfo): Option<UserInfo>
  {
    if codes.udid == 0 then None
    else if DictAt(c, t, server, DictIdKey(codes.udid)).None? then Some(named)
    else Resolved(c, t, server, codes.udid)
  }

  predicate IsUser(info: Option<UserInfo>, k: LocalKey)
  {
    info.Some? && UserKeyOf(info.value) == k
  }

  function InfoEffect<K>(c: Setting<K>, t: Tables<K>, server: string, packetType: char, named: UserInfo, rest: string,
                         k: LocalKey): Effect
  {
    if packetType == 'i' && UserKeyOf(named) == k then App(rest)
    else if packetType == 'U' then
      var codes := EAOf(Split(rest, '&'));
      if IsUser(Subject(c, t, server, named, codes), k) then Codes(codes.experimentId, codes.activityId) else Nothing
    else Nothing
  }

  function EffectOn<K>(c: Setting<K>, t: Tables<K>, o: Origin, job: Job, k: LocalKey): Effect
  {
    match job
    case MappingJob(packetType, _, text) =>
      (match CollectorUserInfo(Before(text, '\n'))
       case Ok(named) =>
         if RestOf(text).Some? then InfoEffect(c, t, IdOf(o), packetType, named, RestOf(text).value, k) else Nothing
       case Err => Nothing)
    case UserJob(rec) =>
      if rec.tokenInfo.userDictId == 0 then if UserKeyOf(rec.userInfo) == k then Login(rec) else Nothing
      else if IsUser(Resolved(c, t, IdOf(o), rec.tokenInfo.userDictId), k) then Token(rec.tokenInfo)
      else Nothing
    case FileJob(DisconnectRecord(_, userId)) => if IsUser(Resolved(c, t, IdOf(o), userId), k) then Gone else Nothing
    case _ => Nothing
  }

  // What an effect leaves of the entry of a user that is known: every effect
  // renews it.
  function Updated(u: Entry<UserState>, f: Effect, now: int, ttl: nat): Option<Entry<UserState>>
  {
    match f
    case Login(rec) =>
      Some(Entry(UserState(rec.dictId, rec.userInfo, rec.authInfo, rec.tokenInfo, "", 0, 0, now), now + ttl))
    case App(appInfo) => Some(Entry(u.value.(appInfo := appInfo), now + ttl))
    case Token(tokenInfo) => Some(Entry(u.value.(tokenInfo := tokenInfo), now + ttl))
    case Codes(experimentId, activityId) =>
      Some(Entry(u.value.(experimentId := experimentId, activityId := activityId), now + ttl))
    case Gone => None
    case Nothing => Some(u)
  }

  // ---- One event

  function UserIn(t: Tables<LocalKey>, k: LocalKey): Option<Entry<UserState>>
  {
    if k in t.users then Some(t.users[k]) else None
  }

  // The entry under k after some writes.
  function UserAfter(u: Option<Entry<UserState>>, ws: seq<Write>, k: LocalKey, until: int): Option<Entry<UserState>>
    decreases |ws|
  {
    if ws == [] then u
    else
      var u' := match ws[0]
        case PutUser(key, user) => if key == k then Some(Entry(user, until)) else u
        case DropUser(key) => if key == k then None else u
        case _ => u;
      UserAfter(u', ws[1..], k, until)
  }

  function Typed(ttl: nat, now: int): Setting<LocalKey>
  {
    At(TypedMachine(ttl), now)
  }

  lemma {:induction false} UserWritten(ttl: nat, now: int, t: Tables<LocalKey>, server: string, ws: seq<Write>,
                                       k: LocalKey)
    ensures UserIn(AllWritten(Typed(ttl, now), t, server, ws), k) == UserAfter(UserIn(t, k), ws, k, now + ttl)
    decreases |ws|
  {
    if ws != [] {
      var t' := Written(Typed(ttl, now), t, server, ws[0]);
      OneUserWrite(ttl, now, t, server, ws[0], k);
      hide Written, UserIn;
      UserWritten(ttl, now, t', server, ws[1..], k);
    }
  }

  lemma OneUserWrite(ttl: nat, now: int, t: Tables<LocalKey>, server: string, w: Write, k: LocalKey)
    ensures var u := UserIn(t, k);
            UserIn(Written(Typed(ttl, now), t, server, w), k) ==
            match w
            case PutUser(key, user) => if key == k then Some(Entry(user, now + ttl)) else u
            case DropUser(key) => if key == k then None else u
            case _ => u
  {}

  lemma DictFirst(u: Option<Entry<UserState>>, w: Write, w': Write, k: LocalKey, until: int)
    requires w.PutDict? || w.DropDict?
    ensures UserAfter(u, [], k, until) == u && UserAfter(u, [w], k, until) == u
    ensures UserAfter(u, [w'], k, until) == UserAfter(u, [w, w'], k, until)
    ensures w'.PutUser? ==> UserAfter(u, [w'], k, until) == if w'.key == k then Some(Entry(w'.user, until)) else u
    ensures w'.DropUser? ==> UserAfter(u, [w'], k, until) == if w'.key == k then None else u
    ensures w'.PutDict? ==> UserAfter(u, [w'], k, until) == u
  {
    assert [w, w'][1..] == [w'] && [w][1..] == [] && [w'][1..] == [];
  }

  // ---- What a live user becomes

  ghost predicate LiveUser(t: Tables<LocalKey>, k: LocalKey, now: int)
  {
    k in t.users && now <= t.users[k].expiresAt
  }

  lemma CodesStep(ttl: nat, now: int, t: Tables<LocalKey>, server: string, named: UserInfo, codes: EAInfo, k: LocalKey)
    requires LiveUser(t, k, now)
    ensures var c, u := Typed(ttl, now), t.users[k];
            var mine := IsUser(Subject(c, t, server, named, codes), k);
            var f := if mine then Codes(codes.experimentId, codes.activityId) else Nothing;
            UserAfter(Some(u), CodeWrites(c, t, server, named, codes), k, now + ttl) == Updated(u, f, now, ttl)
  {
    var c, u := Typed(ttl, now), t.users[k];
    var ws := CodeWrites(c, t, server, named, codes);
    if |ws| == 2 {
      assert ws == [ws[0], ws[1]];
      DictFirst(Some(u), ws[0], ws[1], k, now + ttl);
    } else if |ws| == 1 {
      assert ws == [ws[0]];
      DictFirst(Some(u), PutDict(PathKey(0), RawText("")), ws[0], k, now + ttl);
    }
    hide UserAfter, UserKeyOf, NewUser;
  }

  lemma InfoStep(ttl: nat, now: int, t: Tables<LocalKey>, server: string, packetType: char, dictId: nat,
                 named: UserInfo, rest: Option<string>, k: LocalKey)
    requires LiveUser(t, k, now)
    ensures var c, u := Typed(ttl, now), t.users[k];
            var f := if rest.Some? then InfoEffect(c, t, server, packetType, named, rest.value, k) else Nothing;
            UserAfter(Some(u), InfoWrites(c, t, server, packetType, dictId, named, rest), k, now + ttl) ==
            Updated(u, f, now, ttl)
  {
    var c, u := Typed(ttl, now), t.users[k];
    var ws := InfoWrites(c, t, server, packetType, dictId, named, rest);
    DictFirst(Some(u), PutDict(PathKey(0), RawText("")), PutDict(PathKey(0), RawText("")), k, now + ttl);
    if packetType == 'U' && rest.Some? {
      CodesStep(ttl, now, t, server, named, EAOf(Split(rest.value, '&')), k);
    } else if |ws| == 2 {
      assert ws == [ws[0], ws[1]];
      DictFirst(Some(u), ws[0], ws[1], k, now + ttl);
    } else if |ws| == 1 {
      assert ws == [ws[0]];
      DictFirst(Some(u), ws[0], ws[0], k, now + ttl);
    }
    hide UserAfter, UserKeyOf, NewUser, CodeWrites, EAOf, Split, Subject;
  }

  lemma UserRecordStep(ttl: nat, now: int, t: Tables<LocalKey>, o: Origin, rec: UserRecord, k: LocalKey)
    requires LiveUser(t, k, now)
    ensures var c, u := Typed(ttl, now), t.users[k];
            UserAfter(Some(u), UserWrites(c, t, IdOf(o), rec), k, now + ttl) ==
            Updated(u, EffectOn(c, t, o, UserJob(rec), k), now, ttl)
  {
    var c, u := Typed(ttl, now), t.users[k];
    var ws := UserWrites(c, t, IdOf(o), rec);
    DictFirst(Some(u), PutDict(PathKey(0), RawText("")), PutDict(PathKey(0), RawText("")), k, now + ttl);
    if |ws| == 2 {
      DictFirst(Some(u), ws[0], ws[1], k, now + ttl);
    } else if |ws| == 1 {
      assert ws == [ws[0]];
      DictFirst(Some(u), PutDict(PathKey(0), RawText("")), ws[0], k, now + ttl);
    }
    hide UserAfter, UserKeyOf, IdOf, DictAt;
  }

  lemma FileStep(ttl: nat, now: int, t: Tables<LocalKey>, o: Origin, rec: FileRecord, k: LocalKey)
    requires LiveUser(t, k, now)
    ensures var c, u := Typed(ttl, now), t.users[k];
            UserAfter(Some(u), FileOutcome(c, t, o, rec).writes, k, now + ttl) ==
            Updated(u, EffectOn(c, t, o, FileJob(rec), k), now, ttl)
  {
    var c, u := Typed(ttl, now), t.users[k];
    var ws := FileOutcome(c, t, o, rec).writes;
    DictFirst(Some(u), PutDict(PathKey(0), RawText("")), PutDict(PathKey(0), RawText("")), k, now + ttl);
    if |ws| == 2 {
      DictFirst(Some(u), ws[0], ws[1], k, now + ttl);
    } else if |ws| == 1 {
      assert ws[1..] == [];
      assert UserAfter(Some(u), ws, k, now + ttl) == Some(u);
    }
    hide UserAfter, UserKeyOf, IdOf, DictAt, OpenState, TimeState, RecordFor, FileAt;
  }

  lemma JobStep(ttl: nat, now: int, t: Tables<LocalKey>, o: Origin, job: Job, k: LocalKey)
    requires LiveUser(t, k, now)
    ensures var c, u := Typed(ttl, now), t.users[k];
            UserIn(AfterJob(c, t, o, job), k) == Updated(u, EffectOn(c, t, o, job, k), now, ttl)
  {
    var c := Typed(ttl, now);
    UserWritten(ttl, now, t, IdOf(o), JobOutcome(c, t, o, job).writes, k);
    match job
    case ServerJob(info) =>
      assert [PutServer(info)][1..] == [];
    case MappingJob(packetType, dictId, text) =>
      MappingStep(ttl, now, t, o, packetType, dictId, text, k);
      hide MappingWrites, IdOf, AllWritten, EffectOn;
    case UserJob(rec) =>
      UserRecordStep(ttl, now, t, o, rec, k);
      hide UserWrites, IdOf, AllWritten, EffectOn;
    case FileJob(rec) =>
      FileStep(ttl, now, t, o, rec, k);
      hide FileOutcome, IdOf, AllWritten, EffectOn;
  }

  lemma MappingStep(ttl: nat, now: int, t: Tables<LocalKey>, o: Origin, packetType: char, dictId: nat, text: string,
                    k: LocalKey)
    requires LiveUser(t, k, now)
    ensures var c, u := Typed(ttl, now), t.users[k];
            UserAfter(Some(u), MappingWrites(c, t, IdOf(o), packetType, dictId, text), k, now + ttl) ==
            Updated(u, EffectOn(c, t, o, MappingJob(packetType, dictId, text), k), now, ttl)
  {
    var c, u := Typed(ttl, now), t.users[k];
    var parsed := CollectorUserInfo(Before(text, '\n'));
    if parsed.Ok? {
      InfoStep(ttl, now, t, IdOf(o), packetType, dictId, parsed.value, RestOf(text), k);
    } else {
      DictFirst(Some(u), PutDict(PathKey(dictId), RawText(text)), PutDict(PathKey(dictId), RawText(text)), k,
                now + ttl);
    }
    hide UserAfter, InfoWrites, InfoEffect, IdOf, CollectorUserInfo, Before, RestOf;
  }

  // ---- Whole runs

  function Effects(ttl: nat, t: Tables<LocalKey>, events: seq<Event>, k: LocalKey): (fs: seq<Effect>)
    ensures |fs| == |events|
    decreases |events|
  {
    if events == [] then []
    else
      var e := events[0];
      [if e.Handle? then EffectOn(Typed(ttl, e.at), t, e.origin, e.job, k) else Nothing] +
      Effects(ttl, Step(TypedMachine(ttl), t, e), events[1..], k)
  }

  // The user's entry has not expired when any of the events happens: each gap
  // between two effects on it, and what comes in between, is within the time
  // to live.
  predicate Timely(ttl: nat, expiresAt: int, events: seq<Event>, fs: seq<Effect>)
    requires |fs| == |events|
    decreases |events|
  {
    events != [] ==>
      && events[0].at <= expiresAt
      && Timely(ttl, if fs[0].Nothing? then expiresAt else events[0].at + ttl, events[1..], fs[1..])
  }

  function Expiry(ttl: nat, expiresAt: int, events: seq<Event>, fs: seq<Effect>): int
    requires |fs| == |events|
    decreases |events|
  {
    if events == [] then expiresAt
    else Expiry(ttl, if fs[0].Nothing? then expiresAt else events[0].at + ttl, events[1..], fs[1..])
  }

  // The last word on each field, or what it was before.
  function LastApp(fs: seq<Effect>, before: string): string
  {
    if fs == [] then before
    else if fs[|fs| - 1].App? then fs[|fs| - 1].appInfo
    else LastApp(fs[..|fs| - 1], before)
  }

  function LastToken(fs: seq<Effect>, before: TokenInfo): TokenInfo
  {
    if fs == [] then before
    else if fs[|fs| - 1].Token? then fs[|fs| - 1].tokenInfo
    else LastToken(fs[..|fs| - 1], before)
  }

  function LastCodes(fs: seq<Effect>, before: (int, int)): (int, int)
  {
    if fs == [] then before
    else if fs[|fs| - 1].Codes? then (fs[|fs| - 1].experimentId, fs[|fs| - 1].activityId)
    else LastCodes(fs[..|fs| - 1], before)
  }

  predicate NoLoginOrGone(fs: seq<Effect>)
  {
    forall i :: 0 <= i < |fs| ==> !fs[i].Login? && !fs[i].Gone?
  }

  // A user with the last word on each of its fields.
  function LastWords(u: UserState, fs: seq<Effect>): UserState
  {
    var codes := LastCodes(fs, (u.experimentId, u.activityId));
    u.(appInfo := LastApp(fs, u.appInfo), tokenInfo := LastToken(fs, u.tokenInfo),
       experimentId := codes.0, activityId := codes.1)
  }

  lemma {:induction false} FirstWord(f: Effect, fs: seq<Effect>, u: Entry<UserState>, now: int, ttl: nat)
    requires !f.Login? && !f.Gone?
    ensures LastWords(u.value, [f] + fs) == LastWords(Updated(u, f, now, ttl).value.value, fs)
    decreases |fs|
  {
    if fs == [] {
      assert ([f] + fs)[..0] == [];
    } else {
      var n := |fs| - 1;
      assert ([f] + fs)[..n + 1] == [f] + fs[..n] && ([f] + fs)[n + 1] == fs[n];
      FirstWord(f, fs[..n], u, now, ttl);
    }
  }

  // Last writer per field: while the entry is renewed in time, with no login
  // and no disconnect of this user in between.
  lemma {:induction false} LastWriterPerField(ttl: nat, t: Tables<LocalKey>, events: seq<Event>, k: LocalKey,
                                              u: Entry<UserState>)
    requires UserIn(t, k) == Some(u)
    requires var fs := Effects(ttl, t, events, k); NoLoginOrGone(fs) && Timely(ttl, u.expiresAt, events, fs)
    ensures var fs := Effects(ttl, t, events, k);
            UserIn(RunTables(TypedMachine(ttl), t, events), k) ==
            Some(Entry(LastWords(u.value, fs), Expiry(ttl, u.expiresAt, events, fs)))
    decreases |events|
  {
    hide Step, Effects, Timely, Expiry, LastWords, NoLoginOrGone, Updated, UserIn;
    if events == [] {
      NothingHappened(ttl, t, k, u);
    } else {
      WriterStep(ttl, t, events, k, u);
      var t' := Step(TypedMachine(ttl), t, events[0]);
      LastWriterPerField(ttl, t', events[1..], k, UserIn(t', k).value);
    }
  }

  lemma NothingHappened(ttl: nat, t: Tables<LocalKey>, k: LocalKey, u: Entry<UserState>)
    ensures var fs := Effects(ttl, t, [], k);
            Entry(LastWords(u.value, fs), Expiry(ttl, u.expiresAt, [], fs)) == u
  {}

  // The first event is heard, and the rest is as before.
  lemma WriterStep(ttl: nat, t: Tables<LocalKey>, events: seq<Event>, k: LocalKey, u: Entry<UserState>)
    requires events != [] && UserIn(t, k) == Some(u)
    requires var fs := Effects(ttl, t, events, k); NoLoginOrGone(fs) && Timely(ttl, u.expiresAt, events, fs)
    ensures var all, t', rest := Effects(ttl, t, events, k), Step(TypedMachine(ttl), t, events[0]), events[1..];
            var fs := Effects(ttl, t', rest, k);
            && UserIn(t', k).Some?
            && var u' := UserIn(t', k).value;
               && NoLoginOrGone(fs) && Timely(ttl, u'.expiresAt, rest, fs)
               && Expiry(ttl, u.expiresAt, events, all) == Expiry(ttl, u'.expiresAt, rest, fs)
               && LastWords(u.value, all) == LastWords(u'.value, fs)
  {
    hide Step, EffectOn, LastWords, AfterJob, RunTables;
    var e, all := events[0], Effects(ttl, t, events, k);
    var f, fs := all[0], Effects(ttl, Step(TypedMachine(ttl), t, e), events[1..], k);
    assert all[1..] == fs && all == [f] + fs;
    EventStep(ttl, t, e, k);
    hide Effects;
    FirstWord(f, fs, u, e.at, ttl);
    assert f.Nothing? ==> Updated(u, f, e.at, ttl) == Some(u);
    assert !f.Nothing? ==> Updated(u, f, e.at, ttl).value.expiresAt == e.at + ttl;
    hide Updated, LiveUser;
  }

  lemma EventStep(ttl: nat, t: Tables<LocalKey>, e: Event, k: LocalKey)
    requires LiveUser(t, k, e.at)
    ensures var f := if e.Handle? then EffectOn(Typed(ttl, e.at), t, e.origin, e.job, k) else Nothing;
            UserIn(Step(TypedMachine(ttl), t, e), k) == Updated(t.users[k], f, e.at, ttl)
  {
    if e.Handle? {
      JobStep(ttl, e.at, t, e.origin, e.job, k);
    }
    hide AfterJob, EffectOn;
  }

  // ---- From a login on

  predicate IsLogin(e: Event, k: LocalKey)
  {
    e.Handle? && e.job.UserJob? && e.job.user.tokenInfo.userDictId == 0 && UserKeyOf(e.job.user.userInfo) == k
  }

  lemma LoginStep(ttl: nat, t: Tables<LocalKey>, e: Event, k: LocalKey)
    requires IsLogin(e, k)
    ensures var rec := e.job.user;
            UserIn(Step(TypedMachine(ttl), t, e), k) ==
            Some(Entry(UserState(rec.dictId, rec.userInfo, rec.authInfo, rec.tokenInfo, "", 0, 0, e.at), e.at + ttl))
  {
    var c, rec := Typed(ttl, e.at), e.job.user;
    var ws := UserWrites(c, t, IdOf(e.origin), rec);
    UserWritten(ttl, e.at, t, IdOf(e.origin), ws, k);
    DictFirst(UserIn(t, k), ws[0], ws[1], k, e.at + ttl);
    hide UserAfter, UserKeyOf, IdOf, AllWritten;
  }

  // From a login on: no other one and no disconnect of the user, and its entry
  // renewed in time, up to the end.
  ghost predicate StaysLoggedIn(ttl: nat, t: Tables<LocalKey>, login: int, events: seq<Event>, k: LocalKey, end: int)
  {
    var fs := Effects(ttl, t, events, k);
    NoLoginOrGone(fs) && Timely(ttl, login + ttl, events, fs) && end <= Expiry(ttl, login + ttl, events, fs)
  }

  // In any interleaving with other servers' packets and with cleanups, between
  // a login of a user and its next login or disconnect, and while its entry has
  // not expired, the program's user map holds under that user's key the
  // authorization of the login, the application of the last 'i' packet, the
  // token of the last 'T' packet and the codes of the last 'U' packet about it.
  lemma SinceLogin(ttl: nat, start: int, addr: string, now: int, events: seq<Event>,
                   before: seq<Event>, login: Event, since: seq<Event>, k: LocalKey)
    requires Admissible(events, now, ServerId(start, addr)) && k.UserKey? && Clean(k) && IsLogin(login, k)
    requires EventsOf(ServerId(start, addr), events) == before + [login] + since
    requires StaysLoggedIn(ttl, RunTables(TypedMachine(ttl), Empty(), before + [login]), login.at, since, k,
                           EndOf(now, events))
    ensures var t := RunTables(TypedMachine(ttl), Empty(), before + [login]);
            var fs, rec := Effects(ttl, t, since, k), login.job.user;
            var codes := LastCodes(fs, (0, 0));
            Lookup(RunTables(StringMachine(ttl, 0), Empty(), events).users, Render(ServerId(start, addr), k),
                   EndOf(now, events)) ==
            Some(UserState(rec.dictId, rec.userInfo, rec.authInfo, LastToken(fs, rec.tokenInfo), LastApp(fs, ""),
                           codes.0, codes.1, login.at))
  {
    hide RunTables, EventsOf, Admissible, EndOf, Clean, StaysLoggedIn, LastWords, Effects, Lookup, Render;
    TypedSinceLogin(ttl, before, login, since, k, EndOf(now, events));
    ReadOut(ttl, start, addr, now, events, k);
    LastWordsSpelled(login, Effects(ttl, RunTables(TypedMachine(ttl), Empty(), before + [login]), since, k));
  }

  // What a login leaves of a user.
  function LoginState(login: Event): UserState
    requires login.Handle? && login.job.UserJob?
  {
    var rec := login.job.user;
    UserState(rec.dictId, rec.userInfo, rec.authInfo, rec.tokenInfo, "", 0, 0, login.at)
  }

  lemma LastWordsSpelled(login: Event, fs: seq<Effect>)
    requires login.Handle? && login.job.UserJob?
    ensures var rec, codes := login.job.user, LastCodes(fs, (0, 0));
            LastWords(LoginState(login), fs) ==
            UserState(rec.dictId, rec.userInfo, rec.authInfo, LastToken(fs, rec.tokenInfo), LastApp(fs, ""),
                      codes.0, codes.1, login.at)
  {
    hide LastCodes, LastToken, LastApp;
  }

  // The same of the server's own typed machine.
  lemma TypedSinceLogin(ttl: nat, before: seq<Event>, login: Event, since: seq<Event>, k: LocalKey, end: int)
    requires IsLogin(login, k)
    requires StaysLoggedIn(ttl, RunTables(TypedMachine(ttl), Empty(), before + [login]), login.at, since, k, end)
    ensures var t := RunTables(TypedMachine(ttl), Empty(), before + [login]);
            Lookup(RunTables(TypedMachine(ttl), Empty(), before + [login] + since).users, k, end) ==
            Some(LastWords(LoginState(login), Effects(ttl, t, since, k)))
  {
    var m := TypedMachine(ttl);
    var t := RunTables(m, Empty(), before + [login]);
    AfterLogin(ttl, before, login, k);
    hide RunTables, Step, LastWords, Effects, Timely, Expiry, NoLoginOrGone, IsLogin;
    RunAppend(m, Empty(), before + [login], since);
    LastWriterPerField(ttl, t, since, k, Entry(LoginState(login), login.at + ttl));
  }

  lemma AfterLogin(ttl: nat, before: seq<Event>, login: Event, k: LocalKey)
    requires IsLogin(login, k)
    ensures UserIn(RunTables(TypedMachine(ttl), Empty(), before + [login]), k) ==
            Some(Entry(LoginState(login), login.at + ttl))
  {
    var m := TypedMachine(ttl);
    var t := RunTables(m, Empty(), before);
    OneEventRun(m, t, login);
    hide RunTables, Step;
    RunAppend(m, Empty(), before, [login]);
    LoginStep(ttl, t, login, k);
  }

  lemma OneEventRun<K>(m: Machine<K>, t: Tables<K>, e: Event)
    ensures RunTables(m, t, [e]) == Step(m, t, e)
  {
    assert [e][1..] == [];
    hide Step;
  }

  // What the program's user map answers at the end of a run is what the server's
  // typed machine does.
  lemma ReadOut(ttl: nat, start: int, addr: string, now: int, events: seq<Event>, k: LocalKey)
    requires Admissible(events, now, ServerId(start, addr)) && k.UserKey? && Clean(k)
    ensures var s := ServerId(start, addr);
            Lookup(RunTables(StringMachine(ttl, 0), Empty(), events).users, Render(s, k), EndOf(now, events)) ==
            Lookup(RunTables(TypedMachine(ttl), Empty(), EventsOf(s, events)).users, k, EndOf(now, events))
  {
    hide RunTables, EventsOf, Admissible, EndOf, Render, Clean, ServerId;
    var s := ServerId(start, addr);
    EmptyRefines(s, now);
    TablesRefine(Empty(), s, Empty(), ttl, now, events);
    SameLookup(RunTables(StringMachine(ttl, 0), Empty(), events), s,
               RunTables(TypedMachine(ttl), Empty(), EventsOf(s, events)), EndOf(now, events), k);
  }

  lemma SameLookup(t: Tables<string>, s: string, i: Tables<LocalKey>, now: int, k: LocalKey)
    requires Refines(t, s, i, now) && k.UserKey? && Clean(k)
    ensures Lookup(t.users, Render(s, k), now) == Lookup(i.users, k, now)
  {
    hide Render, Clean;
    assert In(UserMap, k);
    assert Live(t.users, Render(s, k), now) == Live(i.users, k, now);
  }

  lemma {:induction false} RunAppend<K>(m: Machine<K>, t: Tables<K>, a: seq<Event>, b: seq<Event>)
    ensures RunTables(m, t, a + b) == RunTables(m, RunTables(m, t, a), b)
    decreases |a|
  {
    hide Step;
    if a == [] {
      assert a + b == b;
    } else {
      assert (a + b)[1..] == a[1..] + b;
      RunAppend(m, Step(m, t, a[0]), a[1..], b);
    }
  }

  // ---- A token packet that names no user id

  // A 'T' packet is meant to add a token to a user. One without a user id is
  // taken for a login, and so keeps the rest of a user exactly if there is
  // nothing to lose or it is about another user.
  predicate KeepsUser(rec: UserRecord, u: UserState, k: LocalKey)
  {
    || rec.tokenInfo.userDictId != 0
    || UserKeyOf(rec.userInfo) != k
    || (u.authInfo == NO_AUTH && u.appInfo == "" && u.experimentId == 0 && u.activityId == 0)
  }

  predicate SameButToken(u: UserState, u': UserState)
  {
    && u.authInfo == u'.authInfo && u.appInfo == u'.appInfo
    && u.experimentId == u'.experimentId && u.activityId == u'.activityId
  }

  lemma TokenPacketKeeps(ttl: nat, t: Tables<LocalKey>, e: Event, k: LocalKey)
    requires e.Handle? && e.job.UserJob? && e.job.user.authInfo == NO_AUTH && LiveUser(t, k, e.at)
    ensures var rec, u := e.job.user, t.users[k].value;
            var after := UserIn(Step(TypedMachine(ttl), t, e), k);
            && after.Some?
            && var u' := after.value.value;
               && (u'.authInfo == u.authInfo <==>
                     rec.tokenInfo.userDictId != 0 || UserKeyOf(rec.userInfo) != k || u.authInfo == NO_AUTH)
               && (SameButToken(u', u) <==> KeepsUser(rec, u, k))
  {
    EventStep(ttl, t, e, k);
    hide Step, UserKeyOf, Resolved;
  }

  // The same of the program's user map, in any interleaving with other
  // servers' packets and with cleanups.
  lemma TokenPacketInTraffic(ttl: nat, start: int, addr: string, now: int, events: seq<Event>,
                             before: seq<Event>, e: Event, k: LocalKey)
    requires Admissible(events, now, ServerId(start, addr)) && k.UserKey? && Clean(k)
    requires EventsOf(ServerId(start, addr), events) == before + [e]
    requires e.Handle? && e.job.UserJob? && e.job.user.authInfo == NO_AUTH
    requires LiveUser(RunTables(TypedMachine(ttl), Empty(), before), k, e.at)
    requires LiveUser(RunTables(TypedMachine(ttl), Empty(), before + [e]), k, EndOf(now, events))
    ensures var rec, u := e.job.user, RunTables(TypedMachine(ttl), Empty(), before).users[k].value;
            var users := RunTables(StringMachine(ttl, 0), Empty(), events).users;
            var after := Lookup(users, Render(ServerId(start, addr), k), EndOf(now, events));
            && after.Some?
            && (after.value.authInfo == u.authInfo <==>
                  rec.tokenInfo.userDictId != 0 || UserKeyOf(rec.userInfo) != k || u.authInfo == NO_AUTH)
            && (SameButToken(after.value, u) <==> KeepsUser(rec, u, k))
  {
    hide RunTables, Step, EventsOf, Render, Admissible, EndOf, Clean, UserKeyOf;
    var m := TypedMachine(ttl);
    var t := RunTables(m, Empty(), before);
    RunAppend(m, Empty(), before, [e]);
    OneEventRun(m, t, e);
    TokenPacketKeeps(ttl, t, e, k);
    ReadOut(ttl, start, addr, now, events, k);
  }

  // ---- Users lie under their own keys

  // For any way of making keys, and so for the program's maps and for a
  // server's own alike.
  ghost predicate OwnKeyed<K>(make: (string, LocalKey) -> K, ids: set<string>, t: Tables<K>)
  {
    forall key :: key in t.users ==> exists s :: s in ids && key == make(s, UserKeyOf(t.users[key].value.userInfo))
  }

  ghost predicate KeyedWrite<K>(make: (string, LocalKey) -> K, ids: set<string>, server: string, w: Write)
  {
    w.PutUser? ==> exists s :: s in ids && make(server, w.key) == make(s, UserKeyOf(w.user.userInfo))
  }

  ghost predicate KeyedWrites<K>(make: (string, LocalKey) -> K, ids: set<string>, server: string, ws: seq<Write>)
  {
    forall i :: 0 <= i < |ws| ==> KeyedWrite(make, ids, server, ws[i])
  }

  // The servers heard of.
  function Senders(events: seq<Event>): set<string>
  {
    set e | e in events && e.Handle? :: IdOf(e.origin)
  }

  lemma KeyedStep<K>(c: Setting<K>, ids: set<string>, t: Tables<K>, server: string, w: Write)
    requires OwnKeyed(c.key, ids, t) && KeyedWrite(c.key, ids, server, w)
    ensures OwnKeyed(c.key, ids, Written(c, t, server, w))
  {
    hide UserKeyOf;
  }

  lemma {:induction false} KeyedWritten<K>(c: Setting<K>, ids: set<string>, t: Tables<K>, server: string,
                                           ws: seq<Write>)
    requires OwnKeyed(c.key, ids, t) && KeyedWrites(c.key, ids, server, ws)
    ensures OwnKeyed(c.key, ids, AllWritten(c, t, server, ws))
    decreases |ws|
  {
    if ws != [] {
      KeyedStep(c, ids, t, server, ws[0]);
      hide OwnKeyed, KeyedWrite, Written;
      KeyedWritten(c, ids, Written(c, t, server, ws[0]), server, ws[1..]);
    }
  }

  // A user found under an info's key need not have that info, only its key.
  lemma KeyedUser<K>(c: Setting<K>, ids: set<string>, t: Tables<K>, server: string, info: UserInfo, userId: nat)
    requires server in ids && OwnKeyed(c.key, ids, t)
    ensures exists s :: s in ids &&
              c.key(server, UserKeyOf(info)) == c.key(s, UserKeyOf(UserOr(c, t, server, info, userId).userInfo))
  {
    hide UserKeyOf;
    var key := c.key(server, UserKeyOf(info));
    if UserAt(c, t, server, UserKeyOf(info)).Some? {
      var u := UserOr(c, t, server, info, userId);
      assert key in t.users && t.users[key].value == u;
      var s: string :| s in ids && key == c.key(s, UserKeyOf(t.users[key].value.userInfo));
      assert c.key(server, UserKeyOf(info)) == c.key(s, UserKeyOf(u.userInfo));
    } else {
      assert UserOr(c, t, server, info, userId).userInfo == info;
    }
  }

  lemma KeyedInfo<K>(c: Setting<K>, ids: set<string>, t: Tables<K>, server: string, packetType: char, dictId: nat,
                     info: UserInfo, rest: Option<string>)
    requires server in ids && OwnKeyed(c.key, ids, t)
    ensures KeyedWrites(c.key, ids, server, InfoWrites(c, t, server, packetType, dictId, info, rest))
  {
    KeyedUser(c, ids, t, server, info, dictId);
    if rest.Some? {
      KeyedCodes(c, ids, t, server, info, EAOf(Split(rest.value, '&')));
    }
    hide UserKeyOf, EAOf, Split, CodeWrites, UserOr, OwnKeyed;
  }

  lemma KeyedCodes<K>(c: Setting<K>, ids: set<string>, t: Tables<K>, server: string, info: UserInfo, codes: EAInfo)
    requires server in ids && OwnKeyed(c.key, ids, t)
    ensures KeyedWrites(c.key, ids, server, CodeWrites(c, t, server, info, codes))
  {
    var known := DictAt(c, t, server, DictIdKey(codes.udid));
    var user := if known.Some? && known.value.KnownUser? then known.value.userInfo else info;
    KeyedUser(c, ids, t, server, user, codes.udid);
    hide UserKeyOf, DictAt, UserOr, OwnKeyed;
  }

  lemma KeyedUserRecord<K>(c: Setting<K>, ids: set<string>, t: Tables<K>, server: string, rec: UserRecord)
    requires server in ids && OwnKeyed(c.key, ids, t)
    ensures KeyedWrites(c.key, ids, server, UserWrites(c, t, server, rec))
  {
    var known := DictAt(c, t, server, DictIdKey(rec.tokenInfo.userDictId));
    var ws := UserWrites(c, t, server, rec);
    if known.Some? && known.value.KnownUser? {
      KeyedUser(c, ids, t, server, known.value.userInfo, 0);
    }
    if |ws| == 2 {
      assert c.key(server, ws[1].key) == c.key(server, UserKeyOf(ws[1].user.userInfo));
      assert KeyedWrite(c.key, ids, server, ws[0]) && KeyedWrite(c.key, ids, server, ws[1]);
    } else if |ws| == 1 {
      assert ws[0].user.userInfo == UserOr(c, t, server, known.value.userInfo, 0).userInfo;
      assert KeyedWrite(c.key, ids, server, ws[0]);
    }
    hide UserKeyOf, DictAt, OwnKeyed;
  }

  lemma KeyedOutcome<K>(c: Setting<K>, ids: set<string>, t: Tables<K>, o: Origin, job: Job)
    requires IdOf(o) in ids && OwnKeyed(c.key, ids, t)
    ensures KeyedWrites(c.key, ids, IdOf(o), JobOutcome(c, t, o, job).writes)
  {
    match job
    case ServerJob(_) =>
    case MappingJob(packetType, dictId, text) =>
      var parsed := CollectorUserInfo(Before(text, '\n'));
      if parsed.Ok? {
        KeyedInfo(c, ids, t, IdOf(o), packetType, dictId, parsed.value, RestOf(text));
      }
      hide IdOf, CollectorUserInfo, Before, RestOf, InfoWrites, OwnKeyed;
    case UserJob(rec) =>
      KeyedUserRecord(c, ids, t, IdOf(o), rec);
      hide IdOf, UserWrites, KeyedWrites, OwnKeyed;
    case FileJob(_) =>
      hide UserKeyOf, IdOf, DictAt, OpenState, TimeState, RecordFor, FileAt, OwnKeyed;
  }

  lemma KeyedSweep<K>(make: (string, LocalKey) -> K, ids: set<string>, t: Tables<K>, which: MapName, now: int)
    requires OwnKeyed(make, ids, t)
    ensures OwnKeyed(make, ids, SweptTables(t, which, now))
  {
    hide UserKeyOf;
  }

  lemma {:induction false} KeyedRun<K>(m: Machine<K>, ids: set<string>, t: Tables<K>, events: seq<Event>)
    requires Senders(events) <= ids && OwnKeyed(m.key, ids, t)
    ensures OwnKeyed(m.key, ids, RunTables(m, t, events))
    decreases |events|
  {
    hide OwnKeyed, KeyedWrites;
    if events != [] {
      var e := events[0];
      if e.Cleanup? {
        KeyedSweep(m.key, ids, t, e.which, e.at);
      } else {
        assert e in events && IdOf(e.origin) in Senders(events);
        KeyedOutcome(At(m, e.at), ids, t, e.origin, e.job);
        KeyedWritten(At(m, e.at), ids, t, IdOf(e.origin), JobOutcome(At(m, e.at), t, e.origin, e.job).writes);
      }
      hide JobOutcome, AllWritten, IdOf, UserKeyOf;
      assert Senders(events[1..]) <= Senders(events);
      KeyedRun(m, ids, Step(m, t, e), events[1..]);
    }
  }

  // After any run, with any entry limit and any senders, every entry of the
  // program's user map sits under the key its own user info has for one of the
  // servers heard of.
  lemma AlwaysOwnKeyed(ttl: nat, maxEntries: int, events: seq<Event>)
    ensures var users := RunTables(StringMachine(ttl, maxEntries), Empty(), events).users;
            forall key :: key in users ==>
              exists e :: e in events && e.Handle? &&
                          key == Render(IdOf(e.origin), UserKeyOf(users[key].value.userInfo))
  {
    KeyedRun(StringMachine(ttl, maxEntries), Senders(events), Empty(), events);
    hide UserKeyOf, Render, RunTables, IdOf;
    var users := RunTables(StringMachine(ttl, maxEntries), Empty(), events).users;
    forall key | key in users
      ensures exists e :: e in events && e.Handle? &&
                          key == Render(IdOf(e.origin), UserKeyOf(users[key].value.userInfo))
    {
      var s :| s in Senders(events) && key == Render(s, UserKeyOf(users[key].value.userInfo));
    }
  }
}

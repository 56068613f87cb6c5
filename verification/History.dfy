// A second account of the correlator, without maps: what the packets a server
// has sent so far, read from the last one backwards, say of an id, a file, a
// user or the server itself.
module History {
  import opened Records
  import opened Text
  import opened UserInfoText
  import opened KeyValue
  import opened Keys
  import opened StateMaps
  import opened CorrelatorModel
  import opened ServerIsolation
  import opened UserHistory
  import opened PacketEffects
  import CloseMatching

  function Last(past: seq<Event>): Event
    requires past != []
  {
    past[|past| - 1]
  }

  function Front(past: seq<Event>): seq<Event>
    requires past != []
  {
    past[..|past| - 1]
  }

  // One server's packets, in the order of their times, up to now.
  predicate InOrder(past: seq<Event>, now: int)
    decreases |past|
  {
    past != [] ==> Last(past).Handle? && Last(past).at <= now && InOrder(Front(past), Last(past).at)
  }

  // ---- What one packet says

  // Whom it makes an id stand for, whatever the id stood for before.
  function Introduced(e: Event, id: nat): Option<UserInfo>
  {
    match e
    case Handle(_, MappingJob(kind, dictId, text), _) =>
      (match FirstLine(text)
       case Ok(info) => if dictId == id && (kind == 'd' || (kind == 'i' && '\n' in text)) then Some(info) else None
       case Err => None)
    case Handle(_, UserJob(rec), _) =>
      if rec.dictId == id && rec.tokenInfo.userDictId == 0 then Some(rec.userInfo) else None
    case _ => None
  }

  // The user it names and the codes it gives.
  function CodesIn(e: Event): Option<(UserInfo, EAInfo)>
  {
    match e
    case Handle(_, MappingJob(kind, _, text), _) =>
      if kind == 'U' && '\n' in text && FirstLine(text).Ok?
      then Some((FirstLine(text).value, EAOf(Split(After(text, '\n'), '&')))) else None
    case _ => None
  }

  // Whom it makes an id stand for that stands for nobody.
  function Proposed(e: Event, id: nat): Option<UserInfo>
  {
    match CodesIn(e)
    case Some((named, codes)) => if id != 0 && codes.udid == id then Some(named) else None
    case None => None
  }

  predicate SignsOff(e: Event, id: nat)
  {
    e.Handle? && e.job.FileJob? && e.job.file.DisconnectRecord? && e.job.file.userId == id
  }

  // What it stores of a file id: a path and its user, or the text as it is.
  function PathIn(e: Event, id: nat): Option<DictValue>
  {
    match e
    case Handle(_, MappingJob(kind, dictId, text), _) =>
      if dictId != id then None
      else
        (match FirstLine(text)
         case Err => Some(RawText(text))
         case Ok(info) => if kind == 'd' && '\n' in text then Some(PathInfo(After(text, '\n'), info)) else None)
    case _ => None
  }

  // ---- What is said of an id

  // Said at `at`, and not forgotten yet.
  function Kept<T>(said: T, at: int, ttl: nat, now: int): Option<T>
  {
    if now <= at + ttl then Some(said) else None
  }

  function StandsFor(ttl: nat, past: seq<Event>, id: nat, now: int): Option<UserInfo>
    decreases |past|
  {
    if past == [] then None
    else
      var e, front := Last(past), Front(past);
      if Introduced(e, id).Some? then Kept(Introduced(e, id).value, e.at, ttl, now)
      else if Proposed(e, id).Some? && StandsFor(ttl, front, id, e.at).None?
      then Kept(Proposed(e, id).value, e.at, ttl, now)
      else if SignsOff(e, id) then None
      else StandsFor(ttl, front, id, now)
  }

  function PathSaid(ttl: nat, past: seq<Event>, id: nat, now: int): Option<DictValue>
    decreases |past|
  {
    if past == [] then None
    else if PathIn(Last(past), id).Some? then Kept(PathIn(Last(past), id).value, Last(past).at, ttl, now)
    else PathSaid(ttl, Front(past), id, now)
  }

  // ---- What is said of a user

  // Nothing but who it is.
  function Fresh(id: nat, info: UserInfo, at: int): UserState
  {
    UserState(id, info, NO_AUTH, NO_TOKEN, "", 0, 0, at)
  }

  function OrFresh(u: Option<UserState>, id: nat, info: UserInfo, at: int): UserState
  {
    if u.Some? then u.value else Fresh(id, info, at)
  }

  // Whom the codes of a packet are for: the user its id stands for, and the one
  // it names only if the id stands for nobody.
  function CodesFor(ttl: nat, front: seq<Event>, e: Event): Option<UserInfo>
  {
    match CodesIn(e)
    case None => None
    case Some((named, codes)) =>
      if codes.udid == 0 then None
      else if StandsFor(ttl, front, codes.udid, e.at).Some? then StandsFor(ttl, front, codes.udid, e.at)
      else Some(named)
  }

  function AppIn(e: Event): Option<(nat, UserInfo, string)>
  {
    match e
    case Handle(_, MappingJob(kind, id, text), _) =>
      if kind == 'i' && '\n' in text && FirstLine(text).Ok?
      then Some((id, FirstLine(text).value, After(text, '\n'))) else None
    case _ => None
  }

  // Whom a packet is about, if it changes a user at all. Tokens only ever
  // change a user that is there.
  function About(ttl: nat, front: seq<Event>, e: Event): Option<UserInfo>
  {
    match e
    case Handle(_, UserJob(rec), at) =>
      if rec.tokenInfo.userDictId == 0 then Some(rec.userInfo)
      else StandsFor(ttl, front, rec.tokenInfo.userDictId, at)
    case Handle(_, MappingJob(kind, _, _), _) =>
      if kind == 'i' then (if AppIn(e).Some? then Some(AppIn(e).value.1) else None) else CodesFor(ttl, front, e)
    case Handle(_, FileJob(DisconnectRecord(_, id)), at) => StandsFor(ttl, front, id, at)
    case _ => None
  }

  // What it makes of that user, of whom u was known.
  function Changed(e: Event, info: UserInfo, u: Option<UserState>): Option<UserState>
  {
    match e
    case Handle(_, UserJob(rec), at) =>
      if rec.tokenInfo.userDictId == 0
      then Some(UserState(rec.dictId, rec.userInfo, rec.authInfo, rec.tokenInfo, "", 0, 0, at))
      else if u.Some? then Some(u.value.(tokenInfo := rec.tokenInfo)) else None
    case Handle(_, MappingJob(_, id, text), at) =>
      if AppIn(e).Some? then Some(OrFresh(u, id, info, at).(appInfo := After(text, '\n')))
      else
        (match CodesIn(e)
         case Some((_, codes)) =>
           Some(OrFresh(u, codes.udid, info, at)
                .(experimentId := codes.experimentId, activityId := codes.activityId))
         case None => None)
    case _ => None
  }

  // Of the user with the key k; every word on a user renews it.
  function UserSaid(ttl: nat, past: seq<Event>, k: LocalKey, now: int): Option<UserState>
    decreases |past|
  {
    if past == [] then None
    else
      var e, front := Last(past), Front(past);
      var about := About(ttl, front, e);
      if about.Some? && UserKeyOf(about.value) == k then
        (match Changed(e, about.value, UserSaid(ttl, front, k, e.at))
         case Some(u) => Kept(u, e.at, ttl, now)
         case None => None)
      else UserSaid(ttl, front, k, now)
  }

  // ---- What is said of a file

  // The name an open goes by: its own, or the text kept for its file id.
  function NameSaid(ttl: nat, front: seq<Event>, rec: FileRecord, at: int): string
    requires rec.OpenRecord?
  {
    if rec.lfn != [] || rec.header.fileId == 0 then AsText(rec.lfn)
    else
      match PathSaid(ttl, front, rec.header.fileId, at)
      case Some(RawText(text)) => text
      case _ => ""
  }

  function FileSaid(ttl: nat, past: seq<Event>, id: nat, now: int): Option<FileState>
    decreases |past|
  {
    if past == [] then None
    else
      match Last(past)
      case Handle(o, FileJob(OpenRecord(h, size, user, lfn)), at) =>
        if h.fileId == id then
          var name := NameSaid(ttl, Front(past), Last(past).job.file, at);
          Kept(FileState(id, if h.userId != 0 then h.userId else user, o.serverStart, size, name, IdOf(o), 0, at), at,
               ttl, now)
        else FileSaid(ttl, Front(past), id, now)
      case Handle(_, FileJob(CloseRecord(h, _, _)), _) =>
        if h.fileId == id then None else FileSaid(ttl, Front(past), id, now)
      case _ => FileSaid(ttl, Front(past), id, now)
  }

  function TimeSaid(ttl: nat, past: seq<Event>, id: nat, stream: int, now: int): Option<FileState>
    decreases |past|
  {
    if past == [] then None
    else
      match Last(past)
      case Handle(o, FileJob(TimeRecord(h, tBeg, _, sid)), at) =>
        if h.fileId == id && sid == stream
        then Kept(FileState(id, h.userId, tBeg, 0, "", IdOf(o), stream, at), at, ttl, now)
        else TimeSaid(ttl, Front(past), id, stream, now)
      case _ => TimeSaid(ttl, Front(past), id, stream, now)
  }

  // ---- What is said of the server

  function ServerSaid(ttl: nat, past: seq<Event>, now: int): Option<ServerInfo>
    decreases |past|
  {
    if past == [] then None
    else
      match Last(past)
      case Handle(_, ServerJob(info), at) => Kept(info, at, ttl, now)
      case _ => ServerSaid(ttl, Front(past), now)
  }

  // ---- The maps hold what is said: one packet

  // The typed machine after some packets.
  ghost function Reached(ttl: nat, past: seq<Event>): Tables<LocalKey>
  {
    RunTables(TypedMachine(ttl), Empty(), past)
  }

  lemma ReachedLast(ttl: nat, past: seq<Event>)
    requires past != []
    ensures Reached(ttl, past) == Step(TypedMachine(ttl), Reached(ttl, Front(past)), Last(past))
  {
    assert past == Front(past) + [Last(past)];
    RunAppend(TypedMachine(ttl), Empty(), Front(past), [Last(past)]);
    OneEventRun(TypedMachine(ttl), Reached(ttl, Front(past)), Last(past));
    hide RunTables, Step;
  }

  // Ids stand for users only.
  ghost predicate OnlyUsers(t: Tables<LocalKey>, now: int)
  {
    forall id: nat :: var v := Lookup(t.dicts, DictIdKey(id), now); v.Some? ==> v.value.KnownUser?
  }

  function Naming(who: Option<UserInfo>): Option<DictValue>
  {
    if who.Some? then Some(KnownUser(who.value)) else None
  }

  // What a packet leaves of an id and of a path.
  ghost predicate DictStepped(ttl: nat, t: Tables<LocalKey>, e: Event, id: nat, now: int)
  {
    var d := Step(TypedMachine(ttl), t, e).dicts;
    && Lookup(d, DictIdKey(id), now) ==
       (if Introduced(e, id).Some? then Naming(Kept(Introduced(e, id).value, e.at, ttl, now))
        else if Proposed(e, id).Some? && Lookup(t.dicts, DictIdKey(id), e.at).None?
        then Naming(Kept(Proposed(e, id).value, e.at, ttl, now))
        else if SignsOff(e, id) then None
        else Lookup(t.dicts, DictIdKey(id), now))
    && Lookup(d, PathKey(id), now) ==
       (if PathIn(e, id).Some? then Kept(PathIn(e, id).value, e.at, ttl, now)
        else Lookup(t.dicts, PathKey(id), now))
  }

  lemma CodesDicts(ttl: nat, t: Tables<LocalKey>, e: Event, id: nat, now: int)
    requires e.Handle? && e.job.MappingJob? && e.at <= now && OnlyUsers(t, e.at)
    requires e.job.packetType == 'U' && '\n' in e.job.text && FirstLine(e.job.text).Ok?
    requires EAOf(Split(After(e.job.text, '\n'), '&')).udid != 0
    ensures DictStepped(ttl, t, e, id, now)
  {
    hide Step, FirstLine, EAOf, Split, After, UserKeyOf, UserBefore;
    var m, o, dictId, text := TypedMachine(ttl), e.origin, e.job.dictId, e.job.text;
    var info := FirstLine(text).value;
    var known := Lookup(t.dicts, DictIdKey(EAOf(Split(After(text, '\n'), '&')).udid), e.at);
    if known.None? {
      NewCodesTables(m, t, o, dictId, text, info, e.at);
    } else {
      CodesTables(m, t, o, dictId, text, info, known.value.userInfo, e.at);
    }
  }

  lemma AppDicts(ttl: nat, t: Tables<LocalKey>, e: Event, id: nat, now: int)
    requires e.Handle? && e.job.MappingJob? && e.at <= now
    requires e.job.packetType == 'i' && '\n' in e.job.text && FirstLine(e.job.text).Ok?
    ensures DictStepped(ttl, t, e, id, now)
  {
    hide Step, FirstLine, After, UserKeyOf, UserBefore;
    AppTables(TypedMachine(ttl), t, e.origin, e.job.dictId, e.job.text, FirstLine(e.job.text).value, e.at);
  }

  lemma PathDicts(ttl: nat, t: Tables<LocalKey>, e: Event, id: nat, now: int)
    requires e.Handle? && e.job.MappingJob? && e.at <= now && e.job.packetType == 'd' && FirstLine(e.job.text).Ok?
    ensures DictStepped(ttl, t, e, id, now)
  {
    hide Step, FirstLine, After;
    PathTables(TypedMachine(ttl), t, e.origin, e.job.dictId, e.job.text, FirstLine(e.job.text).value, e.at);
  }

  lemma OtherDicts(ttl: nat, t: Tables<LocalKey>, e: Event, id: nat, now: int)
    requires e.Handle? && e.job.MappingJob? && e.at <= now
    requires var kind, text := e.job.packetType, e.job.text;
             FirstLine(text).Ok? ==>
               kind != 'd' && ('\n' in text ==> kind != 'i' &&
                                                (kind == 'U' ==> EAOf(Split(After(text, '\n'), '&')).udid == 0))
    ensures DictStepped(ttl, t, e, id, now)
  {
    hide Step, FirstLine, EAOf, Split, After;
    var m, o, kind, dictId, text := TypedMachine(ttl), e.origin, e.job.packetType, e.job.dictId, e.job.text;
    if FirstLine(text).Err? {
      RawTables(m, t, o, kind, dictId, text, e.at);
    } else {
      IgnoredTables(m, t, o, kind, dictId, text, e.at);
    }
  }

  lemma MappingDicts(ttl: nat, t: Tables<LocalKey>, e: Event, id: nat, now: int)
    requires e.Handle? && e.job.MappingJob? && e.at <= now && OnlyUsers(t, e.at)
    ensures DictStepped(ttl, t, e, id, now)
  {
    hide DictStepped, FirstLine, EAOf, Split, After, OnlyUsers;
    var kind, text := e.job.packetType, e.job.text;
    if FirstLine(text).Ok? && kind == 'd' {
      PathDicts(ttl, t, e, id, now);
    } else if FirstLine(text).Ok? && kind == 'i' && '\n' in text {
      AppDicts(ttl, t, e, id, now);
    } else if FirstLine(text).Ok? && kind == 'U' && '\n' in text
              && EAOf(Split(After(text, '\n'), '&')).udid != 0 {
      CodesDicts(ttl, t, e, id, now);
    } else {
      OtherDicts(ttl, t, e, id, now);
    }
  }

  lemma UserRecordDicts(ttl: nat, t: Tables<LocalKey>, e: Event, id: nat, now: int)
    requires e.Handle? && e.job.UserJob? && e.at <= now && OnlyUsers(t, e.at)
    ensures DictStepped(ttl, t, e, id, now)
  {
    hide Step, UserKeyOf;
    UserRecordTables(ttl, t, e);
  }

  // What a login or a token comes to.
  lemma UserRecordTables(ttl: nat, t: Tables<LocalKey>, e: Event)
    requires e.Handle? && e.job.UserJob? && OnlyUsers(t, e.at)
    ensures var rec, t', until := e.job.user, Step(TypedMachine(ttl), t, e), e.at + ttl;
            var who := Lookup(t.dicts, DictIdKey(rec.tokenInfo.userDictId), e.at);
            if rec.tokenInfo.userDictId == 0 then
              t' == t.(dicts := t.dicts[DictIdKey(rec.dictId) := Entry(KnownUser(rec.userInfo), until)],
                       users := t.users[UserKeyOf(rec.userInfo) :=
                                          Entry(UserState(rec.dictId, rec.userInfo, rec.authInfo, rec.tokenInfo, "",
                                                          0, 0, e.at), until)])
            else if who.Some? && Lookup(t.users, UserKeyOf(who.value.userInfo), e.at).Some? then
              var k := UserKeyOf(who.value.userInfo);
              t' == t.(users := t.users[k := Entry(Lookup(t.users, k, e.at).value.(tokenInfo := rec.tokenInfo), until)])
            else t' == t
  {
    hide Step, UserKeyOf;
    var m, rec := TypedMachine(ttl), e.job.user;
    var who := Lookup(t.dicts, DictIdKey(rec.tokenInfo.userDictId), e.at);
    if rec.tokenInfo.userDictId == 0 {
      LoginTables(m, t, e.origin, rec, e.at);
    } else if who.Some? && Lookup(t.users, UserKeyOf(who.value.userInfo), e.at).Some? {
      var u := Lookup(t.users, UserKeyOf(who.value.userInfo), e.at).value;
      TokenTables(m, t, e.origin, rec, who.value.userInfo, u, e.at);
    } else {
      LostToken(m, t, e.origin, rec, e.at);
    }
  }

  // What a file record comes to.
  lemma FileRecordTables(ttl: nat, t: Tables<LocalKey>, e: Event)
    requires e.Handle? && e.job.FileJob? && OnlyUsers(t, e.at)
    ensures var rec, t', until := e.job.file, Step(TypedMachine(ttl), t, e), e.at + ttl;
            match rec
            case DisconnectRecord(_, userId) =>
              var who := Lookup(t.dicts, DictIdKey(userId), e.at);
              t' == if who.Some? then t.(dicts := Remove(t.dicts, DictIdKey(userId)),
                                         users := Remove(t.users, UserKeyOf(who.value.userInfo)))
                    else t
            case OpenRecord(h, _, _, _) =>
              var f := OpenState(Typed(ttl, e.at), t, e.origin, rec);
              t' == t.(files := t.files[FileKey(h.fileId) := Entry(f, until)])
            case CloseRecord(h, _, _) =>
              var k := FileKey(h.fileId);
              t' == if Lookup(t.files, k, e.at).Some? then t.(files := Remove(t.files, k)) else t
            case TimeRecord(h, tBeg, _, sid) =>
              var f := FileState(h.fileId, h.userId, tBeg, 0, "", IdOf(e.origin), sid, e.at);
              t' == t.(files := t.files[TimeKey(h.fileId, sid) := Entry(f, until)])
  {
    hide Step, UserKeyOf, OpenState, Remove, IdOf;
    var m, rec := TypedMachine(ttl), e.job.file;
    match rec
    case OpenRecord(_, _, _, _) => OpenTables(m, t, e.origin, rec, e.at);
    case CloseRecord(_, _, _) => CloseTables(m, t, e.origin, rec, e.at);
    case TimeRecord(_, _, _, _) => TimeTables(m, t, e.origin, rec, e.at);
    case DisconnectRecord(_, userId) =>
      var who := Lookup(t.dicts, DictIdKey(userId), e.at);
      if who.Some? {
        DisconnectTables(m, t, e.origin, rec, who.value.userInfo, e.at);
      } else {
        LostDisconnect(m, t, e.origin, rec, e.at);
      }
  }

  lemma FileRecordDicts(ttl: nat, t: Tables<LocalKey>, e: Event, id: nat, now: int)
    requires e.Handle? && e.job.FileJob? && e.at <= now && OnlyUsers(t, e.at)
    ensures DictStepped(ttl, t, e, id, now)
  {
    hide Step, UserKeyOf, OpenState;
    FileRecordTables(ttl, t, e);
  }

  lemma DictsStep(ttl: nat, t: Tables<LocalKey>, e: Event, id: nat, now: int)
    requires e.Handle? && e.at <= now && OnlyUsers(t, e.at)
    ensures DictStepped(ttl, t, e, id, now)
  {
    hide OnlyUsers;
    match e.job
    case ServerJob(info) =>
      ServerTables(TypedMachine(ttl), t, e.origin, info, e.at);
      hide Step;
    case MappingJob(_, _, _) =>
      MappingDicts(ttl, t, e, id, now);
      hide DictStepped;
    case UserJob(_) =>
      UserRecordDicts(ttl, t, e, id, now);
      hide DictStepped;
    case FileJob(_) =>
      FileRecordDicts(ttl, t, e, id, now);
      hide DictStepped;
  }

  // ---- And all of them

  lemma {:induction false} DictsSaid(ttl: nat, past: seq<Event>, now: int)
    requires InOrder(past, now)
    ensures OnlyUsers(Reached(ttl, past), now)
    ensures forall id: nat :: Lookup(Reached(ttl, past).dicts, DictIdKey(id), now) ==
                              Naming(StandsFor(ttl, past, id, now))
    ensures forall id: nat :: Lookup(Reached(ttl, past).dicts, PathKey(id), now) == PathSaid(ttl, past, id, now)
    decreases |past|
  {
    if past != [] {
      var front, e := Front(past), Last(past);
      DictsSaid(ttl, front, e.at);
      Later(front, e.at, now);
      DictsSaid(ttl, front, now);
      ReachedLast(ttl, past);
      hide Step, Reached, OnlyUsers, Introduced, Proposed, PathIn, SignsOff, InOrder;
      forall id: nat
        ensures Lookup(Reached(ttl, past).dicts, DictIdKey(id), now) == Naming(StandsFor(ttl, past, id, now))
        ensures Lookup(Reached(ttl, past).dicts, PathKey(id), now) == PathSaid(ttl, past, id, now)
      {
        DictsStep(ttl, Reached(ttl, front), e, id, now);
      }
    }
    StandingForUsers(ttl, past, now);
  }

  lemma StandingForUsers(ttl: nat, past: seq<Event>, now: int)
    requires forall id: nat :: Lookup(Reached(ttl, past).dicts, DictIdKey(id), now) ==
                               Naming(StandsFor(ttl, past, id, now))
    ensures OnlyUsers(Reached(ttl, past), now)
  {
    hide Reached, StandsFor;
  }

  lemma Later(past: seq<Event>, now: int, later: int)
    requires InOrder(past, now) && now <= later
    ensures InOrder(past, later)
  {}

  // ---- Users

  // The dictionary holds what was said of ids.
  ghost predicate IdsAsSaid(ttl: nat, t: Tables<LocalKey>, front: seq<Event>, now: int)
  {
    forall id: nat :: Lookup(t.dicts, DictIdKey(id), now) == Naming(StandsFor(ttl, front, id, now))
  }

  // What a packet leaves of a user.
  ghost predicate UserStepped(ttl: nat, t: Tables<LocalKey>, front: seq<Event>, e: Event, k: LocalKey, now: int)
  {
    var about := About(ttl, front, e);
    Lookup(Step(TypedMachine(ttl), t, e).users, k, now) ==
    if about.Some? && UserKeyOf(about.value) == k then
      (match Changed(e, about.value, Lookup(t.users, k, e.at))
       case Some(u) => Kept(u, e.at, ttl, now)
       case None => None)
    else Lookup(t.users, k, now)
  }

  lemma AppUsers(ttl: nat, t: Tables<LocalKey>, front: seq<Event>, e: Event, k: LocalKey, now: int)
    requires e.Handle? && e.job.MappingJob? && e.at <= now && e.job.packetType == 'i'
    requires FirstLine(e.job.text).Ok? && '\n' in e.job.text
    ensures UserStepped(ttl, t, front, e, k, now)
  {
    hide Step, FirstLine, After, UserKeyOf, CodesIn, CodesFor;
    AppTables(TypedMachine(ttl), t, e.origin, e.job.dictId, e.job.text, FirstLine(e.job.text).value, e.at);
  }

  // Whom a codes packet is for and what it makes of that user.
  lemma CodesAbout(ttl: nat, front: seq<Event>, e: Event, u: Option<UserState>)
    requires e.Handle? && e.job.MappingJob? && e.job.packetType == 'U'
    requires FirstLine(e.job.text).Ok? && '\n' in e.job.text
    requires EAOf(Split(After(e.job.text, '\n'), '&')).udid != 0
    ensures var codes := EAOf(Split(After(e.job.text, '\n'), '&'));
            var who := StandsFor(ttl, front, codes.udid, e.at);
            var info := if who.Some? then who.value else FirstLine(e.job.text).value;
            && About(ttl, front, e) == Some(info)
            && Changed(e, info, u) == Some(OrFresh(u, codes.udid, info, e.at)
                                           .(experimentId := codes.experimentId, activityId := codes.activityId))
  {
    hide FirstLine, EAOf, Split, After, StandsFor;
  }

  lemma CodesUsers(ttl: nat, t: Tables<LocalKey>, front: seq<Event>, e: Event, k: LocalKey, now: int)
    requires e.Handle? && e.job.MappingJob? && e.at <= now && e.job.packetType == 'U'
    requires FirstLine(e.job.text).Ok? && '\n' in e.job.text
    requires EAOf(Split(After(e.job.text, '\n'), '&')).udid != 0 && IdsAsSaid(ttl, t, front, e.at)
    ensures UserStepped(ttl, t, front, e, k, now)
  {
    hide Step, FirstLine, EAOf, Split, After, UserKeyOf, StandsFor, IdsAsSaid, About, Changed;
    var m, o, id, text := TypedMachine(ttl), e.origin, e.job.dictId, e.job.text;
    var info, udid := FirstLine(text).value, EAOf(Split(After(text, '\n'), '&')).udid;
    ReadIds(ttl, t, front, udid, e.at);
    CodesAbout(ttl, front, e, Lookup(t.users, k, e.at));
    if StandsFor(ttl, front, udid, e.at).None? {
      NewCodesTables(m, t, o, id, text, info, e.at);
    } else {
      CodesTables(m, t, o, id, text, info, StandsFor(ttl, front, udid, e.at).value, e.at);
    }
  }

  lemma ReadIds(ttl: nat, t: Tables<LocalKey>, front: seq<Event>, id: nat, now: int)
    requires IdsAsSaid(ttl, t, front, now)
    ensures Lookup(t.dicts, DictIdKey(id), now) == Naming(StandsFor(ttl, front, id, now))
  {}

  lemma QuietUsers(ttl: nat, t: Tables<LocalKey>, front: seq<Event>, e: Event, k: LocalKey, now: int)
    requires e.Handle? && e.job.MappingJob? && e.at <= now
    requires var kind, text := e.job.packetType, e.job.text;
             FirstLine(text).Ok? && '\n' in text && kind != 'd' ==>
               kind != 'i' && (kind == 'U' ==> EAOf(Split(After(text, '\n'), '&')).udid == 0)
    ensures UserStepped(ttl, t, front, e, k, now)
  {
    hide Step, FirstLine, EAOf, Split, After, UserKeyOf, StandsFor;
    var m, o, kind, dictId, text := TypedMachine(ttl), e.origin, e.job.packetType, e.job.dictId, e.job.text;
    if FirstLine(text).Err? {
      RawTables(m, t, o, kind, dictId, text, e.at);
    } else if kind == 'd' {
      PathTables(m, t, o, dictId, text, FirstLine(text).value, e.at);
    } else {
      IgnoredTables(m, t, o, kind, dictId, text, e.at);
    }
  }

  lemma MappingUsers(ttl: nat, t: Tables<LocalKey>, front: seq<Event>, e: Event, k: LocalKey, now: int)
    requires e.Handle? && e.job.MappingJob? && e.at <= now && IdsAsSaid(ttl, t, front, e.at)
    ensures UserStepped(ttl, t, front, e, k, now)
  {
    hide UserStepped, FirstLine, EAOf, Split, After, IdsAsSaid;
    var kind, text := e.job.packetType, e.job.text;
    if kind == 'i' && '\n' in text && FirstLine(text).Ok? {
      AppUsers(ttl, t, front, e, k, now);
    } else if kind == 'U' && '\n' in text && FirstLine(text).Ok? && EAOf(Split(After(text, '\n'), '&')).udid != 0 {
      CodesUsers(ttl, t, front, e, k, now);
    } else {
      QuietUsers(ttl, t, front, e, k, now);
    }
  }

  lemma UserRecordUsers(ttl: nat, t: Tables<LocalKey>, front: seq<Event>, e: Event, k: LocalKey, now: int)
    requires e.Handle? && e.job.UserJob? && e.at <= now && IdsAsSaid(ttl, t, front, e.at) && OnlyUsers(t, e.at)
    ensures UserStepped(ttl, t, front, e, k, now)
  {
    hide Step, UserKeyOf, StandsFor, OnlyUsers;
    UserRecordTables(ttl, t, e);
    var id := e.job.user.tokenInfo.userDictId;
    assert Lookup(t.dicts, DictIdKey(id), e.at) == Naming(StandsFor(ttl, front, id, e.at));
  }

  lemma DisconnectUsers(ttl: nat, t: Tables<LocalKey>, front: seq<Event>, e: Event, k: LocalKey, now: int)
    requires e.Handle? && e.job.FileJob? && e.at <= now && e.job.file.DisconnectRecord?
    requires IdsAsSaid(ttl, t, front, e.at) && OnlyUsers(t, e.at)
    ensures UserStepped(ttl, t, front, e, k, now)
  {
    hide Step, UserKeyOf, StandsFor, OnlyUsers, OpenState, IdsAsSaid;
    FileRecordTables(ttl, t, e);
    ReadIds(ttl, t, front, e.job.file.userId, e.at);
  }

  lemma FileRecordUsers(ttl: nat, t: Tables<LocalKey>, front: seq<Event>, e: Event, k: LocalKey, now: int)
    requires e.Handle? && e.job.FileJob? && e.at <= now && IdsAsSaid(ttl, t, front, e.at) && OnlyUsers(t, e.at)
    ensures UserStepped(ttl, t, front, e, k, now)
  {
    if e.job.file.DisconnectRecord? {
      DisconnectUsers(ttl, t, front, e, k, now);
      hide UserStepped;
    } else {
      FileRecordTables(ttl, t, e);
      hide Step, UserKeyOf, StandsFor, OnlyUsers, OpenState, IdsAsSaid, Remove, IdOf;
    }
  }

  lemma UsersStep(ttl: nat, t: Tables<LocalKey>, front: seq<Event>, e: Event, k: LocalKey, now: int)
    requires e.Handle? && e.at <= now && IdsAsSaid(ttl, t, front, e.at) && OnlyUsers(t, e.at)
    ensures UserStepped(ttl, t, front, e, k, now)
  {
    hide OnlyUsers, IdsAsSaid;
    match e.job
    case ServerJob(info) =>
      ServerTables(TypedMachine(ttl), t, e.origin, info, e.at);
      hide Step;
    case MappingJob(_, _, _) =>
      MappingUsers(ttl, t, front, e, k, now);
      hide UserStepped;
    case UserJob(_) =>
      UserRecordUsers(ttl, t, front, e, k, now);
      hide UserStepped;
    case FileJob(_) =>
      FileRecordUsers(ttl, t, front, e, k, now);
      hide UserStepped;
  }

  lemma {:induction false} UsersSaid(ttl: nat, past: seq<Event>, now: int)
    requires InOrder(past, now)
    ensures forall k :: Lookup(Reached(ttl, past).users, k, now) == UserSaid(ttl, past, k, now)
    decreases |past|
  {
    if past != [] {
      var front, e := Front(past), Last(past);
      UsersSaid(ttl, front, e.at);
      DictsSaid(ttl, front, e.at);
      Later(front, e.at, now);
      UsersSaid(ttl, front, now);
      ReachedLast(ttl, past);
      hide Step, Reached, OnlyUsers, About, Changed, InOrder, UserKeyOf, StandsFor, PathSaid;
      forall k
        ensures Lookup(Reached(ttl, past).users, k, now) == UserSaid(ttl, past, k, now)
      {
        UsersStep(ttl, Reached(ttl, front), front, e, k, now);
      }
    }
  }

  // ---- Files

  ghost predicate FilesStepped(ttl: nat, t: Tables<LocalKey>, e: Event, id: nat, stream: int, now: int)
    requires e.Handle?
  {
    var f := Step(TypedMachine(ttl), t, e).files;
    && Lookup(f, FileKey(id), now) ==
       (match e.job
        case FileJob(OpenRecord(h, _, _, _)) =>
          if h.fileId == id then Kept(OpenState(Typed(ttl, e.at), t, e.origin, e.job.file), e.at, ttl, now)
          else Lookup(t.files, FileKey(id), now)
        case FileJob(CloseRecord(h, _, _)) => if h.fileId == id then None else Lookup(t.files, FileKey(id), now)
        case _ => Lookup(t.files, FileKey(id), now))
    && Lookup(f, TimeKey(id, stream), now) ==
       (match e.job
        case FileJob(TimeRecord(h, tBeg, _, sid)) =>
          if h.fileId == id && sid == stream
          then Kept(FileState(id, h.userId, tBeg, 0, "", IdOf(e.origin), stream, e.at), e.at, ttl, now)
          else Lookup(t.files, TimeKey(id, stream), now)
        case _ => Lookup(t.files, TimeKey(id, stream), now))
  }

  lemma FilesStep(ttl: nat, t: Tables<LocalKey>, e: Event, id: nat, stream: int, now: int)
    requires e.Handle? && e.at <= now && OnlyUsers(t, e.at)
    ensures FilesStepped(ttl, t, e, id, stream, now)
  {
    hide Step, OpenState, OnlyUsers, UserKeyOf, IdOf;
    if e.job.FileJob? {
      FileRecordTables(ttl, t, e);
    } else {
      OtherFiles(ttl, t, e);
    }
  }

  lemma OtherFiles(ttl: nat, t: Tables<LocalKey>, e: Event)
    requires e.Handle? && !e.job.FileJob?
    ensures Step(TypedMachine(ttl), t, e).files == t.files
  {
    var c := Typed(ttl, e.at);
    CloseMatching.OnlyFileRecordsTouchFiles(c, t, e.origin, e.job);
    CloseMatching.FilesUntouched(c, t, IdOf(e.origin), JobOutcome(c, t, e.origin, e.job).writes);
    hide JobOutcome, AllWritten, IdOf;
  }

  lemma OpenedSaid(ttl: nat, t: Tables<LocalKey>, front: seq<Event>, e: Event)
    requires e.Handle? && e.job.FileJob? && e.job.file.OpenRecord?
    requires forall id: nat :: Lookup(t.dicts, PathKey(id), e.at) == PathSaid(ttl, front, id, e.at)
    ensures var rec := e.job.file;
            OpenState(Typed(ttl, e.at), t, e.origin, rec) ==
            FileState(rec.header.fileId, if rec.header.userId != 0 then rec.header.userId else rec.user,
                      e.origin.serverStart, rec.fileSize, NameSaid(ttl, front, rec, e.at), IdOf(e.origin), 0, e.at)
  {
    hide IdOf, AsText, PathSaid;
  }

  // One file id and one stream.
  ghost predicate FileAsSaid(ttl: nat, t: Tables<LocalKey>, past: seq<Event>, id: nat, stream: int, now: int)
  {
    && Lookup(t.files, FileKey(id), now) == FileSaid(ttl, past, id, now)
    && Lookup(t.files, TimeKey(id, stream), now) == TimeSaid(ttl, past, id, stream, now)
  }

  lemma OneMoreSaid(ttl: nat, t: Tables<LocalKey>, past: seq<Event>, id: nat, stream: int, now: int)
    requires past != [] && Last(past).Handle? && FileAsSaid(ttl, t, Front(past), id, stream, now)
    requires forall p: nat :: Lookup(t.dicts, PathKey(p), Last(past).at) == PathSaid(ttl, Front(past), p, Last(past).at)
    requires FilesStepped(ttl, t, Last(past), id, stream, now)
    ensures FileAsSaid(ttl, Step(TypedMachine(ttl), t, Last(past)), past, id, stream, now)
  {
    var e := Last(past);
    if e.job.FileJob? && e.job.file.OpenRecord? {
      OpenedSaid(ttl, t, Front(past), e);
    }
    hide Step, IdOf, OpenState, NameSaid, PathSaid, Lookup;
  }

  lemma {:induction false} FileIsSaid(ttl: nat, past: seq<Event>, id: nat, stream: int, now: int)
    requires InOrder(past, now)
    ensures FileAsSaid(ttl, Reached(ttl, past), past, id, stream, now)
    decreases |past|
  {
    if past != [] {
      var front, e := Front(past), Last(past);
      DictsSaid(ttl, front, e.at);
      Later(front, e.at, now);
      FileIsSaid(ttl, front, id, stream, now);
      ReachedLast(ttl, past);
      hide Step, Reached, OnlyUsers, FileAsSaid, FilesStepped, StandsFor, PathSaid, Lookup;
      FilesStep(ttl, Reached(ttl, front), e, id, stream, now);
      OneMoreSaid(ttl, Reached(ttl, front), past, id, stream, now);
    }
  }

  // ---- Servers

  predicate NoServers(ws: seq<Write>)
  {
    forall i :: 0 <= i < |ws| ==> !ws[i].PutServer?
  }

  lemma {:induction false} ServersUntouched(c: CorrelatorModel.Setting<LocalKey>, t: Tables<LocalKey>, server: string,
                                            ws: seq<Write>)
    requires NoServers(ws)
    ensures AllWritten(c, t, server, ws).servers == t.servers
    decreases |ws|
  {
    if ws != [] {
      ServersUntouched(c, Written(c, t, server, ws[0]), server, ws[1..]);
    }
  }

  lemma MappingNoServers(c: CorrelatorModel.Setting<LocalKey>, t: Tables<LocalKey>, server: string, kind: char, id: nat,
                         text: string)
    ensures NoServers(MappingWrites(c, t, server, kind, id, text))
  {
    hide DictAt, UserOr, UserKeyOf, CollectorUserInfo, Before, RestOf, EAOf, Split;
  }

  lemma OnlyServerJobs(c: CorrelatorModel.Setting<LocalKey>, t: Tables<LocalKey>, o: Origin, job: Job)
    requires !job.ServerJob?
    ensures NoServers(JobOutcome(c, t, o, job).writes)
  {
    match job
    case MappingJob(kind, id, text) =>
      MappingNoServers(c, t, IdOf(o), kind, id, text);
      hide MappingWrites, IdOf;
    case UserJob(_) =>
      hide DictAt, UserAt, UserKeyOf, IdOf;
    case FileJob(_) =>
      hide DictAt, FileAt, UserKeyOf, IdOf, OpenState, TimeState, RecordFor;
  }

  lemma OtherServers(ttl: nat, t: Tables<LocalKey>, e: Event)
    requires e.Handle? && !e.job.ServerJob?
    ensures Step(TypedMachine(ttl), t, e).servers == t.servers
  {
    var c := Typed(ttl, e.at);
    OnlyServerJobs(c, t, e.origin, e.job);
    ServersUntouched(c, t, IdOf(e.origin), JobOutcome(c, t, e.origin, e.job).writes);
    hide JobOutcome, AllWritten, IdOf;
  }

  lemma ServersStep(ttl: nat, t: Tables<LocalKey>, e: Event)
    requires e.Handle?
    ensures Step(TypedMachine(ttl), t, e).servers ==
            match e.job
            case ServerJob(info) => t.servers[ServerKey := Entry(info, e.at + ttl)]
            case _ => t.servers
  {
    hide Step;
    match e.job
    case ServerJob(info) => ServerTables(TypedMachine(ttl), t, e.origin, info, e.at);
    case _ => OtherServers(ttl, t, e);
  }

  lemma {:induction false} ServersSaid(ttl: nat, past: seq<Event>, now: int)
    requires InOrder(past, now)
    ensures Lookup(Reached(ttl, past).servers, ServerKey, now) == ServerSaid(ttl, past, now)
    decreases |past|
  {
    if past != [] {
      var front, e := Front(past), Last(past);
      Later(front, e.at, now);
      ServersSaid(ttl, front, now);
      ReachedLast(ttl, past);
      hide Step, Reached, InOrder;
      ServersStep(ttl, Reached(ttl, front), e);
    }
  }

  // ---- Records

  predicate IsCloseEvent(e: Event)
  {
    e.Handle? && e.job.FileJob? && e.job.file.CloseRecord?
  }

  // The file a close is about: the one said to be open, or one that is not known.
  function ClosedFile(ttl: nat, past: seq<Event>, close: Event): FileState
    requires IsCloseEvent(close)
  {
    var h, o := close.job.file.header, close.origin;
    var open := FileSaid(ttl, past, h.fileId, close.at);
    if open.Some? then open.value else FileState(h.fileId, h.userId, o.serverStart, 0, "unknown", IdOf(o), 0, 0)
  }

  // Who used a file: whom its user id stands for, or else the user of its path.
  function UserOfFile(ttl: nat, past: seq<Event>, userId: nat, fileId: nat, now: int): Option<UserInfo>
  {
    if userId != 0 && StandsFor(ttl, past, userId, now).Some? then StandsFor(ttl, past, userId, now)
    else if fileId == 0 then None
    else
      match PathSaid(ttl, past, fileId, now)
      case Some(PathInfo(_, info)) => Some(info)
      case _ => None
  }

  // Where the server says it is.
  function SiteSaid(ttl: nat, past: seq<Event>, now: int): string
  {
    match ServerSaid(ttl, past, now)
    case Some(info) => if info.site == "" then "UNKNOWN" else info.site
    case None => "UNKNOWN"
  }

  // The record a close is due. Host, name and protocol are those of the user
  // info found; the rest of a user is what was said under its key.
  function DueRecord(ttl: nat, past: seq<Event>, close: Event): Record
    requires IsCloseEvent(close)
  {
    var o, rec, now := close.origin, close.job.file, close.at;
    var file, site := ClosedFile(ttl, past, close), SiteSaid(ttl, past, now);
    match UserOfFile(ttl, past, file.userId, rec.header.fileId, now)
    case None =>
      Record(now, file.openTime, IdOf(o), o.remoteAddr, site, UserHex(file.userId), "unknown", "unknown",
             NO_AUTH, NO_TOKEN, "", 0, 0, file.filename, file.fileSize, rec.xfr, rec.ops)
    case Some(info) =>
      var u := OrFresh(UserSaid(ttl, past, UserKeyOf(info), now), 0, info, 0);
      Record(now, file.openTime, IdOf(o), o.remoteAddr, site, info.username, info.host, info.protocol,
             u.authInfo, u.tokenInfo.(userDictId := 0), u.appInfo, u.experimentId, u.activityId,
             file.filename, file.fileSize, rec.xfr, rec.ops)
  }

  // Users lie under their own keys, so whom a key leads to has the name, host
  // and protocol of the info it was made of.
  lemma {:induction false} SaidUnderOwnKey(ttl: nat, past: seq<Event>, k: LocalKey, now: int)
    ensures UserSaid(ttl, past, k, now).Some? ==> UserKeyOf(UserSaid(ttl, past, k, now).value.userInfo) == k
    decreases |past|
  {
    if past != [] {
      SaidUnderOwnKey(ttl, Front(past), k, Last(past).at);
      SaidUnderOwnKey(ttl, Front(past), k, now);
      hide UserKeyOf, About, FirstLine, StandsFor, After;
    }
  }

  lemma {:induction false} FileKeepsId(ttl: nat, past: seq<Event>, id: nat, now: int)
    ensures FileSaid(ttl, past, id, now).Some? ==> FileSaid(ttl, past, id, now).value.fileId == id
    decreases |past|
  {
    if past != [] {
      FileKeepsId(ttl, Front(past), id, now);
      hide NameSaid, IdOf;
    }
  }

  // The maps say whom a file is of, and where.
  lemma UserOfFileSaid(ttl: nat, past: seq<Event>, server: string, userId: nat, fileId: nat, now: int)
    requires InOrder(past, now)
    ensures var info := UserOfFile(ttl, past, userId, fileId, now);
            var u := UserFor(Typed(ttl, now), Reached(ttl, past), server, userId, fileId);
            && (info.None? <==> u.None?)
            && (info.Some? ==>
                  && u.value == OrFresh(UserSaid(ttl, past, UserKeyOf(info.value), now), 0, info.value, 0)
                  && UserKeyOf(u.value.userInfo) == UserKeyOf(info.value))
  {
    DictsSaid(ttl, past, now);
    UsersSaid(ttl, past, now);
    var info := UserOfFile(ttl, past, userId, fileId, now);
    InfoForSaid(ttl, past, server, userId, fileId, now);
    if info.Some? {
      SaidUnderOwnKey(ttl, past, UserKeyOf(info.value), now);
    }
    hide Reached, StandsFor, PathSaid, UserSaid, UserKeyOf, InfoFor, UserOfFile;
  }

  lemma InfoForSaid(ttl: nat, past: seq<Event>, server: string, userId: nat, fileId: nat, now: int)
    requires InOrder(past, now)
    ensures InfoFor(Typed(ttl, now), Reached(ttl, past), server, userId, fileId) ==
            UserOfFile(ttl, past, userId, fileId, now)
  {
    DictsSaid(ttl, past, now);
    hide Reached, StandsFor, PathSaid, InOrder;
  }

  lemma SiteForSaid(ttl: nat, past: seq<Event>, server: string, now: int)
    requires InOrder(past, now)
    ensures SiteFor(Typed(ttl, now), Reached(ttl, past), server) == SiteSaid(ttl, past, now)
  {
    ServersSaid(ttl, past, now);
    hide Reached, ServerSaid, InOrder;
  }

  lemma ClosedFileSaid(ttl: nat, past: seq<Event>, close: Event)
    requires InOrder(past, close.at) && IsCloseEvent(close)
    ensures var file := FileAt(Typed(ttl, close.at), Reached(ttl, past), IdOf(close.origin),
                               FileKey(close.job.file.header.fileId));
            && ClosedFile(ttl, past, close) ==
               (if file.Some? then file.value else UnknownFile(close.origin, close.job.file))
            && ClosedFile(ttl, past, close).fileId == close.job.file.header.fileId
  {
    FileIsSaid(ttl, past, close.job.file.header.fileId, 0, close.at);
    FileKeepsId(ttl, past, close.job.file.header.fileId, close.at);
    hide Reached, FileSaid, InOrder, IdOf;
  }

  // One close.
  lemma CloseIsDue(ttl: nat, past: seq<Event>, close: Event)
    requires InOrder(past, close.at) && IsCloseEvent(close)
    ensures Emitted(TypedMachine(ttl), Reached(ttl, past), close) == [DueRecord(ttl, past, close)]
  {
    var o, rec := close.origin, close.job.file;
    var file := ClosedFile(ttl, past, close);
    ClosedFileSaid(ttl, past, close);
    SiteForSaid(ttl, past, file.serverId, close.at);
    UserOfFileSaid(ttl, past, file.serverId, file.userId, file.fileId, close.at);
    CloseAfter(Typed(ttl, close.at), Reached(ttl, past), o, rec);
    hide Reached, InOrder, ClosedFile, SiteFor, SiteSaid, UserFor, UserOfFile, UserSaid, IdOf, UserHex, FileAt;
    hide UnknownFile, AfterJob, JobOutcome;
  }
}

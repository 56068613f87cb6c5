// What the program's close records say, told from the packets of a server
// alone, in any interleaving with other servers' packets and with cleanups.
module CloseRecords {
  import opened Records
  import opened Text
  import opened UserInfoText
  import opened KeyValue
  import opened Keys
  import opened StateMaps
  import opened CorrelatorModel
  import opened ServerIsolation
  import opened UserHistory
  import opened PacketEffects
  import opened History
  import opened CloseMatching
  import Attribution

  // ---- Every record of a run

  // One record for each close of `more`, in order; `past` came before.
  function DueRecords(ttl: nat, past: seq<Event>, more: seq<Event>): seq<Record>
    decreases |more|
  {
    if more == [] then []
    else
      (if IsCloseEvent(more[0]) then [DueRecord(ttl, past, more[0])] else []) +
      DueRecords(ttl, past + [more[0]], more[1..])
  }

  lemma OneLater(past: seq<Event>, now: int, e: Event)
    requires InOrder(past, now) && e.Handle? && now <= e.at
    ensures InOrder(past + [e], e.at) && InOrder(past, e.at)
  {
    assert Front(past + [e]) == past;
    Later(past, now, e.at);
  }

  lemma NoClose(ttl: nat, past: seq<Event>, e: Event)
    requires e.Handle? && !IsCloseEvent(e)
    ensures Emitted(TypedMachine(ttl), Reached(ttl, past), e) == []
  {
    hide Reached, MappingWrites, UserWrites, DictAt, IdOf, OpenName;
  }

  lemma {:induction false} TypedRecordsAreDue(ttl: nat, past: seq<Event>, now: int, more: seq<Event>)
    requires InOrder(past, now) && OwnRun(more, now)
    ensures RunRecords(TypedMachine(ttl), Reached(ttl, past), more) == DueRecords(ttl, past, more)
    decreases |more|
  {
    if more != [] {
      var e := more[0];
      OneLater(past, now, e);
      TypedRecordsAreDue(ttl, past + [e], e.at, more[1..]);
      assert Front(past + [e]) == past && Last(past + [e]) == e;
      ReachedLast(ttl, past + [e]);
      if IsCloseEvent(e) {
        CloseIsDue(ttl, past, e);
      } else {
        NoClose(ttl, past, e);
      }
      hide Step, Reached, Emitted, InOrder, DueRecord;
    }
  }

  function RecordsFor(ttl: nat, server: string, events: seq<Event>): seq<Record>
  {
    RecordsOf(server, RunRecords(StringMachine(ttl, 0), Empty(), events))
  }

  lemma OwnEventsRun(server: string, now: int, events: seq<Event>)
    requires Admissible(events, now, server)
    ensures OwnRun(EventsOf(server, events), now)
  {
    OwnEventsAre(server, events);
    AdmissiblePart(server, now, events);
    OwnRunOf(server, EventsOf(server, events), now);
  }

  // The program's records for a server are those its packets are due, one for
  // each close, in order.
  lemma RecordsAreDue(ttl: nat, start: int, addr: string, now: int, events: seq<Event>)
    requires Admissible(events, now, ServerId(start, addr))
    ensures RecordsFor(ttl, ServerId(start, addr), events) ==
            DueRecords(ttl, [], EventsOf(ServerId(start, addr), events))
  {
    var s := ServerId(start, addr);
    EmptyRefines(s, now);
    RunRefines(Empty(), s, Empty(), ttl, now, events);
    OwnEventsRun(s, now, events);
    TypedRecordsAreDue(ttl, [], now, EventsOf(s, events));
    hide EventsOf, RecordsOf, Admissible, OwnRun, ServerId, DueRecords, Refines, WellKept;
  }

  function ClosesIn(events: seq<Event>): nat
  {
    if events == [] then 0 else (if IsCloseEvent(events[0]) then 1 else 0) + ClosesIn(events[1..])
  }

  // The record the program emits for the i-th packet of a server, a close: it
  // comes after those of the closes before.
  function RecordOfPacket(ttl: nat, server: string, events: seq<Event>, i: nat): Option<Record>
    requires i <= |EventsOf(server, events)|
  {
    var records, n := RecordsFor(ttl, server, events), ClosesIn(EventsOf(server, events)[..i]);
    if n < |records| then Some(records[n]) else None
  }

  lemma {:induction false} NthDue(ttl: nat, past: seq<Event>, more: seq<Event>, i: nat)
    requires i < |more| && IsCloseEvent(more[i])
    ensures var n, due := ClosesIn(more[..i]), DueRecords(ttl, past, more);
            n < |due| && due[n] == DueRecord(ttl, past + more[..i], more[i])
    decreases |more|
  {
    hide DueRecord;
    if i == 0 {
      assert past + more[..0] == past;
    } else {
      NthDue(ttl, past + [more[0]], more[1..], i - 1);
      assert more[1..][..i - 1] == more[..i][1..];
      assert past + [more[0]] + more[..i][1..] == past + more[..i];
    }
  }

  // A run in which the i-th packet of the server is a close.
  ghost predicate Closing(start: int, addr: string, now: int, events: seq<Event>, i: nat)
  {
    var own := EventsOf(ServerId(start, addr), events);
    Admissible(events, now, ServerId(start, addr)) && i < |own| && IsCloseEvent(own[i])
  }

  lemma {:induction false} InOrderTo(past: seq<Event>, now: int, more: seq<Event>, i: nat)
    requires InOrder(past, now) && OwnRun(more, now) && i < |more|
    ensures InOrder(past + more[..i], more[i].at) && more[i].Handle?
    decreases |more|
  {
    OneLater(past, now, more[0]);
    if i == 0 {
      assert past + more[..0] == past;
    } else {
      InOrderTo(past + [more[0]], more[0].at, more[1..], i - 1);
      assert past + [more[0]] + more[1..][..i - 1] == past + more[..i];
      hide InOrder;
    }
  }

  lemma RecordIsDue(ttl: nat, start: int, addr: string, now: int, events: seq<Event>, i: nat)
    requires Closing(start, addr, now, events, i)
    ensures var own := EventsOf(ServerId(start, addr), events);
            && RecordOfPacket(ttl, ServerId(start, addr), events, i) == Some(DueRecord(ttl, own[..i], own[i]))
            && InOrder(own[..i], own[i].at) && IdOf(own[i].origin) == ServerId(start, addr)
  {
    var s := ServerId(start, addr);
    var own := EventsOf(s, events);
    RecordsAreDue(ttl, start, addr, now, events);
    NthDue(ttl, [], own, i);
    assert [] + own[..i] == own[..i];
    OwnEventsRun(s, now, events);
    InOrderTo([], now, own, i);
    OwnEventsAre(s, events);
    assert own[i] in own;
    hide EventsOf, RecordsFor, Admissible, ServerId, DueRecords, DueRecord, InOrder, OwnRun;
  }

  // ---- Packets that leave something alone

  predicate LeavesFile(e: Event, fileId: nat)
  {
    e.Handle? && e.job.FileJob? && (e.job.file.OpenRecord? || e.job.file.CloseRecord?) ==>
      e.job.file.header.fileId != fileId
  }

  predicate LeavesId(e: Event, id: nat)
  {
    match e
    case Handle(_, MappingJob(kind, dictId, text), _) =>
      dictId != id || (kind != 'd' && kind != 'i') || CollectorUserInfo(Before(text, '\n')).Err?
    case Handle(_, UserJob(rec), _) => rec.dictId != id || rec.tokenInfo.userDictId != 0
    case Handle(_, FileJob(DisconnectRecord(_, userId)), _) => userId != id
    case _ => true
  }

  predicate LeavesPath(e: Event, fileId: nat)
  {
    match e
    case Handle(_, MappingJob(kind, dictId, text), _) =>
      dictId != fileId || (CollectorUserInfo(Before(text, '\n')).Ok? && (kind != 'd' || '\n' !in text))
    case _ => true
  }

  lemma SnocFacts(past: seq<Event>)
    requires past != []
    ensures |Front(past)| == |past| - 1 && Last(past) == past[|past| - 1]
    ensures forall j :: 0 <= j < |past| - 1 ==> Front(past)[j] == past[j] && Front(past)[..j] == past[..j]
  {
    forall j | 0 <= j < |past| - 1
      ensures Front(past)[..j] == past[..j]
    {}
  }

  // ---- Files

  function UserIdOf(rec: FileRecord): nat
    requires rec.OpenRecord?
  {
    if rec.header.userId != 0 then rec.header.userId else rec.user
  }

  predicate IsOpenOf(e: Event, fileId: nat)
  {
    e.Handle? && e.job.FileJob? && e.job.file.OpenRecord? && e.job.file.header.fileId == fileId
  }

  lemma {:induction false} FileSince(ttl: nat, past: seq<Event>, f: nat, id: nat, now: int)
    requires f < |past| && IsOpenOf(past[f], id) && now <= past[f].at + ttl
    requires forall j :: f < j < |past| ==> LeavesFile(past[j], id)
    ensures var o, rec, at := past[f].origin, past[f].job.file, past[f].at;
            FileSaid(ttl, past, id, now) ==
            Some(FileState(id, UserIdOf(rec), o.serverStart, rec.fileSize, NameSaid(ttl, past[..f], rec, at), IdOf(o),
                           0, at))
    decreases |past|
  {
    hide NameSaid, IdOf;
    if f < |past| - 1 {
      SnocFacts(past);
      FileSince(ttl, Front(past), f, id, now);
      assert LeavesFile(Last(past), id);
    }
  }

  // No open of a file can be meant: there is none, it has been closed or it has
  // expired.
  predicate NotOpen(ttl: nat, past: seq<Event>, id: nat, now: int)
  {
    || (forall j :: 0 <= j < |past| ==> LeavesFile(past[j], id))
    || exists f :: && 0 <= f < |past| && !LeavesFile(past[f], id)
                   && (past[f].job.file.CloseRecord? || now > past[f].at + ttl)
                   && forall j :: f < j < |past| ==> LeavesFile(past[j], id)
  }

  lemma NotOpenFront(ttl: nat, past: seq<Event>, id: nat, now: int)
    requires past != [] && LeavesFile(Last(past), id)
    ensures NotOpen(ttl, past, id, now) <==> NotOpen(ttl, Front(past), id, now)
  {
    SnocFacts(past);
    hide LeavesFile;
    var front := Front(past);
    assert forall j :: 0 <= j < |past| ==> past[j] == (if j < |front| then front[j] else Last(past));
    if NotOpen(ttl, past, id, now) && !(forall j :: 0 <= j < |front| ==> LeavesFile(front[j], id)) {
      var f :| 0 <= f < |past| && !LeavesFile(past[f], id) && (past[f].job.file.CloseRecord? || now > past[f].at + ttl)
               && forall j :: f < j < |past| ==> LeavesFile(past[j], id);
      assert front[f] == past[f];
    }
  }

  lemma {:induction false} NotOpenSaid(ttl: nat, past: seq<Event>, id: nat, now: int)
    ensures NotOpen(ttl, past, id, now) <==> FileSaid(ttl, past, id, now) == None
    decreases |past|
  {
    hide NameSaid, IdOf;
    if past != [] {
      if LeavesFile(Last(past), id) {
        NotOpenFront(ttl, past, id, now);
        NotOpenSaid(ttl, Front(past), id, now);
        hide NotOpen;
      } else {
        assert past[|past| - 1] == Last(past);
      }
    }
  }

  lemma {:induction false} LogAppend(m: Machine<LocalKey>, t: Tables<LocalKey>, a: seq<Event>, e: Event)
    ensures FileLog(m, t, a + [e]) == FileLog(m, t, a) + FileEvents(m, RunTables(m, t, a), e)
    decreases |a|
  {
    hide FileEvents, Step;
    if a == [] {
      assert [] + [e] == [e] && [e][1..] == [];
    } else {
      assert (a + [e])[1..] == a[1..] + [e];
      LogAppend(m, Step(m, t, a[0]), a[1..], e);
    }
  }

  lemma LogStep(ttl: nat, past: seq<Event>)
    requires past != []
    ensures var m := TypedMachine(ttl);
            FileLog(m, Empty(), past) ==
            FileLog(m, Empty(), Front(past)) + FileEvents(m, Reached(ttl, Front(past)), Last(past))
  {
    assert Front(past) + [Last(past)] == past;
    LogAppend(TypedMachine(ttl), Empty(), Front(past), Last(past));
    hide FileLog, FileEvents;
  }

  lemma LatestStep(log: seq<FileEvent>, x: FileEvent, id: nat, ttl: nat, now: int)
    ensures LatestOpen(log + [x], id, ttl, now).None? <==>
            if x.id != id then LatestOpen(log, id, ttl, now).None? else x.Closed? || now > x.at + ttl
    ensures log + [] == log
  {
    assert (log + [x])[..|log|] == log;
  }

  // In terms of the history of opens and closes: there is no latest open.
  lemma {:induction false} LatestSaid(ttl: nat, past: seq<Event>, id: nat, now: int)
    ensures LatestOpen(FileLog(TypedMachine(ttl), Empty(), past), id, ttl, now).None? <==>
            FileSaid(ttl, past, id, now).None?
    decreases |past|
  {
    hide NameSaid, IdOf, FileLog, OpenName, Reached, LatestOpen;
    if past == [] {
      NoLog(ttl, id, now);
    } else {
      LogStep(ttl, past);
      LatestSaid(ttl, Front(past), id, now);
      var more := FileEvents(TypedMachine(ttl), Reached(ttl, Front(past)), Last(past));
      LatestStep(FileLog(TypedMachine(ttl), Empty(), Front(past)), if more == [] then Closed(id, 0) else more[0], id,
                 ttl, now);
    }
  }

  lemma NoLog(ttl: nat, id: nat, now: int)
    ensures LatestOpen(FileLog(TypedMachine(ttl), Empty(), []), id, ttl, now).None?
  {}

  // ---- Ids and paths

  // A packet that makes an id stand for a user: a path, an application or a login.
  predicate Names(e: Event, id: nat, info: UserInfo)
  {
    match e
    case Handle(_, MappingJob(kind, dictId, text), _) =>
      && dictId == id && CollectorUserInfo(Before(text, '\n')) == Ok(info)
      && (kind == 'd' || (kind == 'i' && '\n' in text))
    case Handle(_, UserJob(rec), _) => rec.dictId == id && rec.userInfo == info && rec.tokenInfo.userDictId == 0
    case _ => false
  }

  // Codes for an id that stands for nobody do so too.
  predicate NamesFirst(ttl: nat, past: seq<Event>, e: Event, id: nat, info: UserInfo)
  {
    && e.Handle? && e.job.MappingJob? && e.job.packetType == 'U' && '\n' in e.job.text
    && CollectorUserInfo(Before(e.job.text, '\n')) == Ok(info)
    && id != 0 && EAOf(Split(After(e.job.text, '\n'), '&')).udid == id
    && StandsFor(ttl, past, id, e.at) == None
  }

  lemma {:induction false} IdSince(ttl: nat, past: seq<Event>, n: nat, id: nat, info: UserInfo, now: int)
    requires InOrder(past, now) && n < |past| && now <= past[n].at + ttl
    requires Names(past[n], id, info) || NamesFirst(ttl, past[..n], past[n], id, info)
    requires forall j :: n < j < |past| ==> LeavesId(past[j], id)
    ensures StandsFor(ttl, past, id, now) == Some(info)
    decreases |past|
  {
    hide CollectorUserInfo, Before, After, EAOf, Split;
    SnocFacts(past);
    if n < |past| - 1 {
      assert LeavesId(Last(past), id);
      IdSince(ttl, Front(past), n, id, info, Last(past).at);
      Later(Front(past), Last(past).at, now);
      IdSince(ttl, Front(past), n, id, info, now);
    }
  }

  lemma {:induction false} PathSince(ttl: nat, past: seq<Event>, n: nat, id: nat, now: int)
    requires n < |past| && now <= past[n].at + ttl && PathIn(past[n], id).Some?
    requires forall j :: n < j < |past| ==> LeavesPath(past[j], id)
    ensures PathSaid(ttl, past, id, now) == PathIn(past[n], id)
    decreases |past|
  {
    hide CollectorUserInfo, Before, After;
    SnocFacts(past);
    if n < |past| - 1 {
      assert LeavesPath(Last(past), id);
      PathSince(ttl, Front(past), n, id, now);
    }
  }

  // No packet names an id.
  predicate Unnamed(past: seq<Event>, id: nat)
  {
    forall j :: 0 <= j < |past| ==> LeavesId(past[j], id) && Proposed(past[j], id) == None
  }

  lemma {:induction false} NeverNamed(ttl: nat, past: seq<Event>, id: nat, now: int)
    requires Unnamed(past, id)
    ensures StandsFor(ttl, past, id, now) == None
    decreases |past|
  {
    hide CollectorUserInfo, Before, After, Proposed;
    if past != [] {
      SnocFacts(past);
      assert LeavesId(Last(past), id) && Proposed(Last(past), id) == None;
      NeverNamed(ttl, Front(past), id, now);
    }
  }

  // ---- Who a record is about

  // Whom a user info names, and all that is known of that user.
  predicate Identified(r: Record, info: UserInfo, known: Option<UserState>)
  {
    && r.user == info.username && r.host == info.host && r.protocol == info.protocol
    && match known
       case Some(u) =>
         && r.authInfo == u.authInfo && r.tokenInfo == u.tokenInfo.(userDictId := 0) && r.appInfo == u.appInfo
         && r.experimentId == u.experimentId && r.activityId == u.activityId
       case None =>
         r.authInfo == NO_AUTH && r.tokenInfo == NO_TOKEN && r.appInfo == "" && r.experimentId == 0 && r.activityId == 0
  }

  // A 32-bit number, taken for a signed one, in hexadecimal.
  predicate SpellsId(name: string, userId: nat)
  {
    var low := userId % 0x1_0000_0000;
    if low < 0x8000_0000 then HexValue(name) == Some(low) && name != "" && (name[0] == '0' ==> name == "0")
    else
      && name != "" && name[0] == '-' && HexValue(name[1..]) == Some(0x1_0000_0000 - low)
      && name[1..] != "" && name[1] != '0'
  }

  lemma UserHexSpells(userId: nat)
    ensures SpellsId(UserHex(userId), userId)
  {
    hide Hex, HexValue;
    var low := userId % 0x1_0000_0000;
    HexRoundTrip(if low < 0x8000_0000 then low else 0x1_0000_0000 - low);
    assert low >= 0x8000_0000 ==> UserHex(userId)[1..] == Hex(0x1_0000_0000 - low);
  }

  // Nobody: the user id, and nothing else.
  predicate Unidentified(r: Record, userId: nat)
  {
    && SpellsId(r.user, userId) && r.host == "unknown" && r.protocol == "unknown"
    && r.authInfo == NO_AUTH && r.tokenInfo == NO_TOKEN && r.appInfo == "" && r.experimentId == 0 && r.activityId == 0
  }

  // The i-th packet closes what the f-th opened, under a user id; or no open
  // can be meant, and the user id is the close's own.
  predicate ClosesUnder(ttl: nat, own: seq<Event>, i: nat, f: Option<nat>, userId: nat)
    requires i < |own| && IsCloseEvent(own[i])
  {
    var id, now := own[i].job.file.header.fileId, own[i].at;
    match f
    case Some(n) =>
      && n < i && IsOpenOf(own[n], id) && now <= own[n].at + ttl && userId == UserIdOf(own[n].job.file)
      && forall j :: n < j < i ==> LeavesFile(own[j], id)
    case None => userId == own[i].job.file.header.userId && NotOpen(ttl, own[..i], id, now)
  }

  lemma ClosedUnder(ttl: nat, own: seq<Event>, i: nat, f: Option<nat>, userId: nat)
    requires i < |own| && IsCloseEvent(own[i]) && ClosesUnder(ttl, own, i, f, userId)
    ensures ClosedFile(ttl, own[..i], own[i]).userId == userId
  {
    var id, now := own[i].job.file.header.fileId, own[i].at;
    hide FileSaid, IdOf, NotOpen;
    if f.Some? {
      FileSince(ttl, own[..i], f.value, id, now);
    } else {
      NotOpenSaid(ttl, own[..i], id, now);
    }
  }

  // What the server's typed machine knows of a user at its i-th packet.
  ghost function KnownOf(ttl: nat, own: seq<Event>, i: nat, info: UserInfo): Option<UserState>
    requires i < |own|
  {
    Lookup(RunTables(TypedMachine(ttl), Empty(), own[..i]).users, UserKeyOf(info), own[i].at)
  }

  lemma DueIdentity(ttl: nat, own: seq<Event>, i: nat, info: UserInfo)
    requires i < |own| && IsCloseEvent(own[i]) && InOrder(own[..i], own[i].at)
    requires var h, file := own[i].job.file.header, ClosedFile(ttl, own[..i], own[i]);
             UserOfFile(ttl, own[..i], file.userId, h.fileId, own[i].at) == Some(info)
    ensures Identified(DueRecord(ttl, own[..i], own[i]), info, KnownOf(ttl, own, i, info))
  {
    UsersSaid(ttl, own[..i], own[i].at);
    hide UserOfFile, ClosedFile, SiteSaid, UserSaid, IdOf, UserKeyOf, RunTables, InOrder;
  }

  // A close under a user id that stands for a user, by a path, an application or
  // a login, or by the first codes: the record is that user's.
  lemma UserByDictionary(ttl: nat, start: int, addr: string, now: int, events: seq<Event>, i: nat,
                         f: Option<nat>, userId: nat, n: nat, info: UserInfo)
    requires Closing(start, addr, now, events, i)
    requires var own := EventsOf(ServerId(start, addr), events);
             && ClosesUnder(ttl, own, i, f, userId) && userId != 0
             && n < i && own[i].at <= own[n].at + ttl
             && (Names(own[n], userId, info) || NamesFirst(ttl, own[..n], own[n], userId, info))
             && forall j :: n < j < i ==> LeavesId(own[j], userId)
    ensures var s := ServerId(start, addr);
            var r := RecordOfPacket(ttl, s, events, i);
            r.Some? && Identified(r.value, info, KnownOf(ttl, EventsOf(s, events), i, info))
  {
    var own := EventsOf(ServerId(start, addr), events);
    hide EventsOf, ServerId, DueRecord, Identified, Names, NamesFirst, LeavesId, ClosesUnder, RecordOfPacket, KnownOf;
    hide InOrder, Admissible;
    RecordIsDue(ttl, start, addr, now, events, i);
    ClosedUnder(ttl, own, i, f, userId);
    assert own[..i][..n] == own[..n];
    IdSince(ttl, own[..i], n, userId, info, own[i].at);
    DueIdentity(ttl, own, i, info);
  }

  // A close of a file with a path, under no user id or one that stands for
  // nobody: the record is the path's user's.
  lemma UserByPath(ttl: nat, start: int, addr: string, now: int, events: seq<Event>, i: nat,
                   f: Option<nat>, userId: nat, n: nat, o: Origin, text: string, at: int, info: UserInfo)
    requires Closing(start, addr, now, events, i)
    requires var own := EventsOf(ServerId(start, addr), events);
             var fileId, past := own[i].job.file.header.fileId, RunTables(TypedMachine(ttl), Empty(), own[..i]);
             && ClosesUnder(ttl, own, i, f, userId)
             && (userId == 0 || Lookup(past.dicts, DictIdKey(userId), own[i].at) == None)
             && n < i && own[n] == Handle(o, MappingJob('d', fileId, text), at) && fileId != 0
             && '\n' in text && CollectorUserInfo(Before(text, '\n')) == Ok(info)
             && own[i].at <= at + ttl && forall j :: n < j < i ==> LeavesPath(own[j], fileId)
    ensures var s := ServerId(start, addr);
            var r := RecordOfPacket(ttl, s, events, i);
            r.Some? && Identified(r.value, info, KnownOf(ttl, EventsOf(s, events), i, info))
  {
    var own := EventsOf(ServerId(start, addr), events);
    hide EventsOf, ServerId, DueRecord, Identified, LeavesPath, ClosesUnder, RecordOfPacket, KnownOf, RunTables;
    hide InOrder, Admissible, CollectorUserInfo, Before, After;
    RecordIsDue(ttl, start, addr, now, events, i);
    ClosedUnder(ttl, own, i, f, userId);
    DictsSaid(ttl, own[..i], own[i].at);
    PathSince(ttl, own[..i], n, own[i].job.file.header.fileId, own[i].at);
    DueIdentity(ttl, own, i, info);
  }

  // Nobody can be found.
  lemma UserUnknown(ttl: nat, start: int, addr: string, now: int, events: seq<Event>, i: nat, f: Option<nat>,
                    userId: nat)
    requires Closing(start, addr, now, events, i)
    requires var own := EventsOf(ServerId(start, addr), events);
             var fileId, past := own[i].job.file.header.fileId, RunTables(TypedMachine(ttl), Empty(), own[..i]);
             && ClosesUnder(ttl, own, i, f, userId)
             && (userId == 0 || Lookup(past.dicts, DictIdKey(userId), own[i].at) == None)
             && (fileId == 0 || (var v := Lookup(past.dicts, PathKey(fileId), own[i].at); v.Some? ==> v.value.RawText?))
    ensures var r := RecordOfPacket(ttl, ServerId(start, addr), events, i);
            r.Some? && Unidentified(r.value, userId)
  {
    var own := EventsOf(ServerId(start, addr), events);
    UserHexSpells(userId);
    hide EventsOf, ServerId, ClosesUnder, RecordOfPacket, RunTables, UserHex, SpellsId, InOrder, Admissible;
    RecordIsDue(ttl, start, addr, now, events, i);
    ClosedUnder(ttl, own, i, f, userId);
    DictsSaid(ttl, own[..i], own[i].at);
    hide ClosedFile, SiteSaid, IdOf, StandsFor, PathSaid, IsCloseEvent;
  }

  // ---- What it says of the file

  // The close of an open: its times and names, and its counters.
  lemma OpenedClose(ttl: nat, start: int, addr: string, now: int, events: seq<Event>, i: nat, f: nat, userId: nat)
    requires Closing(start, addr, now, events, i)
    requires var own := EventsOf(ServerId(start, addr), events);
             ClosesUnder(ttl, own, i, Some(f), userId)
    ensures var s := ServerId(start, addr);
            var own := EventsOf(s, events);
            var open, rec := own[f].job.file, own[i].job.file;
            var path := Lookup(RunTables(TypedMachine(ttl), Empty(), own[..f]).dicts, PathKey(open.header.fileId),
                               own[f].at);
            var r := RecordOfPacket(ttl, s, events, i);
            && r.Some? && r.value.timestamp == own[i].at && r.value.startTime == own[f].origin.serverStart
            && r.value.serverId == s && r.value.remoteAddr == own[i].origin.remoteAddr
            && r.value.fileSize == open.fileSize && r.value.xfr == rec.xfr && r.value.ops == rec.ops
            && r.value.filename ==
               if open.lfn != [] || open.header.fileId == 0 then AsText(open.lfn)
               else if path.Some? && path.value.RawText? then path.value.text
               else ""
  {
    var own := EventsOf(ServerId(start, addr), events);
    var id := own[i].job.file.header.fileId;
    hide EventsOf, ServerId, LeavesFile, RecordOfPacket, RunTables, UserHex, InOrder, Admissible, AsText, FileSaid;
    RecordIsDue(ttl, start, addr, now, events, i);
    FileSince(ttl, own[..i], f, id, own[i].at);
    assert own[..i][..f] == own[..f];
    PartInOrder(own, i, f);
    DictsSaid(ttl, own[..f], own[f].at);
    hide SiteSaid, UserOfFile, UserSaid, PathSaid, StandsFor, IdOf;
  }

  lemma {:induction false} PartInOrder(own: seq<Event>, i: nat, f: nat)
    requires f < i < |own| && InOrder(own[..i], own[i].at)
    ensures InOrder(own[..f], own[f].at) && own[f].Handle?
    decreases i
  {
    assert Front(own[..i]) == own[..i - 1] && Last(own[..i]) == own[i - 1];
    if f < i - 1 {
      PartInOrder(own, i - 1, f);
    }
  }

  // The close of a file that is not open has one all the same: with the start
  // of its server, an unknown name and no size, and its own counters.
  lemma StandaloneClose(ttl: nat, start: int, addr: string, now: int, events: seq<Event>, i: nat)
    requires Closing(start, addr, now, events, i)
    requires var own := EventsOf(ServerId(start, addr), events);
             var log := FileLog(TypedMachine(ttl), Empty(), own[..i]);
             LatestOpen(log, own[i].job.file.header.fileId, ttl, own[i].at) == None
    ensures var s := ServerId(start, addr);
            var own := EventsOf(s, events);
            var rec, r := own[i].job.file, RecordOfPacket(ttl, s, events, i);
            && r.Some? && r.value.timestamp == own[i].at && r.value.startTime == own[i].origin.serverStart
            && r.value.serverId == s && r.value.remoteAddr == own[i].origin.remoteAddr
            && r.value.filename == "unknown" && r.value.fileSize == 0
            && r.value.xfr == rec.xfr && r.value.ops == rec.ops
            && ClosesUnder(ttl, own, i, None, rec.header.userId)
  {
    var own := EventsOf(ServerId(start, addr), events);
    var id := own[i].job.file.header.fileId;
    hide EventsOf, ServerId, RecordOfPacket, UserHex, InOrder, Admissible, FileSaid, FileLog, LatestOpen, NotOpen;
    RecordIsDue(ttl, start, addr, now, events, i);
    LatestSaid(ttl, own[..i], id, own[i].at);
    NotOpenSaid(ttl, own[..i], id, own[i].at);
    hide SiteSaid, UserOfFile, UserSaid, IdOf;
  }

  // ---- What it says of the site

  predicate IsServerPacket(e: Event) { e.Handle? && e.job.ServerJob? }

  lemma {:induction false} ServerSince(ttl: nat, past: seq<Event>, n: nat, now: int)
    requires n < |past| && IsServerPacket(past[n])
    requires forall j :: n < j < |past| ==> !IsServerPacket(past[j])
    ensures ServerSaid(ttl, past, now) == if now <= past[n].at + ttl then Some(past[n].job.info) else None
    decreases |past|
  {
    SnocFacts(past);
    if n < |past| - 1 {
      ServerSince(ttl, Front(past), n, now);
    }
  }

  lemma {:induction false} NoServerSaid(ttl: nat, past: seq<Event>, now: int)
    requires forall j :: 0 <= j < |past| ==> !IsServerPacket(past[j])
    ensures ServerSaid(ttl, past, now) == None
    decreases |past|
  {
    if past != [] {
      SnocFacts(past);
      NoServerSaid(ttl, Front(past), now);
    }
  }

  // The site of a record is the one the server's last identification names, as
  // long as that lives and names one.
  lemma SiteOfServer(ttl: nat, start: int, addr: string, now: int, events: seq<Event>, i: nat, n: nat)
    requires Closing(start, addr, now, events, i) && n < i
    requires var own := EventsOf(ServerId(start, addr), events);
             IsServerPacket(own[n]) && forall j :: n < j < i ==> !IsServerPacket(own[j])
    ensures var own := EventsOf(ServerId(start, addr), events);
            var r := RecordOfPacket(ttl, ServerId(start, addr), events, i);
            && r.Some?
            && (own[i].at <= own[n].at + ttl && own[n].job.info.site != "" ==> r.value.site == own[n].job.info.site)
            && (own[i].at > own[n].at + ttl || own[n].job.info.site == "" ==> r.value.site == "UNKNOWN")
  {
    var own := EventsOf(ServerId(start, addr), events);
    hide EventsOf, ServerId, RecordOfPacket, UserHex, InOrder, Admissible;
    RecordIsDue(ttl, start, addr, now, events, i);
    ServerSince(ttl, own[..i], n, own[i].at);
    hide UserOfFile, UserSaid, IdOf, ClosedFile, ServerSaid;
  }

  lemma SiteUnknown(ttl: nat, start: int, addr: string, now: int, events: seq<Event>, i: nat)
    requires Closing(start, addr, now, events, i)
    requires var own := EventsOf(ServerId(start, addr), events);
             forall j :: 0 <= j < i ==> !IsServerPacket(own[j])
    ensures var r := RecordOfPacket(ttl, ServerId(start, addr), events, i);
            r.Some? && r.value.site == "UNKNOWN"
  {
    var own := EventsOf(ServerId(start, addr), events);
    hide EventsOf, ServerId, RecordOfPacket, UserHex, InOrder, Admissible;
    RecordIsDue(ttl, start, addr, now, events, i);
    NoServerSaid(ttl, own[..i], own[i].at);
    hide UserOfFile, UserSaid, IdOf, ClosedFile, ServerSaid;
  }

  // ---- What is known of a user

  // Paths, server packets and files tell nothing of a user but the name.
  predicate TellsNothing(e: Event)
  {
    e.Handle? && !e.job.UserJob? && (e.job.MappingJob? ==> e.job.packetType != 'i' && e.job.packetType != 'U')
  }

  lemma {:induction false} NothingTold(ttl: nat, past: seq<Event>, k: LocalKey, now: int)
    requires forall j :: 0 <= j < |past| ==> TellsNothing(past[j])
    ensures UserSaid(ttl, past, k, now) == None
    decreases |past|
  {
    hide FirstLine, After, StandsFor, UserKeyOf;
    if past != [] {
      SnocFacts(past);
      assert TellsNothing(Last(past));
      NothingTold(ttl, Front(past), k, Last(past).at);
      NothingTold(ttl, Front(past), k, now);
    }
  }

  // So without a login, an application or codes a user is a name only.
  lemma NoLoginKnown(ttl: nat, own: seq<Event>, i: nat, info: UserInfo)
    requires i < |own| && InOrder(own[..i], own[i].at)
    requires forall j :: 0 <= j < i ==> TellsNothing(own[j])
    ensures KnownOf(ttl, own, i, info) == None
  {
    NothingTold(ttl, own[..i], UserKeyOf(info), own[i].at);
    UsersSaid(ttl, own[..i], own[i].at);
    hide UserSaid, TellsNothing, UserKeyOf, InOrder, RunTables;
  }

  // ---- What the program's maps hold

  lemma SameTables(t: Tables<string>, s: string, i: Tables<LocalKey>, now: int, which: MapName, k: LocalKey)
    requires Refines(t, s, i, now) && In(which, k)
    ensures which.FileMap? ==> Lookup(t.files, Render(s, k), now) == Lookup(i.files, k, now)
    ensures which.UserMap? ==> Lookup(t.users, Render(s, k), now) == Lookup(i.users, k, now)
    ensures which.DictMap? ==> Lookup(t.dicts, Render(s, k), now) == Lookup(i.dicts, k, now)
    ensures which.ServerMap? ==> Lookup(t.servers, Render(s, k), now) == Lookup(i.servers, k, now)
  {
    hide Render, In;
    match which
    case FileMap => assert Live(t.files, Render(s, k), now) == Live(i.files, k, now);
    case UserMap => assert Live(t.users, Render(s, k), now) == Live(i.users, k, now);
    case DictMap => assert Live(t.dicts, Render(s, k), now) == Live(i.dicts, k, now);
    case ServerMap => assert Live(t.servers, Render(s, k), now) == Live(i.servers, k, now);
  }

  lemma InOrderAll(past: seq<Event>, now: int, more: seq<Event>)
    requires InOrder(past, now) && OwnRun(more, now)
    ensures InOrder(past + more, EndOf(now, more))
    decreases |more|
  {
    if more == [] {
      assert past + more == past;
    } else {
      OneLater(past, now, more[0]);
      InOrderAll(past + [more[0]], more[0].at, more[1..]);
      assert past + [more[0]] + more[1..] == past + more;
      hide InOrder;
    }
  }

  lemma {:induction false} EndsLater(server: string, now: int, events: seq<Event>)
    requires Admissible(events, now, server)
    ensures EndOf(now, EventsOf(server, events)) <= EndOf(now, events) && now <= EndOf(now, events)
    decreases |events|
  {
    hide Apart, Shaped, IdOf;
    if events != [] {
      var own := EventsOf(server, events[1..]);
      EndsLater(server, events[0].at, events[1..]);
      if Mine(events[0], server) {
        assert ([events[0]] + own)[1..] == own;
      } else {
        assert [] + own == own;
        Sooner(own, now, events[0].at);
      }
    }
  }

  lemma Sooner(events: seq<Event>, now: int, later: int)
    requires now <= later
    ensures EndOf(now, events) <= EndOf(later, events)
  {}

  lemma OwnInOrder(server: string, now: int, events: seq<Event>)
    requires Admissible(events, now, server)
    ensures InOrder(EventsOf(server, events), EndOf(now, events))
  {
    var own := EventsOf(server, events);
    OwnEventsRun(server, now, events);
    InOrderAll([], now, own);
    assert [] + own == own;
    EndsLater(server, now, events);
    Later(own, EndOf(now, own), EndOf(now, events));
  }

  // The program's maps hold exactly what the server's own packets say, of every
  // file, stream, id, path and user and of the server.
  lemma MapsAsSaid(ttl: nat, start: int, addr: string, now: int, events: seq<Event>, id: nat, stream: int,
                   k: LocalKey)
    requires Admissible(events, now, ServerId(start, addr)) && k.UserKey? && Clean(k)
    ensures var s, end := ServerId(start, addr), EndOf(now, events);
            var own, t := EventsOf(s, events), RunTables(StringMachine(ttl, 0), Empty(), events);
            && Lookup(t.files, Render(s, FileKey(id)), end) == FileSaid(ttl, own, id, end)
            && Lookup(t.files, Render(s, TimeKey(id, stream)), end) == TimeSaid(ttl, own, id, stream, end)
            && Lookup(t.dicts, Render(s, DictIdKey(id)), end) == Naming(StandsFor(ttl, own, id, end))
            && Lookup(t.dicts, Render(s, PathKey(id)), end) == PathSaid(ttl, own, id, end)
            && Lookup(t.users, Render(s, k), end) == UserSaid(ttl, own, k, end)
            && Lookup(t.servers, Render(s, ServerKey), end) == ServerSaid(ttl, own, end)
  {
    var s, end := ServerId(start, addr), EndOf(now, events);
    var own, t := EventsOf(s, events), RunTables(StringMachine(ttl, 0), Empty(), events);
    EmptyRefines(s, now);
    TablesRefine(Empty(), s, Empty(), ttl, now, events);
    OwnInOrder(s, now, events);
    hide EventsOf, RunTables, Refines, Admissible, Render, Clean, EndOf, InOrder, ServerId, Lookup;
    hide FileSaid, TimeSaid, StandsFor, PathSaid, UserSaid, ServerSaid;
    SixKeys(ttl, t, s, own, end, id, stream, k);
  }

  lemma SixKeys(ttl: nat, t: Tables<string>, s: string, own: seq<Event>, end: int, id: nat, stream: int, k: LocalKey)
    requires InOrder(own, end) && Refines(t, s, Reached(ttl, own), end) && k.UserKey? && Clean(k)
    ensures Lookup(t.files, Render(s, FileKey(id)), end) == FileSaid(ttl, own, id, end)
    ensures Lookup(t.files, Render(s, TimeKey(id, stream)), end) == TimeSaid(ttl, own, id, stream, end)
    ensures Lookup(t.dicts, Render(s, DictIdKey(id)), end) == Naming(StandsFor(ttl, own, id, end))
    ensures Lookup(t.dicts, Render(s, PathKey(id)), end) == PathSaid(ttl, own, id, end)
    ensures Lookup(t.users, Render(s, k), end) == UserSaid(ttl, own, k, end)
    ensures Lookup(t.servers, Render(s, ServerKey), end) == ServerSaid(ttl, own, end)
  {
    hide Refines, Render, Clean, InOrder, Lookup, Reached;
    hide FileSaid, TimeSaid, StandsFor, PathSaid, UserSaid, ServerSaid;
    var i := Reached(ttl, own);
    FileIsSaid(ttl, own, id, stream, end);
    DictsSaid(ttl, own, end);
    UsersSaid(ttl, own, end);
    ServersSaid(ttl, own, end);
    SameTables(t, s, i, end, FileMap, FileKey(id));
    SameTables(t, s, i, end, FileMap, TimeKey(id, stream));
    SameTables(t, s, i, end, DictMap, DictIdKey(id));
    SameTables(t, s, i, end, DictMap, PathKey(id));
    SameTables(t, s, i, end, UserMap, k);
    SameTables(t, s, i, end, ServerMap, ServerKey);
  }

  // In particular an id stands in the program's map for whom the last path,
  // application or login named under it.
  lemma IdInTraffic(ttl: nat, start: int, addr: string, now: int, events: seq<Event>, n: nat, id: nat, info: UserInfo)
    requires Admissible(events, now, ServerId(start, addr))
    requires var own := EventsOf(ServerId(start, addr), events);
             && n < |own| && EndOf(now, events) <= own[n].at + ttl
             && (Names(own[n], id, info) || NamesFirst(ttl, own[..n], own[n], id, info))
             && forall j :: n < j < |own| ==> LeavesId(own[j], id)
    ensures Lookup(RunTables(StringMachine(ttl, 0), Empty(), events).dicts,
                   Render(ServerId(start, addr), DictIdKey(id)), EndOf(now, events)) == Some(KnownUser(info))
  {
    var s, end := ServerId(start, addr), EndOf(now, events);
    var own := EventsOf(s, events);
    hide EventsOf, RunTables, Admissible, Render, EndOf, InOrder, ServerId, Lookup, StandsFor, Names;
    hide NamesFirst, LeavesId, FileSaid, TimeSaid, PathSaid, UserSaid, ServerSaid;
    MapsAsSaid(ttl, start, addr, now, events, id, 0, UserKey("", "", 0, 0, ""));
    OwnInOrder(s, now, events);
    IdSince(ttl, own, n, id, info, end);
  }
}

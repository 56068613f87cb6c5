// The story of one transfer: who a close record is attributed to.
module Attribution {
  import opened Records
  import opened Text
  import opened UserInfoText
  import opened KeyValue
  import opened Keys
  import opened StateMaps
  import opened CorrelatorModel
  import opened ServerIsolation
  import opened UserHistory

  predicate WritesDict(w: Write, k: LocalKey) { (w.PutDict? || w.DropDict?) && w.key == k }
  predicate WritesFile(w: Write, k: LocalKey) { (w.PutFile? || w.DropFile?) && w.key == k }

  // No packet of a run writes the dictionary entry, or the file entry, k.
  ghost predicate SparesDict(ttl: nat, t: Tables<LocalKey>, events: seq<Event>, k: LocalKey)
    decreases |events|
  {
    events != [] ==>
      && events[0].Handle?
      && (var out := JobOutcome(Typed(ttl, events[0].at), t, events[0].origin, events[0].job);
          forall w :: w in out.writes ==> !WritesDict(w, k))
      && SparesDict(ttl, Step(TypedMachine(ttl), t, events[0]), events[1..], k)
  }

  ghost predicate SparesFile(ttl: nat, t: Tables<LocalKey>, events: seq<Event>, k: LocalKey)
    decreases |events|
  {
    events != [] ==>
      && events[0].Handle?
      && (var out := JobOutcome(Typed(ttl, events[0].at), t, events[0].origin, events[0].job);
          forall w :: w in out.writes ==> !WritesFile(w, k))
      && SparesFile(ttl, Step(TypedMachine(ttl), t, events[0]), events[1..], k)
  }

  predicate SameEntry<V(==)>(m: Table<LocalKey, V>, m': Table<LocalKey, V>, k: LocalKey)
  {
    (k in m <==> k in m') && (k in m ==> m[k] == m'[k])
  }

  lemma {:induction false} DictSpared(ttl: nat, now: int, t: Tables<LocalKey>, server: string, ws: seq<Write>,
                                      k: LocalKey)
    requires forall w :: w in ws ==> !WritesDict(w, k)
    ensures SameEntry(t.dicts, AllWritten(Typed(ttl, now), t, server, ws).dicts, k)
    decreases |ws|
  {
    if ws != [] {
      assert ws[0] in ws;
      DictSpared(ttl, now, Written(Typed(ttl, now), t, server, ws[0]), server, ws[1..], k);
    }
  }

  lemma {:induction false} FileSpared(ttl: nat, now: int, t: Tables<LocalKey>, server: string, ws: seq<Write>,
                                      k: LocalKey)
    requires forall w :: w in ws ==> !WritesFile(w, k)
    ensures SameEntry(t.files, AllWritten(Typed(ttl, now), t, server, ws).files, k)
    decreases |ws|
  {
    if ws != [] {
      assert ws[0] in ws;
      FileSpared(ttl, now, Written(Typed(ttl, now), t, server, ws[0]), server, ws[1..], k);
    }
  }

  lemma {:induction false} DictKept(ttl: nat, t: Tables<LocalKey>, events: seq<Event>, k: LocalKey)
    requires SparesDict(ttl, t, events, k)
    ensures SameEntry(t.dicts, RunTables(TypedMachine(ttl), t, events).dicts, k)
    decreases |events|
  {
    if events != [] {
      var e := events[0];
      DictSpared(ttl, e.at, t, IdOf(e.origin), JobOutcome(Typed(ttl, e.at), t, e.origin, e.job).writes, k);
      hide JobOutcome, AllWritten, IdOf;
      DictKept(ttl, Step(TypedMachine(ttl), t, e), events[1..], k);
    }
  }

  lemma {:induction false} FileKept(ttl: nat, t: Tables<LocalKey>, events: seq<Event>, k: LocalKey)
    requires SparesFile(ttl, t, events, k)
    ensures SameEntry(t.files, RunTables(TypedMachine(ttl), t, events).files, k)
    decreases |events|
  {
    if events != [] {
      var e := events[0];
      FileSpared(ttl, e.at, t, IdOf(e.origin), JobOutcome(Typed(ttl, e.at), t, e.origin, e.job).writes, k);
      hide JobOutcome, AllWritten, IdOf;
      FileKept(ttl, Step(TypedMachine(ttl), t, e), events[1..], k);
    }
  }

  // ---- Login, open and close

  predicate IsOpen(e: Event, fileId: nat, userId: nat)
  {
    && e.Handle? && e.job.FileJob? && e.job.file.OpenRecord? && e.job.file.header.fileId == fileId
    && e.job.file.header.userId == userId && userId != 0
  }

  predicate IsClose(e: Event, fileId: nat)
  {
    e.Handle? && e.job.FileJob? && e.job.file.CloseRecord? && e.job.file.header.fileId == fileId
  }

  lemma LoginNames(ttl: nat, t: Tables<LocalKey>, login: Event, k: LocalKey)
    requires IsLogin(login, k)
    ensures var rec, t' := login.job.user, Step(TypedMachine(ttl), t, login);
            var d := DictIdKey(rec.dictId);
            d in t'.dicts && t'.dicts[d] == Entry(KnownUser(rec.userInfo), login.at + ttl)
  {
    var c, rec := Typed(ttl, login.at), login.job.user;
    var ws := UserWrites(c, t, IdOf(login.origin), rec);
    TwoWrites(c, t, IdOf(login.origin), ws[0], ws[1]);
    hide AllWritten, UserKeyOf, IdOf;
  }

  lemma OpenFiles(ttl: nat, t: Tables<LocalKey>, open: Event)
    requires open.Handle? && open.job.FileJob? && open.job.file.OpenRecord?
    ensures var rec, t' := open.job.file, Step(TypedMachine(ttl), t, open);
            var f := FileKey(rec.header.fileId);
            f in t'.files && t'.files[f] == Entry(OpenState(Typed(ttl, open.at), t, open.origin, rec), open.at + ttl)
  {
    var c, rec := Typed(ttl, open.at), open.job.file;
    OneWrite(c, t, IdOf(open.origin), PutFile(FileKey(rec.header.fileId), OpenState(c, t, open.origin, rec)));
    hide AllWritten, OpenName, IdOf;
  }

  // The record of a close whose file, dictionary and user entries are live.
  lemma CloseOf(ttl: nat, t: Tables<LocalKey>, close: Event, file: FileState, info: UserInfo, u: UserState)
    requires close.Handle? && close.job.FileJob? && close.job.file.CloseRecord? && file.userId != 0
    requires Lookup(t.files, FileKey(close.job.file.header.fileId), close.at) == Some(file)
    requires Lookup(t.dicts, DictIdKey(file.userId), close.at) == Some(KnownUser(info))
    requires Lookup(t.users, UserKeyOf(info), close.at) == Some(u)
    ensures var o := close.origin;
            Emitted(TypedMachine(ttl), t, close) ==
            [Record(close.at, file.openTime, IdOf(o), o.remoteAddr, SiteFor(Typed(ttl, close.at), t, file.serverId),
                    u.userInfo.username, u.userInfo.host, u.userInfo.protocol, u.authInfo,
                    u.tokenInfo.(userDictId := 0),
                    u.appInfo, u.experimentId, u.activityId, file.filename, file.fileSize,
                    close.job.file.xfr, close.job.file.ops)]
  {
    hide SiteFor, IdOf, UserKeyOf, UserHex;
  }

  // A user logs in under a dictionary id, opens a file under that id and
  // closes it, among any other packets of the server that neither reassign the
  // id or the file nor log the user in again or out, all before anything
  // expires.
  ghost predicate IsTransfer(ttl: nat, t: Tables<LocalKey>, login: Event, before: seq<Event>, open: Event,
                             after: seq<Event>, close: Event, k: LocalKey, fileId: nat)
  {
    var m, t1 := TypedMachine(ttl), Step(TypedMachine(ttl), t, login);
    var during := before + [open] + after;
    && IsLogin(login, k) && IsOpen(open, fileId, login.job.user.dictId) && IsClose(close, fileId)
    && close.at <= login.at + ttl && close.at <= open.at + ttl
    && SparesDict(ttl, t1, during, DictIdKey(login.job.user.dictId))
    && SparesFile(ttl, RunTables(m, t1, before + [open]), after, FileKey(fileId))
    && StaysLoggedIn(ttl, t1, login.at, during, k, close.at)
  }

  // The record due: the login's identity and authorization, the last
  // application, token and codes reported since, the file's name and size from
  // the open, and the counters of the close.
  function TransferRecord(ttl: nat, t: Tables<LocalKey>, login: Event, before: seq<Event>, open: Event,
                          after: seq<Event>, close: Event, k: LocalKey): Record
    requires login.Handle? && login.job.UserJob?
    requires open.Handle? && open.job.FileJob? && open.job.file.OpenRecord?
    requires close.Handle? && close.job.FileJob? && close.job.file.CloseRecord?
  {
    var m, t1 := TypedMachine(ttl), Step(TypedMachine(ttl), t, login);
    var rec, o := login.job.user, close.origin;
    var said := Effects(ttl, t1, before + [open] + after, k);
    var codes := LastCodes(said, (0, 0));
    Record(close.at, open.origin.serverStart, IdOf(o), o.remoteAddr,
           SiteFor(Typed(ttl, close.at), RunTables(m, t1, before + [open] + after), IdOf(open.origin)),
           rec.userInfo.username, rec.userInfo.host, rec.userInfo.protocol, rec.authInfo,
           LastToken(said, rec.tokenInfo).(userDictId := 0), LastApp(said, ""), codes.0, codes.1,
           OpenName(Typed(ttl, open.at), RunTables(m, t1, before), IdOf(open.origin), open.job.file),
           open.job.file.fileSize, close.job.file.xfr, close.job.file.ops)
  }

  lemma TransferIsAttributed(ttl: nat, t: Tables<LocalKey>, login: Event, before: seq<Event>, open: Event,
                             after: seq<Event>, close: Event, k: LocalKey, fileId: nat)
    requires IsTransfer(ttl, t, login, before, open, after, close, k, fileId)
    ensures var m, t1 := TypedMachine(ttl), Step(TypedMachine(ttl), t, login);
            Emitted(m, RunTables(m, t1, before + [open] + after), close) ==
            [TransferRecord(ttl, t, login, before, open, after, close, k)]
  {
    var m, t1 := TypedMachine(ttl), Step(TypedMachine(ttl), t, login);
    var during := before + [open] + after;
    var atOpen, t3, rec := RunTables(m, t1, before), RunTables(m, t1, during), login.job.user;
    var file := OpenState(Typed(ttl, open.at), atOpen, open.origin, open.job.file);
    hide RunTables, Step, Effects, Timely, Expiry, SparesDict, SparesFile, OpenName, SiteFor, IdOf, Emitted, Lookup;
    hide StaysLoggedIn, LastWords;
    DictAtClose(ttl, t, login, during, k, close.at);
    FileAtClose(ttl, t1, before, open, after, close.at);
    UserAtClose(ttl, t, login, during, k, close.at);
    CloseOf(ttl, t3, close, file, rec.userInfo, LastWords(LoginState(login), Effects(ttl, t1, during, k)));
    LastWordsSpelled(login, Effects(ttl, t1, during, k));
  }

  lemma DictAtClose(ttl: nat, t: Tables<LocalKey>, login: Event, during: seq<Event>, k: LocalKey, now: int)
    requires IsLogin(login, k) && now <= login.at + ttl
    requires SparesDict(ttl, Step(TypedMachine(ttl), t, login), during, DictIdKey(login.job.user.dictId))
    ensures var rec, t1 := login.job.user, Step(TypedMachine(ttl), t, login);
            Lookup(RunTables(TypedMachine(ttl), t1, during).dicts, DictIdKey(rec.dictId), now) ==
            Some(KnownUser(rec.userInfo))
  {
    hide Step, RunTables, SparesDict;
    LoginNames(ttl, t, login, k);
    DictKept(ttl, Step(TypedMachine(ttl), t, login), during, DictIdKey(login.job.user.dictId));
  }

  lemma UserAtClose(ttl: nat, t: Tables<LocalKey>, login: Event, during: seq<Event>, k: LocalKey, now: int)
    requires IsLogin(login, k) && StaysLoggedIn(ttl, Step(TypedMachine(ttl), t, login), login.at, during, k, now)
    ensures var t1 := Step(TypedMachine(ttl), t, login);
            Lookup(RunTables(TypedMachine(ttl), t1, during).users, k, now) ==
            Some(LastWords(LoginState(login), Effects(ttl, t1, during, k)))
  {
    hide RunTables, Step, LastWords, Effects, Timely, Expiry, NoLoginOrGone, UserKeyOf;
    LoginStep(ttl, t, login, k);
    hide IsLogin;
    LastWriterPerField(ttl, Step(TypedMachine(ttl), t, login), during, k, Entry(LoginState(login), login.at + ttl));
  }

  lemma FileAtClose(ttl: nat, t1: Tables<LocalKey>, before: seq<Event>, open: Event, after: seq<Event>, now: int)
    requires open.Handle? && open.job.FileJob? && open.job.file.OpenRecord? && now <= open.at + ttl
    requires SparesFile(ttl, RunTables(TypedMachine(ttl), t1, before + [open]), after,
                        FileKey(open.job.file.header.fileId))
    ensures Lookup(RunTables(TypedMachine(ttl), t1, before + [open] + after).files,
                   FileKey(open.job.file.header.fileId), now) ==
            Some(OpenState(Typed(ttl, open.at), RunTables(TypedMachine(ttl), t1, before), open.origin, open.job.file))
  {
    var m := TypedMachine(ttl);
    var atOpen := RunTables(m, t1, before);
    RunAppend(m, t1, before, [open]);
    assert RunTables(m, atOpen, [open]) == Step(m, atOpen, open) by {
      assert [open][1..] == [];
      hide Step;
    }
    RunAppend(m, t1, before + [open], after);
    OpenFiles(ttl, atOpen, open);
    FileKept(ttl, Step(m, atOpen, open), after, FileKey(open.job.file.header.fileId));
    hide RunTables, Step, SparesFile, OpenState;
  }

  // With nothing in between, the times alone decide.
  lemma PlainTransfer(ttl: nat, t: Tables<LocalKey>, login: Event, open: Event, close: Event, k: LocalKey, fileId: nat)
    requires IsLogin(login, k) && IsOpen(open, fileId, login.job.user.dictId) && IsClose(close, fileId)
    requires login.at <= open.at <= close.at <= login.at + ttl
    ensures IsTransfer(ttl, t, login, [], open, [], close, k, fileId)
  {
    var m, t1 := TypedMachine(ttl), Step(TypedMachine(ttl), t, login);
    assert [] + [open] + [] == [open] && [] + [open] == [open] && [open][1..] == [];
    var t2 := Step(m, t1, open);
    assert RunTables(m, t1, [open]) == t2 by {
      hide Step;
    }
    var c := Typed(ttl, open.at);
    var w := PutFile(FileKey(fileId), OpenState(c, t1, open.origin, open.job.file));
    assert JobOutcome(c, t1, open.origin, open.job).writes == [w];
    assert Effects(ttl, t1, [open], k) == [Nothing] && [Nothing][1..] == [];
    assert Expiry(ttl, login.at + ttl, [open][1..], [Nothing][1..]) == login.at + ttl;
    assert Expiry(ttl, login.at + ttl, [open], [Nothing]) == login.at + ttl;
    assert SparesDict(ttl, t2, [], DictIdKey(login.job.user.dictId));
    assert SparesDict(ttl, t1, [open], DictIdKey(login.job.user.dictId));
    assert Timely(ttl, login.at + ttl, [open], [Nothing]);
    assert StaysLoggedIn(ttl, t1, login.at, [open], k, close.at);
    assert SparesFile(ttl, RunTables(m, t1, [open]), [], FileKey(fileId));
    hide Step, IdOf, OpenState, JobOutcome, AllWritten, Written, Effects;
  }

  // ---- Within a run of the whole program

  // What the program's file map holds for an open, however its server's packets
  // are interleaved with others and with cleanups.
  lemma OpenInTraffic(ttl: nat, start: int, addr: string, now: int, events: seq<Event>, before: seq<Event>, open: Event)
    requires Admissible(events, now, ServerId(start, addr)) && EndOf(now, events) <= open.at + ttl
    requires EventsOf(ServerId(start, addr), events) == before + [open]
    requires open.Handle? && open.job.FileJob? && open.job.file.OpenRecord?
    ensures Lookup(RunTables(StringMachine(ttl, 0), Empty(), events).files,
                   Render(ServerId(start, addr), FileKey(open.job.file.header.fileId)), EndOf(now, events)) ==
            Some(OpenState(Typed(ttl, open.at), RunTables(TypedMachine(ttl), Empty(), before), open.origin,
                           open.job.file))
  {
    var s, m, k := ServerId(start, addr), TypedMachine(ttl), FileKey(open.job.file.header.fileId);
    assert SparesFile(ttl, RunTables(m, Empty(), before + [open]), [], k);
    FileAtClose(ttl, Empty(), before, open, [], EndOf(now, events));
    assert before + [open] + [] == before + [open];
    EmptyRefines(s, now);
    TablesRefine(Empty(), s, Empty(), ttl, now, events);
    hide RunTables, EventsOf, Apart, Render, Admissible, EndOf, OpenState;
    assert In(FileMap, k);
  }

  lemma {:induction false} RecordsAlong<K>(m: Machine<K>, t: Tables<K>, a: seq<Event>, b: seq<Event>)
    ensures RunRecords(m, t, a + b) == RunRecords(m, t, a) + RunRecords(m, RunTables(m, t, a), b)
    decreases |a|
  {
    hide Step, Emitted;
    if a == [] {
      assert a + b == b;
    } else {
      assert (a + b)[1..] == a[1..] + b;
      RecordsAlong(m, Step(m, t, a[0]), a[1..], b);
    }
  }

  // In any interleaving with other servers' packets and with cleanups, a
  // transfer of a server ends in its record.
  lemma TransferInTraffic(ttl: nat, start: int, addr: string, now: int, events: seq<Event>,
                          earlier: seq<Event>, login: Event, before: seq<Event>, open: Event, after: seq<Event>,
                          close: Event, later: seq<Event>, k: LocalKey, fileId: nat)
    requires Admissible(events, now, ServerId(start, addr))
    requires EventsOf(ServerId(start, addr), events) ==
             earlier + ([login] + ((before + [open] + after) + ([close] + later)))
    requires IsTransfer(ttl, RunTables(TypedMachine(ttl), Empty(), earlier), login, before, open, after, close, k,
                        fileId)
    ensures var t := RunTables(TypedMachine(ttl), Empty(), earlier);
            TransferRecord(ttl, t, login, before, open, after, close, k) in
              RecordsOf(ServerId(start, addr), RunRecords(StringMachine(ttl, 0), Empty(), events))
  {
    var s, m := ServerId(start, addr), TypedMachine(ttl);
    var t := RunTables(m, Empty(), earlier);
    EmptyRefines(s, now);
    RunRefines(Empty(), s, Empty(), ttl, now, events);
    TransferIsAttributed(ttl, t, login, before, open, after, close, k, fileId);
    RecordsOfParts(ttl, earlier, login, before + [open] + after, close, later);
    hide *;
  }

  // The records of a close in the middle of a run are among those of the run.
  lemma RecordsOfParts(ttl: nat, earlier: seq<Event>, login: Event, during: seq<Event>, close: Event, later: seq<Event>)
    ensures var m := TypedMachine(ttl);
            var t1 := Step(m, RunTables(m, Empty(), earlier), login);
            forall r :: r in Emitted(m, RunTables(m, t1, during), close) ==>
              r in RunRecords(m, Empty(), earlier + ([login] + (during + ([close] + later))))
  {
    var m := TypedMachine(ttl);
    var t := RunTables(m, Empty(), earlier);
    var t1 := Step(m, t, login);
    var t3 := RunTables(m, t1, during);
    RecordsAlong(m, Empty(), earlier, [login] + (during + ([close] + later)));
    FirstEvent(m, t, login, during + ([close] + later));
    RecordsAlong(m, t1, during, [close] + later);
    FirstEvent(m, t3, close, later);
    hide RunTables, RunRecords, Step, Emitted;
  }

  lemma FirstEvent<K>(m: Machine<K>, t: Tables<K>, e: Event, rest: seq<Event>)
    ensures RunRecords(m, t, [e] + rest) == Emitted(m, t, e) + RunRecords(m, Step(m, t, e), rest)
  {
    assert ([e] + rest)[1..] == rest;
    hide Emitted, Step;
  }

  // ---- Names of opens that carry none

  // What a 'd' packet leaves under its path key.
  lemma PathStored(ttl: nat, t: Tables<LocalKey>, server: string, id: nat, text: string, now: int)
    ensures var c, head := Typed(ttl, now), CollectorUserInfo(Before(text, '\n'));
            var t' := AllWritten(c, t, server, MappingWrites(c, t, server, 'd', id, text));
            if head.Ok? && '\n' !in text then SameEntry(t.dicts, t'.dicts, PathKey(id))
            else
              && PathKey(id) in t'.dicts
              && t'.dicts[PathKey(id)] ==
                 Entry(if head.Err? then RawText(text) else PathInfo(After(text, '\n'), head.value), now + ttl)
  {
    var c, head := Typed(ttl, now), CollectorUserInfo(Before(text, '\n'));
    hide CollectorUserInfo, Before, After, AllWritten;
    if head.Err? {
      assert MappingWrites(c, t, server, 'd', id, text) == [PutDict(PathKey(id), RawText(text))];
      OneWrite(c, t, server, PutDict(PathKey(id), RawText(text)));
      hide MappingWrites;
    } else {
      var second := PutDict(DictIdKey(id), KnownUser(head.value));
      if '\n' in text {
        var first := PutDict(PathKey(id), PathInfo(After(text, '\n'), head.value));
        assert MappingWrites(c, t, server, 'd', id, text) == [first, second];
        TwoWrites(c, t, server, first, second);
        hide MappingWrites;
      } else {
        assert MappingWrites(c, t, server, 'd', id, text) == [second];
        OneWrite(c, t, server, second);
        hide MappingWrites;
      }
    }
  }

  // A nameless open under a file id, after a dictionary packet for that id and
  // any packets that leave its path entry alone, all within the time to live:
  // it is named by the packet's whole text if the first line is not a user
  // info; by nothing if it is one and a path follows; and as it would have been
  // without the packet if no path follows. The path itself is never used.
  lemma PathFallback(ttl: nat, t: Tables<LocalKey>, o: Origin, text: string, at: int, between: seq<Event>, open: Event)
    requires open.Handle? && open.job.FileJob? && open.job.file.OpenRecord?
    requires open.job.file.lfn == [] && open.job.file.header.fileId != 0 && open.at <= at + ttl
    requires var packet := Handle(o, MappingJob('d', open.job.file.header.fileId, text), at);
             SparesDict(ttl, Step(TypedMachine(ttl), t, packet), between, PathKey(open.job.file.header.fileId))
    ensures var packet := Handle(o, MappingJob('d', open.job.file.header.fileId, text), at);
            var t' := RunTables(TypedMachine(ttl), Step(TypedMachine(ttl), t, packet), between);
            var c, server, first := Typed(ttl, open.at), IdOf(open.origin), CollectorUserInfo(Before(text, '\n'));
            OpenName(c, t', server, open.job.file) ==
            if first.Err? then text
            else if '\n' in text then ""
            else OpenName(c, t, server, open.job.file)
  {
    var id := open.job.file.header.fileId;
    var t1 := Step(TypedMachine(ttl), t, Handle(o, MappingJob('d', id, text), at));
    hide Step, RunTables, SparesDict, CollectorUserInfo, Before, After, IdOf, AsText;
    PathPacket(ttl, t, o, id, text, at);
    DictKept(ttl, t1, between, PathKey(id));
    var t2 := RunTables(TypedMachine(ttl), t1, between);
    var first := CollectorUserInfo(Before(text, '\n'));
    hide OpenName;
    if first.Err? || '\n' in text {
      NameStored(ttl, t2, IdOf(open.origin), open.job.file, open.at);
    } else {
      SameName(ttl, t, t2, IdOf(open.origin), open.job.file, open.at);
    }
  }

  lemma NameStored(ttl: nat, t: Tables<LocalKey>, server: string, rec: FileRecord, now: int)
    requires rec.OpenRecord? && rec.lfn == [] && rec.header.fileId != 0
    requires PathKey(rec.header.fileId) in t.dicts && now <= t.dicts[PathKey(rec.header.fileId)].expiresAt
    ensures var v := t.dicts[PathKey(rec.header.fileId)].value;
            OpenName(Typed(ttl, now), t, server, rec) == if v.RawText? then v.text else ""
  {}

  lemma SameName(ttl: nat, t: Tables<LocalKey>, t': Tables<LocalKey>, server: string, rec: FileRecord, now: int)
    requires rec.OpenRecord? && SameEntry(t.dicts, t'.dicts, PathKey(rec.header.fileId))
    ensures OpenName(Typed(ttl, now), t, server, rec) == OpenName(Typed(ttl, now), t', server, rec)
  {
    hide AsText;
  }

  lemma PathPacket(ttl: nat, t: Tables<LocalKey>, o: Origin, id: nat, text: string, at: int)
    ensures var first, k := CollectorUserInfo(Before(text, '\n')), PathKey(id);
            var t' := Step(TypedMachine(ttl), t, Handle(o, MappingJob('d', id, text), at));
            if first.Ok? && '\n' !in text then SameEntry(t.dicts, t'.dicts, k)
            else
              && k in t'.dicts
              && t'.dicts[k] ==
                 Entry(if first.Err? then RawText(text) else PathInfo(After(text, '\n'), first.value), at + ttl)
  {
    hide CollectorUserInfo, Before, After, AllWritten, MappingWrites, IdOf;
    PathStored(ttl, t, IdOf(o), id, text, at);
  }

  // The same of the name the program's file map then holds.
  lemma PathFallbackInTraffic(ttl: nat, start: int, addr: string, now: int, events: seq<Event>, earlier: seq<Event>,
                              o: Origin, text: string, at: int, between: seq<Event>, open: Event)
    requires Admissible(events, now, ServerId(start, addr)) && EndOf(now, events) <= open.at + ttl
    requires open.Handle? && open.job.FileJob? && open.job.file.OpenRecord?
    requires open.job.file.lfn == [] && open.job.file.header.fileId != 0 && open.at <= at + ttl
    requires var packet := Handle(o, MappingJob('d', open.job.file.header.fileId, text), at);
             && EventsOf(ServerId(start, addr), events) == earlier + ([packet] + between) + [open]
             && SparesDict(ttl, Step(TypedMachine(ttl), RunTables(TypedMachine(ttl), Empty(), earlier), packet),
                           between,
                           PathKey(open.job.file.header.fileId))
    ensures var file := Lookup(RunTables(StringMachine(ttl, 0), Empty(), events).files,
                               Render(ServerId(start, addr), FileKey(open.job.file.header.fileId)), EndOf(now, events));
            var first := CollectorUserInfo(Before(text, '\n'));
            var t := RunTables(TypedMachine(ttl), Empty(), earlier);
            && file.Some?
            && (first.Err? ==> file.value.filename == text)
            && (first.Ok? && '\n' in text ==> file.value.filename == "")
            && (first.Ok? && '\n' !in text ==>
                  file.value.filename == OpenName(Typed(ttl, open.at), t, IdOf(open.origin), open.job.file))
  {
    var m, packet := TypedMachine(ttl), Handle(o, MappingJob('d', open.job.file.header.fileId, text), at);
    var t := RunTables(m, Empty(), earlier);
    RunAppend(m, Empty(), earlier, [packet] + between);
    assert RunTables(m, t, [packet] + between) == RunTables(m, Step(m, t, packet), between) by {
      assert ([packet] + between)[1..] == between;
      hide Step;
    }
    PathFallback(ttl, t, o, text, at, between, open);
    hide RunTables, Step, SparesDict, CollectorUserInfo, Before, OpenName, EventsOf, Admissible, IdOf, Render, EndOf;
    OpenInTraffic(ttl, start, addr, now, events, earlier + ([packet] + between), open);
  }
}

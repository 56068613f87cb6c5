// Exactly which pairs of servers are isolated from each other.
module IsolationLimits {
  import opened Records
  import opened Text
  import opened Numbers
  import opened UserInfoText
  import opened Keys
  import opened StateMaps
  import opened CorrelatorModel
  import opened ServerIsolation

  // A run of two servers and any cleanups, in time order, whose user records
  // are ones the packet parser makes.
  predicate Between(events: seq<Event>, now: int, s: string, s': string)
    decreases |events|
  {
    events != [] ==>
      && now <= events[0].at
      && (events[0].Handle? ==> IdOf(events[0].origin) in {s, s'} && Shaped(events[0].job))
      && Between(events[1..], events[0].at, s, s')
  }

  // Whatever s' sends, s gets the records it would get alone.
  ghost predicate Isolated(ttl: nat, s: string, s': string)
  {
    forall events, now :: Between(events, now, s, s') ==>
      var m := StringMachine(ttl, 0);
      RecordsOf(s, RunRecords(m, Empty(), events)) == RecordsOf(s, RunRecords(m, Empty(), EventsOf(s, events)))
  }

  lemma {:induction false} BetweenIsAdmissible(events: seq<Event>, now: int, s: string, s': string)
    requires Between(events, now, s, s') && Apart(s, s')
    ensures Admissible(events, now, s)
    decreases |events|
  {
    hide Continues, IdOf;
    if events != [] {
      ApartFromItself(s);
      BetweenIsAdmissible(events[1..], events[0].at, s, s');
    }
  }

  // ---- Single steps, for any way of making keys

  const USER := 1
  const FILE := 1

  function Auth(mark: string): AuthInfo { NO_AUTH.(dn := mark) }

  // A user of a server made known, and marked: by a login packet if the packet
  // parser can make its user info, by an application packet if only the
  // collector's can.
  function JoinJob(i: UserInfo, mark: string): Job
  {
    if PacketMade(i) then UserJob(UserRecord(USER, i, Auth(mark), NO_TOKEN))
    else MappingJob('i', USER, Spelled(i) + "\n" + mark)
  }

  function Joined<K>(c: Setting<K>, t: Tables<K>, o: Origin, i: UserInfo, mark: string): UserState
  {
    if PacketMade(i) then UserState(USER, i, Auth(mark), NO_TOKEN, "", 0, 0, c.now)
    else UserOr(c, t, IdOf(o), i, USER).(appInfo := mark)
  }

  lemma JoinWrites<K>(c: Setting<K>, t: Tables<K>, o: Origin, i: UserInfo, mark: string)
    requires Made(i) && IsInt64(i.pid) && IsInt64(i.sid)
    ensures var out := JobOutcome(c, t, o, JoinJob(i, mark));
            && out.records == []
            && out.writes == [PutDict(DictIdKey(USER), KnownUser(i)), PutUser(UserKeyOf(i), Joined(c, t, o, i, mark))]
  {
    hide IdOf, UserKeyOf, UserOr, Spelled, Before, After, CollectorUserInfo, PacketMade, CollectorMade;
    if !PacketMade(i) {
      SpelledIsRead(i);
      hide InOneLine;
      CutAt(Spelled(i), '\n', mark);
    }
  }

  lemma SpelledIsRead(i: UserInfo)
    requires Made(i) && !PacketMade(i) && IsInt64(i.pid) && IsInt64(i.sid)
    ensures CollectorUserInfo(Spelled(i)) == Ok(i) && '\n' !in Spelled(i)
  {
    assert CollectorMade(i);
    CollectorReadsSpelled(i);
    SpelledInOneLine(i);
  }

  lemma JoinTables<K>(m: Machine<K>, t: Tables<K>, o: Origin, i: UserInfo, mark: string, at: int)
    requires Made(i) && IsInt64(i.pid) && IsInt64(i.sid) && m.maxEntries == 0
    ensures var e, s := Handle(o, JoinJob(i, mark), at), IdOf(o);
            var t' := Step(m, t, e);
            && Emitted(m, t, e) == [] && t'.files == t.files
            && t'.dicts == t.dicts[m.key(s, DictIdKey(USER)) := Entry(KnownUser(i), at + m.ttl)]
            && t'.users == t.users[m.key(s, UserKeyOf(i)) := Entry(Joined(At(m, at), t, o, i, mark), at + m.ttl)]
  {
    hide UserKeyOf, IdOf, JoinJob, JobOutcome, Joined, Made;
    var c := At(m, at);
    JoinWrites(c, t, o, i, mark);
    TwoWrites(c, t, IdOf(o), PutDict(DictIdKey(USER), KnownUser(i)), PutUser(UserKeyOf(i), Joined(c, t, o, i, mark)));
    hide AllWritten;
  }

  // A close of a known file by a known user.
  lemma CloseRecords<K>(m: Machine<K>, t: Tables<K>, o: Origin, close: FileRecord, file: FileState, info: UserInfo,
                        u: UserState, at: int)
    requires close.CloseRecord? && file.userId != 0 && file.serverId == IdOf(o)
    requires Lookup(t.files, m.key(IdOf(o), FileKey(close.header.fileId)), at) == Some(file)
    requires Lookup(t.dicts, m.key(IdOf(o), DictIdKey(file.userId)), at) == Some(KnownUser(info))
    requires Lookup(t.users, m.key(IdOf(o), UserKeyOf(info)), at) == Some(u)
    ensures var records := Emitted(m, t, Handle(o, FileJob(close), at));
            && |records| == 1 && records[0].serverId == IdOf(o)
            && records[0].authInfo == u.authInfo && records[0].appInfo == u.appInfo
  {
    hide SiteFor, IdOf, UserKeyOf, UserHex;
  }

  // ---- One run in which they are not

  function JoinOf(o: Origin, i: UserInfo, mark: string): Event { Handle(o, JoinJob(i, mark), 0) }

  function OpenOf(o: Origin): Event
  {
    Handle(o, FileJob(OpenRecord(FileHeader(0, 0, 0, FILE, USER, 0, 0), 0, USER, [])), 0)
  }

  function CloseOf(o: Origin): Event
  {
    Handle(o, FileJob(CloseRecord(FileHeader(0, 0, 0, FILE, 0, 0, 0), StatXFR(0, 0, 0), NO_OPS)), 0)
  }

  // A user of each server, the other server's second or not at all; then s opens
  // and closes a file for its user.
  function Mixed(o: Origin, i: UserInfo, o': Origin, i': UserInfo, both: bool): seq<Event>
  {
    [JoinOf(o, i, "a")] + ((if both then [JoinOf(o', i', "b")] else []) + ([OpenOf(o)] + [CloseOf(o)]))
  }

  lemma FirstOf(m: Machine, t: Tables, e: Event, rest: seq<Event>)
    ensures RunRecords(m, t, [e] + rest) == Emitted(m, t, e) + RunRecords(m, Step(m, t, e), rest)
  {
    assert ([e] + rest)[1..] == rest;
    hide Emitted, Step;
  }

  ghost predicate OneRecordOf(records: seq<Record>, server: string, u: UserState)
  {
    && |records| == 1 && records[0].serverId == server
    && records[0].authInfo == u.authInfo && records[0].appInfo == u.appInfo
  }

  // The record carries what the user map holds for the user of s.
  lemma OpenAndClose(ttl: nat, t: Tables<string>, o: Origin, i: UserInfo, u: UserState)
    requires Lookup(t.dicts, Render(IdOf(o), DictIdKey(USER)), 0) == Some(KnownUser(i))
    requires Lookup(t.users, Render(IdOf(o), UserKeyOf(i)), 0) == Some(u)
    ensures OneRecordOf(RunRecords(StringMachine(ttl, 0), t, [OpenOf(o)] + [CloseOf(o)]), IdOf(o), u)
  {
    var m, open, close := StringMachine(ttl, 0), OpenOf(o), CloseOf(o);
    var file := OpenState(At(m, 0), t, o, open.job.file);
    hide Step, Emitted, Render, UserKeyOf, IdOf, RunRecords;
    OpenTables(m, t, o, open.job.file, 0);
    CloseRecords(m, Step(m, t, open), o, close.job.file, file, i, u, 0);
    FirstOf(m, t, open, [close]);
    LastOf(m, Step(m, t, open), close);
  }

  lemma LastOf(m: Machine, t: Tables, e: Event)
    ensures RunRecords(m, t, [e]) == Emitted(m, t, e)
  {
    assert [e][1..] == [];
    hide Emitted, Step;
  }

  // The user under the shared key after one server's packet, or after both.
  function LastJoined(ttl: nat, o: Origin, i: UserInfo, o': Origin, i': UserInfo, both: bool): UserState
  {
    var m := StringMachine(ttl, 0);
    if both then Joined(At(m, 0), Step(m, Empty(), JoinOf(o, i, "a")), o', i', "b")
    else Joined(At(m, 0), Empty(), o, i, "a")
  }

  ghost predicate SharesAKey(o: Origin, i: UserInfo, o': Origin, i': UserInfo)
  {
    && Made(i) && IsInt64(i.pid) && IsInt64(i.sid) && Made(i') && IsInt64(i'.pid) && IsInt64(i'.sid)
    && IdOf(o) != IdOf(o') && Render(IdOf(o), UserKeyOf(i)) == Render(IdOf(o'), UserKeyOf(i'))
  }

  lemma OneJoins(ttl: nat, o: Origin, i: UserInfo, o': Origin, i': UserInfo)
    requires SharesAKey(o, i, o', i')
    ensures OneRecordOf(RunRecords(StringMachine(ttl, 0), Empty(), Mixed(o, i, o', i', false)), IdOf(o),
                        LastJoined(ttl, o, i, o', i', false))
  {
    hide Render, UserKeyOf, IdOf, OpenOf, CloseOf, Made, Joined, JoinJob, Step, Emitted, RunRecords;
    var m, first, files := StringMachine(ttl, 0), JoinOf(o, i, "a"), [OpenOf(o)] + [CloseOf(o)];
    JoinTables(m, Empty(), o, i, "a", 0);
    assert Mixed(o, i, o', i', false) == [first] + files;
    FirstOf(m, Empty(), first, files);
    OpenAndClose(ttl, Step(m, Empty(), first), o, i, LastJoined(ttl, o, i, o', i', false));
  }

  lemma BothJoin(ttl: nat, o: Origin, i: UserInfo, o': Origin, i': UserInfo)
    requires SharesAKey(o, i, o', i')
    ensures OneRecordOf(RunRecords(StringMachine(ttl, 0), Empty(), Mixed(o, i, o', i', true)), IdOf(o),
                        LastJoined(ttl, o, i, o', i', true))
  {
    DictsApart(IdOf(o), IdOf(o'));
    hide Render, UserKeyOf, IdOf, OpenOf, CloseOf, Made, Joined, JoinJob, Step, Emitted, RunRecords;
    var m, first, second := StringMachine(ttl, 0), JoinOf(o, i, "a"), JoinOf(o', i', "b");
    var t1, files := Step(m, Empty(), first), [OpenOf(o)] + [CloseOf(o)];
    JoinTables(m, Empty(), o, i, "a", 0);
    JoinTables(m, t1, o', i', "b", 0);
    assert Mixed(o, i, o', i', true) == [first] + ([second] + files);
    FirstOf(m, Empty(), first, [second] + files);
    FirstOf(m, t1, second, files);
    OpenAndClose(ttl, Step(m, t1, second), o, i, LastJoined(ttl, o, i, o', i', true));
  }

  lemma DictsApart(s: string, s': string)
    requires s != s'
    ensures Render(s, DictIdKey(USER)) != Render(s', DictIdKey(USER))
  {
    if Render(s, DictIdKey(USER)) == Render(s', DictIdKey(USER)) {
      DictKeysInjective(s, DictIdKey(USER), s', DictIdKey(USER));
    }
  }

  // The other server's mark is there exactly if its packet is.
  lemma MarkShows(ttl: nat, o: Origin, i: UserInfo, o': Origin, i': UserInfo)
    ensures var u, u' := LastJoined(ttl, o, i, o', i', false), LastJoined(ttl, o, i, o', i', true);
            u.authInfo != u'.authInfo || u.appInfo != u'.appInfo
  {
    var c := At(StringMachine(ttl, 0), 0);
    assert UserOr(c, Empty(), IdOf(o), i, USER) == NewUser(USER, i, 0);
    hide PacketMade, Step, UserOr, Render, IdOf;
  }

  lemma MixedIsBetween(o: Origin, i: UserInfo, o': Origin, i': UserInfo)
    requires IdOf(o) != IdOf(o')
    ensures Between(Mixed(o, i, o', i', true), 0, IdOf(o), IdOf(o'))
    ensures EventsOf(IdOf(o), Mixed(o, i, o', i', true)) == Mixed(o, i, o', i', false)
  {
    hide IdOf, PacketMade, Spelled;
    var s, s', e0, e1, e2, e3 := IdOf(o), IdOf(o'), JoinOf(o, i, "a"), JoinOf(o', i', "b"), OpenOf(o), CloseOf(o);
    assert Mixed(o, i, o', i', true) == [e0] + ([e1] + ([e2] + [e3]));
    assert Mixed(o, i, o', i', false) == [e0] + ([e2] + [e3]);
    assert [e3][1..] == [] && [e3] == [e3] + [];
    assert Shaped(e0.job) && Shaped(e1.job);
    OneBetween(e3, [], s, s');
    OneBetween(e2, [e3], s, s');
    OneBetween(e1, [e2] + [e3], s, s');
    OneBetween(e0, [e1] + ([e2] + [e3]), s, s');
  }

  lemma OneBetween(e: Event, rest: seq<Event>, s: string, s': string)
    requires e.Handle? && e.at == 0 && IdOf(e.origin) in {s, s'} && Shaped(e.job)
    ensures Between(rest, 0, s, s') ==> Between([e] + rest, 0, s, s')
    ensures EventsOf(s, [e] + rest) == (if IdOf(e.origin) == s then [e] else []) + EventsOf(s, rest)
  {
    assert ([e] + rest)[1..] == rest;
    hide IdOf, Shaped;
  }

  // ---- Both directions

  // A server's records are its own, whatever another one sends, if and only if
  // the two ids do not continue each other.
  lemma IsolationExactly(ttl: nat, start: int, addr: string, start': int, addr': string)
    requires ServerId(start, addr) != ServerId(start', addr')
    ensures Isolated(ttl, ServerId(start, addr), ServerId(start', addr')) <==>
            start != start' || Apart(addr, addr')
  {
    var s, s' := ServerId(start, addr), ServerId(start', addr');
    ApartAddresses(start, addr, start', addr');
    if Apart(s, s') {
      forall events, now | Between(events, now, s, s')
        ensures var m := StringMachine(ttl, 0);
                RecordsOf(s, RunRecords(m, Empty(), events)) ==
                RecordsOf(s, RunRecords(m, Empty(), EventsOf(s, events)))
      {
        BetweenIsAdmissible(events, now, s, s');
        AsIfAlone(ttl, start, addr, now, events);
      }
    } else {
      NotIsolated(ttl, Origin(start, addr), Origin(start', addr'));
    }
  }

  lemma NotIsolated(ttl: nat, o: Origin, o': Origin)
    requires IdOf(o) != IdOf(o') && !Apart(IdOf(o), IdOf(o'))
    ensures !Isolated(ttl, IdOf(o), IdOf(o'))
  {
    hide Apart, Between, RecordsOf, RunRecords, EventsOf, IdOf, Mixed;
    var i, i' := SharedKey(o, o');
    hide SharesAKey;
    Counterexample(ttl, o, i, o', i');
  }

  lemma SharedKey(o: Origin, o': Origin) returns (i: UserInfo, i': UserInfo)
    requires IdOf(o) != IdOf(o') && !Apart(IdOf(o), IdOf(o'))
    ensures SharesAKey(o, i, o', i')
  {
    hide IdOf, Render, Continues, Made;
    var s, s' := IdOf(o), IdOf(o');
    var k, k';
    if Continues(s, s') {
      k, k' := ContinuedIsShared(s, s');
    } else {
      k', k := ContinuedIsShared(s', s);
    }
    i, i' := InfoFrom(k), InfoFrom(k');
    InfoOf(k);
    InfoOf(k');
  }

  // A run in which s' changes the record of s: for every two servers that can
  // share a user key.
  lemma Counterexample(ttl: nat, o: Origin, i: UserInfo, o': Origin, i': UserInfo)
    requires SharesAKey(o, i, o', i')
    ensures var m, events := StringMachine(ttl, 0), Mixed(o, i, o', i', true);
            && Between(events, 0, IdOf(o), IdOf(o'))
            && RecordsOf(IdOf(o), RunRecords(m, Empty(), events)) !=
               RecordsOf(IdOf(o), RunRecords(m, Empty(), EventsOf(IdOf(o), events)))
  {
    assert IdOf(o) != IdOf(o');
    hide IdOf, Mixed, Between, RecordsOf, RunRecords, EventsOf, SharesAKey, LastJoined, OneRecordOf;
    var s, m := IdOf(o), StringMachine(ttl, 0);
    MixedIsBetween(o, i, o', i');
    OneJoins(ttl, o, i, o', i');
    BothJoin(ttl, o, i, o', i');
    MarkShows(ttl, o, i, o', i');
    OthersRecord(RunRecords(m, Empty(), Mixed(o, i, o', i', false)),
                 RunRecords(m, Empty(), Mixed(o, i, o', i', true)), s,
                 LastJoined(ttl, o, i, o', i', false), LastJoined(ttl, o, i, o', i', true));
  }

  lemma OthersRecord(own: seq<Record>, mixed: seq<Record>, s: string, u: UserState, u': UserState)
    requires OneRecordOf(own, s, u) && OneRecordOf(mixed, s, u')
    requires u.authInfo != u'.authInfo || u.appInfo != u'.appInfo
    ensures RecordsOf(s, own) != RecordsOf(s, mixed)
  {
    hide RecordsOf;
    AllOrNone(s, own, true);
    AllOrNone(s, mixed, true);
  }
}

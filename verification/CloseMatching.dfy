// Which open each close is matched with, over whole histories.
module CloseMatching {
  import opened Records
  import opened Text
  import opened UserInfoText
  import opened Keys
  import opened StateMaps
  import opened CorrelatorModel
  import opened ServerIsolation

  // The opens and closes of one server's f-stream, as the correlator sees them.
  datatype FileEvent =
    | Opened(id: nat, filename: string, fileSize: int, at: int)
    | Closed(id: nat, at: int)

  function FileEvents<K>(m: Machine<K>, t: Tables<K>, e: Event): seq<FileEvent>
  {
    match e
    case Handle(o, FileJob(OpenRecord(header, fileSize, user, lfn)), at) =>
      [Opened(header.fileId, OpenName(At(m, at), t, IdOf(o), e.job.file), fileSize, at)]
    case Handle(o, FileJob(CloseRecord(header, _, _)), at) => [Closed(header.fileId, at)]
    case _ => []
  }

  function FileLog<K(==)>(m: Machine<K>, t: Tables<K>, events: seq<Event>): seq<FileEvent>
    decreases |events|
  {
    if events == [] then []
    else FileEvents(m, t, events[0]) + FileLog(m, Step(m, t, events[0]), events[1..])
  }

  // The latest open of a file since its last close, unless it has expired.
  function LatestOpen(log: seq<FileEvent>, id: nat, ttl: nat, now: int): (r: Option<nat>)
    ensures r.Some? ==> r.value < |log| && log[r.value].Opened? && log[r.value].id == id && now <= log[r.value].at + ttl
  {
    if log == [] then None
    else
      var last := log[|log| - 1];
      if last.id != id then LatestOpen(log[..|log| - 1], id, ttl, now)
      else if last.Opened? && now <= last.at + ttl then Some(|log| - 1)
      else None
  }

  datatype Named = Named(filename: string, fileSize: int)

  function NamesOf(records: seq<Record>): (r: seq<Named>)
    ensures |r| == |records|
  {
    seq(|records|, i requires 0 <= i < |records| => Named(records[i].filename, records[i].fileSize))
  }

  // The name and size a close is due.
  function NameFor(log: seq<FileEvent>, id: nat, ttl: nat, now: int): Named
  {
    match LatestOpen(log, id, ttl, now)
    case Some(j) => Named(log[j].filename, log[j].fileSize)
    case None => Named("unknown", 0)
  }

  // One entry for every close of `more`, in order; `log` came before.
  function Expected(log: seq<FileEvent>, more: seq<FileEvent>, ttl: nat): seq<Named>
    decreases |more|
  {
    if more == [] then []
    else
      (if more[0].Closed? then [NameFor(log, more[0].id, ttl, more[0].at)] else []) +
      Expected(log + [more[0]], more[1..], ttl)
  }

  // ---- The file map follows the log

  ghost predicate Follows(t: Tables<LocalKey>, log: seq<FileEvent>, ttl: nat, now: int)
  {
    forall id: nat, later: int :: now <= later ==> Agrees(t, log, id, ttl, later)
  }

  predicate Agrees(t: Tables<LocalKey>, log: seq<FileEvent>, id: nat, ttl: nat, now: int)
  {
    var f := Lookup(t.files, FileKey(id), now);
    match LatestOpen(log, id, ttl, now)
    case None => f.None?
    case Some(j) => f.Some? && f.value.filename == log[j].filename && f.value.fileSize == log[j].fileSize
  }

  predicate TouchesFiles(w: Write) { w.PutFile? || w.DropFile? }

  predicate NoFiles(ws: seq<Write>)
  {
    forall i :: 0 <= i < |ws| ==> !TouchesFiles(ws[i])
  }

  lemma {:induction false} FilesUntouched(c: Setting<LocalKey>, t: Tables<LocalKey>, server: string, ws: seq<Write>)
    requires NoFiles(ws)
    ensures AllWritten(c, t, server, ws).files == t.files
    decreases |ws|
  {
    if ws != [] {
      FilesUntouched(c, Written(c, t, server, ws[0]), server, ws[1..]);
    }
  }

  lemma OtherJobs(m: Machine<LocalKey>, t: Tables<LocalKey>, e: Event)
    requires e.Handle? && FileEvents(m, t, e) == []
    ensures Emitted(m, t, e) == []
    ensures !(e.job.FileJob? && e.job.file.TimeRecord?) ==> Step(m, t, e).files == t.files
  {
    var c, ws := At(m, e.at), JobOutcome(At(m, e.at), t, e.origin, e.job).writes;
    if !(e.job.FileJob? && e.job.file.TimeRecord?) {
      OnlyFileRecordsTouchFiles(c, t, e.origin, e.job);
      FilesUntouched(c, t, IdOf(e.origin), ws);
    }
    hide MappingWrites, UserWrites, IdOf, AllWritten, DictAt;
  }

  lemma InfoTouchesNoFiles(c: Setting<LocalKey>, t: Tables<LocalKey>, server: string, packetType: char, dictId: nat,
                           info: UserInfo, rest: Option<string>)
    ensures NoFiles(InfoWrites(c, t, server, packetType, dictId, info, rest))
  {
    hide DictAt, UserOr, UserKeyOf;
  }

  lemma MappingTouchesNoFiles(c: Setting<LocalKey>, t: Tables<LocalKey>, server: string, packetType: char, dictId: nat,
                              text: string)
    ensures NoFiles(MappingWrites(c, t, server, packetType, dictId, text))
  {
    var parsed := CollectorUserInfo(Before(text, '\n'));
    if parsed.Ok? {
      InfoTouchesNoFiles(c, t, server, packetType, dictId, parsed.value, RestOf(text));
    }
    hide InfoWrites, CollectorUserInfo, Before, RestOf;
  }

  lemma UserTouchesNoFiles(c: Setting<LocalKey>, t: Tables<LocalKey>, server: string, rec: UserRecord)
    ensures NoFiles(UserWrites(c, t, server, rec))
  {
    hide DictAt, UserAt, UserKeyOf;
  }

  lemma OnlyFileRecordsTouchFiles(c: Setting<LocalKey>, t: Tables<LocalKey>, o: Origin, job: Job)
    requires job.FileJob? ==> job.file.DisconnectRecord?
    ensures NoFiles(JobOutcome(c, t, o, job).writes)
  {
    match job
    case ServerJob(_) =>
    case MappingJob(packetType, dictId, text) =>
      MappingTouchesNoFiles(c, t, IdOf(o), packetType, dictId, text);
      hide MappingWrites, IdOf;
    case UserJob(rec) =>
      UserTouchesNoFiles(c, t, IdOf(o), rec);
      hide UserWrites, IdOf;
    case FileJob(_) =>
      hide DictAt, IdOf, UserKeyOf;
  }

  lemma OpenStep(t: Tables<LocalKey>, log: seq<FileEvent>, ttl: nat, now: int, e: Event)
    requires Follows(t, log, ttl, now) && now <= e.at
    requires e.Handle? && e.job.FileJob? && e.job.file.OpenRecord?
    ensures var m := TypedMachine(ttl);
            && Follows(Step(m, t, e), log + FileEvents(m, t, e), ttl, e.at)
            && Emitted(m, t, e) == [] && NoCloses(FileEvents(m, t, e))
  {
    var m, rec := TypedMachine(ttl), e.job.file;
    var x := FileEvents(m, t, e)[0];
    assert FileEvents(m, t, e) == [x];
    OpenTables(m, t, e.origin, rec, e.at);
    var f := OpenState(At(m, e.at), t, e.origin, rec);
    assert x == Opened(rec.header.fileId, f.filename, f.fileSize, e.at);
    hide Step, FileEvents, IdOf, OpenName, OpenState, Emitted;
    AfterOpened(t, Step(m, t, e), log, x, f, ttl, now);
  }

  lemma AfterOpened(t: Tables<LocalKey>, t': Tables<LocalKey>, log: seq<FileEvent>, x: FileEvent, f: FileState,
                    ttl: nat, now: int)
    requires Follows(t, log, ttl, now)
    requires x.Opened? && now <= x.at && x.filename == f.filename && x.fileSize == f.fileSize
    requires t'.files == t.files[FileKey(x.id) := Entry(f, x.at + ttl)]
    ensures Follows(t', log + [x], ttl, x.at)
  {
    forall id: nat, later: int | x.at <= later
      ensures Agrees(t', log + [x], id, ttl, later)
    {
      assert Agrees(t, log, id, ttl, later);
      assert (log + [x])[..|log|] == log;
    }
  }

  predicate NoCloses(log: seq<FileEvent>)
  {
    forall i :: 0 <= i < |log| ==> !log[i].Closed?
  }

  lemma CloseStep(t: Tables<LocalKey>, log: seq<FileEvent>, ttl: nat, now: int, e: Event)
    requires Follows(t, log, ttl, now) && now <= e.at
    requires e.Handle? && e.job.FileJob? && e.job.file.CloseRecord?
    ensures var m, x := TypedMachine(ttl), Closed(e.job.file.header.fileId, e.at);
            && FileEvents(m, t, e) == [x]
            && Follows(Step(m, t, e), log + [x], ttl, e.at)
            && NamesOf(Emitted(m, t, e)) == [NameFor(log, x.id, ttl, e.at)]
  {
    var m, x := TypedMachine(ttl), Closed(e.job.file.header.fileId, e.at);
    var t' := Step(m, t, e);
    CloseRecordName(t, log, ttl, now, e);
    OneWrite(At(m, e.at), t, IdOf(e.origin), DropFile(FileKey(x.id)));
    var found := Lookup(t.files, FileKey(x.id), e.at);
    assert t'.files == if found.Some? then Remove(t.files, FileKey(x.id)) else t.files;
    hide Step, FileEvents, IdOf, Emitted;
    AfterClosed(t, t', log, x, ttl, now);
  }

  lemma AfterClosed(t: Tables<LocalKey>, t': Tables<LocalKey>, log: seq<FileEvent>, x: FileEvent, ttl: nat, now: int)
    requires Follows(t, log, ttl, now)
    requires x.Closed? && now <= x.at
    requires t'.files == if Lookup(t.files, FileKey(x.id), x.at).Some? then Remove(t.files, FileKey(x.id)) else t.files
    ensures Follows(t', log + [x], ttl, x.at)
  {
    forall id: nat, later: int | x.at <= later
      ensures Agrees(t', log + [x], id, ttl, later)
    {
      assert Agrees(t, log, id, ttl, later);
      assert (log + [x])[..|log|] == log;
    }
  }

  lemma CloseRecordName(t: Tables<LocalKey>, log: seq<FileEvent>, ttl: nat, now: int, e: Event)
    requires Follows(t, log, ttl, now) && now <= e.at
    requires e.Handle? && e.job.FileJob? && e.job.file.CloseRecord?
    ensures NamesOf(Emitted(TypedMachine(ttl), t, e)) == [NameFor(log, e.job.file.header.fileId, ttl, e.at)]
  {
    assert Agrees(t, log, e.job.file.header.fileId, ttl, e.at);
    hide UserFor, SiteFor, IdOf, UserHex, LatestOpen;
  }

  lemma QuietStep(t: Tables<LocalKey>, log: seq<FileEvent>, ttl: nat, now: int, e: Event)
    requires Follows(t, log, ttl, now) && now <= e.at
    requires e.Handle? && FileEvents(TypedMachine(ttl), t, e) == []
    ensures Follows(Step(TypedMachine(ttl), t, e), log, ttl, e.at) && Emitted(TypedMachine(ttl), t, e) == []
  {
    var m := TypedMachine(ttl);
    var t' := Step(m, t, e);
    OtherJobs(m, t, e);
    if e.job.FileJob? && e.job.file.TimeRecord? {
      var w := JobOutcome(At(m, e.at), t, e.origin, e.job).writes[0];
      OneWrite(At(m, e.at), t, IdOf(e.origin), w);
    }
    assert e.job.FileJob? && e.job.file.TimeRecord? ==>
      var k := TimeKey(e.job.file.header.fileId, e.job.file.sid);
      t'.files == Store(t.files, k, TimeState(At(m, e.at), e.origin, e.job.file), e.at, ttl, 0);
    hide Step, FileEvents, Emitted, TimeState, LatestOpen;
    forall id: nat, later: int | e.at <= later
      ensures Agrees(t', log, id, ttl, later)
    {
      assert Agrees(t, log, id, ttl, later);
    }
  }

  // ---- Whole runs

  // A server's own packets only, in time order.
  predicate OwnRun(events: seq<Event>, now: int)
    decreases |events|
  {
    events != [] ==> events[0].Handle? && now <= events[0].at && OwnRun(events[1..], events[0].at)
  }

  lemma {:induction false} RunMatches(t: Tables<LocalKey>, log: seq<FileEvent>, ttl: nat, now: int, events: seq<Event>)
    requires Follows(t, log, ttl, now) && OwnRun(events, now)
    ensures NamesOf(RunRecords(TypedMachine(ttl), t, events)) ==
            Expected(log, FileLog(TypedMachine(ttl), t, events), ttl)
    decreases |events|
  {
    if events != [] {
      var m, e := TypedMachine(ttl), events[0];
      var t', more := Step(m, t, e), FileEvents(m, t, e);
      var rest := FileLog(m, t', events[1..]);
      if e.job.FileJob? && e.job.file.OpenRecord? {
        OpenStep(t, log, ttl, now, e);
      } else if e.job.FileJob? && e.job.file.CloseRecord? {
        CloseStep(t, log, ttl, now, e);
      } else {
        QuietStep(t, log, ttl, now, e);
      }
      assert log + [] == log;
      hide Step, FileEvents, Emitted, Follows, NameFor;
      RunMatches(t', log + more, ttl, e.at, events[1..]);
      NamesAppend(Emitted(m, t, e), RunRecords(m, t', events[1..]));
      ExpectedStep(log, more, rest, ttl);
    }
  }

  lemma NamesAppend(a: seq<Record>, b: seq<Record>)
    ensures NamesOf(a + b) == NamesOf(a) + NamesOf(b)
  {}

  lemma ExpectedStep(log: seq<FileEvent>, more: seq<FileEvent>, rest: seq<FileEvent>, ttl: nat)
    requires |more| <= 1
    ensures Expected(log, more + rest, ttl) ==
            (if more != [] && more[0].Closed? then [NameFor(log, more[0].id, ttl, more[0].at)] else []) +
            Expected(log + more, rest, ttl)
  {
    if more == [] {
      assert more + rest == rest && log + more == log;
    } else {
      assert (more + rest)[1..] == rest && more == [more[0]];
    }
  }

  // Every close of a server emits exactly one record, in order, and the record
  // names the file of the latest unexpired open since the file's last close,
  // or "unknown"; in any interleaving with other servers and cleanups.
  lemma ClosesAreMatched(ttl: nat, start: int, addr: string, now: int, events: seq<Event>)
    requires Admissible(events, now, ServerId(start, addr))
    ensures var s := ServerId(start, addr);
            var log := FileLog(TypedMachine(ttl), Empty(), EventsOf(s, events));
            NamesOf(RecordsOf(s, RunRecords(StringMachine(ttl, 0), Empty(), events))) == Expected([], log, ttl)
  {
    var s := ServerId(start, addr);
    EmptyRefines(s, now);
    RunRefines(Empty(), s, Empty(), ttl, now, events);
    OwnEventsAre(s, events);
    AdmissiblePart(s, now, events);
    OwnRunOf(s, EventsOf(s, events), now);
    RunMatches(Empty(), [], ttl, now, EventsOf(s, events));
  }

  lemma {:induction false} OwnRunOf(server: string, events: seq<Event>, now: int)
    requires Admissible(events, now, server) && forall e :: e in events ==> Mine(e, server)
    ensures OwnRun(events, now)
    decreases |events|
  {
    hide Apart, Shaped, IdOf;
    if events != [] {
      assert events[0] in events;
      OwnRunOf(server, events[1..], events[0].at);
    }
  }

  lemma {:induction false} OnePerClose(log: seq<FileEvent>, more: seq<FileEvent>, ttl: nat)
    ensures |Expected(log, more, ttl)| == Closes(more)
    decreases |more|
  {
    if more != [] {
      OnePerClose(log + [more[0]], more[1..], ttl);
    }
  }

  function Closes(log: seq<FileEvent>): nat
  {
    if log == [] then 0 else (if log[0].Closed? then 1 else 0) + Closes(log[1..])
  }

  // No open is matched with two closes.
  lemma NoOpenTwice(log: seq<FileEvent>, m: nat, n: nat, ttl: nat)
    requires m < n < |log| && log[m].Closed? && log[n].Closed?
    requires LatestOpen(log[..m], log[m].id, ttl, log[m].at).Some?
    ensures LatestOpen(log[..n], log[n].id, ttl, log[n].at) != LatestOpen(log[..m], log[m].id, ttl, log[m].at)
  {
    if log[m].id == log[n].id {
      NothingBehindAClose(log[..n], m, log[n].id, ttl, log[n].at);
    }
  }

  // An open before a close of the same file is out of reach.
  lemma {:induction false} NothingBehindAClose(log: seq<FileEvent>, m: nat, id: nat, ttl: nat, now: int)
    requires m < |log| && log[m].Closed? && log[m].id == id
    ensures var r := LatestOpen(log, id, ttl, now);
            r.Some? ==> r.value > m
  {
    if m < |log| - 1 && log[|log| - 1].id != id {
      NothingBehindAClose(log[..|log| - 1], m, id, ttl, now);
    }
  }
}

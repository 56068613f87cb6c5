// What each packet leaves in the four maps, entry by entry, as long as they are
// not limited.
module PacketEffects {
  import opened Records
  import opened Text
  import opened UserInfoText
  import opened KeyValue
  import opened Keys
  import opened StateMaps
  import opened CorrelatorModel

  function FirstLine(text: string): Result<UserInfo>
  {
    CollectorUserInfo(Before(text, '\n'))
  }

  // A server identification.
  lemma ServerTables<K>(m: Machine<K>, t: Tables<K>, o: Origin, info: ServerInfo, at: int)
    requires m.maxEntries == 0
    ensures Step(m, t, Handle(o, ServerJob(info), at)) ==
            t.(servers := t.servers[m.key(IdOf(o), ServerKey) := Entry(info, at + m.ttl)])
  {
    ServerAfter(At(m, at), t, o, info);
    hide AfterJob, IdOf;
  }

  // A dictionary packet of any kind whose first line is no user info.
  lemma RawTables<K>(m: Machine<K>, t: Tables<K>, o: Origin, kind: char, id: nat, text: string, at: int)
    requires m.maxEntries == 0 && FirstLine(text).Err?
    ensures Step(m, t, Handle(o, MappingJob(kind, id, text), at)) ==
            t.(dicts := t.dicts[m.key(IdOf(o), PathKey(id)) := Entry(RawText(text), at + m.ttl)])
  {
    var c := At(m, at);
    hide AllWritten, IdOf, CollectorUserInfo, Before;
    OneWrite(c, t, IdOf(o), PutDict(PathKey(id), RawText(text)));
  }

  // A path: the file id stands for the path and its user, and, as without a
  // path, the id stands for the user.
  lemma PathTables<K>(m: Machine<K>, t: Tables<K>, o: Origin, id: nat, text: string, info: UserInfo, at: int)
    requires m.maxEntries == 0 && FirstLine(text) == Ok(info)
    ensures var s, until := IdOf(o), at + m.ttl;
            Step(m, t, Handle(o, MappingJob('d', id, text), at)) ==
            if '\n' in text then
              t.(dicts := t.dicts[m.key(s, PathKey(id)) := Entry(PathInfo(After(text, '\n'), info), until)]
                                 [m.key(s, DictIdKey(id)) := Entry(KnownUser(info), until)])
            else t.(dicts := t.dicts[m.key(s, DictIdKey(id)) := Entry(KnownUser(info), until)])
  {
    var c := At(m, at);
    hide AllWritten, IdOf, CollectorUserInfo, Before, After;
    var name := PutDict(DictIdKey(id), KnownUser(info));
    if '\n' in text {
      var path := PutDict(PathKey(id), PathInfo(After(text, '\n'), info));
      assert [path] + [name] == [path, name];
      TwoWrites(c, t, IdOf(o), path, name);
    } else {
      assert [] + [name] == [name];
      OneWrite(c, t, IdOf(o), name);
    }
  }

  // The user a packet is about: the live one, or one that nothing is known of.
  function UserBefore<K>(m: Machine<K>, t: Tables<K>, server: string, id: nat, info: UserInfo, at: int): UserState
  {
    match Lookup(t.users, m.key(server, UserKeyOf(info)), at)
    case Some(u) => u
    case None => UserState(id, info, NO_AUTH, NO_TOKEN, "", 0, 0, at)
  }

  // An application.
  lemma AppTables<K>(m: Machine<K>, t: Tables<K>, o: Origin, id: nat, text: string, info: UserInfo, at: int)
    requires m.maxEntries == 0 && FirstLine(text) == Ok(info) && '\n' in text
    ensures var s, until := IdOf(o), at + m.ttl;
            var u := UserBefore(m, t, s, id, info, at).(appInfo := After(text, '\n'));
            Step(m, t, Handle(o, MappingJob('i', id, text), at)) ==
            t.(dicts := t.dicts[m.key(s, DictIdKey(id)) := Entry(KnownUser(info), until)],
               users := t.users[m.key(s, UserKeyOf(info)) := Entry(u, until)])
  {
    var c := At(m, at);
    hide AllWritten, IdOf, CollectorUserInfo, Before, After, UserKeyOf;
    TwoWrites(c, t, IdOf(o), PutDict(DictIdKey(id), KnownUser(info)),
              PutUser(UserKeyOf(info), UserBefore(m, t, IdOf(o), id, info, at).(appInfo := After(text, '\n'))));
  }

  // Codes of an id that stands for nobody: it stands for the user named from
  // then on, who gets the codes.
  lemma NewCodesTables<K>(m: Machine<K>, t: Tables<K>, o: Origin, id: nat, text: string, info: UserInfo, at: int)
    requires m.maxEntries == 0 && FirstLine(text) == Ok(info) && '\n' in text
    requires var udid := EAOf(Split(After(text, '\n'), '&')).udid;
             udid != 0 && Lookup(t.dicts, m.key(IdOf(o), DictIdKey(udid)), at) == None
    ensures var s, until, codes := IdOf(o), at + m.ttl, EAOf(Split(After(text, '\n'), '&'));
            var u := UserBefore(m, t, s, codes.udid, info, at)
                     .(experimentId := codes.experimentId, activityId := codes.activityId);
            Step(m, t, Handle(o, MappingJob('U', id, text), at)) ==
            t.(dicts := t.dicts[m.key(s, DictIdKey(codes.udid)) := Entry(KnownUser(info), until)],
               users := t.users[m.key(s, UserKeyOf(info)) := Entry(u, until)])
  {
    var c, codes := At(m, at), EAOf(Split(After(text, '\n'), '&'));
    hide AllWritten, IdOf, CollectorUserInfo, Before, After, UserKeyOf, EAOf, Split;
    var u := UserBefore(m, t, IdOf(o), codes.udid, info, at)
             .(experimentId := codes.experimentId, activityId := codes.activityId);
    var w, w' := PutDict(DictIdKey(codes.udid), KnownUser(info)), PutUser(UserKeyOf(info), u);
    assert [w] + [w'] == [w, w'];
    TwoWrites(c, t, IdOf(o), w, w');
  }

  // Codes of an id that stands for a user: that user gets them, whoever the
  // packet names.
  lemma CodesTables<K>(m: Machine<K>, t: Tables<K>, o: Origin, id: nat, text: string, named: UserInfo, info: UserInfo,
                       at: int)
    requires m.maxEntries == 0 && FirstLine(text) == Ok(named) && '\n' in text
    requires var udid := EAOf(Split(After(text, '\n'), '&')).udid;
             udid != 0 && Lookup(t.dicts, m.key(IdOf(o), DictIdKey(udid)), at) == Some(KnownUser(info))
    ensures var s, until, codes := IdOf(o), at + m.ttl, EAOf(Split(After(text, '\n'), '&'));
            var u := UserBefore(m, t, s, codes.udid, info, at)
                     .(experimentId := codes.experimentId, activityId := codes.activityId);
            Step(m, t, Handle(o, MappingJob('U', id, text), at)) ==
            t.(users := t.users[m.key(s, UserKeyOf(info)) := Entry(u, until)])
  {
    var c, codes := At(m, at), EAOf(Split(After(text, '\n'), '&'));
    hide AllWritten, IdOf, CollectorUserInfo, Before, After, UserKeyOf, EAOf, Split;
    var u := UserBefore(m, t, IdOf(o), codes.udid, info, at)
             .(experimentId := codes.experimentId, activityId := codes.activityId);
    var w := PutUser(UserKeyOf(info), u);
    assert [] + [w] == [w];
    OneWrite(c, t, IdOf(o), w);
  }

  // Nothing is kept of codes without a user id, of application and codes
  // packets of one line, and of other kinds once a user info is found.
  lemma IgnoredTables<K>(m: Machine<K>, t: Tables<K>, o: Origin, kind: char, id: nat, text: string, at: int)
    requires FirstLine(text).Ok? && kind != 'd'
    requires '\n' in text ==> kind != 'i' && (kind == 'U' ==> EAOf(Split(After(text, '\n'), '&')).udid == 0)
    ensures Step(m, t, Handle(o, MappingJob(kind, id, text), at)) == t
  {
    hide IdOf, CollectorUserInfo, Before, After, UserKeyOf, EAOf, Split;
  }

  // A token of an id that stands for a live user is added to that user.
  lemma TokenTables<K>(m: Machine<K>, t: Tables<K>, o: Origin, rec: UserRecord, info: UserInfo, u: UserState, at: int)
    requires m.maxEntries == 0 && rec.tokenInfo.userDictId != 0
    requires Lookup(t.dicts, m.key(IdOf(o), DictIdKey(rec.tokenInfo.userDictId)), at) == Some(KnownUser(info))
    requires Lookup(t.users, m.key(IdOf(o), UserKeyOf(info)), at) == Some(u)
    ensures Step(m, t, Handle(o, UserJob(rec), at)) ==
            t.(users := t.users[m.key(IdOf(o), UserKeyOf(info)) := Entry(u.(tokenInfo := rec.tokenInfo), at + m.ttl)])
  {
    var c := At(m, at);
    hide AllWritten, IdOf, UserKeyOf;
    OneWrite(c, t, IdOf(o), PutUser(UserKeyOf(info), u.(tokenInfo := rec.tokenInfo)));
  }

  // Any other token with a user id is lost.
  lemma LostToken<K>(m: Machine<K>, t: Tables<K>, o: Origin, rec: UserRecord, at: int)
    requires rec.tokenInfo.userDictId != 0
    requires var known := Lookup(t.dicts, m.key(IdOf(o), DictIdKey(rec.tokenInfo.userDictId)), at);
             known.Some? && known.value.KnownUser? ==>
               Lookup(t.users, m.key(IdOf(o), UserKeyOf(known.value.userInfo)), at) == None
    ensures Step(m, t, Handle(o, UserJob(rec), at)) == t
  {
    hide IdOf, UserKeyOf;
  }

  // A time record is kept, with its begin and its stream id, under a key of its own.
  lemma TimeTables<K>(m: Machine<K>, t: Tables<K>, o: Origin, rec: FileRecord, at: int)
    requires m.maxEntries == 0 && rec.TimeRecord?
    ensures var h, s := rec.header, IdOf(o);
            var kept := FileState(h.fileId, h.userId, rec.tBeg, 0, "", s, rec.sid, at);
            Step(m, t, Handle(o, FileJob(rec), at)) ==
            t.(files := t.files[m.key(s, TimeKey(h.fileId, rec.sid)) := Entry(kept, at + m.ttl)])
  {
    TimeAfter(At(m, at), t, o, rec);
    hide AfterJob, IdOf;
  }

  // A close forgets the file.
  lemma CloseTables<K>(m: Machine<K>, t: Tables<K>, o: Origin, rec: FileRecord, at: int)
    requires rec.CloseRecord?
    ensures var k := m.key(IdOf(o), FileKey(rec.header.fileId));
            Step(m, t, Handle(o, FileJob(rec), at)) ==
            if Lookup(t.files, k, at).Some? then t.(files := Remove(t.files, k)) else t
  {
    CloseAfter(At(m, at), t, o, rec);
    hide AfterJob, IdOf, Remove, JobOutcome, RecordFor, UnknownFile;
  }

  // A disconnect forgets the id and the user it stands for.
  lemma DisconnectTables<K>(m: Machine<K>, t: Tables<K>, o: Origin, rec: FileRecord, info: UserInfo, at: int)
    requires rec.DisconnectRecord?
    requires Lookup(t.dicts, m.key(IdOf(o), DictIdKey(rec.userId)), at) == Some(KnownUser(info))
    ensures Step(m, t, Handle(o, FileJob(rec), at)) ==
            t.(dicts := Remove(t.dicts, m.key(IdOf(o), DictIdKey(rec.userId))),
               users := Remove(t.users, m.key(IdOf(o), UserKeyOf(info))))
  {
    DisconnectAfter(At(m, at), t, o, rec);
    hide AfterJob, IdOf, Remove, UserKeyOf;
  }

  lemma LostDisconnect<K>(m: Machine<K>, t: Tables<K>, o: Origin, rec: FileRecord, at: int)
    requires rec.DisconnectRecord?
    requires var known := Lookup(t.dicts, m.key(IdOf(o), DictIdKey(rec.userId)), at);
             known.Some? ==> !known.value.KnownUser?
    ensures Step(m, t, Handle(o, FileJob(rec), at)) == t
  {
    DisconnectAfter(At(m, at), t, o, rec);
    hide AfterJob, IdOf, UserKeyOf;
  }
}

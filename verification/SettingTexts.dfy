// The texts of settings themselves: their keys letter by letter, and what
// becomes of settings that are given more than once.
module SettingTexts {
  import opened Records
  import opened Text
  import opened Numbers
  import opened KeyValue

  // ---- Letter by letter

  lemma FirstPair(p: Pair, rest: seq<Pair>)
    ensures Printed([p] + rest) == "&" + p.key + "=" + (p.value + Printed(rest))
  {
    assert ([p] + rest)[1..] == rest;
    assert "&" + (p.key + "=" + p.value) + Printed(rest) == "&" + p.key + "=" + (p.value + Printed(rest));
  }

  lemma NoMorePairs()
    ensures Printed([]) == ""
  {}

  lemma AuthText(i: AuthInfo)
    ensures Printed(AuthPairs(i)) ==
            "&p=" + (i.authProtocol + ("&n=" + (i.dn + ("&h=" + (i.hostname + ("&o=" + (i.org + ("&r=" + (i.role +
            ("&g=" + (i.groups + ("&m=" + (i.info + ("&x=" + (i.execName + ("&y=" + (i.monInfo +
            ("&I=" + (i.inetVersion + "")))))))))))))))))))
  {
    var ps := AuthPairs(i);
    assert ps == [ps[0]] + ([ps[1]] + ([ps[2]] + ([ps[3]] + ([ps[4]] +
                 ([ps[5]] + ([ps[6]] + ([ps[7]] + ([ps[8]] + ([ps[9]] + [])))))))));
    AuthKeys();
    hide Printed;
    NoMorePairs();
    FirstPair(ps[9], []);
    FirstPair(ps[8], [ps[9]] + []);
    FirstPair(ps[7], [ps[8]] + ([ps[9]] + []));
    FirstPair(ps[6], [ps[7]] + ([ps[8]] + ([ps[9]] + [])));
    FirstPair(ps[5], [ps[6]] + ([ps[7]] + ([ps[8]] + ([ps[9]] + []))));
    var back := [ps[5]] + ([ps[6]] + ([ps[7]] + ([ps[8]] + ([ps[9]] + []))));
    FirstPair(ps[4], back);
    FirstPair(ps[3], [ps[4]] + back);
    FirstPair(ps[2], [ps[3]] + ([ps[4]] + back));
    FirstPair(ps[1], [ps[2]] + ([ps[3]] + ([ps[4]] + back)));
    FirstPair(ps[0], [ps[1]] + ([ps[2]] + ([ps[3]] + ([ps[4]] + back))));
  }

  lemma AuthKeys()
    ensures "&" + "p" + "=" == "&p=" && "&" + "n" + "=" == "&n=" && "&" + "h" + "=" == "&h=" && "&" + "o" + "=" == "&o="
    ensures "&" + "r" + "=" == "&r=" && "&" + "g" + "=" == "&g=" && "&" + "m" + "=" == "&m=" && "&" + "x" + "=" == "&x="
    ensures "&" + "y" + "=" == "&y=" && "&" + "I" + "=" == "&I=" && "&" + "s" + "=" == "&s="
    ensures "&" + "Uc" + "=" == "&Uc=" && "&" + "Ec" + "=" == "&Ec=" && "&" + "Ac" + "=" == "&Ac="
  {}

  lemma TokenText(i: TokenInfo)
    ensures Printed(TokenPairs(i)) ==
            "&Uc=" + (Decimal(i.userDictId) + ("&s=" + (i.subject + ("&n=" + (i.username + ("&o=" + (i.org +
            ("&r=" + (i.role + ("&g=" + (i.groups + "")))))))))))
  {
    var ps := TokenPairs(i);
    assert ps == [ps[0]] + ([ps[1]] + ([ps[2]] + ([ps[3]] + ([ps[4]] + ([ps[5]] + [])))));
    AuthKeys();
    hide Printed, Decimal;
    NoMorePairs();
    FirstPair(ps[5], []);
    FirstPair(ps[4], [ps[5]] + []);
    FirstPair(ps[3], [ps[4]] + ([ps[5]] + []));
    FirstPair(ps[2], [ps[3]] + ([ps[4]] + ([ps[5]] + [])));
    FirstPair(ps[1], [ps[2]] + ([ps[3]] + ([ps[4]] + ([ps[5]] + []))));
    FirstPair(ps[0], [ps[1]] + ([ps[2]] + ([ps[3]] + ([ps[4]] + ([ps[5]] + [])))));
  }

  lemma ServerText(i: ServerInfo)
    ensures Printed(ServerPairs(i)) ==
            "&site=" + (i.site + ("&port=" + (i.port + ("&inst=" + (i.inst + ("&pgm=" + (i.program +
            ("&ver=" + (i.version + "")))))))))
  {
    var ps := ServerPairs(i);
    assert ps == [ps[0]] + ([ps[1]] + ([ps[2]] + ([ps[3]] + ([ps[4]] + []))));
    ServerKeys();
    hide Printed;
    NoMorePairs();
    FirstPair(ps[4], []);
    FirstPair(ps[3], [ps[4]] + []);
    FirstPair(ps[2], [ps[3]] + ([ps[4]] + []));
    FirstPair(ps[1], [ps[2]] + ([ps[3]] + ([ps[4]] + [])));
    FirstPair(ps[0], [ps[1]] + ([ps[2]] + ([ps[3]] + ([ps[4]] + []))));
  }

  lemma ServerKeys()
    ensures "&" + "site" + "=" == "&site=" && "&" + "port" + "=" == "&port=" && "&" + "inst" + "=" == "&inst="
    ensures "&" + "pgm" + "=" == "&pgm=" && "&" + "ver" + "=" == "&ver="
  {}

  lemma CodesText(i: EAInfo)
    ensures Printed(EAPairs(i)) ==
            "&Uc=" + (Decimal(i.udid) + ("&Ec=" + (SignedDecimal(i.experimentId) +
            ("&Ac=" + (SignedDecimal(i.activityId) + "")))))
  {
    var ps := EAPairs(i);
    assert ps == [ps[0]] + ([ps[1]] + ([ps[2]] + []));
    AuthKeys();
    hide Printed, Decimal, SignedDecimal;
    NoMorePairs();
    FirstPair(ps[2], []);
    FirstPair(ps[1], [ps[2]] + []);
    FirstPair(ps[0], [ps[1]] + ([ps[2]] + []));
  }

  // ---- The last one wins

  // Of settings with the same key the last one counts that sets anything.
  lemma {:induction false} LastOf(pairs: seq<Pair>, n: nat, key: string)
    requires n < |pairs| && AllPrintable(pairs) && pairs[n].key == key && pairs[n].value != ""
    requires forall j :: n < j < |pairs| ==> pairs[j].key != key || pairs[j].value == ""
    ensures LastSetting([""] + Items(pairs), key) == pairs[n].value
    decreases |pairs|
  {
    var last := |pairs| - 1;
    var parts := [""] + Items(pairs);
    assert Printable(pairs[last]);
    assert pairs[..last + 1] == pairs;
    OneMore(pairs, last);
    if n < last {
      LastOf(pairs[..last], n, key);
    }
    hide Items, KeyValue.Setting, EAPair;
  }

  lemma LastOneWins(pairs: seq<Pair>, n: nat, key: string)
    requires n < |pairs| && AllPrintable(pairs) && pairs[n].key == key && pairs[n].value != ""
    requires forall j :: n < j < |pairs| ==> pairs[j].key != key || pairs[j].value == ""
    ensures LastSetting(Parts(Printed(pairs), '&'), key) == pairs[n].value
  {
    SplitPrinted(pairs);
    LastOf(pairs, n, key);
    hide AllPrintable, LastSetting, Parts, Printed, Split, Items;
  }

  // Without one there is none.
  lemma {:induction false} NoneOf(pairs: seq<Pair>, key: string)
    requires AllPrintable(pairs) && forall j :: 0 <= j < |pairs| ==> pairs[j].key != key || pairs[j].value == ""
    ensures LastSetting([""] + Items(pairs), key) == ""
    decreases |pairs|
  {
    if pairs == [] {
      NothingSet(key);
      assert [""] + Items(pairs) == [""];
    } else {
      var last := |pairs| - 1;
      assert Printable(pairs[last]);
      assert pairs[..last + 1] == pairs;
      OneMore(pairs, last);
      NoneOf(pairs[..last], key);
      hide Items, KeyValue.Setting, EAPair;
    }
  }

  lemma AbsentIsEmpty(pairs: seq<Pair>, key: string)
    requires pairs != [] && AllPrintable(pairs)
    requires forall j :: 0 <= j < |pairs| ==> pairs[j].key != key || pairs[j].value == ""
    ensures LastSetting(Parts(Printed(pairs), '&'), key) == ""
  {
    SplitPrinted(pairs);
    NoneOf(pairs, key);
    hide AllPrintable, LastSetting, Parts, Printed, Split, Items;
  }

  // So a user's text is read key by key, in any order and with any others, and
  // the same goes for tokens and servers.
  lemma FieldsByKey(pairs: seq<Pair>, n: nat, value: string)
    requires n < |pairs| && AllPrintable(pairs) && pairs[n].value == value != ""
    requires forall j :: n < j < |pairs| ==> pairs[j].key != pairs[n].key || pairs[j].value == ""
    ensures var key, parts := pairs[n].key, Parts(Printed(pairs), '&');
            var a, t, s := AuthOf(parts), TokenOf(parts), ServerOf(parts);
            && (key == "p" ==> a.authProtocol == value) && (key == "n" ==> a.dn == value == t.username)
            && (key == "h" ==> a.hostname == value) && (key == "o" ==> a.org == value == t.org)
            && (key == "r" ==> a.role == value == t.role) && (key == "g" ==> a.groups == value == t.groups)
            && (key == "m" ==> a.info == value) && (key == "x" ==> a.execName == value)
            && (key == "y" ==> a.monInfo == value) && (key == "I" ==> a.inetVersion == value)
            && (key == "s" ==> t.subject == value)
            && (key == "site" ==> s.site == value) && (key == "port" ==> s.port == value)
            && (key == "inst" ==> s.inst == value) && (key == "pgm" ==> s.program == value)
            && (key == "ver" ==> s.version == value)
  {
    hide LastSetting, Parts, Printed, AllPrintable, LastUserId;
    LastOneWins(pairs, n, pairs[n].key);
  }

  // Codes too, but there an empty setting is one of 0, and a user id that cannot
  // be read is passed over.
  lemma OneMoreCode(pairs: seq<Pair>, n: nat, key: string)
    requires n < |pairs| && '=' !in pairs[n].key
    ensures LastNumber([""] + Items(pairs[..n + 1]), key) ==
            if pairs[n].key == key then Atoi(pairs[n].value) else LastNumber([""] + Items(pairs[..n]), key)
    ensures LastUdid([""] + Items(pairs[..n + 1])) ==
            if pairs[n].key == "Uc" && ParseUint32(pairs[n].value).Some? then ParseUint32(pairs[n].value).value
            else LastUdid([""] + Items(pairs[..n]))
  {
    hide Items, KeyValue.Setting, EAPair, Atoi, ParseUint32;
    OneMore(pairs, n);
  }

  lemma {:induction false} LastCodeOf(pairs: seq<Pair>, n: nat, key: string)
    requires n < |pairs| && AllPrintable(pairs) && pairs[n].key == key
    requires forall j :: n < j < |pairs| ==> pairs[j].key != key
    ensures LastNumber([""] + Items(pairs), key) == Atoi(pairs[n].value)
    decreases |pairs|
  {
    hide Items, LastNumber, LastUdid, Atoi;
    var last := |pairs| - 1;
    assert Printable(pairs[last]);
    assert pairs[..last + 1] == pairs;
    OneMoreCode(pairs, last, key);
    if n < last {
      LastCodeOf(pairs[..last], n, key);
    }
  }

  lemma {:induction false} LastUdidOf(pairs: seq<Pair>, n: nat)
    requires n < |pairs| && AllPrintable(pairs) && pairs[n].key == "Uc" && ParseUint32(pairs[n].value).Some?
    requires forall j :: n < j < |pairs| ==> pairs[j].key != "Uc" || ParseUint32(pairs[j].value).None?
    ensures LastUdid([""] + Items(pairs)) == ParseUint32(pairs[n].value).value
    decreases |pairs|
  {
    hide Items, LastNumber, LastUdid, ParseUint32;
    var last := |pairs| - 1;
    assert Printable(pairs[last]);
    assert pairs[..last + 1] == pairs;
    OneMoreCode(pairs, last, "Uc");
    if n < last {
      LastUdidOf(pairs[..last], n);
    }
  }

  lemma CodesByKey(pairs: seq<Pair>, n: nat)
    requires n < |pairs| && AllPrintable(pairs)
    requires forall j :: n < j < |pairs| ==> pairs[j].key != pairs[n].key
    ensures var codes, value := EAOf(Split(Printed(pairs), '&')), pairs[n].value;
            && (pairs[n].key == "Ec" ==> codes.experimentId == Atoi(value))
            && (pairs[n].key == "Ac" ==> codes.activityId == Atoi(value))
            && (pairs[n].key == "Uc" && ParseUint32(value).Some? ==> codes.udid == ParseUint32(value).value)
  {
    hide LastNumber, LastUdid, Split, Printed, AllPrintable, Atoi, ParseUint32, Items;
    SplitPrinted(pairs);
    LastCodeOf(pairs, n, pairs[n].key);
    if pairs[n].key == "Uc" && ParseUint32(pairs[n].value).Some? {
      LastUdidOf(pairs, n);
    }
  }
}

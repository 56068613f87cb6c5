// One session spelled out: it can be sent.
module SessionExample {
  import opened BigEndian
  import opened Records
  import opened Text
  import opened Numbers
  import opened UserInfoText
  import opened KeyValue
  import opened FStream
  import opened FStreamWire
  import opened CorrelatorModel
  import opened PacketWire
  import opened Datagrams
  import opened Sessions
  import SettingTexts

  const SITE := ServerInfo("T2_X", "", "", "", "")
  const TOKEN := TokenInfo(7, "subj", "", "", "", "")
  const OPEN := WireOpen(1, 9, 100, 7, ['/' as int])
  const CLOSE := WireClose(0, 9, StatXFR(1, 2, 3), NO_OPS)
  const WHOLE := Session(Origin(1700000000, "[::1]:1094"), 7, EXAMPLE, "xrootd", SITE, NO_AUTH, "app", 3, 4, TOKEN,
                         OPEN, CLOSE, (NoLead, NoLead), [0, 1, 2, 3, 4, 5, 6], [1, 2, 3, 4, 5, 6, 7])

  lemma Digits()
    ensures Decimal(7) == "7" && SignedDecimal(3) == "3" && SignedDecimal(4) == "4"
  {
    Digit(7);
    Digit(3);
    Digit(4);
  }

  lemma SiteText()
    ensures Printed(ServerPairs(SITE)) == "&site=T2_X&port=&inst=&pgm=&ver="
  {
    SettingTexts.ServerText(SITE);
    hide Printed, ServerPairs;
  }

  lemma NoAuthText()
    ensures Printed(AuthPairs(NO_AUTH)) == "&p=&n=&h=&o=&r=&g=&m=&x=&y=&I="
  {
    SettingTexts.AuthText(NO_AUTH);
    hide Printed, AuthPairs;
  }

  lemma TokenText()
    ensures Printed(TokenPairs(TOKEN)) == "&Uc=7&s=subj&n=&o=&r=&g="
  {
    Digits();
    SettingTexts.TokenText(TOKEN);
    hide Printed, TokenPairs, Decimal;
  }

  lemma ThreeFourText()
    ensures Printed(EAPairs(EAInfo(7, 3, 4))) == "&Uc=7&Ec=3&Ac=4"
  {
    Digits();
    SettingTexts.CodesText(EAInfo(7, 3, 4));
    hide Printed, EAPairs, Decimal, SignedDecimal;
  }

  lemma ShortTexts()
    ensures Narrow("xroot/u.1:2@h") && Narrow("xrootd") && Narrow("\n") && Narrow("app")
    ensures Narrow("&Uc=7&s=subj&n=&o=&r=&g=") && Narrow("&Uc=7&Ec=3&Ac=4")
  {}

  lemma LongTexts()
    ensures Narrow("&site=T2_X&port=") && Narrow("&inst=&pgm=&ver=")
    ensures Narrow("&p=&n=&h=&o=&r=") && Narrow("&g=&m=&x=&y=&I=")
  {}

  lemma TextsAreNarrow()
    ensures Narrow("xroot/u.1:2@h") && Narrow("xrootd") && Narrow("\n") && Narrow("app")
    ensures Narrow("&site=T2_X&port=&inst=&pgm=&ver=") && Narrow("&p=&n=&h=&o=&r=&g=&m=&x=&y=&I=")
    ensures Narrow("&Uc=7&s=subj&n=&o=&r=&g=") && Narrow("&Uc=7&Ec=3&Ac=4")
  {
    hide Narrow;
    ShortTexts();
    LongTexts();
    NarrowAppend("&site=T2_X&port=", "&inst=&pgm=&ver=");
    assert "&site=T2_X&port=" + "&inst=&pgm=&ver=" == "&site=T2_X&port=&inst=&pgm=&ver=";
    NarrowAppend("&p=&n=&h=&o=&r=", "&g=&m=&x=&y=&I=");
    assert "&p=&n=&h=&o=&r=" + "&g=&m=&x=&y=&I=" == "&p=&n=&h=&o=&r=&g=&m=&x=&y=&I=";
  }

  lemma AllNarrow(head: string, rest: string)
    requires Narrow(head) && Narrow(rest)
    ensures Narrow(head + "\n" + rest)
  {
    TextsAreNarrow();
    NarrowAppend(head, "\n");
    NarrowAppend(head + "\n", rest);
  }

  lemma ValuesArePrintable()
    ensures AllPrintable(ServerPairs(SITE)) && AllPrintable(AuthPairs(NO_AUTH)) && AllPrintable(TokenPairs(TOKEN))
  {
    Digits();
    hide Decimal;
  }

  lemma WholeTexts()
    ensures InBytes(WHOLE) && Print(WHOLE.info) == "xroot/u.1:2@h"
    ensures |ServerText(WHOLE)| < 100 && |LoginText(WHOLE.info, AuthPairs(WHOLE.auth))| < 100
    ensures |AppText(WHOLE)| < 100 && |CodesText(WHOLE)| < 100
    ensures |LoginText(WHOLE.info, TokenPairs(WHOLE.token))| < 100
    ensures CodesText(WHOLE) == "xroot/u.1:2@h" + "\n" + "&Uc=7&Ec=3&Ac=4"
  {
    ExampleText();
    SiteText();
    NoAuthText();
    TokenText();
    ThreeFourText();
    TextsAreNarrow();
    hide Print, Printed, ServerPairs, AuthPairs, TokenPairs, EAPairs, Narrow;
    AllNarrow("xrootd", "&site=T2_X&port=&inst=&pgm=&ver=");
    AllNarrow("xroot/u.1:2@h", "&p=&n=&h=&o=&r=&g=&m=&x=&y=&I=");
    AllNarrow("xroot/u.1:2@h", "app");
    AllNarrow("xroot/u.1:2@h", "&Uc=7&Ec=3&Ac=4");
    AllNarrow("xroot/u.1:2@h", "&Uc=7&s=subj&n=&o=&r=&g=");
  }

  lemma SmallNumbersFit()
    ensures forall x: int, width: nat :: 0 <= x < 128 && width in {2, 4, 8} ==> FitsSigned(x, width)
    ensures FitsSigned(1700000000, 4)
  {
    Powers();
  }

  lemma FilesFit()
    ensures FilesCanBeSent(WHOLE)
  {
    Powers();
    BodySizes();
    SmallNumbersFit();
    hide Pow256, Total, Pack, Unsigned, FitsSigned;
    assert HasUser(OPEN.flag) && !HasOps(CLOSE.flag);
    assert Size(OPEN) == 21 && Size(CLOSE) == 32;
    assert FitsXfr(CLOSE.xfr) && FitsOps(CLOSE.ops);
    assert WellFormed(OPEN) && WellFormed(CLOSE);
    assert [OPEN][1..] == [] && [CLOSE][1..] == [];
    assert |EncodeAll([OPEN])| == 21 && |EncodeAll([CLOSE])| == 32;
  }

  lemma UserFits()
    ensures UserCanBeSent(WHOLE)
  {
    Powers();
    WholeTexts();
    ExamplePrintable();
    ValuesArePrintable();
    hide Pow256, Narrow, Print, Printed, AuthPairs, TokenPairs, EAPairs, AppText, CodesText, LoginText, AllPrintable;
  }

  lemma ServerFits()
    ensures ServerCanBeSent(WHOLE)
  {
    hide Pow256, FitsSigned, Narrow, ServerText, ServerPairs, AllPrintable, InBytes, LoginText, AppText, CodesText;
    hide Print, Printed;
    Powers();
    WholeTexts();
    ServerInBytes(WHOLE);
    SmallNumbersFit();
    ValuesArePrintable();
  }

  lemma ServerInBytes(s: Session)
    requires InBytes(s)
    ensures Narrow(ServerText(s))
  {}

  // The theorem about sessions speaks of this one, among others.
  lemma WholeSession(ttl: nat)
    requires ttl >= 6
    ensures CanBeSent(WHOLE) && InTime(WHOLE, ttl)
  {
    hide InBytes, ServerCanBeSent, UserCanBeSent, FilesCanBeSent, Print, LoginText, AppText, CodesText, ServerText;
    WholeTexts();
    ServerFits();
    UserFits();
    FilesFit();
  }
}

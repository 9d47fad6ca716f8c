/** Concrete cases: the ticker test of the source and the two documented payloads. */
module Brc20Examples {
  import opened Wrappers
  import opened Bytes
  import opened Brc20

  /** "invalid" (7 bytes) is refused as invalid parameters; "asdf" is accepted as is. */
  lemma TickerValidity()
    ensures NewTicker(Ascii("invalid")) == Failure(SigningError(InvalidParams))
    ensures NewTicker(Ascii("asdf")) == Success(Ticker(Ascii("asdf")))
  {}

  /** The transfer of 100 "asdf". */
  lemma {:induction false} TransferExample()
    ensures var s := "{\"p\":\"brc-20\",\"op\":\"transfer\",\"tick\":\"asdf\",\"amt\":\"100\"}";
      IsAscii(s) && TransferPayload(Ticker(Ascii("asdf")), Ascii("100")) == Ascii(s)
  {
    TransferText();
    AsciiPieces7("{\"p\":\"", "brc-20", "\",\"op\":\"transfer\",\"tick\":\"", "asdf", "\",\"amt\":\"", "100", "\"}");
  }

  /** The deploy of "ordi" with a supply of 21000000 and a mint limit of 1000. */
  lemma {:induction false} DeployExample()
    ensures var s := "{\"p\":\"brc-20\",\"op\":\"deploy\",\"tick\":\"ordi\",\"max\":\"21000000\",\"lim\":\"1000\"}";
      IsAscii(s) && DeployPayload(Ticker(Ascii("ordi")), Ascii("21000000"), Ascii("1000")) == Ascii(s)
  {
    DeployText();
    AsciiPieces7("{\"p\":\"", "brc-20", "\",\"op\":\"deploy\",\"tick\":\"", "ordi", "\",\"max\":\"", "21000000", "\",\"lim\":\"");
    var s7 := "{\"p\":\"" + "brc-20" + "\",\"op\":\"deploy\",\"tick\":\"" + "ordi" + "\",\"max\":\"" + "21000000" + "\",\"lim\":\"";
    AsciiConcat(s7, "1000");
    AsciiConcat(s7 + "1000", "\"}");
  }

  lemma TransferText()
    ensures "{\"p\":\"" + "brc-20" + "\",\"op\":\"transfer\",\"tick\":\"" + "asdf" + "\",\"amt\":\"" + "100" + "\"}"
         == "{\"p\":\"brc-20\",\"op\":\"transfer\",\"tick\":\"asdf\",\"amt\":\"100\"}"
  {
    assert "{\"p\":\"" + "brc-20" == "{\"p\":\"brc-20";
    assert "{\"p\":\"brc-20" + "\",\"op\":\"transfer\",\"tick\":\"" == "{\"p\":\"brc-20\",\"op\":\"transfer\",\"tick\":\"";
    assert "{\"p\":\"brc-20\",\"op\":\"transfer\",\"tick\":\"" + "asdf" == "{\"p\":\"brc-20\",\"op\":\"transfer\",\"tick\":\"asdf";
    assert "{\"p\":\"brc-20\",\"op\":\"transfer\",\"tick\":\"asdf" + "\",\"amt\":\"" == "{\"p\":\"brc-20\",\"op\":\"transfer\",\"tick\":\"asdf\",\"amt\":\"";
    assert "{\"p\":\"brc-20\",\"op\":\"transfer\",\"tick\":\"asdf\",\"amt\":\"" + "100" == "{\"p\":\"brc-20\",\"op\":\"transfer\",\"tick\":\"asdf\",\"amt\":\"100";
  }

  lemma DeployText()
    ensures "{\"p\":\"" + "brc-20" + "\",\"op\":\"deploy\",\"tick\":\"" + "ordi" + "\",\"max\":\"" + "21000000" + "\",\"lim\":\"" + "1000" + "\"}"
         == "{\"p\":\"brc-20\",\"op\":\"deploy\",\"tick\":\"ordi\",\"max\":\"21000000\",\"lim\":\"1000\"}"
  {
    assert "{\"p\":\"" + "brc-20" == "{\"p\":\"brc-20";
    assert "{\"p\":\"brc-20" + "\",\"op\":\"deploy\",\"tick\":\"" == "{\"p\":\"brc-20\",\"op\":\"deploy\",\"tick\":\"";
    assert "{\"p\":\"brc-20\",\"op\":\"deploy\",\"tick\":\"" + "ordi" == "{\"p\":\"brc-20\",\"op\":\"deploy\",\"tick\":\"ordi";
    assert "{\"p\":\"brc-20\",\"op\":\"deploy\",\"tick\":\"ordi" + "\",\"max\":\"" == "{\"p\":\"brc-20\",\"op\":\"deploy\",\"tick\":\"ordi\",\"max\":\"";
    assert "{\"p\":\"brc-20\",\"op\":\"deploy\",\"tick\":\"ordi\",\"max\":\"" + "21000000" == "{\"p\":\"brc-20\",\"op\":\"deploy\",\"tick\":\"ordi\",\"max\":\"21000000";
    assert "{\"p\":\"brc-20\",\"op\":\"deploy\",\"tick\":\"ordi\",\"max\":\"21000000" + "\",\"lim\":\"" == "{\"p\":\"brc-20\",\"op\":\"deploy\",\"tick\":\"ordi\",\"max\":\"21000000\",\"lim\":\"";
    assert "{\"p\":\"brc-20\",\"op\":\"deploy\",\"tick\":\"ordi\",\"max\":\"21000000\",\"lim\":\"" + "1000" == "{\"p\":\"brc-20\",\"op\":\"deploy\",\"tick\":\"ordi\",\"max\":\"21000000\",\"lim\":\"1000";
  }

  lemma AsciiPieces7(s1: string, s2: string, s3: string, s4: string, s5: string, s6: string, s7: string)
    requires IsAscii(s1) && IsAscii(s2) && IsAscii(s3) && IsAscii(s4) && IsAscii(s5) && IsAscii(s6) && IsAscii(s7)
    ensures IsAscii(s1 + s2 + s3 + s4 + s5 + s6 + s7)
    ensures Ascii(s1 + s2 + s3 + s4 + s5 + s6 + s7)
         == Ascii(s1) + Ascii(s2) + Ascii(s3) + Ascii(s4) + Ascii(s5) + Ascii(s6) + Ascii(s7)
  {
    AsciiConcat(s1, s2);
    AsciiConcat(s1 + s2, s3);
    AsciiConcat(s1 + s2 + s3, s4);
    AsciiConcat(s1 + s2 + s3 + s4, s5);
    AsciiConcat(s1 + s2 + s3 + s4 + s5, s6);
    AsciiConcat(s1 + s2 + s3 + s4 + s5 + s6, s7);
  }
}

/**
 * What the BRC-20 payloads promise, proved about the model in module Brc20:
 * each payload is the flat JSON object with the protocol's fields in the
 * protocol's order, mint and transfer differ in the op value alone, the three
 * operations never produce the same bytes, and an indexer can read the ticker
 * and amount back from a transfer or mint payload.
 */
module Brc20Properties {
  import opened Wrappers
  import opened Bytes
  import opened Brc20
  import opened Sequences
  import Json

  /** The members of a transfer or mint payload, in order: p, op, tick, amt. */
  function AmountFields(op: Bytes, tick: Bytes, amt: Bytes): seq<(Bytes, Bytes)> {
    [(Ascii("p"), Brc20ProtocolId), (Ascii("op"), op), (Ascii("tick"), tick), (Ascii("amt"), amt)]
  }

  /** The members of a deploy payload, in order: p, op, tick, max, lim. */
  function DeployFields(tick: Bytes, max: Bytes, lim: Bytes): seq<(Bytes, Bytes)> {
    [(Ascii("p"), Brc20ProtocolId), (Ascii("op"), Ascii("deploy")), (Ascii("tick"), tick), (Ascii("max"), max),
     (Ascii("lim"), lim)]
  }

  // The template literals, split into JSON punctuation and names.

  lemma OpenLiteral()
    ensures Ascii("{\"p\":\"") == Json.OpenBrace + Json.Quote + Ascii("p") + Json.Quote + Json.Colon + Json.Quote
  {}

  lemma TransferOpLiteral()
    ensures Ascii("\",\"op\":\"transfer\",\"tick\":\"")
         == Json.Quote + Json.Comma + Json.Quote + Ascii("op") + Json.Quote + Json.Colon + Json.Quote + Ascii("transfer")
            + Json.Quote + Json.Comma + Json.Quote + Ascii("tick") + Json.Quote + Json.Colon + Json.Quote
  {}

  lemma MintOpLiteral()
    ensures Ascii("\",\"op\":\"mint\",\"tick\":\"")
         == Json.Quote + Json.Comma + Json.Quote + Ascii("op") + Json.Quote + Json.Colon + Json.Quote + Ascii("mint")
            + Json.Quote + Json.Comma + Json.Quote + Ascii("tick") + Json.Quote + Json.Colon + Json.Quote
  {}

  lemma DeployOpLiteral()
    ensures Ascii("\",\"op\":\"deploy\",\"tick\":\"")
         == Json.Quote + Json.Comma + Json.Quote + Ascii("op") + Json.Quote + Json.Colon + Json.Quote + Ascii("deploy")
            + Json.Quote + Json.Comma + Json.Quote + Ascii("tick") + Json.Quote + Json.Colon + Json.Quote
  {}

  lemma SeparatorLiteral(name: string)
    requires name == "amt" || name == "max" || name == "lim"
    ensures Ascii("\",\"" + name + "\":\"")
         == Json.Quote + Json.Comma + Json.Quote + Ascii(name) + Json.Quote + Json.Colon + Json.Quote
  {}

  lemma CloseLiteral()
    ensures Ascii("\"}") == Json.Quote + Json.CloseBrace
  {}

  lemma FourMembers(fs: seq<(Bytes, Bytes)>)
    requires |fs| == 4
    ensures Json.Members(fs)
         == Json.Member(fs[0].0, fs[0].1) + Json.Comma + (Json.Member(fs[1].0, fs[1].1) + Json.Comma
            + (Json.Member(fs[2].0, fs[2].1) + Json.Comma + Json.Member(fs[3].0, fs[3].1)))
  {
    assert Json.Members(fs[3..]) == Json.Member(fs[3].0, fs[3].1);
    assert fs[2..][1..] == fs[3..];
    assert Json.Members(fs[2..]) == Json.Member(fs[2].0, fs[2].1) + Json.Comma + Json.Members(fs[3..]);
    assert fs[1..][1..] == fs[2..];
  }

  lemma FiveMembers(fs: seq<(Bytes, Bytes)>)
    requires |fs| == 5
    ensures Json.Members(fs)
         == Json.Member(fs[0].0, fs[0].1) + Json.Comma + (Json.Member(fs[1].0, fs[1].1) + Json.Comma
            + (Json.Member(fs[2].0, fs[2].1) + Json.Comma + (Json.Member(fs[3].0, fs[3].1) + Json.Comma
            + Json.Member(fs[4].0, fs[4].1))))
  {
    FourMembers(fs[1..]);
  }

  /** A transfer or mint payload whose op literal is `opLiteral` is the JSON object of AmountFields. */
  lemma {:induction false} AmountPayloadIsObject(opLiteral: Bytes, op: Bytes, tick: Bytes, amt: Bytes)
    requires opLiteral == Json.Quote + Json.Comma + Json.Quote + Ascii("op") + Json.Quote + Json.Colon + Json.Quote + op
                          + Json.Quote + Json.Comma + Json.Quote + Ascii("tick") + Json.Quote + Json.Colon + Json.Quote
    ensures Ascii("{\"p\":\"") + Brc20ProtocolId + opLiteral + tick + Ascii("\",\"amt\":\"") + amt + Ascii("\"}")
         == Json.Object(AmountFields(op, tick, amt))
  {
    var O, Q, C, K, CB := Json.OpenBrace, Json.Quote, Json.Comma, Json.Colon, Json.CloseBrace;
    var P, p, o, ti, am := Brc20ProtocolId, Ascii("p"), Ascii("op"), Ascii("tick"), Ascii("amt");
    var fs := AmountFields(op, tick, amt);
    var mp, mo, mt, ma := Json.Member(p, P), Json.Member(o, op), Json.Member(ti, tick), Json.Member(am, amt);
    var flat := O + Q + p + Q + K + Q + P + Q + C + Q + o + Q + K + Q + op + Q + C + Q + ti + Q + K + Q + tick + Q
      + C + Q + am + Q + K + Q + amt + Q + CB;
    calc {
      Ascii("{\"p\":\"") + P + opLiteral + tick + Ascii("\",\"amt\":\"") + amt + Ascii("\"}");
      { OpenLiteral(); SeparatorLiteral("amt"); assert "\",\"" + "amt" + "\":\"" == "\",\"amt\":\""; CloseLiteral(); }
      (O + Q + p + Q + K + Q) + P + (Q + C + Q + o + Q + K + Q + op + Q + C + Q + ti + Q + K + Q) + tick
        + (Q + C + Q + am + Q + K + Q) + amt + (Q + CB);
      { Assoc16(O + Q + p + Q + K + Q + P, Q, C, Q, o, Q, K, Q, op, Q, C, Q, ti, Q, K, Q); }
      O + Q + p + Q + K + Q + P + Q + C + Q + o + Q + K + Q + op + Q + C + Q + ti + Q + K + Q + tick
        + (Q + C + Q + am + Q + K + Q) + amt + (Q + CB);
      { Assoc8(O + Q + p + Q + K + Q + P + Q + C + Q + o + Q + K + Q + op + Q + C + Q + ti + Q + K + Q + tick,
          Q, C, Q, am, Q, K, Q); }
      O + Q + p + Q + K + Q + P + Q + C + Q + o + Q + K + Q + op + Q + C + Q + ti + Q + K + Q + tick
        + Q + C + Q + am + Q + K + Q + amt + (Q + CB);
      { Assoc3(O + Q + p + Q + K + Q + P + Q + C + Q + o + Q + K + Q + op + Q + C + Q + ti + Q + K + Q + tick
          + Q + C + Q + am + Q + K + Q + amt, Q, CB); }
      flat;
    }
    calc {
      Json.Object(fs);
      O + Json.Members(fs) + CB;
      { FourMembers(fs); }
      O + (mp + C + (mo + C + (mt + C + ma))) + CB;
      { Assoc4(O, mp, C, mo + C + (mt + C + ma)); }
      O + mp + C + (mo + C + (mt + C + ma)) + CB;
      { Assoc4(O + mp + C, mo, C, mt + C + ma); }
      O + mp + C + mo + C + (mt + C + ma) + CB;
      { Assoc4(O + mp + C + mo + C, mt, C, ma); }
      O + mp + C + mo + C + mt + C + ma + CB;
      { Assoc8(O, Q, p, Q, K, Q, P, Q); }
      O + Q + p + Q + K + Q + P + Q + C + mo + C + mt + C + ma + CB;
      { Assoc8(O + Q + p + Q + K + Q + P + Q + C, Q, o, Q, K, Q, op, Q); }
      O + Q + p + Q + K + Q + P + Q + C + Q + o + Q + K + Q + op + Q + C + mt + C + ma + CB;
      { Assoc8(O + Q + p + Q + K + Q + P + Q + C + Q + o + Q + K + Q + op + Q + C, Q, ti, Q, K, Q, tick, Q); }
      O + Q + p + Q + K + Q + P + Q + C + Q + o + Q + K + Q + op + Q + C + Q + ti + Q + K + Q + tick + Q + C + ma + CB;
      { Assoc8(O + Q + p + Q + K + Q + P + Q + C + Q + o + Q + K + Q + op + Q + C + Q + ti + Q + K + Q + tick + Q + C,
          Q, am, Q, K, Q, amt, Q); }
      flat;
    }
  }

  /** The transfer payload is the flat JSON object {"p":"brc-20","op":"transfer","tick":..,"amt":..}. */
  lemma TransferPayloadIsObject(ticker: Ticker, amt: Bytes)
    ensures TransferPayload(ticker, amt) == Json.Object(AmountFields(Ascii("transfer"), ticker.id, amt))
  {
    TransferOpLiteral();
    AmountPayloadIsObject(Ascii("\",\"op\":\"transfer\",\"tick\":\""), Ascii("transfer"), ticker.id, amt);
  }

  /** The mint payload is the flat JSON object {"p":"brc-20","op":"mint","tick":..,"amt":..}. */
  lemma MintPayloadIsObject(ticker: Ticker, amt: Bytes)
    ensures MintPayload(ticker, amt) == Json.Object(AmountFields(Ascii("mint"), ticker.id, amt))
  {
    MintOpLiteral();
    AmountPayloadIsObject(Ascii("\",\"op\":\"mint\",\"tick\":\""), Ascii("mint"), ticker.id, amt);
  }

  /** The deploy payload is the flat JSON object {"p":"brc-20","op":"deploy","tick":..,"max":..,"lim":..}. */
  lemma {:induction false} DeployPayloadIsObject(ticker: Ticker, max: Bytes, lim: Bytes)
    ensures DeployPayload(ticker, max, lim) == Json.Object(DeployFields(ticker.id, max, lim))
  {
    var O, Q, C, K, CB := Json.OpenBrace, Json.Quote, Json.Comma, Json.Colon, Json.CloseBrace;
    var P, p, o, op, ti, mx, lm := Brc20ProtocolId, Ascii("p"), Ascii("op"), Ascii("deploy"), Ascii("tick"), Ascii("max"), Ascii("lim");
    var tick := ticker.id;
    var fs := DeployFields(tick, max, lim);
    var mp, mo, mt, mm, ml := Json.Member(p, P), Json.Member(o, op), Json.Member(ti, tick), Json.Member(mx, max), Json.Member(lm, lim);
    var upToTick := O + Q + p + Q + K + Q + P + Q + C + Q + o + Q + K + Q + op + Q + C + Q + ti + Q + K + Q + tick;
    var flat := upToTick + Q + C + Q + mx + Q + K + Q + max + Q + C + Q + lm + Q + K + Q + lim + Q + CB;
    calc {
      DeployPayload(ticker, max, lim);
      { OpenLiteral(); DeployOpLiteral(); CloseLiteral();
        SeparatorLiteral("max"); assert "\",\"" + "max" + "\":\"" == "\",\"max\":\"";
        SeparatorLiteral("lim"); assert "\",\"" + "lim" + "\":\"" == "\",\"lim\":\""; }
      (O + Q + p + Q + K + Q) + P + (Q + C + Q + o + Q + K + Q + op + Q + C + Q + ti + Q + K + Q) + tick
        + (Q + C + Q + mx + Q + K + Q) + max + (Q + C + Q + lm + Q + K + Q) + lim + (Q + CB);
      { Assoc16(O + Q + p + Q + K + Q + P, Q, C, Q, o, Q, K, Q, op, Q, C, Q, ti, Q, K, Q); }
      upToTick + (Q + C + Q + mx + Q + K + Q) + max + (Q + C + Q + lm + Q + K + Q) + lim + (Q + CB);
      { Assoc8(upToTick, Q, C, Q, mx, Q, K, Q); }
      upToTick + Q + C + Q + mx + Q + K + Q + max + (Q + C + Q + lm + Q + K + Q) + lim + (Q + CB);
      { Assoc8(upToTick + Q + C + Q + mx + Q + K + Q + max, Q, C, Q, lm, Q, K, Q); }
      upToTick + Q + C + Q + mx + Q + K + Q + max + Q + C + Q + lm + Q + K + Q + lim + (Q + CB);
      { Assoc3(upToTick + Q + C + Q + mx + Q + K + Q + max + Q + C + Q + lm + Q + K + Q + lim, Q, CB); }
      flat;
    }
    calc {
      Json.Object(fs);
      O + Json.Members(fs) + CB;
      { FiveMembers(fs); }
      O + (mp + C + (mo + C + (mt + C + (mm + C + ml)))) + CB;
      { Assoc4(O, mp, C, mo + C + (mt + C + (mm + C + ml))); }
      O + mp + C + (mo + C + (mt + C + (mm + C + ml))) + CB;
      { Assoc4(O + mp + C, mo, C, mt + C + (mm + C + ml)); }
      O + mp + C + mo + C + (mt + C + (mm + C + ml)) + CB;
      { Assoc4(O + mp + C + mo + C, mt, C, mm + C + ml); }
      O + mp + C + mo + C + mt + C + (mm + C + ml) + CB;
      { Assoc4(O + mp + C + mo + C + mt + C, mm, C, ml); }
      O + mp + C + mo + C + mt + C + mm + C + ml + CB;
      { Assoc8(O, Q, p, Q, K, Q, P, Q); }
      O + Q + p + Q + K + Q + P + Q + C + mo + C + mt + C + mm + C + ml + CB;
      { Assoc8(O + Q + p + Q + K + Q + P + Q + C, Q, o, Q, K, Q, op, Q); }
      O + Q + p + Q + K + Q + P + Q + C + Q + o + Q + K + Q + op + Q + C + mt + C + mm + C + ml + CB;
      { Assoc8(O + Q + p + Q + K + Q + P + Q + C + Q + o + Q + K + Q + op + Q + C, Q, ti, Q, K, Q, tick, Q); }
      upToTick + Q + C + mm + C + ml + CB;
      { Assoc8(upToTick + Q + C, Q, mx, Q, K, Q, max, Q); }
      upToTick + Q + C + Q + mx + Q + K + Q + max + Q + C + ml + CB;
      { Assoc8(upToTick + Q + C + Q + mx + Q + K + Q + max + Q + C, Q, lm, Q, K, Q, lim, Q); }
      flat;
    }
  }

  /** `{"p":"brc-20","op":"`: what every payload starts with. */
  function OpPrefix(): Bytes {
    Ascii("{\"p\":\"") + Brc20ProtocolId + Ascii("\",\"op\":\"")
  }

  /** What a transfer or mint payload carries after its op value. */
  function AmountRest(ticker: Ticker, amt: Bytes): Bytes {
    Ascii("\",\"tick\":\"") + ticker.id + Ascii("\",\"amt\":\"") + amt + Ascii("\"}")
  }

  /** Given the same ticker and amount, mint and transfer payloads differ only in the op value. */
  lemma MintDiffersFromTransferOnlyInOp(ticker: Ticker, amt: Bytes)
    ensures TransferPayload(ticker, amt) == OpPrefix() + Ascii("transfer") + AmountRest(ticker, amt)
    ensures MintPayload(ticker, amt) == OpPrefix() + Ascii("mint") + AmountRest(ticker, amt)
    ensures OpPrefix() == Ascii("{\"p\":\"brc-20\",\"op\":\"")
  {
    var t, sep, close := ticker.id, Ascii("\",\"amt\":\""), Ascii("\"}");
    var open, tick := Ascii("\",\"op\":\""), Ascii("\",\"tick\":\"");
    var head := Ascii("{\"p\":\"") + Brc20ProtocolId;
    assert Ascii("\",\"op\":\"transfer\",\"tick\":\"") == open + Ascii("transfer") + tick;
    assert Ascii("\",\"op\":\"mint\",\"tick\":\"") == open + Ascii("mint") + tick;
    Assoc4(head, open, Ascii("transfer"), tick);
    Assoc6(head + open + Ascii("transfer"), tick, t, sep, amt, close);
    Assoc4(head, open, Ascii("mint"), tick);
    Assoc6(head + open + Ascii("mint"), tick, t, sep, amt, close);
  }

  /** The byte right after the op's opening quote: 't', 'm' or 'd'. */
  lemma {:induction false} OperationsAreDistinct(t1: Ticker, a1: Bytes, t2: Ticker, a2: Bytes, t3: Ticker, max: Bytes, lim: Bytes)
    ensures TransferPayload(t1, a1) != MintPayload(t2, a2)
    ensures TransferPayload(t1, a1) != DeployPayload(t3, max, lim)
    ensures MintPayload(t2, a2) != DeployPayload(t3, max, lim)
  {
    assert TransferPayload(t1, a1)[20] as int == 't' as int;
    assert MintPayload(t2, a2)[20] as int == 'm' as int;
    assert DeployPayload(t3, max, lim)[20] as int == 'd' as int;
  }

  /**
   * Values go into the deploy template unescaped, so the payload does not
   * determine where max ends and lim begins.
   */
  lemma DeployValuesAreNotDelimited(ticker: Ticker, x: Bytes, y: Bytes, z: Bytes)
    ensures var sep := Ascii("\",\"lim\":\"");
      DeployPayload(ticker, x + sep + y, z) == DeployPayload(ticker, x, y + sep + z)
  {}

  const AmtSeparator: Bytes := Ascii("\",\"amt\":\"")
  const Closing: Bytes := Ascii("\"}")

  /** Everything a transfer payload holds before its ticker. */
  function TransferHead(): Bytes {
    Ascii("{\"p\":\"") + Brc20ProtocolId + Ascii("\",\"op\":\"transfer\",\"tick\":\"")
  }

  /** Everything a mint payload holds before its ticker. */
  function MintHead(): Bytes {
    Ascii("{\"p\":\"") + Brc20ProtocolId + Ascii("\",\"op\":\"mint\",\"tick\":\"")
  }

  /**
   * Reads the ticker and amount back from `head + tick + AmtSeparator + amt + Closing`.
   * The ticker is 4 bytes when the separator follows at offset 4, else 5 bytes.
   */
  function ParseAmountPayload(head: Bytes, p: Bytes): Option<(Ticker, Bytes)> {
    var h, m, c := |head|, |AmtSeparator|, |Closing|;
    if |p| < h + 4 + m + c || p[..h] != head then None
    else
      var n := if p[h + 4 .. h + 4 + m] == AmtSeparator then 4 else 5;
      if |p| < h + n + m + c || p[h + n .. h + n + m] != AmtSeparator || p[|p| - c ..] != Closing then None
      else Some((Ticker(p[h .. h + n]), p[h + n + m .. |p| - c]))
  }

  lemma ParseAmountPayloadSound(head: Bytes, p: Bytes, ticker: Ticker, amt: Bytes)
    requires ParseAmountPayload(head, p) == Some((ticker, amt))
    ensures ticker.Valid() && head + ticker.id + AmtSeparator + amt + Closing == p
  {}

  lemma {:induction false} ParseAmountPayloadComplete(head: Bytes, ticker: Ticker, amt: Bytes)
    requires ticker.Valid()
    ensures ParseAmountPayload(head, head + ticker.id + AmtSeparator + amt + Closing) == Some((ticker, amt))
  {
    var p := head + ticker.id + AmtSeparator + amt + Closing;
    var h, n, m, c := |head|, |ticker.id|, |AmtSeparator|, |Closing|;
    assert p[..h] == head;
    assert p[h .. h + n] == ticker.id;
    assert p[h + n .. h + n + m] == AmtSeparator;
    assert p[h + n + m .. |p| - c] == amt;
    assert p[|p| - c ..] == Closing;
    if n == 5 {
      // the separator's opening quote sits at offset 5, where a 4-byte ticker would have its comma
      assert p[h + 4 .. h + 4 + m][1] == AmtSeparator[0] != AmtSeparator[1];
    }
  }

  /** Reads a transfer payload back. */
  function ParseTransfer(p: Bytes): Option<(Ticker, Bytes)> {
    ParseAmountPayload(TransferHead(), p)
  }

  /** Reads a mint payload back. */
  function ParseMint(p: Bytes): Option<(Ticker, Bytes)> {
    ParseAmountPayload(MintHead(), p)
  }

  /** A valid ticker and any amount are recovered from the transfer payload, and nothing else is. */
  lemma TransferPayloadDecodes(p: Bytes, ticker: Ticker, amt: Bytes)
    ensures ParseTransfer(p) == Some((ticker, amt)) <==> ticker.Valid() && TransferPayload(ticker, amt) == p
  {
    if ParseTransfer(p) == Some((ticker, amt)) {
      ParseAmountPayloadSound(TransferHead(), p, ticker, amt);
    }
    if ticker.Valid() && TransferPayload(ticker, amt) == p {
      ParseAmountPayloadComplete(TransferHead(), ticker, amt);
    }
  }

  /** A valid ticker and any amount are recovered from the mint payload, and nothing else is. */
  lemma MintPayloadDecodes(p: Bytes, ticker: Ticker, amt: Bytes)
    ensures ParseMint(p) == Some((ticker, amt)) <==> ticker.Valid() && MintPayload(ticker, amt) == p
  {
    if ParseMint(p) == Some((ticker, amt)) {
      ParseAmountPayloadSound(MintHead(), p, ticker, amt);
    }
    if ticker.Valid() && MintPayload(ticker, amt) == p {
      ParseAmountPayloadComplete(MintHead(), ticker, amt);
    }
  }
}

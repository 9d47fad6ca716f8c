/**
 * BRC-20 token payloads (frameworks/tw_utxo/src/transaction/asset/brc20.rs).
 *
 * A ticker is a 4- or 5-byte identifier. Each of the three operations (transfer,
 * mint, deploy) renders a fixed JSON template with its values inserted verbatim
 * and hands the payload's bytes to the Ordinals inscription builder, whose result
 * it wraps or whose error it passes on.
 */
module Brc20 {
  import opened Wrappers
  import opened Bytes

  /** The signing error kinds; the model only needs to tell invalid parameters apart. */
  datatype SigningErrorType = InvalidParams | OtherKind(code: nat)

  /** A signing error; its human-readable context text is not modelled. */
  datatype SigningError = SigningError(kind: SigningErrorType)

  type SigningResult<T> = Result<T, SigningError>

  /** The builder of Ordinals inscriptions: (MIME tag, payload, recipient) to an inscription or an error. */
  type Inscribe<I> = (Bytes, Bytes, H264) -> SigningResult<I>

  /** A BRC-20 ticker, held as the bytes of its string. */
  datatype Ticker = Ticker(id: Bytes) {
    /** The protocol rule: exactly 4 or 5 bytes. */
    predicate Valid() {
      |id| == 4 || |id| == 5
    }
  }

  /** Accepts a ticker string exactly when its byte length is 4 or 5, and stores it unchanged. */
  function NewTicker(s: Bytes): (r: SigningResult<Ticker>)
    ensures r.Success? <==> |s| == 4 || |s| == 5
    ensures r.Success? ==> r.value.Valid() && r.value.id == s
    ensures r.Failure? ==> r.error.kind == InvalidParams
  {
    var len := |s|;
    if len != 4 && len != 5 then
      Failure(SigningError(InvalidParams))
    else
      Success(Ticker(s))
  }

  const Brc20ProtocolId: Bytes := Ascii("brc-20")
  const Brc20Mime: Bytes := Ascii("text/plain;charset=utf-8")

  /** `{"p":"brc-20","op":"transfer","tick":"<tick>","amt":"<amt>"}` */
  function TransferPayload(ticker: Ticker, amt: Bytes): Bytes {
    Ascii("{\"p\":\"") + Brc20ProtocolId + Ascii("\",\"op\":\"transfer\",\"tick\":\"") + ticker.id
      + Ascii("\",\"amt\":\"") + amt + Ascii("\"}")
  }

  /** `{"p":"brc-20","op":"mint","tick":"<tick>","amt":"<amt>"}` */
  function MintPayload(ticker: Ticker, amt: Bytes): Bytes {
    Ascii("{\"p\":\"") + Brc20ProtocolId + Ascii("\",\"op\":\"mint\",\"tick\":\"") + ticker.id
      + Ascii("\",\"amt\":\"") + amt + Ascii("\"}")
  }

  /** `{"p":"brc-20","op":"deploy","tick":"<tick>","max":"<max>","lim":"<lim>"}` */
  function DeployPayload(ticker: Ticker, max: Bytes, lim: Bytes): Bytes {
    Ascii("{\"p\":\"") + Brc20ProtocolId + Ascii("\",\"op\":\"deploy\",\"tick\":\"") + ticker.id
      + Ascii("\",\"max\":\"") + max + Ascii("\",\"lim\":\"") + lim + Ascii("\"}")
  }

  /** A transfer inscription; `Deref` yields the wrapped Ordinals inscription. */
  datatype TransferInscription<I> = TransferInscription(inscription: I) {
    function Deref(): I { inscription }
  }

  /** A mint inscription; `Deref` yields the wrapped Ordinals inscription. */
  datatype MintInscription<I> = MintInscription(inscription: I) {
    function Deref(): I { inscription }
  }

  /** A deploy inscription; `Deref` yields the wrapped Ordinals inscription. */
  datatype DeployInscription<I> = DeployInscription(inscription: I) {
    function Deref(): I { inscription }
  }

  /**
   * Inscribes the transfer payload for `recipient` under the plain-text MIME tag:
   * the builder's error comes back unchanged, its inscription comes back wrapped.
   */
  function NewTransferInscription<I>(inscribe: Inscribe<I>, recipient: H264, ticker: Ticker, value: Bytes)
    : (r: SigningResult<TransferInscription<I>>)
    ensures var c := inscribe(Brc20Mime, TransferPayload(ticker, value), recipient);
      && (c.Failure? ==> r == Failure(c.error))
      && (c.Success? ==> r.Success? && r.value.Deref() == c.value)
  {
    var payload := TransferPayload(ticker, value);
    var inscription :- inscribe(Brc20Mime, payload, recipient);
    Success(TransferInscription(inscription))
  }

  /** As NewTransferInscription, with the mint payload. */
  function NewMintInscription<I>(inscribe: Inscribe<I>, recipient: H264, ticker: Ticker, value: Bytes)
    : (r: SigningResult<MintInscription<I>>)
    ensures var c := inscribe(Brc20Mime, MintPayload(ticker, value), recipient);
      && (c.Failure? ==> r == Failure(c.error))
      && (c.Success? ==> r.Success? && r.value.Deref() == c.value)
  {
    var payload := MintPayload(ticker, value);
    var inscription :- inscribe(Brc20Mime, payload, recipient);
    Success(MintInscription(inscription))
  }

  /** As NewTransferInscription, with the deploy payload. */
  function NewDeployInscription<I>(inscribe: Inscribe<I>, recipient: H264, ticker: Ticker, max: Bytes, lim: Bytes)
    : (r: SigningResult<DeployInscription<I>>)
    ensures var c := inscribe(Brc20Mime, DeployPayload(ticker, max, lim), recipient);
      && (c.Failure? ==> r == Failure(c.error))
      && (c.Success? ==> r.Success? && r.value.Deref() == c.value)
  {
    var payload := DeployPayload(ticker, max, lim);
    var inscription :- inscribe(Brc20Mime, payload, recipient);
    Success(DeployInscription(inscription))
  }
}

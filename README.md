# BRC-20 token payloads

A Dafny model of `frameworks/tw_utxo/src/transaction/asset/brc20.rs`, the part of the
UTXO framework that builds BRC-20 inscriptions. BRC-20 is a fungible-token convention
written as JSON text into Ordinals inscriptions. The file does two things:

- `Brc20Ticker::new` accepts a ticker string only when its length in bytes is 4 or 5.
  It stores the string unchanged. Any other length is an `Error_invalid_params`
  signing error.
- `BRC20TransferInscription::new`, `BRC20MintInscription::new` and
  `BRC20DeployInscription::new` each format a fixed JSON template, inserting the
  ticker and the caller's strings verbatim. Each passes the MIME tag
  `text/plain;charset=utf-8`, the payload bytes and the recipient key to
  `OrdinalsInscription::new`. It then wraps the inscription that comes back, or
  returns that call's error unchanged. Each wrapper dereferences to the inscription
  it holds.

Files:

- `wrappers.dfy`: `Option` and `Result`. `Result` supports `:-`, which stands for Rust's `?`.
- `bytes.dfy`: bytes (`uint8`) and the 33-byte key type `H264`. It also has `Ascii`,
  which gives the UTF-8 bytes of an ASCII literal.
- `json.dfy`: a reference renderer for flat JSON objects with string members and no escaping.
- `sequences.dfy`: regrouping lemmas for chains of concatenations.
- `brc20.dfy`: the model itself. It has the ticker, the two constants, the three
  payloads, the three wrappers and their builders.
- `brc20_properties.dfy`: the properties. Each payload is the JSON object with the
  protocol's members in order. Mint and transfer differ only in the op value. The
  three operations never produce the same bytes. A transfer or mint payload can be
  read back into its ticker and amount. The members of a deploy payload are not delimited.
- `brc20_examples.dfy`: the source's ticker test and two concrete payloads.

Strings are modelled as the bytes of their UTF-8 encoding. So `String::len` is the
sequence length, and `payload.as_bytes()` is the payload itself.
`OrdinalsInscription::new` is not part of this model. It becomes a function-typed
parameter `inscribe` of each builder. The inscription it returns has a type
parameter `I`, so the model assumes nothing about it.

## Model

| member | source | states |
|---|---|---|
| `Brc20.NewTicker` | frameworks/tw_utxo/src/transaction/asset/brc20.rs:10-19 | Succeeds exactly when the byte length is 4 or 5. The ticker it returns is valid and holds the input unchanged. Every failure has kind `InvalidParams`. |
| `Brc20.NewTransferInscription` | frameworks/tw_utxo/src/transaction/asset/brc20.rs:27-50 | Calls the inscription builder with MIME `text/plain;charset=utf-8`, the transfer payload and the recipient. Its error comes back unchanged. Otherwise the result is a success whose `Deref` is exactly the returned inscription. |
| `Brc20.NewMintInscription` | frameworks/tw_utxo/src/transaction/asset/brc20.rs:55-78 | The same, with the mint payload. |
| `Brc20.NewDeployInscription` | frameworks/tw_utxo/src/transaction/asset/brc20.rs:83-108 | The same, with the deploy payload. |
| `Brc20Properties.TransferPayloadIsObject` | frameworks/tw_utxo/src/transaction/asset/brc20.rs:41-46 | The transfer payload is the flat JSON object with members `p`="brc-20", `op`="transfer", `tick`, `amt`, in that order, values unescaped. |
| `Brc20Properties.MintPayloadIsObject` | frameworks/tw_utxo/src/transaction/asset/brc20.rs:69-74 | The mint payload is the flat JSON object with members `p`="brc-20", `op`="mint", `tick`, `amt`, in that order. |
| `Brc20Properties.DeployPayloadIsObject` | frameworks/tw_utxo/src/transaction/asset/brc20.rs:98-104 | The deploy payload is the flat JSON object with members `p`="brc-20", `op`="deploy", `tick`, `max`, `lim`, in that order (`max` before `lim`). |
| `Brc20Properties.MintDiffersFromTransferOnlyInOp` | frameworks/tw_utxo/src/transaction/asset/brc20.rs:41-74 | For the same ticker and amount, both payloads are the prefix `{"p":"brc-20","op":"`, then the op literal (`transfer` or `mint`), then the same remainder. |
| `Brc20Properties.OperationsAreDistinct` | frameworks/tw_utxo/src/transaction/asset/brc20.rs:41-104 | For any arguments, a transfer, a mint and a deploy payload are pairwise different. |
| `Brc20Properties.TransferPayloadDecodes` | frameworks/tw_utxo/src/transaction/asset/brc20.rs:12-46 | Reading a transfer payload back gives `(ticker, amt)` if and only if the ticker is valid and the payload is `TransferPayload(ticker, amt)`. The 4-or-5-byte rule is what makes the ticker recoverable. |
| `Brc20Properties.MintPayloadDecodes` | frameworks/tw_utxo/src/transaction/asset/brc20.rs:69-74 | The same for mint payloads. |
| `Brc20Properties.DeployValuesAreNotDelimited` | frameworks/tw_utxo/src/transaction/asset/brc20.rs:98-104 | Values are inserted without escaping. So moving a `","lim":"` sequence from the end of `max` to the start of `lim` gives the same deploy payload. |
| `Brc20Examples.TickerValidity` | frameworks/tw_utxo/src/transaction/asset/brc20.rs:116-122 | `"invalid"` is refused with `InvalidParams`. `"asdf"` is accepted unchanged. |
| `Brc20Examples.TransferExample` | frameworks/tw_utxo/src/transaction/asset/brc20.rs:41-46 | Ticker `asdf` with amount `100` gives `{"p":"brc-20","op":"transfer","tick":"asdf","amt":"100"}`. |
| `Brc20Examples.DeployExample` | frameworks/tw_utxo/src/transaction/asset/brc20.rs:98-104 | Ticker `ordi` with max `21000000` and lim `1000` gives `{"p":"brc-20","op":"deploy","tick":"ordi","max":"21000000","lim":"1000"}`. |

## Left out

- `OrdinalsInscription::new` (envelope script, taproot, witness, size limits) is not part of this model. It is a parameter that the builders call once and whose result they pass on.
- The recipient key (`H264`) is an opaque 33-byte value passed through. Its validity is the inscription builder's concern.
- The `.context(...)` message of the ticker error is not modelled. Only the error kind is.
- The other `SigningErrorType` variants are not listed. Errors from the inscription builder are arbitrary `SigningError` values and are compared whole.
- The `Clone` and `Debug` derives of `Brc20Ticker` are left out. A Dafny datatype value is already a copy.
- Unicode character counts are not modelled: ticker length is byte length, as `String::len` is. Caller strings are taken as their UTF-8 bytes, with no check that they are valid UTF-8.
- `Deref` returns the inner inscription by value, where Rust returns a shared reference.

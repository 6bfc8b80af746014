# Swap settlement: claim transaction builder and witness output matcher

This project models the two settlement macros of a Lightning/on-chain atomic
swap service:

- the **claim transaction builder** sweeps one or more hash-time-locked
  pay-to-witness-script-hash funding outputs to one destination. It adds one
  input per funding output (txid bytes reversed) and one output of the whole
  token sum. It sets the BIP 65 locktime of the current block height. It
  anticipates the final weight with a fixed witness budget per input, takes
  `rate × ceil(weight / vRatio)` off the output, and then signs each input
  (BIP 143 sighash, SIGHASH_ALL) and attaches the witness stack
  `[signature, preimage, redeemScript]`;
- the **witness output matcher** computes the redeem script's witness program
  `OP_0 <sha256(redeemScript)>` (BIP 141 pay-to-witness-script-hash). It
  returns every output of a transaction that pays it, with the output's index,
  its value and the transaction id.

Modules:

- `Types` (types.dfy): bytes, 32-byte hashes, the `[code, message]` error and
  `Result`/`Option`.
- `BitcoinTx` (bitcoin_tx.dfy): the library's mutable `Transaction` object,
  a class with `ins`, `outs` and `locktime` fields. Also the witness-program
  output encoding with its decoder, the script-signature encoding, and
  `Library`. `Library` is a record of the library calls the macros make
  (sha256, the BIP 65 encoder, `toOutputScript`, `weight`,
  `hashForWitnessV0`, signing, the id of a raw transaction, transaction
  decoding). They are passed
  as function values, and nothing is assumed about them except that sha256 and
  the sighash produce 32 bytes.
- `ClaimBuilder` (claim_transaction.dfy): the two folds (token sum,
  anticipated weight), `ClaimTransaction`, and `BuildClaim`.
  `ClaimTransaction` is the specifying function: the outcome of the macro as a
  function of its arguments. `BuildClaim` is the macro step by step on a
  `Transaction` object, with its loops, and is proved to return
  `ClaimTransaction(…, AlwaysFirst)`. The chain constants
  (`shortPushdataLength`, `ecdsaSignatureLength`, `sequenceLength`, `vRatio > 0`)
  are a `Chain` parameter.
- `OutputScriptInTx` (output_script_in_tx.dfy): the matcher as a map and a
  filter, with soundness, completeness, ordering and empty-result lemmas.
- `Settlement` (settlement.dfy): what the matcher reports on a claim
  transaction.

The signing loop is specified by `SignedThrough`, which gives the
transaction after k iterations. Each iteration's sighash is computed over the
transaction as it stands at that point, including the witnesses written
earlier. This is exactly what the code does, and nothing is assumed about
what the sighash reads.

Two points where the model keeps the code's behaviour as it is:

- the code neither checks nor clamps the fee-reduced output value
  (claim_transaction.js:80), so `ClaimLayout` states that it is negative
  exactly when the token sum is below the fee;
- the signing loop is commented `// Sign each input`
  (claim_transaction.js:82) and hashes input `i` (line 84), but it writes
  every witness to input 0 (see Findings).

## Model

| member | source | states |
|---|---|---|
| `Types.Reversed` | test/macros/claim_transaction.js:56 | `n.txId.reverse()`: the result has the same length and byte i is byte n-1-i of the input |
| `Types.ReversedTwice` | test/macros/claim_transaction.js:56 | reversing the txid twice gives it back |
| `Types.ReversedInjective` | test/macros/claim_transaction.js:56 | distinct txids give distinct input hashes |
| `BitcoinTx.Tx.WithWitness` | test/macros/claim_transaction.js:89 | replacing one input's witness changes that input's stack only: outpoints, outputs and locktime are unchanged |
| `BitcoinTx.Transaction.constructor` | test/macros/claim_transaction.js:52 | a new transaction has no inputs, no outputs and locktime 0 |
| `BitcoinTx.Transaction.AddInput` | test/macros/claim_transaction.js:56 | appends the input `(hash, index)` with an empty witness and returns its position; the rest is unchanged |
| `BitcoinTx.Transaction.AddOutput` | test/macros/claim_transaction.js:58 | appends the output `(script, value)` and returns its position; the rest is unchanged |
| `BitcoinTx.Transaction.SetWitness` | test/macros/claim_transaction.js:89 | the new state is the old one with that input's witness stack replaced |
| `BitcoinTx.WitnessScriptHashOutput` | test/macros/output_script_in_tx.js:30 | the witness program `OP_0 PUSH32 <hash>` is 34 bytes |
| `BitcoinTx.WitnessScriptHashOutputHash` | test/macros/output_script_in_tx.js:30 | the decoder accepts exactly the 34-byte scripts starting `0x00 0x20` |
| `BitcoinTx.WitnessScriptHashOutputRoundTrip` | test/macros/output_script_in_tx.js:30 | decoding an encoded witness program gives back its hash |
| `BitcoinTx.WitnessScriptHashOutputParsed` | test/macros/output_script_in_tx.js:30 | every script the decoder accepts is the encoding of the hash it returns |
| `BitcoinTx.WitnessScriptHashOutputInjective` | test/macros/output_script_in_tx.js:43 | two witness programs are equal if and only if their hashes are, so the script comparison compares commitments |
| `BitcoinTx.ScriptSignature` | test/macros/claim_transaction.js:86 | `toScriptSignature(hashAll)`: the DER signature unchanged, followed by the hash-type byte |
| `ClaimBuilder.WitnessIndexing.Target` | test/macros/claim_transaction.js:83-89 | the input a witness is written to is never past the loop index, and is exactly input 0 as written and input i as intended |
| `ClaimBuilder.SumTokens` | test/macros/claim_transaction.js:50 | the token fold; its properties are stated by `SumTokensConcat`, `SumTokensSingle` and, as the output value, by `ClaimLayout` |
| `ClaimBuilder.SumTokensConcat` | test/macros/claim_transaction.js:50 | the token sum over a concatenation is the sum of the two sums |
| `ClaimBuilder.SumTokensSingle` | test/macros/claim_transaction.js:50 | one funding output contributes exactly its tokens |
| `ClaimBuilder.InputWitnessWeight` | test/macros/claim_transaction.js:65-73 | the per-input witness budget; `AnticipatedWeightClosedForm` and `ClaimFeeFormula` state how it enters the weight |
| `ClaimBuilder.AnticipatedWeight` | test/macros/claim_transaction.js:64-75 | the fold never goes below its starting weight, and a non-empty utxo list adds at least one witness budget; its closed form is `AnticipatedWeightClosedForm` |
| `ClaimBuilder.AnticipatedWeightClosedForm` | test/macros/claim_transaction.js:64-75 | the fold equals the starting weight plus n × (2·shortPushdata + ecdsaSignature + preimage length + sequence + redeem-script length) |
| `ClaimBuilder.CeilDiv` | test/macros/claim_transaction.js:80 | `Math.ceil(w / d)`: the least q with q·d ≥ w |
| `ClaimBuilder.FeeTokens` | test/macros/claim_transaction.js:80 | a non-negative rate gives a non-negative fee, and a positive rate on a positive weight charges at least one virtual byte |
| `ClaimBuilder.UtxoInput` | test/macros/claim_transaction.js:54-56 | the input for one utxo; `ClaimLayout` states its reversed txid and vout in the built claim, `AsWrittenClaimWitnesses` its empty witness on inputs 1..n−1 |
| `ClaimBuilder.FundingInputs` | test/macros/claim_transaction.js:54-56 | one input per utxo in order; stated by `ClaimLayout`, and `BuildClaim`'s input loop is proved to produce it |
| `ClaimBuilder.UnsignedClaim` | test/macros/claim_transaction.js:52-61 | the transaction before the fee; `BuildClaim` is proved to reach it, and `ClaimLayout` states its inputs, output and locktime as they end up |
| `ClaimBuilder.ClaimWeight` | test/macros/claim_transaction.js:64-75 | the anticipated weight of the claim; `ClaimFeeFormula` gives its closed form |
| `ClaimBuilder.ClaimFee` | test/macros/claim_transaction.js:80 | the fee of the claim; `ClaimFeeFormula` and `ClaimFeeDependsOnSizes` state it |
| `ClaimBuilder.FeePaidClaim` | test/macros/claim_transaction.js:78-80 | the transaction after the fee deduction; `SigHashesCommitToFeePaidOutput` states that every sighash is taken over its output |
| `ClaimBuilder.ClaimWitness` | test/macros/claim_transaction.js:84-88 | the stack built on one iteration; `ClaimWitnessShape` states its three items |
| `ClaimBuilder.SignedThrough` | test/macros/claim_transaction.js:83-90 | the signing loop never adds or removes inputs |
| `ClaimBuilder.ClaimTransaction` | test/macros/claim_transaction.js:40-93 | the outcome of the macro; `ClaimRejectsEmptyUtxos`, `ClaimLayout`, `ClaimFeeFormula`, `AsWrittenClaimWitnesses` and `CorrectedClaimSignsEveryInput` state it |
| `ClaimBuilder.BuildClaim` | test/macros/claim_transaction.js:40-93 | the macro, run step by step on a `Transaction` object, returns exactly `ClaimTransaction` with the as-written witness placement |
| `ClaimBuilder.ClaimRejectsEmptyUtxos` | test/macros/claim_transaction.js:41-43 | the result is an error if and only if the utxo list is empty, and that error is `[0, 'Expected funding tx utxos']` |
| `ClaimBuilder.SignedThroughKeepsLayout` | test/macros/claim_transaction.js:83-90 | signing changes only witnesses: every outpoint, the outputs and the locktime stay as before the loop |
| `ClaimBuilder.ClaimFeeFormula` | test/macros/claim_transaction.js:64-80 | anticipated weight = base weight + n × per-input budget, and fee = rate × ceil(weight / vRatio) |
| `ClaimBuilder.ClaimFeeDependsOnSizes` | test/macros/claim_transaction.js:64-80 | the fee depends only on the rate, the number of utxos, the preimage and redeem-script lengths and the unsigned weight |
| `ClaimBuilder.ClaimLayout` | test/macros/claim_transaction.js:45-80 | one input per utxo in order, with the reversed txid and the vout; exactly one output, to `toOutputScript(destination)`, of Σtokens − fee; that value is negative exactly when Σtokens < fee; locktime = `bip65Encode(height)` |
| `ClaimBuilder.ClaimWitnessShape` | test/macros/claim_transaction.js:84-88 | each witness is three items: a signature ending in the SIGHASH_ALL byte, then the preimage and the redeem script unmodified |
| `ClaimBuilder.SigHashesCommitToFeePaidOutput` | test/macros/claim_transaction.js:78-86 | each iteration's sighash is taken over the transaction with the fee-reduced output, the final outpoints and the locktime, using the redeem script, that utxo's tokens and SIGHASH_ALL |
| `ClaimBuilder.AlwaysFirstSignsOnlyInputZero` | test/macros/claim_transaction.js:83-90 | as written, after k iterations input 0 holds iteration k−1's stack and every other input is untouched |
| `ClaimBuilder.AsWrittenClaimWitnesses` | test/macros/claim_transaction.js:83-90 | the built claim: input 0 holds the last utxo's witness and inputs 1..n−1 have an empty witness |
| `ClaimBuilder.PerInputSignsEachInput` | test/macros/claim_transaction.js:83-90 | with the intended placement, after k iterations each input j < k holds its own iteration's stack and the rest are untouched |
| `ClaimBuilder.CorrectedClaimSignsEveryInput` | test/macros/claim_transaction.js:83-90 | the corrected claim gives every input its own `[signature, preimage, redeemScript]` |
| `OutputScriptInTx.WitnessScript` | test/macros/output_script_in_tx.js:28-30 | the target script is 34 bytes `0x00 0x20 ‖ sha256(redeemScript)` and decodes back to that hash |
| `OutputScriptInTx.Provided` | test/macros/output_script_in_tx.js:24 | the JavaScript truthiness test; `FindRejectsMissingArguments` states the error it guards |
| `OutputScriptInTx.DescribeOutputs` | test/macros/output_script_in_tx.js:34-42 | the map step; `MatchesSound` and `MatchesComplete` state what survives the filter |
| `OutputScriptInTx.KeepScript` | test/macros/output_script_in_tx.js:43 | the filter keeps exactly the descriptions whose script equals the target, and no more of them than there are |
| `OutputScriptInTx.KeepScriptIncreasing` | test/macros/output_script_in_tx.js:43 | filtering keeps increasing output indexes increasing |
| `OutputScriptInTx.KeepScriptNone` | test/macros/output_script_in_tx.js:43 | when no description pays the target, the filter returns the empty list |
| `OutputScriptInTx.KeepScriptSingle` | test/macros/output_script_in_tx.js:43 | when exactly one description pays the target, the filter returns exactly that one |
| `OutputScriptInTx.MatchingOutputs` | test/macros/output_script_in_tx.js:34-43 | the map and filter; `MatchesSound`, `MatchesComplete`, `MatchesOrdered`, `NoMatchIsEmpty` and `UniqueOutputIsSoleMatch` state it |
| `OutputScriptInTx.FindMatchingOutputs` | test/macros/output_script_in_tx.js:23-46 | the matcher: outputs of the decoded transaction, tagged with the id of the raw transaction bytes; `FindRejectsMissingArguments` and `FindMatchingOutputsSpec` state it |
| `OutputScriptInTx.FindRejectsMissingArguments` | test/macros/output_script_in_tx.js:24-26 | the result is an error if and only if the redeem script or the transaction is missing or empty, and that error is `[0, 'Expected redeem script, transaction']` |
| `OutputScriptInTx.MatchesSound` | test/macros/output_script_in_tx.js:34-43 | every match has the target script, a `vout` that is an output index, that output's script and value, and the transaction id |
| `OutputScriptInTx.MatchesComplete` | test/macros/output_script_in_tx.js:34-43 | every output i paying the target appears as a match with `vout = i` and `tokens = outs[i].value` |
| `OutputScriptInTx.MatchesOrdered` | test/macros/output_script_in_tx.js:34-43 | the matches are in strictly increasing `vout` order, and there are at most as many as outputs |
| `OutputScriptInTx.NoMatchIsEmpty` | test/macros/output_script_in_tx.js:45 | the match list is empty if and only if no output pays the target |
| `OutputScriptInTx.UniqueOutputIsSoleMatch` | test/macros/output_script_in_tx.js:34-45 | a transaction with exactly one output paying the target yields exactly that one match, with its index and value |
| `OutputScriptInTx.FindMatchingOutputsSpec` | test/macros/output_script_in_tx.js:23-46 | given both arguments, the macro succeeds: it returns exactly the outputs paying the commitment, in order, tagged with the id of the raw transaction bytes, and the empty list when none does |
| `Settlement.ClaimOutputMatchesOnlyAsDestination` | test/macros/claim_transaction.js:58 | matching a built claim against the redeem script it spends reports its one output when the destination script is that commitment, and nothing otherwise |

## Left out

- service/setup_invoice.js (the invoice/swap setup orchestration) is not part of this model. It is asynchronous task scheduling around remote daemon and swap-service calls, with no data logic of its own.
- The library primitives (sha256, ECDSA signing and DER encoding, WIF key decoding, address-to-script conversion, `weight()`, the BIP 143 sighash, `getId` of a raw transaction, transaction decoding) and the `bip65` encoder are foreign code. They are arbitrary function-valued fields of `Library`. Their exceptions (a bad address, a height the encoder refuses, undecodable hex) are not modelled.
- The chain constants come from a configuration file that is not part of this model. They are the `Chain` parameter.
- Hex decoding of the arguments is left out: redeem script, preimage, txids, private key and raw transaction are given as bytes. In the matcher, a missing argument is `None`, and an empty one is an empty byte sequence.
- The callback convention is modelled as the `Result` datatype.
- `BuildClaim` returns the final transaction value, not its hex serialization (`toHex`, line 92).
- The claim builder's transaction has the library's default version, input sequence numbers and input scripts. The builder neither sets nor reads them, so `Tx` leaves them out. The matcher does not need them either: it reads only the decoded outputs, and it takes the id as a function of the whole raw transaction (`Library.txId`), so two transactions that differ only in those fields can have different ids.
- `Transaction.AddInput`, `Transaction.AddOutput`: in the library, `addInput` type-checks a 32-byte hash and a 32-bit unsigned index, and `addOutput` checks a value between 0 and 21·10^14. A bad utxo therefore throws at claim_transaction.js:56 or :58. The model does not constrain `Utxo.tokens`, `Utxo.vout` or `Utxo.transactionId`, and those library exceptions are not modelled.
- JavaScript numbers are modelled as unbounded integers. Floating-point rounding of very large token amounts or weights is not modelled, and `Math.ceil` of an integer quotient is integer ceiling division.
- A claim whose fee exceeds its token sum gets a negative output value in this model. In the library, the sighash step (claim_transaction.js:84) serialises every output value, and its 64-bit writer probably rejects a negative number, so the real call would throw before signing. That library behaviour is not modelled.
- The unused `prevPub` (claim_transaction.js:60) is not modelled; the code computes it and never reads it.
- `BuildClaim`: the output object's in-place `out.value -=` (line 80) becomes a reassignment of the transaction's output sequence, because outputs are values here. Nothing else holds a reference to that output, so no behaviour is lost.

## Findings

| source | as written | input that shows it | evidently intended | confidence | as-written member | corrected member |
|---|---|---|---|---|---|---|
| test/macros/claim_transaction.js:88-89 | the inner `forEach((witness, i) => …)` shadows the outer `i`, so every iteration calls `setWitness(0, …)` | any call with two utxos: input 1 is left with an empty witness, and input 0 carries the second utxo's signature | `setWitness(i, [signature, preimage, script])` with the outer index, so every input carries its own witness | not executed; high | `ClaimBuilder.AsWrittenClaimWitnesses` | `ClaimBuilder.CorrectedClaimSignsEveryInput` |

`WitnessIndexing` selects the placement. `BuildClaim` is faithful to the code
and uses `AlwaysFirst`. `CorrectedClaimSignsEveryInput` proves the intended
property for `PerInput`. Every other lemma about `ClaimTransaction`
(layout, fee, sighash commitments, the settlement lemma) is proved for both
placements.

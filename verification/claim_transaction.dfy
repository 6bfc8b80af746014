/** The claim-transaction builder: it sweeps hash-time-locked
    pay-to-witness-script-hash funding outputs to one destination, paying a
    fee computed from the weight the witnesses will add, and signs every
    input with the preimage branch of the redeem script.

    `ClaimTransaction` states, as a function of the arguments, the
    transaction the builder produces; `BuildClaim` builds it step by step on
    a `Transaction` object, as the macro does, and is proved to produce it. */
module ClaimBuilder {
  import opened Types
  import opened BitcoinTx

  /** A funding output to spend. */
  datatype Utxo = Utxo(tokens: int, transactionId: Bytes, vout: nat)

  /** The macro's arguments, with hex strings already decoded to bytes. */
  datatype ClaimArgs = ClaimArgs(
    currentBlockHeight: nat,
    destination: string,
    feeTokensPerVbyte: int,
    preimage: Bytes,
    privateKey: Bytes,
    redeemScript: Bytes,
    utxos: seq<Utxo>)

  /** The chain configuration the macro reads its byte lengths from. */
  datatype Chain = Chain(
    shortPushdataLength: nat,
    ecdsaSignatureLength: nat,
    sequenceLength: nat,
    vRatio: Positive)

  const NoUtxosError := Error(0, "Expected funding tx utxos")

  /** Where the signing loop writes each witness stack. As written, the inner
      `forEach((witness, i) => ...)` shadows the outer index, so every stack
      goes to input 0 (`AlwaysFirst`); `PerInput` is the evidently intended
      placement, stack i on input i. */
  datatype WitnessIndexing = AlwaysFirst | PerInput {
    function Target(i: nat): (t: nat)
      ensures t <= i
      ensures AlwaysFirst? ==> t == 0
      ensures PerInput? ==> t == i
    {
      if AlwaysFirst? then 0 else i
    }
  }

  // ---------------------------------------------------------------------
  // Token sum and anticipated weight (the two folds)

  /** `utxos.reduce((sum, n) => n.tokens + sum, 0)`. */
  function SumTokens(utxos: seq<Utxo>): int
  {
    if utxos == [] then 0 else SumTokens(utxos[..|utxos| - 1]) + utxos[|utxos| - 1].tokens
  }

  /** The sum of a concatenation is the sum of the sums. */
  lemma {:induction false} SumTokensConcat(a: seq<Utxo>, b: seq<Utxo>)
    ensures SumTokens(a + b) == SumTokens(a) + SumTokens(b)
    decreases |b|
  {
    if b == [] {
      assert a + b == a;
    } else {
      var b' := b[..|b| - 1];
      assert (a + b)[..|a + b| - 1] == a + b';
      SumTokensConcat(a, b');
    }
  }

  /** A single funding output contributes exactly its tokens. */
  lemma SumTokensSingle(u: Utxo)
    ensures SumTokens([u]) == u.tokens
  {
    assert [u][..0] == [];
  }

  /** The weight one input's witness adds: a push opcode, the largest ECDSA
      signature, a push opcode, the preimage, a sequence-sized field and the
      redeem script. */
  function InputWitnessWeight(chain: Chain, preimageLength: nat, scriptLength: nat): nat
  {
    chain.shortPushdataLength + chain.ecdsaSignatureLength + chain.shortPushdataLength
      + preimageLength + chain.sequenceLength + scriptLength
  }

  /** The anticipated-weight fold: starting from `weight`, each funding output
      adds the per-input witness budget. */
  function AnticipatedWeight(chain: Chain, preimageLength: nat, scriptLength: nat,
                             utxos: seq<Utxo>, weight: nat): (r: nat)
    ensures r >= weight
    ensures utxos != [] ==> r >= weight + InputWitnessWeight(chain, preimageLength, scriptLength)
    decreases |utxos|
  {
    if utxos == [] then weight
    else AnticipatedWeight(chain, preimageLength, scriptLength, utxos[1..],
                           weight + InputWitnessWeight(chain, preimageLength, scriptLength))
  }

  /** The anticipated weight is the starting weight plus one witness budget
      per funding output. */
  lemma {:induction false} AnticipatedWeightClosedForm(chain: Chain, preimageLength: nat,
                                                       scriptLength: nat, utxos: seq<Utxo>,
                                                       weight: nat)
    ensures AnticipatedWeight(chain, preimageLength, scriptLength, utxos, weight)
         == weight + |utxos| * InputWitnessWeight(chain, preimageLength, scriptLength)
    decreases |utxos|
  {
    if utxos != [] {
      var w := InputWitnessWeight(chain, preimageLength, scriptLength);
      AnticipatedWeightClosedForm(chain, preimageLength, scriptLength, utxos[1..], weight + w);
      assert |utxos| * w == w + |utxos[1..]| * w;
    }
  }

  /** `Math.ceil(w / d)` on integers: the least `q` with `q * d >= w`. */
  function CeilDiv(w: nat, d: Positive): (q: nat)
    ensures q * d >= w
    ensures q == 0 || (q - 1) * d < w
  {
    var q := (w + d - 1) / d;
    assert q * d + (w + d - 1) % d == w + d - 1;
    q
  }

  /** `tokensPerVirtualByte * Math.ceil(anticipatedWeight / vRatio)`. */
  function FeeTokens(feeTokensPerVbyte: int, weight: nat, vRatio: Positive): (fee: int)
    ensures feeTokensPerVbyte >= 0 ==> fee >= 0
    ensures weight > 0 && feeTokensPerVbyte > 0 ==> fee >= feeTokensPerVbyte
  {
    feeTokensPerVbyte * CeilDiv(weight, vRatio)
  }

  // ---------------------------------------------------------------------
  // The transaction the builder produces

  /** The input spending one funding output: its txid byte-reversed, its
      vout, and (for now) no witness. */
  function UtxoInput(u: Utxo): Input
  {
    Input(Reversed(u.transactionId), u.vout, [])
  }

  function FundingInputs(utxos: seq<Utxo>): (ins: seq<Input>)
  {
    seq(|utxos|, i requires 0 <= i < |utxos| => UtxoInput(utxos[i]))
  }

  /** The transaction once inputs, output and locktime are set: the funding inputs, one output of
      the whole token sum to the destination, and the BIP 65 locktime. */
  function UnsignedClaim(lib: Library, args: ClaimArgs): Tx
  {
    Tx(FundingInputs(args.utxos),
       [Output(lib.toOutputScript(args.destination), SumTokens(args.utxos))],
       lib.bip65Encode(args.currentBlockHeight))
  }

  /** The anticipated weight, from the unsigned transaction's
      measured weight. */
  function ClaimWeight(lib: Library, chain: Chain, args: ClaimArgs): nat
  {
    AnticipatedWeight(chain, |args.preimage|, |args.redeemScript|, args.utxos,
                      lib.weight(UnsignedClaim(lib, args)))
  }

  function ClaimFee(lib: Library, chain: Chain, args: ClaimArgs): int
  {
    FeeTokens(args.feeTokensPerVbyte, ClaimWeight(lib, chain, args), chain.vRatio)
  }

  /** The transaction after the fee deduction: the fee taken off the single output. */
  function FeePaidClaim(lib: Library, chain: Chain, args: ClaimArgs): Tx
  {
    var tx := UnsignedClaim(lib, args);
    tx.(outs := [tx.outs[0].(value := tx.outs[0].value - ClaimFee(lib, chain, args))])
  }

  /** The witness stack built on signing iteration `i`, over the transaction
      `tx` as it stands at that iteration. */
  function ClaimWitness(lib: Library, args: ClaimArgs, tx: Tx, i: nat): seq<Bytes>
    requires i < |args.utxos|
  {
    var sigHash := lib.hashForWitnessV0(tx, i, args.redeemScript, args.utxos[i].tokens, SIGHASH_ALL);
    [ScriptSignature(lib.signDer(args.privateKey, sigHash), SIGHASH_ALL), args.preimage, args.redeemScript]
  }

  /** The transaction after the first `k` iterations of the signing loop,
      started on `tx`. */
  function SignedThrough(lib: Library, args: ClaimArgs, indexing: WitnessIndexing, tx: Tx, k: nat): (r: Tx)
    requires |tx.ins| == |args.utxos| && k <= |args.utxos|
    ensures |r.ins| == |tx.ins|
    decreases k
  {
    if k == 0 then tx
    else
      var prev := SignedThrough(lib, args, indexing, tx, k - 1);
      prev.WithWitness(indexing.Target(k - 1), ClaimWitness(lib, args, prev, k - 1))
  }

  /** The outcome of the macro: the error for an empty utxo list, otherwise
      the signed transaction. */
  function ClaimTransaction(lib: Library, chain: Chain, args: ClaimArgs, indexing: WitnessIndexing): Result<Tx>
  {
    if |args.utxos| == 0 then Failure(NoUtxosError)
    else
      var tx := FeePaidClaim(lib, chain, args);
      Success(SignedThrough(lib, args, indexing, tx, |args.utxos|))
  }

  // ---------------------------------------------------------------------
  // The builder, step by step

  /** The macro as written: builds the claim transaction on a `Transaction`
      object and returns its final value. */
  method BuildClaim(lib: Library, chain: Chain, args: ClaimArgs) returns (r: Result<Tx>)
    ensures r == ClaimTransaction(lib, chain, args, AlwaysFirst)
  {
    if |args.utxos| == 0 {
      return Failure(NoUtxosError);
    }
    var lockTime := lib.bip65Encode(args.currentBlockHeight);
    var scriptPub := lib.toOutputScript(args.destination);
    var tokens := SumTokens(args.utxos);
    var transaction := new Transaction();

    for n := 0 to |args.utxos|
      invariant transaction.outs == [] && transaction.locktime == 0
      invariant |transaction.ins| == n
      invariant forall j :: 0 <= j < n ==> transaction.ins[j] == UtxoInput(args.utxos[j])
    {
      var u := args.utxos[n];
      var _ := transaction.AddInput(Reversed(u.transactionId), u.vout);
    }
    assert transaction.ins == FundingInputs(args.utxos);

    var _ := transaction.AddOutput(scriptPub, tokens);
    transaction.locktime := lockTime;
    assert transaction.Value() == UnsignedClaim(lib, args);

    var anticipatedWeight := AnticipatedWeight(chain, |args.preimage|, |args.redeemScript|,
                                               args.utxos, lib.weight(transaction.Value()));
    var out := transaction.outs[0];
    transaction.outs := [out.(value := out.value - FeeTokens(args.feeTokensPerVbyte, anticipatedWeight, chain.vRatio))];
    ghost var feePaid := transaction.Value();
    assert feePaid == FeePaidClaim(lib, chain, args);

    for i := 0 to |args.utxos|
      invariant transaction.Value() == SignedThrough(lib, args, AlwaysFirst, feePaid, i)
    {
      var sigHash := lib.hashForWitnessV0(transaction.Value(), i, args.redeemScript,
                                          args.utxos[i].tokens, SIGHASH_ALL);
      var signature := ScriptSignature(lib.signDer(args.privateKey, sigHash), SIGHASH_ALL);
      var stacks := [[signature, args.preimage, args.redeemScript]];
      ghost var before := transaction.Value();
      // The inner loop's own index names the input whose witness is set.
      for i := 0 to |stacks|
        invariant transaction.Value() == if i == 0 then before else before.WithWitness(0, stacks[0])
      {
        transaction.SetWitness(i, stacks[i]);
      }
    }
    r := Success(transaction.Value());
  }

  // ---------------------------------------------------------------------
  // What the builder promises

  /** An empty utxo list is the one error, and it builds nothing. */
  lemma ClaimRejectsEmptyUtxos(lib: Library, chain: Chain, args: ClaimArgs, indexing: WitnessIndexing)
    ensures ClaimTransaction(lib, chain, args, indexing).Failure? <==> |args.utxos| == 0
    ensures |args.utxos| == 0 ==> ClaimTransaction(lib, chain, args, indexing) == Failure(NoUtxosError)
  {
  }

  /** Signing only writes witness stacks: outpoints, outputs and locktime
      stay as they were before the loop. */
  lemma {:induction false} SignedThroughKeepsLayout(lib: Library, args: ClaimArgs, indexing: WitnessIndexing,
                                                    tx: Tx, k: nat)
    requires |tx.ins| == |args.utxos| && k <= |args.utxos|
    ensures SignedThrough(lib, args, indexing, tx, k).outs == tx.outs
    ensures SignedThrough(lib, args, indexing, tx, k).locktime == tx.locktime
    ensures forall j :: 0 <= j < |tx.ins| ==>
      SignedThrough(lib, args, indexing, tx, k).ins[j].hash == tx.ins[j].hash &&
      SignedThrough(lib, args, indexing, tx, k).ins[j].index == tx.ins[j].index
    decreases k
  {
    if k > 0 {
      SignedThroughKeepsLayout(lib, args, indexing, tx, k - 1);
    }
  }

  /** The fee is the rate times the anticipated virtual size, where the
      anticipated weight is the unsigned weight plus one witness budget per
      funding output. */
  lemma ClaimFeeFormula(lib: Library, chain: Chain, args: ClaimArgs)
    ensures ClaimWeight(lib, chain, args)
         == lib.weight(UnsignedClaim(lib, args))
            + |args.utxos| * InputWitnessWeight(chain, |args.preimage|, |args.redeemScript|)
    ensures ClaimFee(lib, chain, args)
         == args.feeTokensPerVbyte * CeilDiv(ClaimWeight(lib, chain, args), chain.vRatio)
  {
    AnticipatedWeightClosedForm(chain, |args.preimage|, |args.redeemScript|, args.utxos,
                                lib.weight(UnsignedClaim(lib, args)));
  }

  /** The fee is fixed by the fee rate, the number of funding outputs, the
      preimage and redeem-script lengths and the unsigned weight alone. */
  lemma ClaimFeeDependsOnSizes(lib: Library, chain: Chain, a: ClaimArgs, b: ClaimArgs)
    requires a.feeTokensPerVbyte == b.feeTokensPerVbyte
    requires |a.utxos| == |b.utxos|
    requires |a.preimage| == |b.preimage| && |a.redeemScript| == |b.redeemScript|
    requires lib.weight(UnsignedClaim(lib, a)) == lib.weight(UnsignedClaim(lib, b))
    ensures ClaimFee(lib, chain, a) == ClaimFee(lib, chain, b)
  {
    ClaimFeeFormula(lib, chain, a);
    ClaimFeeFormula(lib, chain, b);
  }

  /** The built transaction: one input per funding output in order, each
      spending the byte-reversed txid at its vout; a single output paying the
      destination the token sum less the fee, with no clamping, so it is
      negative exactly when the funds do not cover the fee; and the BIP 65
      locktime of the current height. */
  lemma ClaimLayout(lib: Library, chain: Chain, args: ClaimArgs, indexing: WitnessIndexing)
    requires |args.utxos| > 0
    ensures var r := ClaimTransaction(lib, chain, args, indexing);
      && r.Success?
      && |r.value.ins| == |args.utxos|
      && (forall j :: 0 <= j < |args.utxos| ==>
            r.value.ins[j].hash == Reversed(args.utxos[j].transactionId) &&
            r.value.ins[j].index == args.utxos[j].vout)
      && r.value.outs == [Output(lib.toOutputScript(args.destination),
                                 SumTokens(args.utxos) - ClaimFee(lib, chain, args))]
      && (r.value.outs[0].value < 0 <==> SumTokens(args.utxos) < ClaimFee(lib, chain, args))
      && r.value.locktime == lib.bip65Encode(args.currentBlockHeight)
  {
    SignedThroughKeepsLayout(lib, args, indexing, FeePaidClaim(lib, chain, args), |args.utxos|);
  }

  /** The witness stack of every iteration: a signature ending in the
      SIGHASH_ALL byte, then the preimage and the redeem script unmodified. */
  lemma ClaimWitnessShape(lib: Library, args: ClaimArgs, tx: Tx, i: nat)
    requires i < |args.utxos|
    ensures var w := ClaimWitness(lib, args, tx, i);
      && |w| == 3 && w[1] == args.preimage && w[2] == args.redeemScript
      && |w[0]| > 0 && w[0][|w[0]| - 1] == SIGHASH_ALL
  {
  }

  /** The fee is taken off before any signing: iteration `i` hashes a
      transaction whose outpoints, single fee-reduced output and locktime
      are the final ones, with the redeem script, the i-th funding output's
      tokens and SIGHASH_ALL. */
  lemma SigHashesCommitToFeePaidOutput(lib: Library, chain: Chain, args: ClaimArgs,
                                       indexing: WitnessIndexing, i: nat)
    requires i < |args.utxos|
    ensures var seen := SignedThrough(lib, args, indexing, FeePaidClaim(lib, chain, args), i);
      && seen.outs == [Output(lib.toOutputScript(args.destination),
                              SumTokens(args.utxos) - ClaimFee(lib, chain, args))]
      && seen.locktime == lib.bip65Encode(args.currentBlockHeight)
      && (forall j :: 0 <= j < |args.utxos| ==>
            seen.ins[j].hash == Reversed(args.utxos[j].transactionId) &&
            seen.ins[j].index == args.utxos[j].vout)
      && ClaimWitness(lib, args, seen, i)[0]
         == ScriptSignature(lib.signDer(args.privateKey,
                                        lib.hashForWitnessV0(seen, i, args.redeemScript,
                                                             args.utxos[i].tokens, SIGHASH_ALL)),
                            SIGHASH_ALL)
  {
    SignedThroughKeepsLayout(lib, args, indexing, FeePaidClaim(lib, chain, args), i);
  }

  /** As written, the loop only ever writes input 0: after `k` iterations
      input 0 holds the stack of iteration k - 1 and every other input is
      as it was. */
  lemma {:induction false} AlwaysFirstSignsOnlyInputZero(lib: Library, args: ClaimArgs, tx: Tx, k: nat)
    requires |tx.ins| == |args.utxos| && 0 < k <= |args.utxos|
    ensures SignedThrough(lib, args, AlwaysFirst, tx, k).ins[0].stack
         == ClaimWitness(lib, args, SignedThrough(lib, args, AlwaysFirst, tx, k - 1), k - 1)
    ensures forall j :: 1 <= j < |tx.ins| ==>
      SignedThrough(lib, args, AlwaysFirst, tx, k).ins[j] == tx.ins[j]
    decreases k
  {
    if k > 1 {
      AlwaysFirstSignsOnlyInputZero(lib, args, tx, k - 1);
    }
  }

  /** The claim as written: input 0 carries the last funding output's
      witness stack and inputs 1 .. n-1 carry none, so with two or more
      funding outputs the transaction leaves inputs unsigned. */
  lemma AsWrittenClaimWitnesses(lib: Library, chain: Chain, args: ClaimArgs)
    requires |args.utxos| > 0
    ensures var r := ClaimTransaction(lib, chain, args, AlwaysFirst);
      var n := |args.utxos|;
      && r.Success?
      && r.value.ins[0].stack
         == ClaimWitness(lib, args, SignedThrough(lib, args, AlwaysFirst, FeePaidClaim(lib, chain, args), n - 1), n - 1)
      && (forall j :: 1 <= j < n ==> r.value.ins[j].stack == [])
  {
    var tx := FeePaidClaim(lib, chain, args);
    AlwaysFirstSignsOnlyInputZero(lib, args, tx, |args.utxos|);
    forall j | 1 <= j < |args.utxos|
      ensures tx.ins[j].stack == []
    {
      assert tx.ins[j] == UtxoInput(args.utxos[j]);
    }
  }

  /** With the intended placement, after `k` iterations each input j < k
      holds the stack signed on iteration j and the rest are untouched. */
  lemma {:induction false} PerInputSignsEachInput(lib: Library, args: ClaimArgs, tx: Tx, k: nat)
    requires |tx.ins| == |args.utxos| && k <= |args.utxos|
    ensures forall j :: 0 <= j < k ==>
      SignedThrough(lib, args, PerInput, tx, k).ins[j].stack
      == ClaimWitness(lib, args, SignedThrough(lib, args, PerInput, tx, j), j)
    ensures forall j :: k <= j < |tx.ins| ==>
      SignedThrough(lib, args, PerInput, tx, k).ins[j] == tx.ins[j]
    decreases k
  {
    if k > 0 {
      PerInputSignsEachInput(lib, args, tx, k - 1);
    }
  }

  /** The corrected claim: every input carries its own three-element stack
      `[signature, preimage, redeemScript]`, the signature made over the
      transaction as it stood on that input's iteration. */
  lemma CorrectedClaimSignsEveryInput(lib: Library, chain: Chain, args: ClaimArgs)
    requires |args.utxos| > 0
    ensures var r := ClaimTransaction(lib, chain, args, PerInput);
      && r.Success?
      && forall j :: 0 <= j < |args.utxos| ==>
           r.value.ins[j].stack
           == ClaimWitness(lib, args, SignedThrough(lib, args, PerInput, FeePaidClaim(lib, chain, args), j), j)
  {
    PerInputSignsEachInput(lib, args, FeePaidClaim(lib, chain, args), |args.utxos|);
  }
}

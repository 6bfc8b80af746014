/** How the two macros meet: the claim transaction's single output is a
    payment to the destination, so the matcher finds the redeem script's
    commitment in it only when the destination script is that very
    commitment. */
module Settlement {
  import opened Types
  import opened BitcoinTx
  import opened ClaimBuilder
  import opened OutputScriptInTx

  /** Matching a built claim transaction against the redeem script it
      spends reports its one output exactly when the destination's output
      script equals the redeem script's witness script, and nothing
      otherwise. */
  lemma ClaimOutputMatchesOnlyAsDestination(lib: Library, chain: Chain, args: ClaimArgs,
                                            indexing: WitnessIndexing, id: string)
    requires |args.utxos| > 0
    ensures var r := ClaimTransaction(lib, chain, args, indexing);
      var target := WitnessScript(lib, args.redeemScript);
      && r.Success?
      && MatchingOutputs(r.value.outs, target, id)
         == if lib.toOutputScript(args.destination) == target
            then [WitnessMatch(target, SumTokens(args.utxos) - ClaimFee(lib, chain, args), id, 0)]
            else []
  {
    ClaimLayout(lib, chain, args, indexing);
    var outs := ClaimTransaction(lib, chain, args, indexing).value.outs;
    var target := WitnessScript(lib, args.redeemScript);
    if lib.toOutputScript(args.destination) == target {
      UniqueOutputIsSoleMatch(outs, target, id, 0);
    } else {
      NoMatchIsEmpty(outs, target, id);
    }
  }
}

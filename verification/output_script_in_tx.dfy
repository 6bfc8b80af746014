/** The witness output matcher: given a redeem script and a raw
    transaction, it returns every output that pays the redeem script's
    pay-to-witness-script-hash commitment, with its index, value and the
    transaction's id. */
module OutputScriptInTx {
  import opened Types
  import opened BitcoinTx

  /** The macro's arguments; `None` is an argument that was not given. */
  datatype MatchArgs = MatchArgs(redeemScript: Option<Bytes>, transaction: Option<Bytes>)

  /** One matching output. */
  datatype WitnessMatch = WitnessMatch(script: Bytes, tokens: int, transactionId: string, vout: nat)

  const MissingArgumentsError := Error(0, "Expected redeem script, transaction")

  /** A JavaScript-truthy argument: given, and not the empty string. */
  predicate Provided(arg: Option<Bytes>)
  {
    arg.Some? && |arg.value| > 0
  }

  /** The output script a pay-to-witness-script-hash output for
      `redeemScript` carries: `OP_0 <sha256(redeemScript)>`. */
  function WitnessScript(lib: Library, redeemScript: Bytes): (s: Bytes)
    ensures |s| == 34 && s[0] == OP_0 && s[1] == PUSH_32 && s[2..] == lib.sha256(redeemScript)
    ensures WitnessScriptHashOutputHash(s) == Some(lib.sha256(redeemScript))
  {
    WitnessScriptHashOutputRoundTrip(lib.sha256(redeemScript));
    WitnessScriptHashOutput(lib.sha256(redeemScript))
  }

  /** The `map` step of the matcher: each output described with its index. */
  function DescribeOutputs(outs: seq<Output>, id: string): seq<WitnessMatch>
  {
    seq(|outs|, i requires 0 <= i < |outs| => WitnessMatch(outs[i].script, outs[i].value, id, i))
  }

  /** Strictly increasing output indexes. */
  predicate IncreasingVouts(ms: seq<WitnessMatch>)
  {
    forall a, b :: 0 <= a < b < |ms| ==> ms[a].vout < ms[b].vout
  }

  /** The `filter` step of the matcher: the descriptions whose script is `target`,
      in their original order. */
  function KeepScript(ms: seq<WitnessMatch>, target: Bytes): (r: seq<WitnessMatch>)
    ensures |r| <= |ms|
    ensures forall m :: m in r <==> m in ms && m.script == target
  {
    if ms == [] then []
    else
      var rest := KeepScript(ms[1..], target);
      assert ms == [ms[0]] + ms[1..];
      if ms[0].script == target then [ms[0]] + rest else rest
  }

  /** Filtering keeps the order: increasing indexes stay increasing. */
  lemma {:induction false} KeepScriptIncreasing(ms: seq<WitnessMatch>, target: Bytes)
    requires IncreasingVouts(ms)
    ensures IncreasingVouts(KeepScript(ms, target))
    decreases |ms|
  {
    if ms != [] {
      var rest := KeepScript(ms[1..], target);
      KeepScriptIncreasing(ms[1..], target);
      if ms[0].script == target {
        forall m | m in rest
          ensures ms[0].vout < m.vout
        {
          var k :| 0 <= k < |ms[1..]| && ms[1..][k] == m;
          assert ms[k + 1] == m;
        }
      }
    }
  }

  /** Nothing paying the target leaves nothing. */
  lemma {:induction false} KeepScriptNone(ms: seq<WitnessMatch>, target: Bytes)
    requires forall j :: 0 <= j < |ms| ==> ms[j].script != target
    ensures KeepScript(ms, target) == []
    decreases |ms|
  {
    if ms != [] {
      KeepScriptNone(ms[1..], target);
    }
  }

  /** A single description paying the target is the whole result. */
  lemma {:induction false} KeepScriptSingle(ms: seq<WitnessMatch>, target: Bytes, i: nat)
    requires i < |ms| && ms[i].script == target
    requires forall j :: 0 <= j < |ms| && j != i ==> ms[j].script != target
    ensures KeepScript(ms, target) == [ms[i]]
    decreases |ms|
  {
    if i == 0 {
      KeepScriptNone(ms[1..], target);
    } else {
      KeepScriptSingle(ms[1..], target, i - 1);
    }
  }

  /** Every output of `outs` whose script is `target`, with its index,
      value and the transaction id `id`. */
  function MatchingOutputs(outs: seq<Output>, target: Bytes, id: string): seq<WitnessMatch>
  {
    KeepScript(DescribeOutputs(outs, id), target)
  }

  /** The macro: the missing-argument error, or the matches (possibly none)
      in the decoded transaction, tagged with the raw transaction's id. */
  function FindMatchingOutputs(lib: Library, args: MatchArgs): Result<seq<WitnessMatch>>
  {
    if !Provided(args.redeemScript) || !Provided(args.transaction) then
      Failure(MissingArgumentsError)
    else
      var tx := lib.fromBytes(args.transaction.value);
      Success(MatchingOutputs(tx.outs, WitnessScript(lib, args.redeemScript.value), lib.txId(args.transaction.value)))
  }

  // ---------------------------------------------------------------------
  // What the matcher promises

  /** The one error is a missing or empty argument; anything else succeeds. */
  lemma FindRejectsMissingArguments(lib: Library, args: MatchArgs)
    ensures FindMatchingOutputs(lib, args).Failure?
        <==> !Provided(args.redeemScript) || !Provided(args.transaction)
    ensures FindMatchingOutputs(lib, args).Failure? ==>
      FindMatchingOutputs(lib, args).error == MissingArgumentsError
  {
  }

  /** Soundness: each match is an output of the transaction, at its own
      index, whose script is the target, carrying its value and the id. */
  lemma MatchesSound(outs: seq<Output>, target: Bytes, id: string)
    ensures forall m :: m in MatchingOutputs(outs, target, id) ==>
      && m.script == target
      && m.vout < |outs|
      && outs[m.vout] == Output(m.script, m.tokens)
      && m.transactionId == id
  {
    var ds := DescribeOutputs(outs, id);
    forall m | m in MatchingOutputs(outs, target, id)
      ensures m.vout < |outs| && outs[m.vout] == Output(m.script, m.tokens) && m.transactionId == id
    {
      var i :| 0 <= i < |ds| && ds[i] == m;
    }
  }

  /** Completeness: every output whose script is the target is reported,
      at its index and with its value. */
  lemma MatchesComplete(outs: seq<Output>, target: Bytes, id: string)
    ensures forall i :: 0 <= i < |outs| && outs[i].script == target ==>
      WitnessMatch(target, outs[i].value, id, i) in MatchingOutputs(outs, target, id)
  {
    var ds := DescribeOutputs(outs, id);
    forall i | 0 <= i < |outs| && outs[i].script == target
      ensures WitnessMatch(target, outs[i].value, id, i) in MatchingOutputs(outs, target, id)
    {
      assert ds[i] == WitnessMatch(target, outs[i].value, id, i);
    }
  }

  /** The matches follow output order, without repeats, and there are at
      most as many as there are outputs. */
  lemma MatchesOrdered(outs: seq<Output>, target: Bytes, id: string)
    ensures IncreasingVouts(MatchingOutputs(outs, target, id))
    ensures |MatchingOutputs(outs, target, id)| <= |outs|
  {
    KeepScriptIncreasing(DescribeOutputs(outs, id), target);
  }

  /** No match is an empty list, and an empty list means no output pays
      the target. */
  lemma NoMatchIsEmpty(outs: seq<Output>, target: Bytes, id: string)
    ensures MatchingOutputs(outs, target, id) == []
        <==> forall i :: 0 <= i < |outs| ==> outs[i].script != target
  {
    MatchesSound(outs, target, id);
    MatchesComplete(outs, target, id);
    var ms := MatchingOutputs(outs, target, id);
    if ms != [] {
      assert ms[0] in ms;
    }
  }

  /** A transaction with exactly one output paying the target yields
      exactly that output. */
  lemma UniqueOutputIsSoleMatch(outs: seq<Output>, target: Bytes, id: string, i: nat)
    requires i < |outs| && outs[i].script == target
    requires forall j :: 0 <= j < |outs| && j != i ==> outs[j].script != target
    ensures MatchingOutputs(outs, target, id) == [WitnessMatch(target, outs[i].value, id, i)]
  {
    var ds := DescribeOutputs(outs, id);
    KeepScriptSingle(ds, target, i);
  }

  /** The matcher on a decoded transaction: succeeds with exactly the
      outputs paying the redeem script's commitment, each tagged with the
      transaction's id; an empty list when there are none. */
  lemma FindMatchingOutputsSpec(lib: Library, args: MatchArgs)
    requires Provided(args.redeemScript) && Provided(args.transaction)
    ensures var tx := lib.fromBytes(args.transaction.value);
      var target := WitnessScript(lib, args.redeemScript.value);
      var r := FindMatchingOutputs(lib, args);
      && r.Success?
      && (forall m :: m in r.value ==>
            m.script == target && m.vout < |tx.outs| && tx.outs[m.vout] == Output(target, m.tokens)
            && m.transactionId == lib.txId(args.transaction.value))
      && (forall i :: 0 <= i < |tx.outs| && tx.outs[i].script == target ==>
            WitnessMatch(target, tx.outs[i].value, lib.txId(args.transaction.value), i) in r.value)
      && IncreasingVouts(r.value)
      && (r.value == [] <==> forall i :: 0 <= i < |tx.outs| ==> tx.outs[i].script != target)
  {
    var tx := lib.fromBytes(args.transaction.value);
    var target := WitnessScript(lib, args.redeemScript.value);
    var id := lib.txId(args.transaction.value);
    MatchesSound(tx.outs, target, id);
    MatchesComplete(tx.outs, target, id);
    MatchesOrdered(tx.outs, target, id);
    NoMatchIsEmpty(tx.outs, target, id);
  }
}

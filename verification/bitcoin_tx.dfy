/** The parts of the Bitcoin transaction library that the claim builder and
    the matcher rely on: the transaction object they mutate or read, the
    pay-to-witness-script-hash output encoding, the script-signature
    encoding, and the remaining library calls as function-valued
    parameters about which nothing is assumed beyond being functions. */
module BitcoinTx {
  import opened Types

  /** A transaction input: the (byte-reversed) id of the funding transaction,
      the index of the spent output in it, and the witness stack. */
  datatype Input = Input(hash: Bytes, index: nat, stack: seq<Bytes>)

  /** A transaction output: its script and its value in tokens. The value is
      an `int` because the claim builder subtracts the fee without a check. */
  datatype Output = Output(script: Bytes, value: int)

  datatype Tx = Tx(ins: seq<Input>, outs: seq<Output>, locktime: nat) {

    /** The transaction with input `index`'s witness stack replaced. */
    function WithWitness(index: nat, stack: seq<Bytes>): (r: Tx)
      requires index < |ins|
      ensures |r.ins| == |ins| && r.outs == outs && r.locktime == locktime
      ensures r.ins[index].stack == stack
      ensures forall j :: 0 <= j < |ins| && j != index ==> r.ins[j] == ins[j]
      ensures forall j :: 0 <= j < |ins| ==>
        r.ins[j].hash == ins[j].hash && r.ins[j].index == ins[j].index
    {
      this.(ins := ins[index := ins[index].(stack := stack)])
    }
  }

  /** The library's mutable transaction object. */
  class Transaction {
    var ins: seq<Input>
    var outs: seq<Output>
    var locktime: nat

    /** The transaction's current value. */
    function Value(): Tx
      reads this
    {
      Tx(ins, outs, locktime)
    }

    /** `new Transaction()`: no inputs, no outputs, locktime 0. */
    constructor ()
      ensures Value() == Tx([], [], 0)
    {
      ins, outs, locktime := [], [], 0;
    }

    /** `addInput(hash, index)`: appends an input with an empty witness and
        returns its position. */
    method AddInput(hash: Bytes, index: nat) returns (vin: nat)
      modifies this
      ensures vin == |old(ins)|
      ensures Value() == old(Value()).(ins := old(ins) + [Input(hash, index, [])])
    {
      vin := |ins|;
      ins := ins + [Input(hash, index, [])];
    }

    /** `addOutput(script, value)`: appends an output and returns its position. */
    method AddOutput(script: Bytes, value: int) returns (vout: nat)
      modifies this
      ensures vout == |old(outs)|
      ensures Value() == old(Value()).(outs := old(outs) + [Output(script, value)])
    {
      vout := |outs|;
      outs := outs + [Output(script, value)];
    }

    /** `setWitness(index, witness)`: replaces one input's witness stack and
        leaves everything else as it was. */
    method SetWitness(index: nat, stack: seq<Bytes>)
      requires index < |ins|
      modifies this
      ensures Value() == old(Value()).WithWitness(index, stack)
    {
      ins := ins[index := ins[index].(stack := stack)];
    }
  }

  /** `Transaction.SIGHASH_ALL`. */
  const SIGHASH_ALL: byte := 0x01

  /** `OP_0`, the witness version 0 opcode. */
  const OP_0: byte := 0x00

  /** The opcode that pushes the next 32 bytes. */
  const PUSH_32: byte := 0x20

  /** `witnessScriptHash.output.encode(hash)`: the version 0 witness program
      `OP_0 <32-byte hash>` of BIP 141's pay-to-witness-script-hash. */
  function WitnessScriptHashOutput(hash: Hash32): (s: Bytes)
    ensures |s| == 34
  {
    [OP_0, PUSH_32] + hash
  }

  /** The inverse of `WitnessScriptHashOutput`: the committed hash when `s`
      has the pay-to-witness-script-hash shape, `None` otherwise. */
  function WitnessScriptHashOutputHash(s: Bytes): (r: Option<Hash32>)
    ensures r.Some? <==> |s| == 34 && s[0] == OP_0 && s[1] == PUSH_32
  {
    if |s| == 34 && s[0] == OP_0 && s[1] == PUSH_32 then Some(s[2..]) else None
  }

  lemma WitnessScriptHashOutputRoundTrip(hash: Hash32)
    ensures WitnessScriptHashOutputHash(WitnessScriptHashOutput(hash)) == Some(hash)
  {
    var s := WitnessScriptHashOutput(hash);
    assert s[2..] == hash;
  }

  lemma WitnessScriptHashOutputParsed(s: Bytes)
    requires WitnessScriptHashOutputHash(s).Some?
    ensures WitnessScriptHashOutput(WitnessScriptHashOutputHash(s).value) == s
  {
    assert s == [s[0], s[1]] + s[2..];
  }

  /** Two scripts are equal exactly when they commit to the same hash. */
  lemma WitnessScriptHashOutputInjective(h1: Hash32, h2: Hash32)
    ensures WitnessScriptHashOutput(h1) == WitnessScriptHashOutput(h2) <==> h1 == h2
  {
    if WitnessScriptHashOutput(h1) == WitnessScriptHashOutput(h2) {
      WitnessScriptHashOutputRoundTrip(h1);
      WitnessScriptHashOutputRoundTrip(h2);
    }
  }

  /** `signature.toScriptSignature(hashType)`: the DER signature followed by
      the signature-hash-type byte. */
  function ScriptSignature(der: Bytes, hashType: byte): (s: Bytes)
    ensures |s| == |der| + 1 && s[..|der|] == der && s[|der|] == hashType
  {
    der + [hashType]
  }

  /** The library calls the two macros make and whose internals are not part
      of this model. Each is an arbitrary function of its arguments. */
  datatype Library = Library(
    /** `crypto.sha256` */
    sha256: Bytes -> Hash32,
    /** `bip65.encode({blocks})` */
    bip65Encode: nat -> nat,
    /** `address.toOutputScript(address, testnet)` */
    toOutputScript: string -> Bytes,
    /** `transaction.weight()` */
    weight: Tx -> nat,
    /** `transaction.hashForWitnessV0(inIndex, prevOutScript, value, hashType)`
        (the BIP 143 signature hash) */
    hashForWitnessV0: (Tx, nat, Bytes, int, byte) -> Hash32,
    /** `ECPair.sign(hash).toDER()` for the decoded private key */
    signDer: (Bytes, Hash32) -> Bytes,
    /** `Transaction.fromHex(hex).getId()`: the id of the raw transaction,
        a function of all its bytes (version, sequence numbers, input scripts
        included), not only of the fields `Tx` keeps */
    txId: Bytes -> string,
    /** `Transaction.fromHex`, on the already decoded bytes, keeping the
        fields `Tx` has */
    fromBytes: Bytes -> Tx
  )
}

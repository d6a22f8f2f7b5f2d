/** The Receiver object: the negotiation fields it seeds from the sender's
    invitation, the transaction it takes ownership of, and the state machine
    it drives one event at a time. */
module Receivers {
  import opened ReceiverFsm

  /** An amount in minimal currency units, an unsigned 64-bit integer. */
  newtype Amount = x: int | 0 <= x < 0x1_0000_0000_0000_0000

  /** The identifier that correlates all messages of one negotiation. */
  type Uuid = s: seq<bv8> | |s| == 16 witness seq(16, _ => 0)

  /** A 256-bit hash value: the message the kernel signature covers. */
  type Hash = s: seq<bv8> | |s| == 32 witness seq(32, _ => 0)

  /** A curve point (a public excess or a public nonce), by its encoding;
      the model only copies points and never computes with them. */
  datatype Point = Point(encoding: seq<bv8>)

  /** A transaction input: the commitment to the coin it spends. */
  datatype Input = Input(commitment: Point)

  /** A transaction output: the commitment to the coin it creates. */
  datatype Output = Output(commitment: Point)

  /** The inputs and outputs of the transaction under negotiation. */
  datatype Transaction = Transaction(inputs: seq<Input>, outputs: seq<Output>)

  /** The sender's invitation, shared by pointer with the Receiver. */
  class InvitationData {
    var txId: Uuid
    var amount: Amount
    var message: Hash
    var publicSenderBlindingExcess: Point
    var publicSenderNonce: Point
    var inputs: seq<Input>
    var outputs: seq<Output>

    constructor (txId: Uuid, amount: Amount, message: Hash, excess: Point, nonce: Point,
                 inputs: seq<Input>, outputs: seq<Output>)
      ensures this.txId == txId && this.amount == amount && this.message == message
      ensures publicSenderBlindingExcess == excess && publicSenderNonce == nonce
      ensures this.inputs == inputs && this.outputs == outputs
    {
      this.txId, this.amount, this.message := txId, amount, message;
      publicSenderBlindingExcess, publicSenderNonce := excess, nonce;
      this.inputs, this.outputs := inputs, outputs;
    }
  }

  class Receiver {
    var txId: Uuid
    var amount: Amount
    var message: Hash
    var publicSenderBlindingExcess: Point
    var publicSenderNonce: Point
    /** The Receiver's own input and output lists, which the constructor leaves empty. */
    var inputs: seq<Input>
    var outputs: seq<Output>
    var transaction: Transaction
    /** The active state of the Receiver's state machine. */
    var current: State

    /** Seeds the negotiation from the invitation: the identifier, amount,
        message, and the sender's public excess and nonce are copied; the
        invitation's inputs and outputs are moved into the transaction,
        leaving the invitation's lists empty. The machine is in `Init`. */
    constructor (initData: InvitationData)
      modifies initData`inputs, initData`outputs
      ensures txId == initData.txId && amount == initData.amount && message == initData.message
      ensures publicSenderBlindingExcess == initData.publicSenderBlindingExcess
      ensures publicSenderNonce == initData.publicSenderNonce
      ensures transaction == Transaction(old(initData.inputs), old(initData.outputs))
      ensures initData.inputs == [] && initData.outputs == []
      ensures inputs == [] && outputs == []
      ensures current == Init
    {
      txId := initData.txId;
      amount := initData.amount;
      message := initData.message;
      publicSenderBlindingExcess := initData.publicSenderBlindingExcess;
      publicSenderNonce := initData.publicSenderNonce;
      inputs, outputs := [], [];
      current := Init;
      new;
      transaction := Transaction(initData.inputs, initData.outputs);
      initData.inputs, initData.outputs := [], [];
    }

    /** Delivers one event to the state machine: the reaction is the one the
        transition table prescribes, and only the active state changes. */
    method Process(e: Event) returns (r: Reaction)
      modifies this`current
      ensures r == Step(old(current), e)
      ensures current == Next(old(current), e)
      ensures r.Fired? ==> current == r.target
      ensures !r.Fired? ==> current == old(current)
    {
      r := Step(current, e);
      if r.Fired? {
        current := r.target;
      }
    }
  }

  /** A client of `Process` that delivers the success path to a freshly
      built Receiver: every step fires, and the negotiation ends in
      `Terminate` with `completeTx`, the transaction holding the invitation's
      inputs and outputs. */
  method SucceedingNegotiation(initData: InvitationData) returns (rx: Receiver, closing: Reaction)
    modifies initData`inputs, initData`outputs
    ensures rx.current == Terminate && closing == Fired(Terminate, CompleteTx)
    ensures rx.transaction == Transaction(old(initData.inputs), old(initData.outputs))
  {
    rx := new Receiver(initData);
    var r := rx.Process(Completion);
    assert r == Fired(TxConfirming, ConfirmTx);
    r := rx.Process(ConfirmationCompleted(true));
    assert r == Fired(TxRegistering, RegisterTx);
    r := rx.Process(RegistrationCompleted);
    assert r == Fired(TxOutputConfirming, ConfirmOutput);
    closing := rx.Process(OutputConfirmCompleted);
  }

  /** A client of `Process`: when the node rejects the registration, the
      Receiver rolls back and terminates, and later events are ignored. */
  method RejectedRegistration(initData: InvitationData) returns (rx: Receiver, closing: Reaction, late: Reaction)
    modifies initData`inputs, initData`outputs
    ensures closing == Fired(Terminate, RollbackTx)
    ensures late == Ignored && rx.current == Terminate
  {
    rx := new Receiver(initData);
    var r := rx.Process(Completion);
    r := rx.Process(ConfirmationCompleted(true));
    closing := rx.Process(RegistrationFailed);
    late := rx.Process(OutputConfirmCompleted);
  }
}

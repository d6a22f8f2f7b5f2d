/** The Receiver side of the two-party transaction negotiation as a finite
    state machine: its states, the events it reacts to, the actions its
    transitions run, and the transition function that the Receiver's
    transition table defines. */
module ReceiverFsm {

  /** The five states of the Receiver machine; `Init` is the initial state
      and `Terminate` the terminate state. */
  datatype State = Init | TxConfirming | TxRegistering | TxOutputConfirming | Terminate

  /** The events the Receiver machine is driven by. `Completion` is the
      anonymous completion event that leaves `Init` as soon as it is entered.
      The validity of the counterpart's partial signature, which the guards
      compute from the confirmation data, travels with `ConfirmationCompleted`. */
  datatype Event =
    | Completion
    | ConfirmationCompleted(signatureValid: bool)
    | ConfirmationFailed
    | RegistrationCompleted
    | RegistrationFailed
    | OutputConfirmCompleted
    | OutputConfirmFailed

  /** The transition actions, as tags; the three `rollbackTx` overloads
      share one tag. */
  datatype Action = ConfirmTx | RegisterTx | CancelTx | RollbackTx | ConfirmOutput | CompleteTx

  /** What the machine does with one event: a transition fires (its action
      runs and the machine moves to `target`), the event has no transition
      from the current state (`no_transition` logs it), or the machine has
      terminated and handles no more events. */
  datatype Reaction =
    | Fired(target: State, action: Action)
    | NoTransition
    | Ignored

  /** Position of a state along the negotiation. */
  function Rank(s: State): nat
  {
    match s
    case Init => 0
    case TxConfirming => 1
    case TxRegistering => 2
    case TxOutputConfirming => 3
    case Terminate => 4
  }

  /** The state in which an event is awaited: the state whose outgoing
      transitions are triggered by it. */
  function Awaiting(e: Event): State
  {
    match e
    case Completion => Init
    case ConfirmationCompleted(_) => TxConfirming
    case ConfirmationFailed => TxConfirming
    case RegistrationCompleted => TxRegistering
    case RegistrationFailed => TxRegistering
    case OutputConfirmCompleted => TxOutputConfirming
    case OutputConfirmFailed => TxOutputConfirming
  }

  /** The failure events that the gateway delivers for a request that did not succeed. */
  predicate IsFailure(e: Event)
  {
    e.ConfirmationFailed? || e.RegistrationFailed? || e.OutputConfirmFailed?
  }

  /** The actions that end a negotiation. */
  predicate Closes(a: Action)
  {
    a == CancelTx || a == RollbackTx || a == CompleteTx
  }

  /** Guard of the row TxConfirming --ConfirmationCompleted--> TxRegistering. */
  predicate IsValidSignature(e: Event)
    requires e.ConfirmationCompleted?
  {
    e.signatureValid
  }

  /** Guard of the row TxConfirming --ConfirmationCompleted--> Terminate. */
  predicate IsInvalidSignature(e: Event)
    requires e.ConfirmationCompleted?
  {
    !e.signatureValid
  }

  /** The two signature guards partition the confirmation events: exactly one
      of them admits any given one. */
  lemma GuardsPartition(e: Event)
    requires e.ConfirmationCompleted?
    ensures IsValidSignature(e) != IsInvalidSignature(e)
  {
  }

  /** The Receiver's transition table, with the terminate state blocking
      every event and `no_transition` for every other pair the table
      does not list. */
  function Step(s: State, e: Event): (r: Reaction)
    // a terminated machine handles nothing, and only a terminated one ignores events
    ensures s == Terminate <==> r == Ignored
    // an event is handled exactly in the state that awaits it
    ensures s != Terminate ==> (r.Fired? <==> s == Awaiting(e))
    // every transition moves strictly forward
    ensures r.Fired? ==> Rank(s) < Rank(r.target)
    // the negotiation ends exactly with a closing action
    ensures r.Fired? ==> (r.target == Terminate <==> Closes(r.action))
    // failures, and only failures, are rolled back
    ensures r.Fired? ==> (r.action == RollbackTx <==> IsFailure(e))
    // an invalid signature, and only that, cancels; a valid one, and only that, registers
    ensures r.Fired? ==> (r.action == CancelTx <==> e == ConfirmationCompleted(false))
    ensures r.Fired? ==> (r.action == RegisterTx <==> e == ConfirmationCompleted(true))
  {
    match (s, e)
    case (Terminate, _) => Ignored
    case (Init, Completion) => Fired(TxConfirming, ConfirmTx)
    case (TxConfirming, ConfirmationFailed) => Fired(Terminate, RollbackTx)
    case (TxConfirming, ConfirmationCompleted(_)) =>
      if IsValidSignature(e) then Fired(TxRegistering, RegisterTx)
      else Fired(Terminate, CancelTx)
    case (TxRegistering, RegistrationCompleted) => Fired(TxOutputConfirming, ConfirmOutput)
    case (TxRegistering, RegistrationFailed) => Fired(Terminate, RollbackTx)
    case (TxOutputConfirming, OutputConfirmCompleted) => Fired(Terminate, CompleteTx)
    case (TxOutputConfirming, OutputConfirmFailed) => Fired(Terminate, RollbackTx)
    case _ => NoTransition
  }

  /** The state after one event. */
  function Next(s: State, e: Event): (t: State)
    ensures Rank(s) <= Rank(t)
    ensures t == s <==> !Step(s, e).Fired?
  {
    match Step(s, e)
    case Fired(target, _) => target
    case _ => s
  }

  /** The state after a sequence of events, processed one at a time in order. */
  function Run(s: State, es: seq<Event>): (t: State)
    ensures Rank(s) <= Rank(t)
    ensures s == Terminate ==> t == Terminate
    decreases |es|
  {
    if es == [] then s else Run(Next(s, es[0]), es[1..])
  }

  /** The actions run while a sequence of events is processed. */
  function Actions(s: State, es: seq<Event>): (acts: seq<Action>)
    // each action is paid for by a step forward, so a lifetime runs at most four
    ensures |acts| <= Rank(Run(s, es)) - Rank(s)
    decreases |es|
  {
    if es == [] then []
    else
      match Step(s, es[0])
      case Fired(t, a) => [a] + Actions(t, es[1..])
      case _ => Actions(s, es[1..])
  }

  /** The number of closing actions in a list of actions. */
  function ClosingCount(acts: seq<Action>): nat
  {
    if acts == [] then 0
    else (if Closes(acts[0]) then 1 else 0) + ClosingCount(acts[1..])
  }

  /** Once terminated, the machine stays terminated and runs no action. */
  lemma {:induction false} TerminateAbsorbs(es: seq<Event>)
    ensures Run(Terminate, es) == Terminate
    ensures Actions(Terminate, es) == []
    decreases |es|
  {
    if es != [] {
      TerminateAbsorbs(es[1..]);
    }
  }

  /** Every negotiation is closed by at most one closing action, and a
      negotiation that has not yet terminated reaches `Terminate` exactly
      when one such action has run. */
  lemma {:induction false} ClosedExactlyOnce(s: State, es: seq<Event>)
    ensures ClosingCount(Actions(s, es)) <= 1
    ensures s != Terminate ==> (Run(s, es) == Terminate <==> ClosingCount(Actions(s, es)) == 1)
    decreases |es|
  {
    if s == Terminate {
      TerminateAbsorbs(es);
    } else if es != [] {
      var rest := es[1..];
      var r := Step(s, es[0]);
      if r.Fired? {
        var t, a := r.target, r.action;
        assert Actions(s, es) == [a] + Actions(t, rest);
        assert ([a] + Actions(t, rest))[1..] == Actions(t, rest);
        if Closes(a) {
          TerminateAbsorbs(rest);
        } else {
          ClosedExactlyOnce(t, rest);
        }
      } else {
        ClosedExactlyOnce(s, rest);
      }
    }
  }

  /** The actions of the success path from each state to `Terminate`. */
  function SuccessActions(s: State): seq<Action>
  {
    match s
    case Init => [ConfirmTx, RegisterTx, ConfirmOutput, CompleteTx]
    case TxConfirming => [RegisterTx, ConfirmOutput, CompleteTx]
    case TxRegistering => [ConfirmOutput, CompleteTx]
    case TxOutputConfirming => [CompleteTx]
    case Terminate => []
  }

  /** `completeTx` runs only at the end of the full success path: the
      signature was valid, the transaction was registered and its output
      confirmed, and nothing else ran. */
  lemma {:induction false} CompletionFollowsSuccessPath(s: State, es: seq<Event>)
    requires CompleteTx in Actions(s, es)
    ensures Actions(s, es) == SuccessActions(s)
    decreases |es|
  {
    var rest := es[1..];
    var r := Step(s, es[0]);
    if r.Fired? {
      var t, a := r.target, r.action;
      assert Actions(s, es) == [a] + Actions(t, rest);
      if Closes(a) {
        TerminateAbsorbs(rest);
      } else {
        CompletionFollowsSuccessPath(t, rest);
      }
    } else {
      CompletionFollowsSuccessPath(s, rest);
    }
  }

  /** The events that drive the machine along the success path. */
  function SuccessEvents(s: State): (es: seq<Event>)
    ensures |es| == Rank(Terminate) - Rank(s)
    ensures Run(s, es) == Terminate
    ensures Actions(s, es) == SuccessActions(s)
  {
    match s
    case Init => [Completion, ConfirmationCompleted(true), RegistrationCompleted, OutputConfirmCompleted]
    case TxConfirming => [ConfirmationCompleted(true), RegistrationCompleted, OutputConfirmCompleted]
    case TxRegistering => [RegistrationCompleted, OutputConfirmCompleted]
    case TxOutputConfirming => [OutputConfirmCompleted]
    case Terminate => []
  }

  /** From every state `Terminate` is reachable in at most four steps, along
      the success path; from every waiting state a single failure event
      reaches it, rolling the negotiation back. */
  lemma TerminateReachable(s: State)
    ensures exists es :: |es| <= 4 && Run(s, es) == Terminate
    ensures s != Init && s != Terminate ==>
      exists e :: IsFailure(e) && Step(s, e) == Fired(Terminate, RollbackTx)
  {
    var es := SuccessEvents(s);
    assert |es| <= 4 && Run(s, es) == Terminate;
    match s
    case TxConfirming => assert Step(s, ConfirmationFailed) == Fired(Terminate, RollbackTx);
    case TxRegistering => assert Step(s, RegistrationFailed) == Fired(Terminate, RollbackTx);
    case TxOutputConfirming => assert Step(s, OutputConfirmFailed) == Fired(Terminate, RollbackTx);
    case _ =>
  }
}

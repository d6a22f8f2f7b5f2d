# Receiver negotiation state machine

This project models the Receiver side of Beam's interactive, two-party
construction of a confidential transaction (`wallet/receiver.h`). The
Receiver is a Boost MSM state machine with five states: `Init`,
`TxConfirming`, `TxRegistering`, `TxOutputConfirming` and the terminate state
`Terminate`. The sender's invitation seeds it. The anonymous completion
event takes it from `Init` to `TxConfirming`, running `confirmTx`. After
that, gateway events (`TxConfirmationCompleted`/`Failed`,
`TxRegistrationCompleted`/`Failed`, `TxOutputConfirmCompleted`/`Failed`)
drive it, one at a time, to `Terminate`.

The project has three modules:

- `ReceiverFsm` (`receiver_fsm.dfy`) holds the states, the events and the
  action tags. `Step` is the transition function and says what one event
  does. `Run` and `Actions` give the state and the actions after a sequence
  of events. The lemmas cover the whole life of a negotiation.
- `TransitionTable` (`transition_table.dfy`) writes the table down as data,
  with one `Row` per declared row. `Dispatch` is the driver that
  interprets it: it fires the first row whose start state and event type
  match and whose guard admits the event. Otherwise it reports
  `no_transition`. It ignores every event once the terminate state is
  active. The module proves that the rows are exclusive, so the order in
  which rows are tried does not matter. It also proves that interpreting
  the table gives exactly `Step`.
- `Receivers` (`receiver.dfy`) holds the `Receiver` object. Its constructor
  copies the negotiation fields from the invitation and moves the
  invitation's inputs and outputs into its transaction. Its field
  `current` is the machine's active state, and `Process` updates it as
  `Step` says. Two client methods run the success path and a rejected
  registration through `Process`.

The guards `isValidSignature` and `isInvalidSignature` check a Schnorr
partial signature. The model reduces that check to one boolean carried by
`ConfirmationCompleted`. The first guard is that boolean and the second is
its negation. Because of this, exactly one of the two guarded rows fires.

Two remarks on the code as written:

- `FSMDefinition` declares its own `m_transaction`
  (`wallet/receiver.h:145`). This field is separate from the Receiver's
  `m_transaction` (`wallet/receiver.h:162`). The constructor fills only the
  Receiver's field, and that is the one the model has.
- C++ leaves a moved-from `std::vector` in a valid but unspecified state.
  The model takes the invitation's vectors to be empty after the move.
  That is what common standard-library implementations do for a vector
  with the default allocator.

## Model

| member | source | states |
|---|---|---|
| `ReceiverFsm.Step` | wallet/receiver.h:124-141 | Once in `Terminate`, every event is ignored, and no other state ignores events. Outside `Terminate`, an event fires a transition exactly in the state that awaits it; in every other state it is a `no_transition`. Every transition moves strictly forward in the order `Init < TxConfirming < TxRegistering < TxOutputConfirming < Terminate`. A transition enters `Terminate` exactly when its action is `cancelTx`, `rollbackTx` or `completeTx`. `rollbackTx` runs exactly on the three failure events. `cancelTx` runs exactly on a confirmation with an invalid signature, and `registerTx` exactly on one with a valid signature. |
| `ReceiverFsm.GuardsPartition` | wallet/receiver.h:86-88 | For every `TxConfirmationCompleted` event, exactly one of `isValidSignature` and `isInvalidSignature` holds. |
| `ReceiverFsm.Next` | wallet/receiver.h:124-141 | The state after one event is never earlier than the state before it. It is unchanged exactly when no transition fires (`no_transition`, or the machine has terminated). |
| `ReceiverFsm.Run` | wallet/receiver.h:124-134 | Over any sequence of events, the state only moves forward, and a terminated machine stays terminated. |
| `ReceiverFsm.Actions` | wallet/receiver.h:124-134 | The number of actions run over a sequence of events is at most the number of states advanced. So a negotiation runs at most four actions in its whole life. |
| `ReceiverFsm.TerminateAbsorbs` | wallet/receiver.h:49-55 | From `Terminate`, no sequence of events changes the state or runs an action. |
| `ReceiverFsm.ClosedExactlyOnce` | wallet/receiver.h:124-134 | Any sequence of events runs at most one closing action (`cancelTx`, `rollbackTx` or `completeTx`). A negotiation that has not yet terminated reaches `Terminate` exactly when one closing action has run. |
| `ReceiverFsm.CompletionFollowsSuccessPath` | wallet/receiver.h:126-132 | If `completeTx` ever runs, the actions run from `Init` are exactly `confirmTx`, `registerTx`, `confirmOutput`, `completeTx`. So the transaction completes only after a valid signature, a successful registration and a confirmed output, with no other action in between. |
| `ReceiverFsm.SuccessEvents` | wallet/receiver.h:126-132 | From every state, the success events (the completion event, a valid confirmation, a completed registration, a confirmed output) lead to `Terminate`. This takes one event per remaining state and runs the rest of the success actions. |
| `ReceiverFsm.TerminateReachable` | wallet/receiver.h:127-133 | `Terminate` can be reached from every state in at most four events. From each waiting state, a single failure event reaches it, running `rollbackTx`. |
| `TransitionTable.FirstMatch` | wallet/receiver.h:124-141 | The driver reports `no_transition` exactly when no row matches. When it fires a row, that row matches the state and event. |
| `TransitionTable.Dispatch` | wallet/receiver.h:49-55 | The driver ignores events exactly when the terminate state is active. |
| `TransitionTable.OnlyMatchFires` | wallet/receiver.h:124-134 | When exactly one row matches, that row fires wherever it stands in the table. |
| `TransitionTable.TableRowsExclusive` | wallet/receiver.h:124-134 | At most one row of the Receiver's table matches any state and event. In particular, the two guarded `TxConfirmationCompleted` rows never both apply. |
| `TransitionTable.RowOf` | wallet/receiver.h:126-133 | Every event has a row of the table that handles it in the state that awaits it. |
| `TransitionTable.RowsStartWhereAwaited` | wallet/receiver.h:124-134 | Every row triggered by an event starts in the state that awaits that event. |
| `TransitionTable.StepAgreesWithTable` | wallet/receiver.h:124-141 | Interpreting the declared table with the driver gives `Step` for every state and event. |
| `Receivers.Receiver.constructor` | wallet/receiver.h:27-37 | The constructor copies the transaction id, amount, message, sender's public blinding excess and sender's public nonce from the invitation unchanged. It moves the invitation's inputs and outputs into the transaction and leaves the invitation's lists empty. The machine starts in `Init`. |
| `Receivers.Receiver.Process` | wallet/receiver.h:124-141 | Processing one event gives the reaction `Step` prescribes and moves the active state to the transition's target. When nothing fires, the state stays as it was. No other field changes. |
| `Receivers.SucceedingNegotiation` | wallet/receiver.h:126-132 | A fresh Receiver that is given the success events reaches `Terminate` through `completeTx`, and its transaction holds the invitation's inputs and outputs. |
| `Receivers.RejectedRegistration` | wallet/receiver.h:131 | A Receiver whose registration fails rolls back into `Terminate` and ignores later events. |

## Left out

- The bodies of `confirmTx`, `registerTx`, `isValidSignature` and `isInvalidSignature` are left out. They do elliptic-curve and Schnorr computations defined outside `wallet/receiver.h`. Actions are tags only, and signature validity is a boolean carried by the event.
- The fields these actions would compute are not modelled: `m_publicReceiverBlindingExcess`, `m_receiverSignature`, `m_blindingExcess`, `m_nonce`, `m_schnorrChallenge` and `m_kernel`.
- The gateway (`receiver::IGateway`) is not modelled, because it is network I/O. The constructor's gateway parameter is dropped.
- The logging in the `on_entry` hooks, in the action bodies and in `no_transition` is console output only. The model keeps the fact that `no_transition` leaves the state unchanged, but not the log.
- Erasing secrets on rollback or cancellation is not modelled. The shown `rollbackTx` and `cancelTx` only print, so the model makes no claim that secrets are wiped.
- Boost MSM's dispatch internals are not modelled. The table's rows are proved exclusive, so the order in which rows are tried does not matter.
- Starting the machine (`FSMHelper`'s `start`) is not modelled, because `FSMHelper` is not part of this model. Entering `Init` and firing the anonymous transition is modelled as processing the `Completion` event.
- Transaction kernels and offsets are not modelled; the model's `Transaction` has only the inputs and outputs that the constructor sets.
- The Sender state machine, the keychain and storage, and the user-interface view model are not part of this model.

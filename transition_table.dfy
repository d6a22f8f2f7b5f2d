/** The Receiver's transition table as data, one row per declared row
    (start state, triggering event, next state, action, optional guard), and
    the state-machine driver that interprets such a table: it fires the first
    row, in declaration order, whose start state and event type match and
    whose guard admits the event, and reports `no_transition` when no row
    does. The table's rows are exclusive, so the order in which the driver
    tries them makes no difference, and interpreting it gives exactly `Step`. */
module TransitionTable {
  import opened ReceiverFsm

  /** The event types a row can be triggered by. */
  datatype Trigger =
    | OnCompletion
    | OnConfirmationCompleted
    | OnConfirmationFailed
    | OnRegistrationCompleted
    | OnRegistrationFailed
    | OnOutputConfirmCompleted
    | OnOutputConfirmFailed

  /** The guards a row can carry (`a_row` rows carry none). */
  datatype Guard = Unguarded | ValidSignature | InvalidSignature

  datatype Row = Row(source: State, trigger: Trigger, target: State, action: Action, guard: Guard)

  function TriggerOf(e: Event): Trigger
  {
    match e
    case Completion => OnCompletion
    case ConfirmationCompleted(_) => OnConfirmationCompleted
    case ConfirmationFailed => OnConfirmationFailed
    case RegistrationCompleted => OnRegistrationCompleted
    case RegistrationFailed => OnRegistrationFailed
    case OutputConfirmCompleted => OnOutputConfirmCompleted
    case OutputConfirmFailed => OnOutputConfirmFailed
  }

  predicate Admits(g: Guard, e: Event)
  {
    match g
    case Unguarded => true
    case ValidSignature => e.ConfirmationCompleted? && IsValidSignature(e)
    case InvalidSignature => e.ConfirmationCompleted? && IsInvalidSignature(e)
  }

  predicate Matches(row: Row, s: State, e: Event)
  {
    row.source == s && row.trigger == TriggerOf(e) && Admits(row.guard, e)
  }

  /** The Receiver's transition table, row for row. */
  const Table: seq<Row> := [
    Row(Init,               OnCompletion,             TxConfirming,       ConfirmTx,     Unguarded),
    Row(TxConfirming,       OnConfirmationFailed,     Terminate,          RollbackTx,    Unguarded),
    Row(TxConfirming,       OnConfirmationCompleted,  TxRegistering,      RegisterTx,    ValidSignature),
    Row(TxConfirming,       OnConfirmationCompleted,  Terminate,          CancelTx,      InvalidSignature),
    Row(TxRegistering,      OnRegistrationCompleted,  TxOutputConfirming, ConfirmOutput, Unguarded),
    Row(TxRegistering,      OnRegistrationFailed,     Terminate,          RollbackTx,    Unguarded),
    Row(TxOutputConfirming, OnOutputConfirmCompleted, Terminate,          CompleteTx,    Unguarded),
    Row(TxOutputConfirming, OnOutputConfirmFailed,    Terminate,          RollbackTx,    Unguarded)
  ]

  /** The first row of `rows` that matches, or `no_transition`. */
  function FirstMatch(rows: seq<Row>, s: State, e: Event): (r: Reaction)
    ensures r != Ignored
    ensures r == NoTransition <==> forall i :: 0 <= i < |rows| ==> !Matches(rows[i], s, e)
    ensures r.Fired? ==> exists i :: 0 <= i < |rows| && Matches(rows[i], s, e) &&
                                     r == Fired(rows[i].target, rows[i].action)
    decreases |rows|
  {
    if rows == [] then NoTransition
    else if Matches(rows[0], s, e) then Fired(rows[0].target, rows[0].action)
    else FirstMatch(rows[1..], s, e)
  }

  /** The driver: a machine in its terminate state handles no event;
      otherwise the first matching row fires. */
  function Dispatch(rows: seq<Row>, s: State, e: Event): (r: Reaction)
    ensures r == Ignored <==> s == Terminate
  {
    if s == Terminate then Ignored else FirstMatch(rows, s, e)
  }

  /** When exactly one row matches, the driver fires that row, wherever it
      stands in the table. */
  lemma {:induction false} OnlyMatchFires(rows: seq<Row>, s: State, e: Event, i: nat)
    requires i < |rows| && Matches(rows[i], s, e)
    requires forall j :: 0 <= j < |rows| && Matches(rows[j], s, e) ==> j == i
    ensures FirstMatch(rows, s, e) == Fired(rows[i].target, rows[i].action)
    decreases |rows|
  {
    if i > 0 {
      assert !Matches(rows[0], s, e);
      forall j | 0 <= j < |rows| - 1 && Matches(rows[1..][j], s, e)
        ensures j == i - 1
      {
        assert rows[1..][j] == rows[j + 1];
      }
      OnlyMatchFires(rows[1..], s, e, i - 1);
    }
  }

  /** At most one row of the Receiver's table matches any state and event;
      in particular the two guarded rows never both apply. */
  lemma TableRowsExclusive(s: State, e: Event, i: nat, j: nat)
    requires i < |Table| && j < |Table|
    requires Matches(Table[i], s, e) && Matches(Table[j], s, e)
    ensures i == j
  {
  }

  /** The row of the Receiver's table that handles an event in the state
      that awaits it. */
  function RowOf(e: Event): (i: nat)
    ensures i < |Table| && Matches(Table[i], Awaiting(e), e)
  {
    match e
    case Completion => 0
    case ConfirmationFailed => 1
    case ConfirmationCompleted(valid) => if valid then 2 else 3
    case RegistrationCompleted => 4
    case RegistrationFailed => 5
    case OutputConfirmCompleted => 6
    case OutputConfirmFailed => 7
  }

  /** Every row triggered by an event starts in the state that awaits it. */
  lemma RowsStartWhereAwaited(e: Event, i: nat)
    requires i < |Table| && Table[i].trigger == TriggerOf(e)
    ensures Table[i].source == Awaiting(e)
  {
  }

  /** Interpreting the Receiver's table with the driver gives `Step`. */
  lemma StepAgreesWithTable(s: State, e: Event)
    ensures Dispatch(Table, s, e) == Step(s, e)
  {
    if s != Terminate {
      if s == Awaiting(e) {
        var i := RowOf(e);
        forall j | 0 <= j < |Table| && Matches(Table[j], s, e) ensures j == i {
          TableRowsExclusive(s, e, i, j);
        }
        OnlyMatchFires(Table, s, e, i);
      } else {
        forall i | 0 <= i < |Table| ensures !Matches(Table[i], s, e) {
          if Table[i].trigger == TriggerOf(e) {
            RowsStartWhereAwaited(e, i);
          }
        }
      }
    }
  }
}

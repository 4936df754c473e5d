/** The `ReservationState` interface as a whole: a call `reservation.getState().confirm(reservation)`
    (or `.cancel`) dispatches on the handler the factory picked, and the three handlers
    together encode a 3-status by 2-action transition table. */
module ReservationStates {
  import opened Wrappers
  import opened Exceptions
  import opened ReservationStatus
  import opened ReservationStateFactory
  import opened Model
  import PendingState
  import ConfirmedState
  import CancelledState

  datatype Action = ConfirmAction | CancelAction

  /** The table the handlers encode: the new status, or the exception a handler throws. */
  function Transition(status: Status, action: Action): (r: Result<Status, Exception>)
    ensures r.Success? <==> status == Pending || (status == Confirmed && action == CancelAction)
    ensures r.Success? ==> r.value == (if action == ConfirmAction then Confirmed else Cancelled)
    ensures r.Failure? ==> r.error.IllegalState?
  {
    match (status, action)
    case (Pending, ConfirmAction) => Success(Confirmed)
    case (Pending, CancelAction) => Success(Cancelled)
    case (Confirmed, ConfirmAction) => Failure(IllegalState(ConfirmedState.AlreadyConfirmed))
    case (Confirmed, CancelAction) => Success(Cancelled)
    case (Cancelled, ConfirmAction) => Failure(IllegalState(CancelledState.CannotConfirm))
    case (Cancelled, CancelAction) => Failure(IllegalState(CancelledState.AlreadyCancelled))
  }

  /** `reservation.getState().confirm(reservation)` or `.cancel(reservation)`: the factory's
      handler for the current status runs. On success the status moves along the table;
      on failure the handler's exception comes back and the status is as it was. Nothing
      but the status can change, and the payment reference never does. */
  method Apply(reservation: Reservation, action: Action) returns (outcome: Outcome<Exception>)
    modifies reservation`status
    ensures Transition(old(reservation.status), action).Success? ==>
              outcome == Pass && reservation.status == Transition(old(reservation.status), action).value
    ensures Transition(old(reservation.status), action).Failure? ==>
              outcome == Fail(Transition(old(reservation.status), action).error)
              && reservation.status == old(reservation.status)
    ensures outcome == Pass ==> reservation.GetState() == FromStatus(Transition(old(reservation.status), action).value)
    ensures reservation.payment == old(reservation.payment)
  {
    var state := reservation.GetState();
    match (state, action)
    case (PendingState, ConfirmAction) => outcome := PendingState.Confirm(reservation);
    case (PendingState, CancelAction) => outcome := PendingState.Cancel(reservation);
    case (ConfirmedState, ConfirmAction) => outcome := ConfirmedState.Confirm(reservation);
    case (ConfirmedState, CancelAction) => outcome := ConfirmedState.Cancel(reservation);
    case (CancelledState, ConfirmAction) => outcome := CancelledState.Confirm(reservation);
    case (CancelledState, CancelAction) => outcome := CancelledState.Cancel(reservation);
  }

  /** Which moves the table allows: confirm only from PENDING, cancel from PENDING or
      CONFIRMED, and nothing from CANCELLED. */
  lemma LegalMoves(status: Status)
    ensures Transition(status, ConfirmAction).Success? <==> status == Pending
    ensures Transition(status, CancelAction).Success? <==> status != Cancelled
    ensures Transition(status, ConfirmAction).Success? ==> Transition(status, ConfirmAction).value == Confirmed
    ensures Transition(status, CancelAction).Success? ==> Transition(status, CancelAction).value == Cancelled
  {
  }

  /** The status after an action: a refused action throws and leaves it unchanged. */
  function Step(status: Status, action: Action): Status {
    match Transition(status, action)
    case Success(next) => next
    case Failure(_) => status
  }

  /** The status after a sequence of actions on one reservation, each refused action
      being caught by the caller. */
  function Run(status: Status, actions: seq<Action>): Status
    decreases |actions|
  {
    if actions == [] then status else Run(Step(status, actions[0]), actions[1..])
  }

  /** The number of confirm actions in the sequence that the handlers accept. */
  function AcceptedConfirms(status: Status, actions: seq<Action>): nat
    decreases |actions|
  {
    if actions == [] then 0
    else
      (if actions[0] == ConfirmAction && Transition(status, ConfirmAction).Success? then 1 else 0)
      + AcceptedConfirms(Step(status, actions[0]), actions[1..])
  }

  /** PENDING comes first, CANCELLED last. */
  function Rank(status: Status): nat {
    match status
    case Pending => 0
    case Confirmed => 1
    case Cancelled => 2
  }

  /** Two actions in a row: confirm-confirm, cancel-cancel and cancel-confirm fail
      on their second action, confirm-cancel ends CANCELLED. */
  lemma TwoStepSequences()
    ensures Transition(Step(Pending, ConfirmAction), ConfirmAction).Failure?
    ensures Transition(Step(Pending, CancelAction), CancelAction).Failure?
    ensures Transition(Step(Pending, CancelAction), ConfirmAction).Failure?
    ensures Run(Pending, [ConfirmAction, CancelAction]) == Cancelled
  {
  }

  /** CANCELLED is absorbing: no sequence of actions leads out of it. */
  lemma {:induction false} CancelledIsAbsorbing(actions: seq<Action>)
    ensures Run(Cancelled, actions) == Cancelled
    decreases |actions|
  {
    if actions != [] {
      CancelledIsAbsorbing(actions[1..]);
    }
  }

  /** The status never moves back: PENDING, then CONFIRMED, then CANCELLED. */
  lemma {:induction false} RunNeverGoesBack(status: Status, actions: seq<Action>)
    ensures Rank(Run(status, actions)) >= Rank(status)
    decreases |actions|
  {
    if actions != [] {
      RunNeverGoesBack(Step(status, actions[0]), actions[1..]);
    }
  }

  /** However many confirm requests arrive, at most one is accepted, and none unless the
      reservation starts PENDING. */
  lemma {:induction false} ConfirmAcceptedAtMostOnce(status: Status, actions: seq<Action>)
    ensures AcceptedConfirms(status, actions) <= (if status == Pending then 1 else 0)
    decreases |actions|
  {
    if actions != [] {
      var next := Step(status, actions[0]);
      ConfirmAcceptedAtMostOnce(next, actions[1..]);
    }
  }
}

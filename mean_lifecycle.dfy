/** The lifecycle of a mean (a vehicle or unit sent to an intervention) as
    the server's REST tests pin it down: one transition function per
    operation, each a pure function of the mean as it is STORED, returning
    the updated mean or a rejection, never a partial change. */
module MeanLifecycle {
  import opened Wrappers
  import opened Geo

  type MeanId = int

  datatype MeanState = Activated | Arrived | Engaged | Released | Refused

  /** A mean of an intervention. Timestamps are not modelled. */
  datatype Mean = Mean(id: MeanId, vehicle: string, state: MeanState, coordinates: Position, inPosition: bool)

  /** The operations the service applies to one mean. */
  datatype Operation =
    | ConfirmArrivalOp
    | UpdatePositionOp(position: Position)
    | ValidatePositionOp
    | SendBackToCrmOp
    | ReleaseOp

  /** Why an operation was refused: it is not allowed from the stored state. */
  datatype Rejection = InvalidTransition(op: Operation, from: MeanState)

  /** The body of the 400 answer to a refused release. */
  const ReleaseRejectedMessage: string := "Mean is already released or not in a state where it can be released"

  /** The transition table: the states each operation is allowed from. */
  function AllowedFrom(op: Operation): (r: set<MeanState>)
    ensures r != {} && Released !in r && Refused !in r
    ensures Activated in r <==> op.ConfirmArrivalOp? || op.ReleaseOp?
    ensures Engaged in r <==> !op.ConfirmArrivalOp?
  {
    match op
    case ConfirmArrivalOp => {Activated}
    case UpdatePositionOp(_) => {Arrived, Engaged}
    case ValidatePositionOp => {Engaged}
    case SendBackToCrmOp => {Engaged}
    case ReleaseOp => {Activated, Arrived, Engaged}
  }

  /** What stays the same in every transition: identity and vehicle. */
  predicate SameMean(before: Mean, after: Mean) {
    after.id == before.id && after.vehicle == before.vehicle
  }

  /** confirmArrival: only an ACTIVATED mean may arrive. */
  function ConfirmArrival(m: Mean): (r: Result<Mean, Rejection>)
    ensures r.Ok? <==> m.state in AllowedFrom(ConfirmArrivalOp)
    ensures r.Ok? ==> SameMean(m, r.value) && r.value.state == Arrived
                      && r.value.coordinates == m.coordinates && r.value.inPosition == m.inPosition
    ensures r.Err? ==> r.error == InvalidTransition(ConfirmArrivalOp, m.state)
  {
    if m.state == Activated then Ok(m.(state := Arrived))
    else Err(InvalidTransition(ConfirmArrivalOp, m.state))
  }

  /** updatePosition: from ARRIVED or ENGAGED the mean becomes ENGAGED at the
      given position, and is no longer validated in position. */
  function UpdatePosition(m: Mean, position: Position): (r: Result<Mean, Rejection>)
    ensures r.Ok? <==> m.state in AllowedFrom(UpdatePositionOp(position))
    ensures r.Ok? ==> SameMean(m, r.value) && r.value.state == Engaged
                      && r.value.coordinates == position && !r.value.inPosition
    ensures r.Err? ==> r.error == InvalidTransition(UpdatePositionOp(position), m.state)
  {
    if m.state == Arrived || m.state == Engaged then
      Ok(m.(state := Engaged, coordinates := position, inPosition := false))
    else Err(InvalidTransition(UpdatePositionOp(position), m.state))
  }

  /** validatePosition: an ENGAGED mean is confirmed in position; its state
      and coordinates stay. */
  function ValidatePosition(m: Mean): (r: Result<Mean, Rejection>)
    ensures r.Ok? <==> m.state in AllowedFrom(ValidatePositionOp)
    ensures r.Ok? ==> SameMean(m, r.value) && r.value.state == m.state
                      && r.value.coordinates == m.coordinates && r.value.inPosition
    ensures r.Err? ==> r.error == InvalidTransition(ValidatePositionOp, m.state)
  {
    if m.state == Engaged then Ok(m.(inPosition := true))
    else Err(InvalidTransition(ValidatePositionOp, m.state))
  }

  /** sendBackToCRM: an ENGAGED mean goes back to ARRIVED, with no position. */
  function SendBackToCrm(m: Mean): (r: Result<Mean, Rejection>)
    ensures r.Ok? <==> m.state in AllowedFrom(SendBackToCrmOp)
    ensures r.Ok? ==> SameMean(m, r.value) && r.value.state == Arrived
                      && r.value.coordinates == Unset && !r.value.inPosition
    ensures r.Err? ==> r.error == InvalidTransition(SendBackToCrmOp, m.state)
  {
    if m.state == Engaged then Ok(m.(state := Arrived, coordinates := Unset, inPosition := false))
    else Err(InvalidTransition(SendBackToCrmOp, m.state))
  }

  /** release: any mean not yet RELEASED or REFUSED is released, with no
      position and not in position. */
  function Release(m: Mean): (r: Result<Mean, Rejection>)
    ensures r.Ok? <==> m.state in AllowedFrom(ReleaseOp)
    ensures r.Ok? ==> SameMean(m, r.value) && r.value.state == Released
                      && r.value.coordinates == Unset && !r.value.inPosition
    ensures r.Err? ==> r.error == InvalidTransition(ReleaseOp, m.state)
  {
    if m.state == Released || m.state == Refused then Err(InvalidTransition(ReleaseOp, m.state))
    else
      assert m.state == Activated || m.state == Arrived || m.state == Engaged;
      Ok(m.(state := Released, coordinates := Unset, inPosition := false))
  }

  /** The transition engine: the one function the service calls. */
  function Apply(m: Mean, op: Operation): (r: Result<Mean, Rejection>)
    ensures r.Ok? <==> m.state in AllowedFrom(op)
    ensures r.Ok? ==> SameMean(m, r.value)
    ensures r.Err? ==> r.error == InvalidTransition(op, m.state)
  {
    match op
    case ConfirmArrivalOp => ConfirmArrival(m)
    case UpdatePositionOp(p) => UpdatePosition(m, p)
    case ValidatePositionOp => ValidatePosition(m)
    case SendBackToCrmOp => SendBackToCrm(m)
    case ReleaseOp => Release(m)
  }

  /** A mean is validated in position only while it is ENGAGED. */
  predicate InPositionOnlyWhenEngaged(m: Mean) {
    m.inPosition ==> m.state == Engaged
  }

  /** Every successful transition leaves a mean that is in position only if
      it is ENGAGED, and in position at all only after validatePosition. */
  lemma TransitionKeepsInPositionInvariant(m: Mean, op: Operation)
    requires InPositionOnlyWhenEngaged(m)
    requires Apply(m, op).Ok?
    ensures InPositionOnlyWhenEngaged(Apply(m, op).value)
    ensures Apply(m, op).value.inPosition ==> op.ValidatePositionOp?
  {
    match op
    case ConfirmArrivalOp => assert !m.inPosition;
    case _ =>
  }

  /** RELEASED and REFUSED are terminal: no operation is accepted from them. */
  lemma TerminalStatesRejectEverything(m: Mean, op: Operation)
    requires m.state == Released || m.state == Refused
    ensures Apply(m, op) == Err(InvalidTransition(op, m.state))
  {
  }

  /** No operation produces a REFUSED mean: REFUSED only arrives through a
      mean added as it is. */
  lemma NoTransitionRefuses(m: Mean, op: Operation)
    requires Apply(m, op).Ok?
    ensures Apply(m, op).value.state != Refused
  {
    match op
    case ConfirmArrivalOp =>
    case UpdatePositionOp(p) =>
    case ValidatePositionOp =>
    case SendBackToCrmOp =>
    case ReleaseOp =>
  }

  /** Retrying a succeeded operation never applies it twice: the retry is
      either refused, or (updatePosition, validatePosition) gives the same
      mean again. */
  lemma RetryIsSafe(m: Mean, op: Operation)
    requires Apply(m, op).Ok?
    ensures var once := Apply(m, op).value;
            Apply(once, op).Err? || Apply(once, op) == Ok(once)
    ensures op.ConfirmArrivalOp? || op.SendBackToCrmOp? || op.ReleaseOp? ==> Apply(Apply(m, op).value, op).Err?
  {
    match op
    case ConfirmArrivalOp =>
    case UpdatePositionOp(p) =>
    case ValidatePositionOp =>
    case SendBackToCrmOp =>
    case ReleaseOp =>
  }

  /** The scenario of a mean's whole working life: confirm arrival, move,
      validate the position, release. */
  lemma FullLifecycle(m: Mean, p: Position)
    requires m.state == Activated
    ensures var arrived := ConfirmArrival(m).value;
            var engaged := UpdatePosition(arrived, p).value;
            var validated := ValidatePosition(engaged).value;
            && arrived.state == Arrived
            && engaged.state == Engaged && engaged.coordinates == p && !engaged.inPosition
            && validated.inPosition && validated.coordinates == p
            && Release(validated) == Ok(m.(state := Released, coordinates := Unset, inPosition := false))
  {
  }

  /** The scenario of a mean that is never engaged: sendBackToCRM is refused
      from ACTIVATED, from ARRIVED and from RELEASED. */
  lemma SendBackNeedsEngaged(m: Mean)
    requires m.state == Activated
    ensures SendBackToCrm(m).Err?
    ensures SendBackToCrm(ConfirmArrival(m).value).Err?
    ensures SendBackToCrm(Release(ConfirmArrival(m).value).value).Err?
  {
  }
}

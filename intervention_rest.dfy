/** The REST service over interventions (server-rest `rest.InterventionRest`)
    as its tests use it. Every mean operation is one sequential cycle: load
    the intervention from the store, run the transition engine on the
    STORED mean with the caller's mean id, and store the whole intervention
    back only on success. The caller's copy of the mean contributes its id
    and, for updatePosition, its coordinates; never its state. */
module Rest {
  import opened Wrappers
  import opened Geo
  import opened JavaValues
  import opened MeanLifecycle
  import opened Interventions

  const StatusOk: int := 200
  const StatusNoContent: int := 204
  const StatusBadRequest: int := 400

  datatype Entity = NoEntity | MeanEntity(mean: Mean) | MeansEntity(means: seq<Mean>) | TextEntity(text: string)

  datatype Response = Response(status: int, entity: Entity)

  type Store = map<Long, InterventionData>

  /** The pure cycle of one mean operation against the stored interventions:
      the new value of the intervention and the updated mean, or the error. */
  function Step(docs: Store, interventionId: Long, meanId: MeanId, op: Operation)
    : (r: Result<(InterventionData, Mean), ServiceError>)
    ensures r.Ok? ==> interventionId in docs && r.value.0.id == docs[interventionId].id
    ensures r.Ok? ==> r.value.0 == docs[interventionId].(meansList := r.value.0.meansList)
  {
    if interventionId !in docs then Err(InterventionNotFound)
    else
      match ApplyToMeans(docs[interventionId].meansList, meanId, op)
      case Err(e) => Err(e)
      case Ok((means, m)) => Ok((docs[interventionId].(meansList := means), m))
  }

  /** The store after the call: written only when the step succeeded. */
  function After(docs: Store, interventionId: Long, meanId: MeanId, op: Operation): (r: Store)
    ensures r.Keys == docs.Keys
    ensures Step(docs, interventionId, meanId, op).Err? ==> r == docs
    ensures forall k :: k in docs && k != interventionId ==> r[k] == docs[k]
    ensures WellKeyed(docs) ==> WellKeyed(r)
  {
    var s := Step(docs, interventionId, meanId, op);
    if s.Ok? then docs[interventionId := s.value.0] else docs
  }

  /** The answer to a refused operation: a refused release names the reason
      in a fixed message; the other refusals carry no body. */
  function RejectionBody(rejection: Rejection): (e: Entity)
    ensures rejection.op.ReleaseOp? <==> e.TextEntity?
    ensures e.TextEntity? ==> e.text == ReleaseRejectedMessage
    ensures !e.TextEntity? ==> e == NoEntity
  {
    if rejection.op.ReleaseOp? then TextEntity(ReleaseRejectedMessage) else NoEntity
  }

  /** The HTTP answer to a step. */
  function Answer(s: Result<(InterventionData, Mean), ServiceError>): (r: Response)
    ensures r.status == StatusOk <==> s.Ok?
    ensures s.Ok? ==> r.entity == MeanEntity(s.value.1)
    ensures s.Err? ==> r.status == StatusBadRequest && !r.entity.MeanEntity?
    ensures r.entity.TextEntity? <==> s.Err? && s.error.Rejected? && s.error.rejection.op.ReleaseOp?
  {
    match s
    case Ok((_, m)) => Response(StatusOk, MeanEntity(m))
    case Err(Rejected(rejection)) => Response(StatusBadRequest, RejectionBody(rejection))
    case Err(_) => Response(StatusBadRequest, NoEntity)
  }

  /** The stored mean a call addresses, if there is one. */
  function StoredMean(docs: Store, interventionId: Long, meanId: MeanId): Option<Mean> {
    if interventionId in docs then GetMean(docs[interventionId].meansList, meanId) else None
  }

  /** 200 exactly when the addressed mean exists and its STORED state allows
      the operation; the answer then carries the stored mean after the change. */
  lemma AnswerOkIffAllowed(docs: Store, interventionId: Long, meanId: MeanId, op: Operation)
    ensures var m := StoredMean(docs, interventionId, meanId);
            Answer(Step(docs, interventionId, meanId, op)).status == StatusOk
            <==> m.Some? && m.value.state in AllowedFrom(op)
    ensures Answer(Step(docs, interventionId, meanId, op)).status == StatusOk ==>
              Answer(Step(docs, interventionId, meanId, op)).entity
                == MeanEntity(StoredMean(After(docs, interventionId, meanId, op), interventionId, meanId).value)
    ensures Answer(Step(docs, interventionId, meanId, op)).status != StatusOk ==>
              Answer(Step(docs, interventionId, meanId, op)).status == StatusBadRequest
              && After(docs, interventionId, meanId, op) == docs
  {
  }

  /** Releasing a stored REFUSED mean is answered 400 with the fixed message,
      and leaves the store, the mean and the list length as they were. */
  lemma ReleaseOfRefusedMean(docs: Store, interventionId: Long, meanId: MeanId)
    requires StoredMean(docs, interventionId, meanId).Some?
    requires StoredMean(docs, interventionId, meanId).value.state == Refused
    ensures Answer(Step(docs, interventionId, meanId, ReleaseOp))
         == Response(StatusBadRequest, TextEntity(ReleaseRejectedMessage))
    ensures After(docs, interventionId, meanId, ReleaseOp) == docs
  {
  }

  /** Only the addressed mean changes: the list keeps its length, every mean
      with another id keeps its place and value, and the intervention's
      other fields stay. */
  lemma StepChangesOnlyTheMean(docs: Store, interventionId: Long, meanId: MeanId, op: Operation)
    requires Step(docs, interventionId, meanId, op).Ok?
    ensures var before := docs[interventionId];
            var after := After(docs, interventionId, meanId, op)[interventionId];
            && after == before.(meansList := after.meansList)
            && |after.meansList| == |before.meansList|
            && forall j :: 0 <= j < |before.meansList| && before.meansList[j].id != meanId ==>
                 after.meansList[j] == before.meansList[j]
    ensures forall k :: k in docs && k != interventionId ==> After(docs, interventionId, meanId, op)[k] == docs[k]
  {
  }

  /** The guard reads the stored state: sending the same request again
      after it succeeded acts on the updated mean, so a second
      confirmArrival, sendBackToCRM or release is refused and changes
      nothing, and a second updatePosition or validatePosition stores the
      same value again. */
  lemma RepeatedRequestIsSafe(docs: Store, interventionId: Long, meanId: MeanId, op: Operation)
    requires Step(docs, interventionId, meanId, op).Ok?
    ensures var once := After(docs, interventionId, meanId, op);
            After(once, interventionId, meanId, op) == once
    ensures op.ConfirmArrivalOp? || op.SendBackToCrmOp? || op.ReleaseOp? ==>
              var once := After(docs, interventionId, meanId, op);
              Answer(Step(once, interventionId, meanId, op)).status == StatusBadRequest
  {
    var once := After(docs, interventionId, meanId, op);
    var m := StoredMean(docs, interventionId, meanId).value;
    var m1 := Step(docs, interventionId, meanId, op).value.1;
    assert StoredMean(once, interventionId, meanId) == Some(m1);
    RetryIsSafe(m, op);
    if Step(once, interventionId, meanId, op).Ok? {
      var means := once[interventionId].meansList;
      var k := FindMean(means, meanId).value;
      assert means[k] == m1;
      assert Step(once, interventionId, meanId, op).value.0.meansList == means[k := m1];
      assert means[k := m1] == means;
    }
  }

  /** addExtraMean on the stored value: the mean is appended after every
      earlier one, whatever its state. */
  function AddExtraMean(docs: Store, interventionId: Long, mean: Mean): (r: Result<Store, ServiceError>)
    ensures r.Err? <==> interventionId !in docs
    ensures r.Ok? ==> r.value.Keys == docs.Keys
    ensures r.Ok? ==> forall k :: k in docs && k != interventionId ==> r.value[k] == docs[k]
    ensures r.Ok? ==> r.value[interventionId] == docs[interventionId].(meansList := r.value[interventionId].meansList)
    ensures r.Ok? ==> var before := docs[interventionId].meansList;
                      var after := r.value[interventionId].meansList;
                      |after| == |before| + 1 && after[..|before|] == before && after[|before|] == mean
  {
    if interventionId !in docs then Err(InterventionNotFound)
    else
      var d := docs[interventionId];
      Ok(docs[interventionId := d.(meansList := d.meansList + [mean])])
  }

  class InterventionRest {
    const dao: InterventionDAO

    constructor (dao: InterventionDAO)
      ensures this.dao == dao
    {
      this.dao := dao;
    }

    /** getAllIntervention: every stored intervention; one created only in
        memory is not among them. */
    method GetAllIntervention() returns (all: seq<InterventionData>)
      ensures |all| == |dao.docs|
      ensures forall d :: d in all ==> d in dao.docs.Values
      ensures forall k :: k in dao.docs ==> dao.docs[k] in all
    {
      all := dao.GetAll();
    }

    /** setIntervention: store the intervention as it is now. */
    method SetIntervention(i: Intervention)
      requires dao.Valid()
      modifies dao
      ensures dao.Valid()
      ensures dao.docs == old(dao.docs)[i.id := i.Data()]
    {
      dao.Create(i);
    }

    /** getIntervention: a fresh object equal to the stored value, or null. */
    method GetIntervention(id: Long) returns (r: Intervention?)
      ensures (r != null) == (id in dao.docs)
      ensures r != null ==> fresh(r) && r.Data() == dao.docs[id]
    {
      r := dao.GetById(id);
    }

    /** The load, mutate one mean, store cycle shared by the five mean
        operations. */
    method Transition(interventionId: Long, mean: Mean, op: Operation) returns (resp: Response)
      requires dao.Valid()
      modifies dao
      ensures dao.Valid()
      ensures resp == Answer(Step(old(dao.docs), interventionId, mean.id, op))
      ensures dao.docs == After(old(dao.docs), interventionId, mean.id, op)
    {
      var intervention := dao.GetById(interventionId);
      if intervention == null {
        return Response(StatusBadRequest, NoEntity);
      }
      var found := FindMean(intervention.meansList, mean.id);
      if found.None? {
        return Response(StatusBadRequest, NoEntity);
      }
      var k := found.value;
      var outcome := Apply(intervention.meansList[k], op);
      if outcome.Err? {
        return Response(StatusBadRequest, RejectionBody(outcome.error));
      }
      intervention.ReplaceMean(k, outcome.value);
      dao.Create(intervention);
      resp := Response(StatusOk, MeanEntity(outcome.value));
    }

    method ConfirmMeanArrivalForIntervention(interventionId: Long, mean: Mean) returns (resp: Response)
      requires dao.Valid()
      modifies dao
      ensures dao.Valid()
      ensures resp == Answer(Step(old(dao.docs), interventionId, mean.id, ConfirmArrivalOp))
      ensures dao.docs == After(old(dao.docs), interventionId, mean.id, ConfirmArrivalOp)
    {
      resp := Transition(interventionId, mean, ConfirmArrivalOp);
    }

    /** The new position is the one carried by the caller's copy of the mean. */
    method UpdateMeanPositionForIntervention(interventionId: Long, mean: Mean) returns (resp: Response)
      requires dao.Valid()
      modifies dao
      ensures dao.Valid()
      ensures resp == Answer(Step(old(dao.docs), interventionId, mean.id, UpdatePositionOp(mean.coordinates)))
      ensures dao.docs == After(old(dao.docs), interventionId, mean.id, UpdatePositionOp(mean.coordinates))
    {
      resp := Transition(interventionId, mean, UpdatePositionOp(mean.coordinates));
    }

    method ValidateMeanPositionForIntervention(interventionId: Long, mean: Mean) returns (resp: Response)
      requires dao.Valid()
      modifies dao
      ensures dao.Valid()
      ensures resp == Answer(Step(old(dao.docs), interventionId, mean.id, ValidatePositionOp))
      ensures dao.docs == After(old(dao.docs), interventionId, mean.id, ValidatePositionOp)
    {
      resp := Transition(interventionId, mean, ValidatePositionOp);
    }

    method SendMeanBackToCRMForIntervention(interventionId: Long, mean: Mean) returns (resp: Response)
      requires dao.Valid()
      modifies dao
      ensures dao.Valid()
      ensures resp == Answer(Step(old(dao.docs), interventionId, mean.id, SendBackToCrmOp))
      ensures dao.docs == After(old(dao.docs), interventionId, mean.id, SendBackToCrmOp)
    {
      resp := Transition(interventionId, mean, SendBackToCrmOp);
    }

    method ReleaseMeanForIntervention(interventionId: Long, mean: Mean) returns (resp: Response)
      requires dao.Valid()
      modifies dao
      ensures dao.Valid()
      ensures resp == Answer(Step(old(dao.docs), interventionId, mean.id, ReleaseOp))
      ensures dao.docs == After(old(dao.docs), interventionId, mean.id, ReleaseOp)
    {
      resp := Transition(interventionId, mean, ReleaseOp);
    }

    /** addExtraMeanToIntervention: append the caller's mean as it is. */
    method AddExtraMeanToIntervention(interventionId: Long, mean: Mean) returns (resp: Response)
      requires dao.Valid()
      modifies dao
      ensures dao.Valid()
      ensures var r := AddExtraMean(old(dao.docs), interventionId, mean);
              && (r.Ok? ==> resp == Response(StatusOk, MeanEntity(mean)) && dao.docs == r.value)
              && (r.Err? ==> resp == Response(StatusBadRequest, NoEntity) && dao.docs == old(dao.docs))
    {
      var intervention := dao.GetById(interventionId);
      if intervention == null {
        return Response(StatusBadRequest, NoEntity);
      }
      intervention.AddMean(mean);
      dao.Create(intervention);
      resp := Response(StatusOk, MeanEntity(mean));
    }

    /** getMeanListForIntervention: the whole stored list, in stored order. */
    method GetMeanListForIntervention(interventionId: Long) returns (resp: Response)
      ensures interventionId in dao.docs ==>
                resp == Response(StatusOk, MeansEntity(dao.docs[interventionId].meansList))
      ensures interventionId !in dao.docs ==> resp == Response(StatusNoContent, NoEntity)
    {
      var intervention := dao.GetById(interventionId);
      if intervention == null {
        return Response(StatusNoContent, NoEntity);
      }
      resp := Response(StatusOk, MeansEntity(intervention.meansList));
    }

    /** getMeanForIntervention: 200 with the stored mean of that id, 204 when
        the intervention holds none. */
    method GetMeanForIntervention(interventionId: Long, meanId: MeanId) returns (resp: Response)
      ensures resp.status == StatusOk <==>
                interventionId in dao.docs && exists j :: 0 <= j < |dao.docs[interventionId].meansList|
                                                        && dao.docs[interventionId].meansList[j].id == meanId
      ensures resp.status == StatusOk ==>
                resp.entity.MeanEntity? && resp.entity.mean in dao.docs[interventionId].meansList
                && resp.entity.mean.id == meanId
      ensures resp.status == StatusOk ==>
                exists k :: 0 <= k < |dao.docs[interventionId].meansList|
                            && dao.docs[interventionId].meansList[k] == resp.entity.mean
                            && forall j :: 0 <= j < k ==> dao.docs[interventionId].meansList[j].id != meanId
      ensures resp.status != StatusOk ==> resp == Response(StatusNoContent, NoEntity)
    {
      var intervention := dao.GetById(interventionId);
      if intervention == null {
        return Response(StatusNoContent, NoEntity);
      }
      match GetMean(intervention.meansList, meanId)
      case None =>
        resp := Response(StatusNoContent, NoEntity);
      case Some(m) =>
        resp := Response(StatusOk, MeanEntity(m));
    }
  }

  /** The stored intervention `id` whose first mean is `m`. */
  predicate FirstMeanIs(docs: Store, id: Long, m: Mean) {
    id in docs && |docs[id].meansList| >= 1 && docs[id].meansList[0] == m
  }

  /** One call on the first stored mean: it answers 200 exactly when the
      engine accepts the operation, and the first stored mean is then the
      engine's result; a refused call leaves the store as it was. */
  lemma StepOnFirstMean(docs: Store, id: Long, m: Mean, op: Operation)
    requires FirstMeanIs(docs, id, m)
    ensures Answer(Step(docs, id, m.id, op)).status == StatusOk <==> Apply(m, op).Ok?
    ensures Apply(m, op).Ok? ==> FirstMeanIs(After(docs, id, m.id, op), id, Apply(m, op).value)
    ensures Apply(m, op).Err? ==> After(docs, id, m.id, op) == docs
    ensures Apply(m, op).Err? ==> Answer(Step(docs, id, m.id, op)).status == StatusBadRequest
  {
    FindMeanIsFirst(docs[id].meansList, m.id, 0);
  }

  /** Test scenario: confirm the arrival of the first mean, then give it a
      position, then a second one: each answer is 200, the stored mean is
      ENGAGED at the latest position and not in position. */
  lemma ScenarioUpdatePositionTwice(docs: Store, id: Long, m: Mean, p: Position, q: Position)
    requires FirstMeanIs(docs, id, m) && m.state == Activated
    ensures var d1 := After(docs, id, m.id, ConfirmArrivalOp);
            var d2 := After(d1, id, m.id, UpdatePositionOp(p));
            var d3 := After(d2, id, m.id, UpdatePositionOp(q));
            && Answer(Step(d1, id, m.id, UpdatePositionOp(p))).status == StatusOk
            && Answer(Step(d2, id, m.id, UpdatePositionOp(q))).status == StatusOk
            && d2[id].meansList[0] == m.(state := Engaged, coordinates := p, inPosition := false)
            && d3[id].meansList[0] == m.(state := Engaged, coordinates := q, inPosition := false)
  {
    var m1 := m.(state := Arrived);
    var m2 := m.(state := Engaged, coordinates := p, inPosition := false);
    StepOnFirstMean(docs, id, m, ConfirmArrivalOp);
    var d1 := After(docs, id, m.id, ConfirmArrivalOp);
    StepOnFirstMean(d1, id, m1, UpdatePositionOp(p));
    var d2 := After(d1, id, m.id, UpdatePositionOp(p));
    StepOnFirstMean(d2, id, m2, UpdatePositionOp(q));
  }

  /** Test scenario: updatePosition on a fresh ACTIVATED mean is refused and
      the stored mean keeps its state and coordinates; after confirmArrival
      and release it is refused again. */
  lemma ScenarioUpdatePositionRefused(docs: Store, id: Long, m: Mean, p: Position)
    requires FirstMeanIs(docs, id, m) && m.state == Activated
    ensures Answer(Step(docs, id, m.id, UpdatePositionOp(p))).status == StatusBadRequest
    ensures After(docs, id, m.id, UpdatePositionOp(p)) == docs
    ensures var d := After(After(docs, id, m.id, ConfirmArrivalOp), id, m.id, ReleaseOp);
            && d[id].meansList[0].state == Released
            && Answer(Step(d, id, m.id, UpdatePositionOp(p))).status == StatusBadRequest
  {
    var m1 := m.(state := Arrived);
    var m2 := m.(state := Released, coordinates := Unset, inPosition := false);
    StepOnFirstMean(docs, id, m, UpdatePositionOp(p));
    StepOnFirstMean(docs, id, m, ConfirmArrivalOp);
    var d1 := After(docs, id, m.id, ConfirmArrivalOp);
    StepOnFirstMean(d1, id, m1, ReleaseOp);
    var d2 := After(d1, id, m.id, ReleaseOp);
    StepOnFirstMean(d2, id, m2, UpdatePositionOp(p));
  }

  /** Test scenario: confirm, update, validate: the stored mean is ENGAGED at
      the given position and in position; sendBackToCRM then makes it
      ARRIVED, unset and not in position. */
  lemma ScenarioValidateThenSendBack(docs: Store, id: Long, m: Mean, p: Position)
    requires FirstMeanIs(docs, id, m) && m.state == Activated
    ensures var d1 := After(After(docs, id, m.id, ConfirmArrivalOp), id, m.id, UpdatePositionOp(p));
            var d2 := After(d1, id, m.id, ValidatePositionOp);
            var d3 := After(d1, id, m.id, SendBackToCrmOp);
            && Answer(Step(d1, id, m.id, ValidatePositionOp)).status == StatusOk
            && d2[id].meansList[0] == m.(state := Engaged, coordinates := p, inPosition := true)
            && Answer(Step(d1, id, m.id, SendBackToCrmOp)).status == StatusOk
            && d3[id].meansList[0] == m.(state := Arrived, coordinates := Unset, inPosition := false)
  {
    var m1 := m.(state := Arrived);
    var m2 := m.(state := Engaged, coordinates := p, inPosition := false);
    StepOnFirstMean(docs, id, m, ConfirmArrivalOp);
    var d0 := After(docs, id, m.id, ConfirmArrivalOp);
    StepOnFirstMean(d0, id, m1, UpdatePositionOp(p));
    var d1 := After(d0, id, m.id, UpdatePositionOp(p));
    StepOnFirstMean(d1, id, m2, ValidatePositionOp);
    StepOnFirstMean(d1, id, m2, SendBackToCrmOp);
  }

  /** validatePosition and sendBackToCRM on a first stored mean that is not
      ENGAGED both answer 400. */
  lemma NotEngagedRefused(d: Store, id: Long, first: Mean)
    requires FirstMeanIs(d, id, first) && first.state != Engaged
    ensures Answer(Step(d, id, first.id, ValidatePositionOp)).status == StatusBadRequest
    ensures Answer(Step(d, id, first.id, SendBackToCrmOp)).status == StatusBadRequest
  {
    StepOnFirstMean(d, id, first, ValidatePositionOp);
    StepOnFirstMean(d, id, first, SendBackToCrmOp);
  }

  /** Test scenario: validatePosition and sendBackToCRM are refused from
      ACTIVATED, from ARRIVED and from RELEASED. */
  lemma ScenarioNotEngagedRefusals(docs: Store, id: Long, m: Mean)
    requires FirstMeanIs(docs, id, m) && m.state == Activated
    ensures var d1 := After(docs, id, m.id, ConfirmArrivalOp);
            var d2 := After(d1, id, m.id, ReleaseOp);
            && Answer(Step(docs, id, m.id, ValidatePositionOp)).status == StatusBadRequest
            && Answer(Step(docs, id, m.id, SendBackToCrmOp)).status == StatusBadRequest
            && Answer(Step(d1, id, m.id, ValidatePositionOp)).status == StatusBadRequest
            && Answer(Step(d1, id, m.id, SendBackToCrmOp)).status == StatusBadRequest
            && Answer(Step(d2, id, m.id, ValidatePositionOp)).status == StatusBadRequest
            && Answer(Step(d2, id, m.id, SendBackToCrmOp)).status == StatusBadRequest
  {
    var m1 := m.(state := Arrived);
    var m2 := m.(state := Released, coordinates := Unset, inPosition := false);
    StepOnFirstMean(docs, id, m, ConfirmArrivalOp);
    var d1 := After(docs, id, m.id, ConfirmArrivalOp);
    StepOnFirstMean(d1, id, m1, ReleaseOp);
    var d2 := After(d1, id, m.id, ReleaseOp);
    NotEngagedRefused(docs, id, m);
    NotEngagedRefused(d1, id, m1);
    NotEngagedRefused(d2, id, m2);
  }

  /** Test scenario: of an ACTIVATED and a REFUSED mean, releasing the first
      answers 200 with it RELEASED, releasing the second answers 400 with the
      fixed message; the list keeps both, in order, the refused one as it
      was. */
  lemma ScenarioReleaseActivatedAndRefused(docs: Store, id: Long, m1: Mean, m2: Mean)
    requires id in docs && docs[id].meansList == [m1, m2] && m1.id != m2.id
    requires m1.state == Activated && m2.state == Refused
    ensures var released := m1.(state := Released, coordinates := Unset, inPosition := false);
            var d1 := After(docs, id, m1.id, ReleaseOp);
            var d2 := After(d1, id, m2.id, ReleaseOp);
            && Answer(Step(docs, id, m1.id, ReleaseOp)) == Response(StatusOk, MeanEntity(released))
            && Answer(Step(d1, id, m2.id, ReleaseOp)) == Response(StatusBadRequest, TextEntity(ReleaseRejectedMessage))
            && d2[id].meansList == [released, m2]
  {
    FindMeanIsFirst([m1, m2], m1.id, 0);
    var released := m1.(state := Released, coordinates := Unset, inPosition := false);
    FindMeanIsFirst([released, m2], m2.id, 1);
  }
}

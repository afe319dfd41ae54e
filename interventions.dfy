/** The intervention aggregate and its store. An intervention owns the
    ordered list of its means; the store keeps one whole document per
    intervention id, and every read of the store hands out a fresh copy. */
module Interventions {
  import opened Wrappers
  import opened Geo
  import opened JavaValues
  import opened MeanLifecycle

  /** The stored value of an intervention. */
  datatype InterventionData = InterventionData(
    id: Long,
    name: string,
    address: string,
    postCode: string,
    city: string,
    disasterCode: string,
    coordinates: Position,
    meansList: seq<Mean>)

  /** Why a service call found nothing to act on, or refused to. */
  datatype ServiceError = InterventionNotFound | MeanNotFound | Rejected(rejection: Rejection)

  /** Means are addressed by identity: the first mean with the given id. */
  function FindMean(means: seq<Mean>, id: MeanId): (r: Option<nat>)
    ensures r.Some? ==> r.value < |means| && means[r.value].id == id
    ensures r.Some? ==> forall j :: 0 <= j < r.value ==> means[j].id != id
    ensures r.None? <==> forall j :: 0 <= j < |means| ==> means[j].id != id
  {
    if means == [] then None
    else if means[0].id == id then Some(0)
    else
      match FindMean(means[1..], id)
      case None =>
        assert forall j :: 1 <= j < |means| ==> means[j] == means[1..][j - 1];
        None
      case Some(k) => Some(k + 1)
  }

  /** getMean on a list: the mean with that id, if the list holds one. */
  function GetMean(means: seq<Mean>, id: MeanId): (r: Option<Mean>)
    ensures r.Some? ==> r.value in means && r.value.id == id
    ensures r.Some? ==> exists k :: 0 <= k < |means| && means[k] == r.value && forall j :: 0 <= j < k ==> means[j].id != id
    ensures r.None? <==> forall j :: 0 <= j < |means| ==> means[j].id != id
  {
    match FindMean(means, id)
    case None => None
    case Some(k) => Some(means[k])
  }

  /** One operation on one mean of a list: locate the STORED mean by id, run
      the transition engine on it, and put the result back in its place. */
  function ApplyToMeans(means: seq<Mean>, id: MeanId, op: Operation): (r: Result<(seq<Mean>, Mean), ServiceError>)
    ensures r == Err(MeanNotFound) <==> GetMean(means, id).None?
    ensures r.Err? && r.error.Rejected? <==>
              GetMean(means, id).Some? && GetMean(means, id).value.state !in AllowedFrom(op)
    ensures r.Err? && r.error.Rejected? ==> r.error.rejection == InvalidTransition(op, GetMean(means, id).value.state)
    ensures r.Ok? ==> Apply(GetMean(means, id).value, op) == Ok(r.value.1)
    ensures r.Ok? ==> |r.value.0| == |means| && r.value.1.id == id
    ensures r.Ok? ==> forall j :: 0 <= j < |means| && means[j].id != id ==> r.value.0[j] == means[j]
    ensures r.Ok? ==> GetMean(r.value.0, id) == Some(r.value.1)
  {
    match FindMean(means, id)
    case None => Err(MeanNotFound)
    case Some(k) =>
      match Apply(means[k], op)
      case Err(rejection) => Err(Rejected(rejection))
      case Ok(updated) =>
        var after := means[k := updated];
        assert FindMean(after, id) == Some(k) by {
          assert forall j :: 0 <= j < k ==> after[j] == means[j];
          FindMeanIsFirst(after, id, k);
        }
        Ok((after, updated))
  }

  /** The first index holding a given id is what FindMean finds. */
  lemma FindMeanIsFirst(means: seq<Mean>, id: MeanId, k: nat)
    requires k < |means| && means[k].id == id
    requires forall j :: 0 <= j < k ==> means[j].id != id
    ensures FindMean(means, id) == Some(k)
  {
  }

  /** Every stored document sits under its own id. */
  predicate WellKeyed(docs: map<Long, InterventionData>) {
    forall k :: k in docs ==> docs[k].id == k
  }

  /** An in-memory intervention object (server-rest `entity.Intervention`). */
  class Intervention {
    var id: Long
    var name: string
    var address: string
    var postCode: string
    var city: string
    var disasterCode: string
    var coordinates: Position
    var meansList: seq<Mean>

    function Data(): InterventionData
      reads this
    {
      InterventionData(id, name, address, postCode, city, disasterCode, coordinates, meansList)
    }

    /** `new Intervention(name, address, postCode, city, disasterCode)`. The
        generated ids and the first mean's vehicle are parameters. A fresh
        intervention holds one ACTIVATED mean. */
    constructor (id: Long, name: string, address: string, postCode: string, city: string,
                 disasterCode: string, firstMeanId: MeanId, firstVehicle: string)
      ensures Data() == InterventionData(id, name, address, postCode, city, disasterCode, Unset,
                                         [Mean(firstMeanId, firstVehicle, Activated, Unset, false)])
    {
      this.id := id;
      this.name := name;
      this.address := address;
      this.postCode := postCode;
      this.city := city;
      this.disasterCode := disasterCode;
      this.coordinates := Unset;
      this.meansList := [Mean(firstMeanId, firstVehicle, Activated, Unset, false)];
    }

    /** The fresh object a read from the store decodes. */
    constructor FromData(d: InterventionData)
      ensures Data() == d
    {
      id, name, address, postCode, city := d.id, d.name, d.address, d.postCode, d.city;
      disasterCode, coordinates, meansList := d.disasterCode, d.coordinates, d.meansList;
    }

    method SetCoordinates(p: Position)
      modifies this
      ensures Data() == old(Data()).(coordinates := p)
    {
      coordinates := p;
    }

    method SetMeansList(ms: seq<Mean>)
      modifies this
      ensures Data() == old(Data()).(meansList := ms)
    {
      meansList := ms;
    }

    /** The in-place update of the k-th mean of the list. */
    method ReplaceMean(k: nat, m: Mean)
      requires k < |meansList|
      modifies this
      ensures Data() == old(Data()).(meansList := old(meansList)[k := m])
    {
      meansList := meansList[k := m];
    }

    method AddMean(m: Mean)
      modifies this
      ensures Data() == old(Data()).(meansList := old(meansList) + [m])
    {
      meansList := meansList + [m];
    }
  }

  /** The intervention store (server-rest `dao.InterventionDAO`): one whole
      document per intervention id, written and read as a unit. */
  class InterventionDAO {
    var docs: map<Long, InterventionData>

    ghost predicate Valid()
      reads this
    {
      WellKeyed(docs)
    }

    constructor ()
      ensures Valid() && docs == map[]
    {
      docs := map[];
    }

    /** create: the intervention's current value is stored under its id,
        replacing any earlier document. */
    method Create(i: Intervention)
      requires Valid()
      modifies this
      ensures Valid() && docs == old(docs)[i.id := i.Data()]
    {
      docs := docs[i.id := i.Data()];
    }

    /** getById: a fresh object holding the stored value, or null. */
    method GetById(id: Long) returns (r: Intervention?)
      ensures (r != null) == (id in docs)
      ensures r != null ==> fresh(r) && r.Data() == docs[id]
    {
      if id in docs {
        r := new Intervention.FromData(docs[id]);
      } else {
        r := null;
      }
    }

    method Delete(i: Intervention)
      requires Valid()
      modifies this
      ensures Valid() && docs == old(docs) - {i.id}
    {
      docs := docs - {i.id};
    }

    /** getAll: every stored intervention once, in no particular order. */
    method GetAll() returns (all: seq<InterventionData>)
      ensures |all| == |docs|
      ensures forall d :: d in all ==> d in docs.Values
      ensures forall k :: k in docs ==> docs[k] in all
    {
      var keys := docs.Keys;
      all := [];
      while keys != {}
        invariant keys <= docs.Keys
        invariant |all| + |keys| == |docs.Keys|
        invariant forall d :: d in all ==> d in docs.Values
        invariant forall k :: k in docs && k !in keys ==> docs[k] in all
        decreases |keys|
      {
        var k :| k in keys;
        all := all + [docs[k]];
        keys := keys - {k};
      }
      assert |docs.Keys| == |docs|;
    }
  }
}

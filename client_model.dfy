/** The Android client's model objects: the client view of a mean, and the
    drone path container `model.Target`. */
module ClientModel {
  import opened Wrappers

  /** The client's `model.Mean`, reduced to what the list screens read: its
      id and whether `refusedMeans()` holds for it (that class is not part of
      this model, so the answer is a stored flag). */
  datatype ClientMean = ClientMean(id: string, refused: bool)

  /** `model.Target`: the path of a drone, as a list of positions of the
      client's own position type `P`, a closed-loop flag and the id of the
      intervention it belongs to. */
  class Target<P> {
    var interventionsId: Option<string>
    var positions: seq<P>
    var isClose: bool

    /** `new Target()`: an empty path; the other fields keep their Java
        defaults (null and false). */
    constructor ()
      ensures positions == [] && !isClose && interventionsId.None?
    {
      positions := [];
      isClose := false;
      interventionsId := None;
    }

    /** getPositions / setPositions: the whole list is replaced. */
    function GetPositions(): seq<P>
      reads this
    {
      positions
    }

    method SetPositions(ps: seq<P>)
      modifies this
      ensures GetPositions() == ps
      ensures isClose == old(isClose) && interventionsId == old(interventionsId)
    {
      positions := ps;
    }

    /** addPosition: the new position goes last, earlier ones stay. */
    method AddPosition(p: P)
      modifies this
      ensures |positions| == |old(positions)| + 1 && positions[|positions| - 1] == p
      ensures positions[..|old(positions)|] == old(positions)
      ensures isClose == old(isClose) && interventionsId == old(interventionsId)
    {
      positions := positions + [p];
    }

    function IsClose(): bool
      reads this
    {
      isClose
    }

    method SetClose(b: bool)
      modifies this
      ensures IsClose() == b
      ensures positions == old(positions) && interventionsId == old(interventionsId)
    {
      isClose := b;
    }

    function GetInterventionsId(): Option<string>
      reads this
    {
      interventionsId
    }

    method SetInterventionsId(s: Option<string>)
      modifies this
      ensures GetInterventionsId() == s
      ensures positions == old(positions) && isClose == old(isClose)
    {
      interventionsId := s;
    }
  }
}

/** server-rest `entity.GeoImage`: an image placed at a position on the map
    of an intervention, with its setters and its null-safe field-wise
    `equals`. */
module GeoImages {
  import opened Wrappers
  import opened JavaValues
  import opened Geo

  /** The fields `equals` compares, as one value. Null references are None. */
  datatype GeoImageValue = GeoImageValue(
    position: Option<Position>,
    width: Int32,
    height: Int32,
    image: Option<string>,
    interventionId: Long)

  /** The argument of `equals(Object)`: null, a GeoImage, or an object of
      another class. */
  datatype Obj = Null | GeoImageRef(ref: GeoImage) | OtherObject

  /** A nullable field compared as `a != null ? a.equals(b) : b == null`,
      with value equality for String and Position. */
  predicate NullSafeEquals<T(==)>(a: Option<T>, b: Option<T>) {
    if a.Some? then b.Some? && a.value == b.value else b.None?
  }

  class GeoImage {
    var position: Option<Position>
    var width: Int32
    var height: Int32
    var image: Option<string>
    var interventionId: Long

    function Value(): GeoImageValue
      reads this
    {
      GeoImageValue(position, width, height, image, interventionId)
    }

    /** `new GeoImage()`: every field has its Java default. */
    constructor ()
      ensures Value() == GeoImageValue(None, 0, 0, None, 0)
    {
      position := None;
      width := 0;
      height := 0;
      image := None;
      interventionId := 0;
    }

    method SetImage(image: Option<string>)
      modifies this
      ensures Value() == old(Value()).(image := image)
    {
      this.image := image;
    }

    method SetPosition(position: Option<Position>)
      modifies this
      ensures Value() == old(Value()).(position := position)
    {
      this.position := position;
    }

    method SetWidth(width: Int32)
      modifies this
      ensures Value() == old(Value()).(width := width)
    {
      this.width := width;
    }

    method SetInterventionId(interventionId: Long)
      modifies this
      ensures Value() == old(Value()).(interventionId := interventionId)
    {
      this.interventionId := interventionId;
    }

    method SetHeight(height: Int32)
      modifies this
      ensures Value() == old(Value()).(height := height)
    {
      this.height := height;
    }

    /** equals: the same object, or another GeoImage whose five fields are
        equal (null equal only to null); never a null or a foreign object. */
    predicate Equals(o: Obj): (r: bool)
      reads this, if o.GeoImageRef? then {o.ref} else {}
      ensures r <==> o.GeoImageRef? && Value() == o.ref.Value()
    {
      if o.GeoImageRef? && o.ref == this then true
      else if !o.GeoImageRef? then false
      else
        var g := o.ref;
        if height != g.height then false
        else if width != g.width then false
        else if !NullSafeEquals(image, g.image) then false
        else if !NullSafeEquals(position, g.position) then false
        else if interventionId != g.interventionId then false
        else true
    }
  }

  /** equals is reflexive. */
  lemma EqualsReflexive(g: GeoImage)
    ensures g.Equals(GeoImageRef(g))
  {
  }

  /** equals is symmetric. */
  lemma EqualsSymmetric(a: GeoImage, b: GeoImage)
    ensures a.Equals(GeoImageRef(b)) <==> b.Equals(GeoImageRef(a))
  {
  }

  /** equals is transitive. */
  lemma EqualsTransitive(a: GeoImage, b: GeoImage, c: GeoImage)
    requires a.Equals(GeoImageRef(b)) && b.Equals(GeoImageRef(c))
    ensures a.Equals(GeoImageRef(c))
  {
  }

  /** null and objects of other classes are never equal to a GeoImage. */
  lemma EqualsRejectsNullAndOthers(g: GeoImage)
    ensures !g.Equals(Null) && !g.Equals(OtherObject)
  {
  }
}

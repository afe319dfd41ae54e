/** server-rest `dao.IconDAO`: the icon entity <-> document codec, with the
    decoder's fixed id and mismatched address key as they are written. */
module IconDao {
  import opened Wrappers
  import opened JavaValues
  import opened Json

  /** Stand-in for `Constant.DATATYPE_ICON` (util.Constant is not part of this model). */
  const DatatypeIcon: string := "icon"

  /** The id every decoded icon is given. */
  const FixedIconId: Long := 7878

  /** `entity.Icon`: id, nullable address of the image file, datatype tag. */
  datatype Icon = Icon(id: Long, addressFile: Option<string>, dataType: string)

  /** A `new Icon()`: Java defaults for the fields, and the icon datatype tag. */
  function NewIcon(): Icon {
    Icon(0, None, DatatypeIcon)
  }

  /** entityToJsonDocument: flat keys "datatype", "adress" and "id"; the
      document key is the decimal id. */
  function EntityToJsonDocument(i: Icon): (d: JsonDocument)
    ensures d.content.Keys == {"datatype", "adress", "id"}
    ensures d.content["adress"] == FromString(i.addressFile) && d.content["id"] == JNumber(i.id)
    ensures ParseLong(d.id) == Some(i.id)
  {
    ParseLongOfDecimalString(i.id);
    var content := map["datatype" := JString(i.dataType),
                       "adress" := FromString(i.addressFile),
                       "id" := JNumber(i.id)];
    JsonDocument(DecimalString(i.id), content)
  }

  /** jsonDocumentToEntity as written: the parsed document key is stored and
      then overwritten by 7878, and the address is read from the key
      "MON ADRESSE !"; any exception gives null (None). */
  function JsonDocumentToEntity(d: JsonDocument): (r: Option<Icon>)
    ensures r.Some? ==> r.value.id == FixedIconId
    ensures r.Some? ==> ParseLong(d.id).Some? && GetString(d.content, "datatype") == Ok(Some(DatatypeIcon))
    ensures r.Some? ==> GetString(d.content, "MON ADRESSE !") == Ok(r.value.addressFile)
  {
    match GetString(d.content, "datatype")
    case Err(_) => None
    case Ok(tag) =>
      if tag != Some(DatatypeIcon) then None
      else match ParseLong(d.id)
        case None => None
        case Some(key) =>
          var icon := NewIcon().(id := key);
          match GetString(d.content, "MON ADRESSE !")
          case Err(_) => None
          case Ok(address) => Some(icon.(addressFile := address).(id := FixedIconId))
  }

  /** Decoding fails when the datatype is not the icon tag or the key does
      not parse as a `long`. */
  lemma DecodeRejects(d: JsonDocument)
    requires GetString(d.content, "datatype") != Ok(Some(DatatypeIcon)) || ParseLong(d.id).None?
    ensures JsonDocumentToEntity(d) == None
  {
  }

  /** The round trip as written: the id becomes 7878 and the address is lost,
      because the encoder wrote it under "adress". */
  lemma RoundTripAsWritten(i: Icon)
    requires i.dataType == DatatypeIcon
    ensures JsonDocumentToEntity(EntityToJsonDocument(i)) == Some(Icon(FixedIconId, None, DatatypeIcon))
  {
    ParseLongOfDecimalString(i.id);
  }

  /** Hence an icon with an address, or with an id other than 7878, does not
      survive the round trip. */
  lemma RoundTripLosesFields(i: Icon)
    requires i.dataType == DatatypeIcon && (i.addressFile.Some? || i.id != FixedIconId)
    ensures JsonDocumentToEntity(EntityToJsonDocument(i)) != Some(i)
  {
    RoundTripAsWritten(i);
  }

  /** The evidently intended decoder: the id is the document key and the
      address is read from the key the encoder writes. */
  function JsonDocumentToEntityIntended(d: JsonDocument): (r: Option<Icon>)
    ensures r.Some? ==> ParseLong(d.id) == Some(r.value.id)
    ensures r.Some? ==> r.value.dataType == DatatypeIcon
  {
    match GetString(d.content, "datatype")
    case Err(_) => None
    case Ok(tag) =>
      if tag != Some(DatatypeIcon) then None
      else match ParseLong(d.id)
        case None => None
        case Some(key) =>
          match GetString(d.content, "adress")
          case Err(_) => None
          case Ok(address) => Some(NewIcon().(id := key, addressFile := address))
  }

  /** With the intended decoder every icon survives the round trip. */
  lemma RoundTripIntended(i: Icon)
    requires i.dataType == DatatypeIcon
    ensures JsonDocumentToEntityIntended(EntityToJsonDocument(i)) == Some(i)
  {
    ParseLongOfDecimalString(i.id);
  }
}

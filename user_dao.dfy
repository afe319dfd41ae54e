/** server-rest `dao.UserDAO`: the user entity <-> document codec and the
    row selection of `getByUsername`. The view query that produces the rows
    is not modelled; the rows are a parameter. */
module UserDao {
  import opened Wrappers
  import opened JavaValues
  import opened Json

  /** Stand-in for `Constant.DATATYPE_USER` (util.Constant is not part of this model). */
  const DatatypeUser: string := "user"

  /** `entity.User`: id, nullable username and password, and the datatype
      tag the entity reports through getDataType(). */
  datatype User = User(id: Long, username: Option<string>, password: Option<string>, dataType: string)

  /** A `new User()`: Java defaults for the fields, and the user datatype tag. */
  function NewUser(): User {
    User(0, None, None, DatatypeUser)
  }

  /** entityToJsonDocument: the tag, username and password go into a nested
      "properties" object; the document key is the decimal id. */
  function EntityToJsonDocument(u: User): (d: JsonDocument)
    ensures d.content.Keys == {"properties"}
    ensures ParseLong(d.id) == Some(u.id)
  {
    ParseLongOfDecimalString(u.id);
    var properties := map["datatype" := JString(u.dataType),
                          "username" := FromString(u.username),
                          "password" := FromString(u.password)];
    JsonDocument(DecimalString(u.id), map["properties" := JObject(properties)])
  }

  /** jsonDocumentToEntity: a fresh User filled from the document, or null
      (None) when anything fails, including the datatype check. */
  function JsonDocumentToEntity(d: JsonDocument): (r: Option<User>)
    ensures r.Some? ==> ParseLong(d.id) == Some(r.value.id)
    ensures r.Some? ==> r.value.dataType == DatatypeUser
  {
    match GetObject(d.content, "properties")
    case Err(_) => None                                  // ClassCastException
    case Ok(None) => None                                // NullPointerException
    case Ok(Some(properties)) =>
      match GetString(properties, "datatype")
      case Err(_) => None
      case Ok(tag) =>
        if tag != Some(DatatypeUser) then None           // IllegalArgumentException
        else match ParseLong(d.id)
          case None => None                              // NumberFormatException
          case Some(id) =>
            match (GetString(properties, "username"), GetString(properties, "password"))
            case (Ok(name), Ok(pass)) => Some(NewUser().(id := id, username := name, password := pass))
            case _ => None
  }

  /** A document whose "properties" datatype is anything but the user tag
      (missing, null, another string) decodes to null. */
  lemma DecodeRequiresUserDatatype(d: JsonDocument)
    requires "properties" in d.content && d.content["properties"].JObject?
    requires GetString(d.content["properties"].fields, "datatype") != Ok(Some(DatatypeUser))
    ensures JsonDocumentToEntity(d) == None
  {
  }

  /** A document key that is not a decimal `long`, or a missing or non-object
      "properties" entry, decodes to null. */
  lemma DecodeFailsOnMalformedDocument(d: JsonDocument)
    requires ParseLong(d.id) == None || "properties" !in d.content || !d.content["properties"].JObject?
    ensures JsonDocumentToEntity(d) == None
  {
  }

  /** Round trip: a user entity survives encoding and decoding unchanged. */
  lemma RoundTrip(u: User)
    requires u.dataType == DatatypeUser
    ensures JsonDocumentToEntity(EntityToJsonDocument(u)) == Some(u)
  {
    ParseLongOfDecimalString(u.id);
  }

  /** The selection loop of getByUsername over the decoded rows: `last` is
      the variable `resUser`. A row that decodes to null makes the call of
      getUsername() on it throw NullPointerException. */
  function SelectByUsername(rows: seq<JsonDocument>, username: string, last: Option<User>)
    : (r: Result<Option<User>, JavaException>)
    ensures r.Err? ==> r.error == NullPointer && rows != []
    ensures r.Ok? && rows != [] ==> r.value.Some?
    ensures r.Ok? && r.value != last ==> exists k :: 0 <= k < |rows| && JsonDocumentToEntity(rows[k]) == r.value
  {
    if rows == [] then Ok(last)
    else match JsonDocumentToEntity(rows[0])
      case None => Err(NullPointer)
      case Some(u) =>
        if u.username == Some(username) then Ok(Some(u))
        else
          var rest := SelectByUsername(rows[1..], username, Some(u));
          assert forall k :: 1 <= k < |rows| ==> rows[k] == rows[1..][k - 1];
          rest
  }

  /** getByUsername, from the rows of the view query on. */
  method GetByUsername(rows: seq<JsonDocument>, username: string) returns (r: Result<Option<User>, JavaException>)
    ensures r == SelectByUsername(rows, username, None)
  {
    var resUser: Option<User> := None;
    var k := 0;
    while k < |rows|
      invariant 0 <= k <= |rows|
      invariant SelectByUsername(rows, username, None) == SelectByUsername(rows[k..], username, resUser)
    {
      assert rows[k..][0] == rows[k] && rows[k..][1..] == rows[k + 1..];
      resUser := JsonDocumentToEntity(rows[k]);
      if resUser.None? {
        return Err(NullPointer);
      }
      if resUser.value.username == Some(username) {
        break;
      }
      k := k + 1;
    }
    return Ok(resUser);
  }

  /** Every row before index `i` decodes, and none carries the username. */
  ghost predicate NoMatchBefore(rows: seq<JsonDocument>, username: string, i: int)
    requires 0 <= i <= |rows|
  {
    forall k :: 0 <= k < i ==>
      JsonDocumentToEntity(rows[k]).Some? && JsonDocumentToEntity(rows[k]).value.username != Some(username)
  }

  /** The loop stops at the first decoded row with the given username and
      returns it. */
  lemma {:induction false} SelectReturnsFirstMatch(rows: seq<JsonDocument>, username: string, last: Option<User>, i: nat)
    requires i < |rows| && NoMatchBefore(rows, username, i)
    requires JsonDocumentToEntity(rows[i]).Some? && JsonDocumentToEntity(rows[i]).value.username == Some(username)
    ensures SelectByUsername(rows, username, last) == Ok(JsonDocumentToEntity(rows[i]))
  {
    if i > 0 {
      SelectReturnsFirstMatch(rows[1..], username, JsonDocumentToEntity(rows[0]), i - 1);
    }
  }

  /** When no row matches, the loop returns the LAST decoded row, not null;
      it returns null only when there are no rows at all. */
  lemma {:induction false} SelectWithoutMatchReturnsLastRow(rows: seq<JsonDocument>, username: string, last: Option<User>)
    requires NoMatchBefore(rows, username, |rows|)
    ensures SelectByUsername(rows, username, last)
         == Ok(if rows == [] then last else JsonDocumentToEntity(rows[|rows| - 1]))
  {
    if rows != [] {
      SelectWithoutMatchReturnsLastRow(rows[1..], username, JsonDocumentToEntity(rows[0]));
    }
  }

  /** A row that fails to decode before any match makes the selection throw. */
  lemma {:induction false} SelectThrowsOnUndecodableRow(rows: seq<JsonDocument>, username: string, last: Option<User>, i: nat)
    requires i < |rows| && NoMatchBefore(rows, username, i) && JsonDocumentToEntity(rows[i]).None?
    ensures SelectByUsername(rows, username, last) == Err(NullPointer)
  {
    if i > 0 {
      SelectThrowsOnUndecodableRow(rows[1..], username, JsonDocumentToEntity(rows[0]), i - 1);
    }
  }

  /** A one-row table of "alice" asked for "bob" answers with alice. */
  lemma LookupOfAbsentNameReturnsOtherUser()
    ensures var alice := User(1, Some("alice"), Some("secret"), DatatypeUser);
            SelectByUsername([EntityToJsonDocument(alice)], "bob", None) == Ok(Some(alice))
  {
    var alice := User(1, Some("alice"), Some("secret"), DatatypeUser);
    RoundTrip(alice);
  }

  /** A row whose key is not numeric makes the lookup throw instead of
      skipping the row. */
  lemma LookupThrowsOnNonNumericKey()
    ensures var props := map["datatype" := JString(DatatypeUser), "username" := JString("alice")];
            SelectByUsername([JsonDocument("alice", map["properties" := JObject(props)])], "alice", None)
              == Err(NullPointer)
  {
    assert !IsDigit('a');
  }

  /** The evidently intended lookup: the first decodable row whose username
      is the given one, or null when there is none; rows that do not decode
      are skipped. */
  function FindByUsername(rows: seq<JsonDocument>, username: string): (r: Option<User>)
    ensures r.Some? ==> r.value.username == Some(username)
    ensures r.Some? ==> exists k :: 0 <= k < |rows| && JsonDocumentToEntity(rows[k]) == r
    ensures r.None? <==> forall k :: 0 <= k < |rows| && JsonDocumentToEntity(rows[k]).Some? ==>
      JsonDocumentToEntity(rows[k]).value.username != Some(username)
  {
    if rows == [] then None
    else
      var decoded := JsonDocumentToEntity(rows[0]);
      if decoded.Some? && decoded.value.username == Some(username) then decoded
      else
        var rest := FindByUsername(rows[1..], username);
        assert forall k :: 1 <= k < |rows| ==> rows[k] == rows[1..][k - 1];
        rest
  }

  /** The intended lookup also stops at the first decoded row with the
      given username. */
  lemma {:induction false} FindReturnsFirstMatch(rows: seq<JsonDocument>, username: string, i: nat)
    requires i < |rows| && NoMatchBefore(rows, username, i)
    requires JsonDocumentToEntity(rows[i]).Some? && JsonDocumentToEntity(rows[i]).value.username == Some(username)
    ensures FindByUsername(rows, username) == JsonDocumentToEntity(rows[i])
  {
    if i > 0 {
      assert JsonDocumentToEntity(rows[0]).value.username != Some(username);
      assert rows[1..][i - 1] == rows[i];
      assert NoMatchBefore(rows[1..], username, i - 1) by {
        forall k | 0 <= k < i - 1
          ensures JsonDocumentToEntity(rows[1..][k]).Some?
                  && JsonDocumentToEntity(rows[1..][k]).value.username != Some(username)
        {
          assert rows[1..][k] == rows[k + 1];
        }
      }
      FindReturnsFirstMatch(rows[1..], username, i - 1);
    }
  }

  /** Where a matching row exists and every row before it decodes, the
      intended lookup and the loop as written give the same user. */
  lemma FindAgreesWithSelectOnMatch(rows: seq<JsonDocument>, username: string, i: nat)
    requires i < |rows| && NoMatchBefore(rows, username, i)
    requires JsonDocumentToEntity(rows[i]).Some? && JsonDocumentToEntity(rows[i]).value.username == Some(username)
    ensures SelectByUsername(rows, username, None) == Ok(FindByUsername(rows, username))
  {
    SelectReturnsFirstMatch(rows, username, None, i);
    FindReturnsFirstMatch(rows, username, i);
  }
}

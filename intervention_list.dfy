/** `activity.InterventionListActivity` of the Android client: the list of
    interventions shown on screen, one entry per intervention, each a map
    with the keys "code" and "data". */
module ClientActivity {
  import opened Wrappers

  /** One entry of the list; Java's HashMap allows a null value. */
  type Entry = map<string, Option<string>>

  /** The entry built for a code and its data. */
  function MakeEntry(code: string, data: Option<string>): (e: Entry)
    ensures e.Keys == {"code", "data"} && e["code"] == Some(code) && e["data"] == data
  {
    map["code" := Some(code), "data" := data]
  }

  /** Whether addInterventionInList inserts anything: a non-null, non-empty
      code. The data is not checked. */
  predicate Inserts(code: Option<string>) {
    code.Some? && |code.value| > 0
  }

  class InterventionListActivity {
    var listItem: seq<Entry>

    /** onCreate: a fresh, empty list, then three sample interventions. */
    constructor OnCreate()
      ensures listItem == [MakeEntry("1", Some("Inter1")),
                           MakeEntry("2", Some("Intervention 2")),
                           MakeEntry("3", Some("La mienne"))]
    {
      listItem := [];
      new;
      AddInterventionInList(Some("1"), Some("Inter1"));
      AddInterventionInList(Some("2"), Some("Intervention 2"));
      AddInterventionInList(Some("3"), Some("La mienne"));
    }

    /** addInterventionInList: a null or empty code leaves the list as it is;
        otherwise exactly one entry is appended after the existing ones. */
    method AddInterventionInList(code: Option<string>, data: Option<string>)
      modifies this
      ensures !Inserts(code) ==> listItem == old(listItem)
      ensures Inserts(code) ==> listItem == old(listItem) + [MakeEntry(code.value, data)]
    {
      if code.None? || |code.value| <= 0 {
        return;
      }
      var entry: Entry := map[];
      entry := entry["code" := code];
      entry := entry["data" := data];
      listItem := listItem + [entry];
    }
  }
}

/** `context.ItemsAdapter` of the Android client: a list adapter whose rows
    are the means of an intervention that were NOT refused. A display
    position therefore names the p-th visible mean, and the adapter maps it
    back to the mean and to its raw index in the full list. */
module ClientContext {
  import opened Wrappers
  import opened JavaValues
  import opened ClientModel

  /** 1 for a mean shown in the list, 0 for a refused one. */
  function Shown(m: ClientMean): nat {
    if m.refused then 0 else 1
  }

  /** How many means of `s` are shown. */
  function CountVisible(s: seq<ClientMean>): (n: nat)
    ensures n <= |s|
  {
    if s == [] then 0 else Shown(s[0]) + CountVisible(s[1..])
  }

  /** Counting an appended mean. */
  lemma {:induction false} CountVisibleSnoc(s: seq<ClientMean>, m: ClientMean)
    ensures CountVisible(s + [m]) == CountVisible(s) + Shown(m)
  {
    if s != [] {
      assert (s + [m])[1..] == s[1..] + [m];
      CountVisibleSnoc(s[1..], m);
    }
  }

  /** A prefix never shows more means than the whole list. */
  lemma {:induction false} CountVisiblePrefix(s: seq<ClientMean>, k: nat)
    requires k <= |s|
    ensures CountVisible(s[..k]) <= CountVisible(s)
    ensures k < |s| ==> CountVisible(s[..k]) + Shown(s[k]) <= CountVisible(s)
  {
    if k > 0 {
      assert s[..k][1..] == s[1..][..k - 1];
      CountVisiblePrefix(s[1..], k - 1);
    }
  }

  /** The raw index of the p-th (0-based) shown mean: a shown mean with
      exactly p shown means before it. */
  function NthVisibleIndex(s: seq<ClientMean>, p: nat): (j: nat)
    requires p < CountVisible(s)
    ensures j < |s| && !s[j].refused && CountVisible(s[..j]) == p
  {
    if !s[0].refused && p == 0 then 0
    else
      var j' := NthVisibleIndex(s[1..], p - Shown(s[0]));
      assert s[..j' + 1][1..] == s[1..][..j'];
      j' + 1
  }

  /** That index is the only one with this property. */
  lemma {:induction false} NthVisibleIndexUnique(s: seq<ClientMean>, p: nat, j: nat)
    requires j < |s| && !s[j].refused && CountVisible(s[..j]) == p
    ensures p < CountVisible(s) && NthVisibleIndex(s, p) == j
  {
    CountVisiblePrefix(s, j);
    if j > 0 {
      assert s[..j][1..] == s[1..][..j - 1];
      NthVisibleIndexUnique(s[1..], p - Shown(s[0]), j - 1);
    }
  }

  /** A reference definition of "the p-th shown mean", walking the list
      from the front as the adapter's loop does. */
  function NthVisible(s: seq<ClientMean>, p: int): (r: Option<ClientMean>)
    ensures r.Some? ==> r.value in s && !r.value.refused
  {
    if s == [] then None
    else if s[0].refused then NthVisible(s[1..], p)
    else if p == 0 then Some(s[0])
    else if p < 0 then None
    else NthVisible(s[1..], p - 1)
  }

  /** The walk finds a mean exactly for the positions 0 .. CountVisible - 1,
      and then the mean at NthVisibleIndex. */
  lemma {:induction false} NthVisibleAtIndex(s: seq<ClientMean>, p: int)
    ensures NthVisible(s, p).Some? <==> 0 <= p < CountVisible(s)
    ensures 0 <= p < CountVisible(s) ==> NthVisible(s, p) == Some(s[NthVisibleIndex(s, p)])
  {
    if s != [] {
      NthVisibleAtIndex(s[1..], p - Shown(s[0]));
    }
  }

  /** getMeanInList as a function of the adapter's list. */
  function MeanInList(meanList: Option<seq<ClientMean>>, position: int): (r: Option<ClientMean>)
    ensures meanList.None? ==> r.None?
    ensures r.Some? ==> r.value in meanList.value && !r.value.refused
  {
    if meanList.None? then None else NthVisible(meanList.value, position)
  }

  /** getMeanPositionInList as a function of the adapter's list. */
  function MeanPositionInList(meanList: Option<seq<ClientMean>>, position: int): (j: int)
    ensures j == -1 || (meanList.Some? && 0 <= j < |meanList.value|)
  {
    if meanList.None? then -1
    else if 0 <= position < CountVisible(meanList.value) then NthVisibleIndex(meanList.value, position)
    else -1
  }

  /** The two lookups agree: a raw index is found exactly when a mean is,
      and the mean is the one at that index; a found index holds a shown
      mean with exactly `position` shown means before it. */
  lemma LookupsAgree(meanList: Option<seq<ClientMean>>, position: int)
    ensures MeanPositionInList(meanList, position) == -1 <==> MeanInList(meanList, position).None?
    ensures var j := MeanPositionInList(meanList, position);
            j >= 0 ==> && MeanInList(meanList, position) == Some(meanList.value[j])
                       && !meanList.value[j].refused
                       && CountVisible(meanList.value[..j]) == position
    ensures MeanPositionInList(meanList, position) == -1 <==>
              meanList.None? || position < 0 || position >= CountVisible(meanList.value)
  {
    if meanList.Some? {
      NthVisibleAtIndex(meanList.value, position);
    }
  }

  /** The callback the adapter asks for a refresh (`command.ListAdapterCommand`
      is not part of this model): it counts the requests. */
  class ListAdapterCommand {
    var refreshes: nat

    constructor ()
      ensures refreshes == 0
    {
      refreshes := 0;
    }

    method RefreshList()
      modifies this
      ensures refreshes == old(refreshes) + 1
    {
      refreshes := refreshes + 1;
    }
  }

  /** The adapter's state. The image type is left abstract. */
  class ItemsAdapter<Image> {
    var titles: seq<string>
    var images: seq<Image>
    var idIntervention: Option<string>
    var meanList: Option<seq<ClientMean>>
    var adapterCommand: ListAdapterCommand?

    /** The constructors taking an array of titles: no mean list. */
    constructor FromTitles(objects: seq<string>, images: seq<Image>, cmd: ListAdapterCommand?)
      ensures titles == objects && this.images == images
      ensures idIntervention.None? && meanList.None? && adapterCommand == cmd
    {
      titles := objects;
      this.images := images;
      idIntervention := None;
      meanList := None;
      adapterCommand := cmd;
    }

    /** The constructors taking a list of titles, an intervention id and the
        intervention's means. */
    constructor FromMeans(objects: seq<string>, images: seq<Image>, idInter: Option<string>,
                          xtMeanList: Option<seq<ClientMean>>, cmd: ListAdapterCommand?)
      ensures titles == objects && this.images == images
      ensures idIntervention == idInter && meanList == xtMeanList && adapterCommand == cmd
    {
      titles := objects;
      this.images := images;
      idIntervention := idInter;
      meanList := xtMeanList;
      adapterCommand := cmd;
    }

    /** remove(position): nothing is removed. A position below the number of
        titles (a negative one included) asks the command, if there is one,
        for a refresh. */
    method Remove(position: Int32)
      modifies adapterCommand
      ensures titles == old(titles) && images == old(images) && meanList == old(meanList)
      ensures adapterCommand != null ==>
                adapterCommand.refreshes == old(adapterCommand.refreshes) + (if position < |titles| then 1 else 0)
    {
      if position >= |titles| {
        return;
      }
      if adapterCommand != null {
        adapterCommand.RefreshList();
      }
    }

    /** getMeanInList: the mean shown at a display position, or null. */
    method GetMeanInList(position: Int32) returns (r: Option<ClientMean>)
      ensures r == MeanInList(meanList, position)
    {
      if meanList.None? {
        return None;
      }
      var s := meanList.value;
      var i := 0;
      var k := 0;
      while k < |s|
        invariant 0 <= k <= |s|
        invariant position < 0 ==> i == 0
        invariant 0 <= position ==> 0 <= i <= position
        invariant NthVisible(s, position) == NthVisible(s[k..], position - i)
      {
        assert s[k..][0] == s[k] && s[k..][1..] == s[k + 1..];
        var m := s[k];
        if !m.refused {
          if i == position {
            return Some(m);
          } else if i > position {
            return None;
          }
          i := i + 1;
        }
        k := k + 1;
      }
      r := None;
    }

    /** getMeanPositionInList: the raw index of the mean shown at a display
        position, or -1. */
    method GetMeanPositionInList(position: Int32) returns (r: int)
      ensures r == MeanPositionInList(meanList, position)
    {
      if meanList.None? {
        return -1;
      }
      var s := meanList.value;
      var i := 0;
      var j := 0;
      while j < |s|
        invariant 0 <= j <= |s|
        invariant i == CountVisible(s[..j])
        invariant position < 0 ==> i == 0
        invariant 0 <= position ==> i <= position
      {
        var m := s[j];
        if !m.refused {
          if i == position {
            NthVisibleIndexUnique(s, position, j);
            return j;
          } else if i > position {
            return -1;
          }
          i := i + 1;
        }
        assert s[..j + 1] == s[..j] + [m];
        CountVisibleSnoc(s[..j], m);
        j := j + 1;
      }
      assert s[..j] == s;
      r := -1;
    }
  }
}

/** `PhotoSelectionActivity`: picks sample photos by category and returns the
    selected ids to the profile screen. */
module PhotoSelection {
  import opened JavaLang
  import opened JavaUtil
  import opened SelectionAdapter
  import Drawables

  /** One public field of `R.drawable`: its name and its resource id. The
      fields the class reflects over are given to the screen as a list. */
  datatype DrawableField = DrawableField(name: string, resourceId: int)

  /** The prefix of the "Default Images" category. */
  const DefaultPrefix: string := "my_img"
  const SelectAtLeastOne: string := "Please select at least one photo"

  /** The resource ids of the fields whose name starts with `prefix`, in
      field order. */
  function WithPrefix(fields: seq<DrawableField>, prefix: string): (ids: seq<int>)
    ensures |ids| <= |fields|
    ensures forall f :: f in fields && StartsWith(f.name, prefix) ==> f.resourceId in ids
    ensures forall id :: id in ids ==> exists f :: f in fields && StartsWith(f.name, prefix) && f.resourceId == id
  {
    if fields == [] then []
    else
      var front := fields[..|fields| - 1];
      var last := fields[|fields| - 1];
      assert fields == front + [last];
      WithPrefix(front, prefix) + (if StartsWith(last.name, prefix) then [last.resourceId] else [])
  }

  /** The scan keeps field order and skips no matching field: the ids are
      those of the matching fields, taken at strictly increasing indexes,
      and every matching field's index is among them. */
  lemma {:induction false} WithPrefixInOrder(fields: seq<DrawableField>, prefix: string) returns (idx: seq<int>)
    ensures |idx| == |WithPrefix(fields, prefix)|
    ensures forall k :: 0 <= k < |idx| ==>
              0 <= idx[k] < |fields| && StartsWith(fields[idx[k]].name, prefix)
              && fields[idx[k]].resourceId == WithPrefix(fields, prefix)[k]
    ensures forall i, j :: 0 <= i < j < |idx| ==> idx[i] < idx[j]
    ensures forall i :: 0 <= i < |fields| && StartsWith(fields[i].name, prefix) ==> i in idx
  {
    if fields == [] {
      return [];
    }
    var n := |fields| - 1;
    var sub := WithPrefixInOrder(fields[..n], prefix);
    assert WithPrefix(fields, prefix) == WithPrefix(fields[..n], prefix)
                                         + (if StartsWith(fields[n].name, prefix) then [fields[n].resourceId] else []);
    idx := if StartsWith(fields[n].name, prefix) then sub + [n] else sub;
    FieldIndexesStep(fields, prefix, sub, WithPrefix(fields[..n], prefix), idx, WithPrefix(fields, prefix));
  }

  /** One step of the induction above: the indexes for all but the last
      field, extended by the last one when its name matches. */
  lemma FieldIndexesStep(fields: seq<DrawableField>, prefix: string, sub: seq<int>, frontIds: seq<int>,
                         idx: seq<int>, ids: seq<int>)
    requires fields != []
    requires |sub| == |frontIds|
    requires forall k :: 0 <= k < |sub| ==>
               0 <= sub[k] < |fields| - 1 && StartsWith(fields[..|fields| - 1][sub[k]].name, prefix)
               && fields[..|fields| - 1][sub[k]].resourceId == frontIds[k]
    requires forall i, j :: 0 <= i < j < |sub| ==> sub[i] < sub[j]
    requires forall i :: 0 <= i < |fields| - 1 && StartsWith(fields[..|fields| - 1][i].name, prefix) ==> i in sub
    requires var last := fields[|fields| - 1];
             && ids == frontIds + (if StartsWith(last.name, prefix) then [last.resourceId] else [])
             && idx == if StartsWith(last.name, prefix) then sub + [|fields| - 1] else sub
    ensures |idx| == |ids|
    ensures forall k :: 0 <= k < |idx| ==>
              0 <= idx[k] < |fields| && StartsWith(fields[idx[k]].name, prefix) && fields[idx[k]].resourceId == ids[k]
    ensures forall i, j :: 0 <= i < j < |idx| ==> idx[i] < idx[j]
    ensures forall i :: 0 <= i < |fields| && StartsWith(fields[i].name, prefix) ==> i in idx
  {
    var n := |fields| - 1;
    forall k | 0 <= k < |idx|
      ensures 0 <= idx[k] < |fields| && StartsWith(fields[idx[k]].name, prefix) && fields[idx[k]].resourceId == ids[k]
    {
      if k < |sub| {
        assert idx[k] == sub[k] && fields[sub[k]] == fields[..n][sub[k]];
      }
    }
    forall i | 0 <= i < |fields| && StartsWith(fields[i].name, prefix)
      ensures i in idx
    {
      if i < n {
        assert fields[..n][i] == fields[i];
        assert i in sub;
      } else {
        assert idx[|sub|] == i;
      }
    }
  }

  lemma WithPrefixStep(fields: seq<DrawableField>, k: int, prefix: string)
    requires 0 <= k < |fields|
    ensures WithPrefix(fields[..k + 1], prefix)
            == WithPrefix(fields[..k], prefix) + (if StartsWith(fields[k].name, prefix) then [fields[k].resourceId] else [])
  {
    assert fields[..k + 1][..k] == fields[..k];
  }

  /** The list `populatePhotoList` leaves: the ids already there followed by
      the matching ones, or the four defaults when that is still empty. */
  function AfterPopulate(before: seq<int>, fields: seq<DrawableField>, prefix: string): (r: seq<int>)
    ensures before + WithPrefix(fields, prefix) != [] ==> r == before + WithPrefix(fields, prefix)
    ensures before + WithPrefix(fields, prefix) == [] ==> r == Drawables.Defaults
    ensures r != []
  {
    var scanned := before + WithPrefix(fields, prefix);
    if scanned == [] then Drawables.Defaults else scanned
  }

  /** The (folder, prefix) pair of spinner positions 1 to 5, only used in
      the toast of `populateDrawablesByPrefix`. */
  function CategoryFolder(position: int): (r: (string, string))
    requires 1 <= position <= 5
    ensures r.1 == "image" <==> position == 4
    ensures position != 4 ==> r.1 == "Image_"
    ensures |r.0| > 4 && r.0[|r.0| - 4..] == "_cat"
  {
    if position == 1 then ("cute_cat", "Image_")
    else if position == 2 then ("house_cat", "Image_")
    else if position == 3 then ("pet_cat", "Image_")
    else if position == 4 then ("domestic_cat", "image")
    else ("ragdoll_cat", "Image_")
  }

  /** The toast names the folder and then the prefix, after a fixed
      opening and between fixed words. */
  function LimitationToast(folder: string, prefix: string): (r: string)
    ensures StartsWith(r, "In a real app, this would load images from the ")
    ensures |r| == |"In a real app, this would load images from the "| + |folder| + |" folder with prefix "| + |prefix|
    ensures r[|"In a real app, this would load images from the "|..][..|folder|] == folder
    ensures r[|r| - |prefix|..] == prefix
  {
    "In a real app, this would load images from the " + folder + " folder with prefix " + prefix
  }

  class PhotoSelectionScreen {
    const drawables: seq<DrawableField>
    const availablePhotos: ArrayList<int>
    const selectedPhotos: ArrayList<int>
    const adapter: PhotoSelectionAdapter

    /** The adapter shares both lists with the screen; the selection never
        holds an id twice. */
    ghost predicate Valid()
      reads this, selectedPhotos
    {
      && availablePhotos != selectedPhotos
      && adapter.photoList == availablePhotos
      && adapter.selectedPhotos == selectedPhotos
      && NoDuplicates(selectedPhotos.items)
    }

    /** `onCreate`: empty lists, the default category, and an adapter over
        the same two lists. */
    constructor(drawables: seq<DrawableField>)
      ensures Valid()
      ensures this.drawables == drawables
      ensures fresh(availablePhotos) && fresh(selectedPhotos) && fresh(adapter)
      ensures availablePhotos.items == AfterPopulate([], drawables, DefaultPrefix)
      ensures selectedPhotos.items == []
    {
      this.drawables := drawables;
      var available := new ArrayList<int>();
      var selected := new ArrayList<int>();
      availablePhotos := available;
      selectedPhotos := selected;
      adapter := new PhotoSelectionAdapter(available, selected);
      new;
      PopulatePhotoList(DefaultPrefix);
    }

    /** `populatePhotoList`: appends the ids of the fields whose name starts
        with `prefix`, then the four defaults if the list is still empty. */
    method PopulatePhotoList(prefix: string)
      modifies availablePhotos
      ensures availablePhotos.items == AfterPopulate(old(availablePhotos.items), drawables, prefix)
    {
      var fields := drawables;
      ghost var before := availablePhotos.items;
      for k := 0 to |fields|
        invariant availablePhotos.items == before + WithPrefix(fields[..k], prefix)
      {
        WithPrefixStep(fields, k, prefix);
        if StartsWith(fields[k].name, prefix) {
          availablePhotos.Add(fields[k].resourceId);
        }
      }
      assert fields[..|fields|] == fields;
      ghost var scanned := availablePhotos.items;
      if availablePhotos.IsEmpty() {
        AddDefaults();
      }
      assert scanned == [] ==> availablePhotos.items == Drawables.Defaults;
    }

    /** The four `availablePhotos.add(R.drawable.my_imgN)` calls. */
    method AddDefaults()
      modifies availablePhotos
      ensures availablePhotos.items == old(availablePhotos.items) + Drawables.Defaults
    {
      availablePhotos.Add(Drawables.MyImg1);
      availablePhotos.Add(Drawables.MyImg2);
      availablePhotos.Add(Drawables.MyImg3);
      availablePhotos.Add(Drawables.MyImg4);
    }

    /** `populateDrawablesByPrefix`: ignores its arguments except in the
        toast and appends the four defaults. */
    method PopulateDrawablesByPrefix(folder: string, prefix: string) returns (toast: string)
      modifies availablePhotos
      ensures availablePhotos.items == old(availablePhotos.items) + Drawables.Defaults
      ensures toast == LimitationToast(folder, prefix)
    {
      AddDefaults();
      toast := LimitationToast(folder, prefix);
    }

    /** The spinner's `onItemSelected`: both lists are cleared first;
        position 0 scans for "my_img", positions 1 to 5 give the four
        defaults, any other position leaves nothing available. */
    method OnItemSelected(position: int) returns (toast: Option<string>)
      requires Valid()
      modifies availablePhotos, selectedPhotos
      ensures Valid()
      ensures selectedPhotos.items == []
      ensures position == 0 ==> availablePhotos.items == AfterPopulate([], drawables, DefaultPrefix) && toast == None
      ensures 1 <= position <= 5 ==>
                availablePhotos.items == Drawables.Defaults
                && toast == Some(LimitationToast(CategoryFolder(position).0, CategoryFolder(position).1))
      ensures (position < 0 || position > 5) ==> availablePhotos.items == [] && toast == None
    {
      availablePhotos.Clear();
      selectedPhotos.Clear();
      toast := None;
      if position == 0 {
        PopulatePhotoList(DefaultPrefix);
      } else if 1 <= position <= 5 {
        var (folder, prefix) := CategoryFolder(position);
        var t := PopulateDrawablesByPrefix(folder, prefix);
        toast := Some(t);
      }
    }

    /** A click on a grid cell, through the adapter, changes the screen's own
        selection list and keeps it free of duplicates. */
    method OnPhotoClicked(photoResId: int) returns (checked: bool)
      requires Valid()
      modifies selectedPhotos
      ensures Valid()
      ensures selectedPhotos.items == ToggleMembership(old(selectedPhotos.items), photoResId)
      ensures checked == (photoResId in selectedPhotos.items)
    {
      checked := adapter.OnClick(photoResId);
    }

    /** The upload button: no result for an empty selection, otherwise a new
        list holding the selected ids in selection order. */
    method OnUploadClicked() returns (result: Option<ArrayList<int>>, toast: Option<string>)
      ensures selectedPhotos.items == [] ==> result.None? && toast == Some(SelectAtLeastOne)
      ensures selectedPhotos.items != [] ==>
                result.Some? && fresh(result.value) && result.value != selectedPhotos
                && result.value.items == selectedPhotos.items && toast == None
    {
      if selectedPhotos.IsEmpty() {
        return None, Some(SelectAtLeastOne);
      }
      var copy := new ArrayList<int>.Copy(selectedPhotos.items);
      return Some(copy), None;
    }
  }
}

/** `PhotoSelectionAdapter`: the grid of sample photos; a click toggles the
    photo's id in the selection list it shares with its activity. */
module SelectionAdapter {
  import opened JavaUtil

  class PhotoSelectionAdapter {
    /** Both lists are the activity's own objects, held by reference. */
    const photoList: ArrayList<int>
    const selectedPhotos: ArrayList<int>

    constructor(photoList: ArrayList<int>, selectedPhotos: ArrayList<int>)
      ensures this.photoList == photoList && this.selectedPhotos == selectedPhotos
    {
      this.photoList := photoList;
      this.selectedPhotos := selectedPhotos;
    }

    /** One grid cell per photo id. */
    function GetCount(): (n: int)
      reads this, photoList
      ensures n == |photoList.items|
    {
      photoList.Size()
    }

    function GetItem(position: int): (id: int)
      requires 0 <= position < |photoList.items|
      reads this, photoList
      ensures id == photoList.items[position]
    {
      photoList.items[position]
    }

    /** The item id is the position itself. */
    function GetItemId(position: int): (id: int)
      ensures id == position
    {
      position
    }

    /** The check box state set by `getView`: whether the cell's id is in
        the selection. */
    function IsChecked(position: int): (checked: bool)
      requires 0 <= position < |photoList.items|
      reads this, photoList, selectedPhotos
      ensures checked <==> IndexOf(selectedPhotos.items, GetItem(position)) >= 0
    {
      selectedPhotos.Contains(photoList.items[position])
    }

    /** The cell's click listener: removes the first occurrence of the id if
        it is selected, else appends it; the returned check box state is the
        opposite of the state before the click. */
    method OnClick(photoResId: int) returns (checked: bool)
      modifies selectedPhotos
      ensures checked == (photoResId !in old(selectedPhotos.items))
      ensures selectedPhotos.items == ToggleMembership(old(selectedPhotos.items), photoResId)
      ensures NoDuplicates(old(selectedPhotos.items)) ==>
                NoDuplicates(selectedPhotos.items) && checked == (photoResId in selectedPhotos.items)
      ensures photoList != selectedPhotos && NoDuplicates(old(selectedPhotos.items)) ==>
                forall p :: 0 <= p < |photoList.items| && photoList.items[p] == photoResId ==> IsChecked(p) == checked
    {
      if NoDuplicates(selectedPhotos.items) {
        ToggleFlipsMembership(selectedPhotos.items, photoResId);
      }
      if selectedPhotos.Contains(photoResId) {
        var _ := selectedPhotos.Remove(photoResId);
        checked := false;
      } else {
        selectedPhotos.Add(photoResId);
        checked := true;
      }
    }
  }

  /** The check box can disagree with the list once the list holds the same
      id twice: one click removes only one of them, yet the box is cleared. */
  lemma ClickWithDuplicateLeavesIdSelected()
    ensures ToggleMembership([7, 7], 7) == [7]
    ensures 7 in ToggleMembership([7, 7], 7)
  {
    assert IndexOf([7, 7], 7) == 0;
    assert [7, 7][1..] == [7];
  }
}

/** `User`: a name, a profile image and a gallery of photos. */
module Users {
  import opened JavaLang
  import opened JavaUtil
  import opened UserPhotos

  class User {
    var name: Option<string>
    var imageResourceId: int
    var userPhotos: seq<UserPhoto>

    constructor(name: Option<string>, imageResourceId: int)
      ensures this.name == name && this.imageResourceId == imageResourceId
      ensures userPhotos == []
    {
      this.name := name;
      this.imageResourceId := imageResourceId;
      userPhotos := [];
    }

    method AddPhoto(photo: UserPhoto)
      modifies this`userPhotos
      ensures userPhotos == old(userPhotos) + [photo]
    {
      userPhotos := userPhotos + [photo];
    }

    /** `List.remove(Object)` with `UserPhoto`'s inherited identity `equals`:
        the first occurrence of this very object goes, and an absent photo
        leaves the gallery as it was. */
    method RemovePhoto(photo: UserPhoto)
      modifies this`userPhotos
      ensures photo !in old(userPhotos) ==> userPhotos == old(userPhotos)
      ensures photo in old(userPhotos) ==> |userPhotos| == |old(userPhotos)| - 1
      ensures userPhotos == RemoveFirst(old(userPhotos), photo)
    {
      userPhotos := RemoveFirst(userPhotos, photo);
    }

    function GetPhotoCount(): (n: int)
      reads this
      ensures n == |userPhotos|
    {
      |userPhotos|
    }

    /** Adding a photo that was not in the gallery and removing it again
        restores the gallery. */
    method AddThenRemove(photo: UserPhoto)
      requires photo !in userPhotos
      modifies this`userPhotos
      ensures userPhotos == old(userPhotos)
    {
      AddPhoto(photo);
      RemovePhoto(photo);
      RemoveFirstOfAppended(old(userPhotos), photo);
    }
  }
}

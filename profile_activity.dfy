/** `ProfileActivity`: a user's gallery, kept in a list that the screen edits
    in place (drag to reorder, delete, like, add from samples, gallery or
    camera) and saves under a per-user key after every edit. */
module Profile {
  import opened JavaLang
  import opened UserPhotos
  import Drawables

  /** `PHOTOS_KEY`; the key of a user's gallery is `PHOTOS_KEY + "_" + userName`. */
  const PhotosKey: string := "user_photos"

  function StorageKey(userName: string): (k: string)
    ensures StartsWith(k, "user_photos_") && k[|"user_photos_"|..] == userName
  {
    PhotosKey + "_" + userName
  }

  /** Two users never share a gallery key. */
  lemma StorageKeyInjective(a: string, b: string)
    requires StorageKey(a) == StorageKey(b)
    ensures a == b
  {
    assert a == StorageKey(a)[|"user_photos_"|..];
  }

  /** The descriptions `addSamplePhotos` gives the four default photos; the
      third uses the one-argument constructor, hence the empty description. */
  const SampleDescriptions: seq<string> := ["My first photo", "Another cute cat", "", "Just chillin'"]

  const GalleryDescription: string := "Photo from gallery"
  const CameraDescription: string := "Photo from camera"

  /** The fallback of `getFileNameFromUri`: the part of the path after its
      last '/', or the whole path when it has none. */
  function FileNameFromPath(path: string): (name: string)
    ensures '/' !in name
    ensures |name| <= |path| && name == path[|path| - |name|..]
    ensures |name| < |path| ==> path[|path| - |name| - 1] == '/'
    ensures '/' !in path ==> name == path
  {
    var cut := LastIndexOf(path, '/');
    if cut != -1 then path[cut + 1..] else path
  }

  /** A photo just made by `new UserPhoto(resourceId[, description])`. */
  ghost predicate IsNewSample(p: UserPhoto, resourceId: int, description: string, now: int)
    reads p
  {
    && p.imageResourceId == resourceId && p.description == Some(description)
    && p.timestamp == now && p.LikesOf() == Likes([], 0)
    && p.filePath == None && p.storageUrl == None && p.firestoreId == None
    && p.authorId == None && p.authorName == None
  }

  /** A photo just made from a file path, with no author set. */
  ghost predicate IsNewFilePhoto(p: UserPhoto, path: Option<string>, description: string, now: int)
    reads p
  {
    && p.imageResourceId == 0 && p.filePath == path && p.description == Some(description)
    && p.timestamp == now && p.LikesOf() == Likes([], 0)
    && p.storageUrl == None && p.firestoreId == None
    && p.authorId == None && p.authorName == None
  }

  /** How far `openCamera` gets: creating the file throws (an
      `IOException` or another exception, with its message), the file
      provider throws for the created path, the launch throws, or the
      camera is launched. */
  datatype CameraSetup =
    | CreateFailed(ioException: bool, message: Option<string>)
    | UriFailed(path: string, message: Option<string>)
    | LaunchFailed(path: string, message: Option<string>)
    | Launched(path: string)

  /** What the gallery activity hands back: no image, a file copied into app
      storage, or an `IOException` while copying. */
  datatype GalleryPick = NoImage | Copied(path: string) | CopyFailed

  class ProfileScreen {
    var userName: string
    var userPhotoList: seq<UserPhoto>
    /** The "photos_prefs" preferences file: key to saved gallery. */
    var prefs: map<string, seq<UserPhoto>>
    var currentPhotoPath: Option<string>
    var hasCurrentPhotoUri: bool

    constructor(userName: string, prefs: map<string, seq<UserPhoto>>)
      ensures this.userName == userName && this.prefs == prefs
      ensures userPhotoList == [] && currentPhotoPath == None && !hasCurrentPhotoUri
    {
      this.userName := userName;
      this.prefs := prefs;
      userPhotoList := [];
      currentPhotoPath := None;
      hasCurrentPhotoUri := false;
    }

    /** `loadPhotos`: the gallery saved under this user's key, or an empty
        list when nothing is stored. */
    function LoadPhotos(): (photos: seq<UserPhoto>)
      reads this
      ensures StorageKey(userName) !in prefs ==> photos == []
      ensures StorageKey(userName) in prefs ==> photos == prefs[StorageKey(userName)]
    {
      var key := StorageKey(userName);
      if key in prefs then prefs[key] else []
    }

    /** `savePhotos`: writes the current list under the same key `LoadPhotos` reads. */
    method SavePhotos()
      modifies this`prefs
      ensures prefs == old(prefs)[StorageKey(userName) := userPhotoList]
      ensures LoadPhotos() == userPhotoList
    {
      prefs := prefs[StorageKey(userName) := userPhotoList];
    }

    /** The gallery part of `onCreate`: the saved photos, or the four samples
        when nothing (or an empty list) was saved. */
    method OnCreate(now: int)
      modifies this`userPhotoList, this`prefs
      ensures old(LoadPhotos()) != [] ==> userPhotoList == old(LoadPhotos()) && prefs == old(prefs)
      ensures old(LoadPhotos()) == [] ==>
                && |userPhotoList| == 4
                && (forall k :: 0 <= k < 4 ==>
                      fresh(userPhotoList[k])
                      && IsNewSample(userPhotoList[k], Drawables.Defaults[k], SampleDescriptions[k], now))
                && prefs == old(prefs)[StorageKey(userName) := userPhotoList]
    {
      userPhotoList := LoadPhotos();
      if userPhotoList == [] {
        AddSamplePhotos(now);
      }
    }

    /** `addSamplePhotos`: appends the four default photos, then saves. */
    method AddSamplePhotos(now: int)
      modifies this`userPhotoList, this`prefs
      ensures |userPhotoList| == |old(userPhotoList)| + 4
      ensures userPhotoList[..|old(userPhotoList)|] == old(userPhotoList)
      ensures forall i :: |old(userPhotoList)| <= i < |userPhotoList| ==>
                fresh(userPhotoList[i])
                && IsNewSample(userPhotoList[i], Drawables.Defaults[i - |old(userPhotoList)|],
                               SampleDescriptions[i - |old(userPhotoList)|], now)
      ensures prefs == old(prefs)[StorageKey(userName) := userPhotoList]
    {
      var p1 := new UserPhoto.FromResourceWithDescription(Drawables.MyImg1, Some("My first photo"), now);
      var p2 := new UserPhoto.FromResourceWithDescription(Drawables.MyImg2, Some("Another cute cat"), now);
      var p3 := new UserPhoto.FromResource(Drawables.MyImg3, now);
      var p4 := new UserPhoto.FromResourceWithDescription(Drawables.MyImg4, Some("Just chillin'"), now);
      userPhotoList := userPhotoList + [p1, p2, p3, p4];
      SavePhotos();
    }

    /** The sample-selection result: one new photo per selected id, in
        selection order, after the existing photos; then save and report. */
    method OnPhotosSelected(resultOk: bool, selected: Option<seq<int>>, now: int) returns (toast: Option<string>)
      modifies this`userPhotoList, this`prefs
      ensures !(resultOk && selected.Some? && selected.value != []) ==>
                userPhotoList == old(userPhotoList) && prefs == old(prefs) && toast == None
      ensures resultOk && selected.Some? && selected.value != [] ==>
                && |userPhotoList| == |old(userPhotoList)| + |selected.value|
                && userPhotoList[..|old(userPhotoList)|] == old(userPhotoList)
                && (forall i :: |old(userPhotoList)| <= i < |userPhotoList| ==>
                      fresh(userPhotoList[i])
                      && IsNewSample(userPhotoList[i], selected.value[i - |old(userPhotoList)|], "", now))
                && prefs == old(prefs)[StorageKey(userName) := userPhotoList]
                && toast == Some(IntToString(|selected.value|) + " photos added")
    {
      toast := None;
      if resultOk && selected.Some? && selected.value != [] {
        var ids := selected.value;
        var n0 := |userPhotoList|;
        for k := 0 to |ids|
          invariant |userPhotoList| == n0 + k
          invariant userPhotoList[..n0] == old(userPhotoList) && prefs == old(prefs)
          invariant forall i :: n0 <= i < |userPhotoList| ==>
                      fresh(userPhotoList[i]) && IsNewSample(userPhotoList[i], ids[i - n0], "", now)
        {
          var photo := new UserPhoto.FromResource(ids[k], now);
          assert (userPhotoList + [photo])[..n0] == userPhotoList[..n0];
          userPhotoList := userPhotoList + [photo];
        }
        SavePhotos();
        toast := Some(IntToString(|ids|) + " photos added");
      }
    }

    /** The gallery result. The source calls a two-argument
        `UserPhoto(String, String)` constructor; it is modelled as the
        file-path constructor with no author. */
    method OnGalleryResult(resultOk: bool, pick: GalleryPick, now: int) returns (toast: Option<string>)
      modifies this`userPhotoList, this`prefs
      ensures resultOk && pick.Copied? ==>
                && |userPhotoList| == |old(userPhotoList)| + 1
                && userPhotoList[..|old(userPhotoList)|] == old(userPhotoList)
                && fresh(userPhotoList[|old(userPhotoList)|])
                && IsNewFilePhoto(userPhotoList[|old(userPhotoList)|], Some(pick.path), GalleryDescription, now)
                && prefs == old(prefs)[StorageKey(userName) := userPhotoList]
                && toast == Some("Photo added from gallery")
      ensures !(resultOk && pick.Copied?) ==> userPhotoList == old(userPhotoList) && prefs == old(prefs)
      ensures resultOk && pick.CopyFailed? ==> toast == Some("Failed to save image")
      ensures !resultOk || pick.NoImage? ==> toast == None
    {
      toast := None;
      if resultOk && !pick.NoImage? {
        if pick.Copied? {
          var photo := new UserPhoto.FromFile(Some(pick.path), Some(GalleryDescription), None, None, now);
          userPhotoList := userPhotoList + [photo];
          SavePhotos();
          toast := Some("Photo added from gallery");
        } else {
          toast := Some("Failed to save image");
        }
      }
    }

    /** `openCamera`: creates the capture file, remembers its path, asks
        the file provider for its URI, and launches the camera. Each step
        after the first runs only if the one before did not throw; a throw
        is caught and reported, and what was assigned before it stays. */
    method OpenCamera(setup: CameraSetup) returns (launched: bool, toast: Option<string>)
      modifies this`currentPhotoPath, this`hasCurrentPhotoUri
      ensures launched <==> setup.Launched?
      ensures launched <==> toast.None?
      ensures setup.CreateFailed? ==>
                && currentPhotoPath == old(currentPhotoPath) && hasCurrentPhotoUri == old(hasCurrentPhotoUri)
                && toast == Some((if setup.ioException then "Error creating image file: " else "Camera error: ")
                                 + Show(setup.message))
      ensures setup.UriFailed? ==>
                && currentPhotoPath == Some(setup.path) && hasCurrentPhotoUri == old(hasCurrentPhotoUri)
                && toast == Some("Camera error: " + Show(setup.message))
      ensures setup.LaunchFailed? ==>
                currentPhotoPath == Some(setup.path) && hasCurrentPhotoUri
                && toast == Some("Camera error: " + Show(setup.message))
      ensures setup.Launched? ==> currentPhotoPath == Some(setup.path) && hasCurrentPhotoUri
    {
      launched, toast := false, None;
      match setup
      case CreateFailed(ioException, message) =>
        toast := Some((if ioException then "Error creating image file: " else "Camera error: ") + Show(message));
      case UriFailed(path, message) =>
        currentPhotoPath := Some(path);
        toast := Some("Camera error: " + Show(message));
      case LaunchFailed(path, message) =>
        currentPhotoPath := Some(path);
        hasCurrentPhotoUri := true;
        toast := Some("Camera error: " + Show(message));
      case Launched(path) =>
        currentPhotoPath := Some(path);
        hasCurrentPhotoUri := true;
        launched := true;
    }

    /** The camera result: a successful capture with a photo URI adds a photo
        for the remembered path; an unsuccessful one only reports. */
    method OnCameraResult(success: bool, now: int) returns (toast: Option<string>)
      modifies this`userPhotoList, this`prefs
      ensures success && hasCurrentPhotoUri ==>
                && |userPhotoList| == |old(userPhotoList)| + 1
                && userPhotoList[..|old(userPhotoList)|] == old(userPhotoList)
                && fresh(userPhotoList[|old(userPhotoList)|])
                && IsNewFilePhoto(userPhotoList[|old(userPhotoList)|], currentPhotoPath, CameraDescription, now)
                && prefs == old(prefs)[StorageKey(userName) := userPhotoList]
                && toast == Some("Photo captured and saved successfully")
      ensures !(success && hasCurrentPhotoUri) ==> userPhotoList == old(userPhotoList) && prefs == old(prefs)
      ensures !success ==> toast == Some("Failed to capture photo")
      ensures success && !hasCurrentPhotoUri ==> toast == None
    {
      if success && hasCurrentPhotoUri {
        var photo := new UserPhoto.FromFile(currentPhotoPath, Some(CameraDescription), None, None, now);
        userPhotoList := userPhotoList + [photo];
        SavePhotos();
        toast := Some("Photo captured and saved successfully");
      } else if !success {
        toast := Some("Failed to capture photo");
      } else {
        toast := None;
      }
    }

    /** The drag callback `onMove`: `Collections.swap` of the two positions,
        then save. */
    method OnMove(fromPosition: int, toPosition: int) returns (moved: bool)
      requires 0 <= fromPosition < |userPhotoList| && 0 <= toPosition < |userPhotoList|
      modifies this`userPhotoList, this`prefs
      ensures moved
      ensures |userPhotoList| == |old(userPhotoList)|
      ensures userPhotoList[fromPosition] == old(userPhotoList)[toPosition]
      ensures userPhotoList[toPosition] == old(userPhotoList)[fromPosition]
      ensures forall k :: 0 <= k < |userPhotoList| && k != fromPosition && k != toPosition ==>
                userPhotoList[k] == old(userPhotoList)[k]
      ensures multiset(userPhotoList) == multiset(old(userPhotoList))
      ensures prefs == old(prefs)[StorageKey(userName) := userPhotoList]
    {
      var a := userPhotoList[fromPosition];
      userPhotoList := userPhotoList[fromPosition := userPhotoList[toPosition]][toPosition := a];
      SavePhotos();
      moved := true;
    }

    /** `onDeleteClick`: removes the element at `position` (deleting the
        backing file is not modelled), saves, and reports the deletion. */
    method OnDeleteClick(photo: UserPhoto, position: int) returns (toast: string)
      requires 0 <= position < |userPhotoList|
      modifies this`userPhotoList, this`prefs
      ensures toast == "Photo deleted"
      ensures |userPhotoList| == |old(userPhotoList)| - 1
      ensures userPhotoList == old(userPhotoList)[..position] + old(userPhotoList)[position + 1..]
      ensures multiset(userPhotoList) == multiset(old(userPhotoList)) - multiset{old(userPhotoList)[position]}
      ensures prefs == old(prefs)[StorageKey(userName) := userPhotoList]
    {
      assert userPhotoList == userPhotoList[..position] + [userPhotoList[position]] + userPhotoList[position + 1..];
      userPhotoList := userPhotoList[..position] + userPhotoList[position + 1..];
      SavePhotos();
      toast := "Photo deleted";
    }

    /** `onLikeClick`: toggles the current user's like. `toggleLike` always
        reports a change, so the gallery is always saved; the message says
        whether the user is now among the likers. */
    method OnLikeClick(photo: UserPhoto, position: int) returns (toast: string)
      modifies this`prefs, photo`likedByUsers, photo`likeCount
      ensures photo.LikesOf() == Toggled(old(photo.LikesOf()), userName)
      ensures toast == (if userName in photo.likedByUsers then "Photo liked" else "Like removed")
      ensures Consistent(old(photo.LikesOf())) ==>
                Consistent(photo.LikesOf()) && (toast == "Photo liked" <==> userName !in old(photo.likedByUsers))
      ensures prefs == old(prefs)[StorageKey(userName) := userPhotoList]
    {
      if Consistent(photo.LikesOf()) {
        TogglePreservesConsistency(photo.LikesOf(), userName);
      }
      var likeToggled := photo.ToggleLike(userName);
      if likeToggled {
        SavePhotos();
        toast := if photo.IsLikedByUser(userName) then "Photo liked" else "Like removed";
      }
    }

    /** The "Save" button of the description dialog. */
    method OnEditDescriptionSaved(photo: UserPhoto, newDescription: string)
      modifies this`prefs, photo`description
      ensures photo.description == Some(newDescription)
      ensures prefs == old(prefs)[StorageKey(userName) := userPhotoList]
    {
      photo.SetDescription(Some(newDescription));
      SavePhotos();
    }
  }
}

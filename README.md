# Picturegram, modelled in Dafny

Picturegram is an Android photo-sharing app backed by Firebase, plus one cloud
function. This project models the app's domain logic and proves properties of it.

- **Photos and likes.** A `UserPhoto` keeps a list of the users who liked it
  next to a like counter. `toggleLike` adds or removes the current user and
  moves the counter.
- **Notifications.** A `Notification` is a "like" or "follow" notice. Its
  checking constructor accepts no other type.
- **The profile gallery** (`ProfileActivity`) is a list that the screen edits
  in place. The user can drag to reorder, delete, like, and add photos from
  the samples, the gallery or the camera. The list is saved under a per-user
  key after every edit.
- **The notification inbox** (`NotificationsActivity`):
  - converts the query's documents;
  - replaces bogus timestamps with the current time;
  - sorts newest first;
  - marks exactly the listed documents read in one batch;
  - classifies missing-index errors.
- **The user search** (`UsersActivity`) is a case-insensitive substring filter
  over the other users.
- **The sample-photo picker** (`PhotoSelectionActivity` and its adapter):
  - a prefix scan of the drawables, with the four defaults as fallback;
  - a check-box toggle on a selection list shared by the two objects;
  - the upload rule.
- **The forms:**
  - sign-up validation and routing (`RegisterActivity`);
  - sign-in and the "Default User" fallback (`LoginActivity`);
  - the settings switches and the username-change decision (`SettingsActivity`).
- **The gallery cell** (`PhotoAdapter.onBindViewHolder`): which image source
  is used, the description placeholder, the author-only controls and the
  like display.
- **A user's gallery list** (`User`).
- **The `onPhotoUpload` cloud function:**
  - validates the photo's author fields;
  - collects the followers' device tokens;
  - sends one push message per token.

The model has one module per source file:

- `JavaLang` holds what the app uses from `java.lang`: null, `trim`, `toLowerCase`, `contains`, `startsWith`, `lastIndexOf` and `String.valueOf(int)`.
- `JavaUtil` holds `List.indexOf`, `remove(Object)` and an `ArrayList` class.
- `Firebase` holds the signed-in user.
- `Drawables` holds the four default resource ids.

How each kind of source code is modelled:

- Objects whose fields the code assigns are classes. Their methods have field-level `modifies` frames. For example, `ToggleLike` may change only `likedByUsers` and `likeCount`.
- The two lists that `PhotoSelectionActivity` shares with its adapter are `ArrayList` objects, so the adapter's click changes the activity's own list.
- Loops in the source are loops in the model, with invariants.
- Pure decision code is a function.

Several inputs are given as parameters rather than computed:

- the results of Firebase queries;
- success or failure flags;
- the current user;
- the clock (`now`);
- whether a file exists;
- the list of drawable fields.

## Model

| member | source | states |
|---|---|---|
| JavaLang.Show | app/src/main/java/com/natanp_josefm_michaelk/picturegram/NotificationsActivity.java:208 | A null string concatenates as "null"; any other string as itself. |
| JavaLang.Trim | app/src/main/java/com/natanp_josefm_michaelk/picturegram/RegisterActivity.java:59-62 | `trim` never lengthens a string. A non-empty result starts and ends with a non-space. The result is empty exactly when every character is at most U+0020. |
| JavaLang.TrimIsSlice | app/src/main/java/com/natanp_josefm_michaelk/picturegram/LoginActivity.java:56-57 | What `trim` leaves is a contiguous slice of the input. Only white space precedes or follows it. |
| JavaLang.TrimIdempotent | app/src/main/java/com/natanp_josefm_michaelk/picturegram/SettingsActivity.java:127-128 | Trimming twice gives the same result as trimming once. |
| JavaLang.ToLower | app/src/main/java/com/natanp_josefm_michaelk/picturegram/UsersActivity.java:111 | Lower-casing keeps the length and maps each character on its own. |
| JavaLang.BlankUnderLower | app/src/main/java/com/natanp_josefm_michaelk/picturegram/UsersActivity.java:108-111 | A query is blank after lower-casing exactly when it was blank before. |
| JavaLang.ContainsIffOccurs | app/src/main/java/com/natanp_josefm_michaelk/picturegram/UsersActivity.java:113 | The `contains` scan succeeds exactly when the substring occurs at some index. |
| JavaLang.LastIndexOf | app/src/main/java/com/natanp_josefm_michaelk/picturegram/ProfileActivity.java:240 | The result is -1 or an index holding the character. No later index holds it. |
| JavaLang.IntToStringRoundTrip | app/src/main/java/com/natanp_josefm_michaelk/picturegram/PhotoAdapter.java:127 | The decimal text of a number reads back as that number. |
| JavaLang.IntToStringInjective | app/src/main/java/com/natanp_josefm_michaelk/picturegram/PhotoAdapter.java:127 | Different like counts never show the same text. |
| JavaUtil.IndexOf | app/src/main/java/com/natanp_josefm_michaelk/picturegram/User.java:30 | Returns the first index holding `x`, or -1 exactly when `x` is absent. |
| JavaUtil.RemoveFirst | app/src/main/java/com/natanp_josefm_michaelk/picturegram/User.java:29-31 | `remove(Object)` leaves an absent element's list unchanged. Otherwise it removes the element at the first index holding `x` and keeps the rest in order, one shorter, with one copy of `x` fewer in the multiset. |
| JavaUtil.RemoveFirstOfAppended | app/src/main/java/com/natanp_josefm_michaelk/picturegram/User.java:25-31 | Removing an element just appended to a list that lacked it restores the list. |
| JavaUtil.RemoveFirstKeepsNoDuplicates | app/src/main/java/com/natanp_josefm_michaelk/picturegram/UserPhoto.java:106 | On a list without duplicates, removal keeps it duplicate-free and leaves no copy of `x`. |
| JavaUtil.ToggleMembership | app/src/main/java/com/natanp_josefm_michaelk/picturegram/PhotoSelectionAdapter.java:68-74 | The contains/remove/add idiom removes one copy when present and appends when absent. |
| JavaUtil.ToggleTwiceFromAbsent | app/src/main/java/com/natanp_josefm_michaelk/picturegram/UserPhoto.java:103-115 | Starting from absent, two toggles restore the exact list. |
| JavaUtil.ToggleFlipsMembership | app/src/main/java/com/natanp_josefm_michaelk/picturegram/PhotoSelectionAdapter.java:68-74 | On a duplicate-free list, one toggle flips membership and keeps the list duplicate-free. |
| JavaUtil.ToggleTwiceRestoresMembership | app/src/main/java/com/natanp_josefm_michaelk/picturegram/PhotoSelectionAdapter.java:68-74 | On a duplicate-free list, two clicks on an id restore its membership. |
| JavaUtil.ArrayList.constructor | app/src/main/java/com/natanp_josefm_michaelk/picturegram/PhotoSelectionActivity.java:37-38 | A new list is empty. |
| JavaUtil.ArrayList.Copy | app/src/main/java/com/natanp_josefm_michaelk/picturegram/PhotoSelectionActivity.java:59 | The copy constructor holds the same elements. |
| JavaUtil.ArrayList.Size | app/src/main/java/com/natanp_josefm_michaelk/picturegram/PhotoSelectionAdapter.java:29 | `size()` is the number of elements. |
| JavaUtil.ArrayList.Add | app/src/main/java/com/natanp_josefm_michaelk/picturegram/PhotoSelectionActivity.java:131 | `add` appends. |
| JavaUtil.ArrayList.Remove | app/src/main/java/com/natanp_josefm_michaelk/picturegram/PhotoSelectionAdapter.java:69 | `remove(Object)` drops the first equal element. It reports whether one was there. |
| JavaUtil.ArrayList.Clear | app/src/main/java/com/natanp_josefm_michaelk/picturegram/PhotoSelectionActivity.java:86-87 | `clear` empties the list. |
| UserPhotos.ToggleTwiceRestores | app/src/main/java/com/natanp_josefm_michaelk/picturegram/UserPhoto.java:103-115 | From "not liked", like followed by unlike restores the exact list and count. |
| UserPhotos.TogglePreservesConsistency | app/src/main/java/com/natanp_josefm_michaelk/picturegram/UserPhoto.java:103-115 | If count equals the list length and the list has no duplicates, a toggle keeps both. So the count stays non-negative, and the user is in the list afterwards exactly when they were not before. |
| UserPhotos.UnclampedDecrement | app/src/main/java/com/natanp_josefm_michaelk/picturegram/UserPhoto.java:107 | The decrement is not clamped. With a count of 0 and a liker in the list, a toggle makes the count -1. |
| UserPhotos.UserPhoto.FromResource | app/src/main/java/com/natanp_josefm_michaelk/picturegram/UserPhoto.java:20-26 | A new sample photo has an empty description, no likes (count 0), no file, URL, author or document id, and the given time. |
| UserPhotos.UserPhoto.FromResourceWithDescription | app/src/main/java/com/natanp_josefm_michaelk/picturegram/UserPhoto.java:28-34 | Same as FromResource, with the given description. |
| UserPhotos.UserPhoto.FromFile | app/src/main/java/com/natanp_josefm_michaelk/picturegram/UserPhoto.java:36-45 | A file photo has resource id 0, the given path, description and author, and no likes. |
| UserPhotos.UserPhoto.ToggleLike | app/src/main/java/com/natanp_josefm_michaelk/picturegram/UserPhoto.java:103-115 | Always returns true. A present user loses one occurrence and the count drops by 1. An absent user is appended and the count rises by 1. No other field changes. |
| UserPhotos.UserPhoto.IsLikedByUser | app/src/main/java/com/natanp_josefm_michaelk/picturegram/UserPhoto.java:91-93 | A user has liked the photo iff `indexOf` finds them among the likers, which is how `contains` is defined. |
| UserPhotos.PredicatesAgainstFields | app/src/main/java/com/natanp_josefm_michaelk/picturegram/UserPhoto.java:63-159 | `hasFilePath` (63-65) holds iff the path is non-null and non-empty. `hasFirestoreId` (157-159) holds iff the id is. `isAuthor(u)` (145-147) holds iff the author is non-null and equals `u`. |
| UserPhotos.UserPhoto.SetImageResourceId | app/src/main/java/com/natanp_josefm_michaelk/picturegram/UserPhoto.java:51-53 | Sets that one field. |
| UserPhotos.UserPhoto.SetFilePath | app/src/main/java/com/natanp_josefm_michaelk/picturegram/UserPhoto.java:59-61 | Sets that one field. |
| UserPhotos.UserPhoto.SetDescription | app/src/main/java/com/natanp_josefm_michaelk/picturegram/UserPhoto.java:71-73 | Sets that one field. |
| UserPhotos.UserPhoto.SetTimestamp | app/src/main/java/com/natanp_josefm_michaelk/picturegram/UserPhoto.java:79-81 | Sets that one field. |
| UserPhotos.UserPhoto.SetLikeCount | app/src/main/java/com/natanp_josefm_michaelk/picturegram/UserPhoto.java:87-89 | Sets the count alone, without touching the list. |
| UserPhotos.UserPhoto.SetStorageUrl | app/src/main/java/com/natanp_josefm_michaelk/picturegram/UserPhoto.java:125-127 | Sets that one field. |
| UserPhotos.UserPhoto.SetAuthorId | app/src/main/java/com/natanp_josefm_michaelk/picturegram/UserPhoto.java:133-135 | Sets that one field. |
| UserPhotos.UserPhoto.SetAuthorName | app/src/main/java/com/natanp_josefm_michaelk/picturegram/UserPhoto.java:141-143 | Sets that one field. |
| UserPhotos.UserPhoto.SetFirestoreId | app/src/main/java/com/natanp_josefm_michaelk/picturegram/UserPhoto.java:153-155 | Sets that one field. |
| Notifications.Notification.Empty | app/src/main/java/com/natanp_josefm_michaelk/picturegram/Notification.java:15-16 | The no-argument constructor leaves every field at its Java default. The type is unset and unchecked. |
| Notifications.Notification.Create | app/src/main/java/com/natanp_josefm_michaelk/picturegram/Notification.java:19-29 | Fails, with the exception's message, exactly when the type is not "like" or "follow". Otherwise it returns a fresh unread notice with the type, its sender and its recipient as given, stamped with `now`. |
| Notifications.Notification.SetId | app/src/main/java/com/natanp_josefm_michaelk/picturegram/Notification.java:36-38 | Sets that one field. |
| Notifications.Notification.SetType | app/src/main/java/com/natanp_josefm_michaelk/picturegram/Notification.java:44-46 | Sets the type to any value, unchecked. |
| Notifications.Notification.SetFromUser | app/src/main/java/com/natanp_josefm_michaelk/picturegram/Notification.java:52-54 | Sets that one field. |
| Notifications.Notification.SetToUser | app/src/main/java/com/natanp_josefm_michaelk/picturegram/Notification.java:60-62 | Sets that one field. |
| Notifications.Notification.SetTimestamp | app/src/main/java/com/natanp_josefm_michaelk/picturegram/Notification.java:68-70 | Sets that one field. |
| Notifications.Notification.SetRead | app/src/main/java/com/natanp_josefm_michaelk/picturegram/Notification.java:76-78 | Sets `isRead` to `b`. No other field changes. |
| Notifications.TypeGuardBypass | app/src/main/java/com/natanp_josefm_michaelk/picturegram/Notification.java:44-46 | The no-argument constructor followed by `setType` yields a notice of any type. The type check is not a class invariant. |
| Users.User.constructor | app/src/main/java/com/natanp_josefm_michaelk/picturegram/User.java:11-15 | A new user has the given name and image, and no photos. |
| Users.User.AddPhoto | app/src/main/java/com/natanp_josefm_michaelk/picturegram/User.java:25-27 | Appends the photo. The earlier photos are unchanged. |
| Users.User.RemovePhoto | app/src/main/java/com/natanp_josefm_michaelk/picturegram/User.java:29-31 | Removes the first occurrence of this very object. An absent photo leaves the gallery as it was; a present one shortens it by one. |
| Users.User.GetPhotoCount | app/src/main/java/com/natanp_josefm_michaelk/picturegram/User.java:33-35 | The count is the gallery's length. |
| Users.User.AddThenRemove | app/src/main/java/com/natanp_josefm_michaelk/picturegram/User.java:25-31 | Adding a photo that was absent and then removing it restores the gallery. |
| Profile.StorageKey | app/src/main/java/com/natanp_josefm_michaelk/picturegram/ProfileActivity.java:452 | The key is "user_photos_" followed by exactly the user name. |
| Profile.StorageKeyInjective | app/src/main/java/com/natanp_josefm_michaelk/picturegram/ProfileActivity.java:460 | Two users never share a gallery key. |
| Profile.FileNameFromPath | app/src/main/java/com/natanp_josefm_michaelk/picturegram/ProfileActivity.java:238-244 | The result is a suffix of the path containing no '/'. When it is shorter than the path, a '/' precedes it. A path with no '/' is returned whole. |
| Profile.ProfileScreen.constructor | app/src/main/java/com/natanp_josefm_michaelk/picturegram/ProfileActivity.java:87 | The screen starts with the user name it was opened with and an empty list. |
| Profile.ProfileScreen.LoadPhotos | app/src/main/java/com/natanp_josefm_michaelk/picturegram/ProfileActivity.java:456-468 | Nothing stored under the user's key gives an empty list. Otherwise the result is the stored gallery. |
| Profile.ProfileScreen.SavePhotos | app/src/main/java/com/natanp_josefm_michaelk/picturegram/ProfileActivity.java:444-454 | Writes the list under the user's key and nothing else. A following load returns exactly this list. |
| Profile.ProfileScreen.OnCreate | app/src/main/java/com/natanp_josefm_michaelk/picturegram/ProfileActivity.java:94-99 | A non-empty saved gallery is used as is, without saving. An empty one is replaced by exactly four fresh samples, which are then saved. |
| Profile.ProfileScreen.AddSamplePhotos | app/src/main/java/com/natanp_josefm_michaelk/picturegram/ProfileActivity.java:360-369 | Appends four fresh photos, `my_img1` to `my_img4`, with their descriptions, after the existing ones. Then it saves. |
| Profile.ProfileScreen.OnPhotosSelected | app/src/main/java/com/natanp_josefm_michaelk/picturegram/ProfileActivity.java:113-129 | A successful non-empty selection appends one fresh photo per selected id, in selection order, after the existing photos. It then saves and reports "N photos added". Otherwise nothing changes. |
| Profile.ProfileScreen.OnGalleryResult | app/src/main/java/com/natanp_josefm_michaelk/picturegram/ProfileActivity.java:132-154 | A copied image appends one fresh file photo "Photo from gallery" and saves. A failed copy changes nothing and reports "Failed to save image". |
| Profile.ProfileScreen.OpenCamera | app/src/main/java/com/natanp_josefm_michaelk/picturegram/ProfileActivity.java:306-331 | Launches the camera exactly when no step throws, and a toast is shown exactly when one does. A failed file creation changes nothing and shows "Error creating image file: " (for an `IOException`) or "Camera error: " with the message. A failing file provider leaves the new path with the old URI. A failing launch leaves both new. Both show "Camera error: " with the message. |
| Profile.ProfileScreen.OnCameraResult | app/src/main/java/com/natanp_josefm_michaelk/picturegram/ProfileActivity.java:157-182 | A successful capture with a URI appends a file photo for the remembered path and saves. A failed capture changes nothing and reports "Failed to capture photo". |
| Profile.ProfileScreen.OnMove | app/src/main/java/com/natanp_josefm_michaelk/picturegram/ProfileActivity.java:257-263 | Swaps exactly the two positions. The length and the multiset of photos are kept, and the new order is saved. |
| Profile.ProfileScreen.OnDeleteClick | app/src/main/java/com/natanp_josefm_michaelk/picturegram/ProfileActivity.java:404-410 | Removes exactly the element at the position. The rest keep their order, the length drops by 1, the list is saved, and "Photo deleted" is shown. |
| Profile.ProfileScreen.OnLikeClick | app/src/main/java/com/natanp_josefm_michaelk/picturegram/ProfileActivity.java:378-391 | The photo's likes become the toggled likes, and the gallery is always saved. The message is "Photo liked" iff the user is now a liker. From a consistent state the likes stay consistent, and "Photo liked" means the user had not liked it before. |
| Profile.ProfileScreen.OnEditDescriptionSaved | app/src/main/java/com/natanp_josefm_michaelk/picturegram/ProfileActivity.java:424-431 | Sets the photo's description to the typed text and saves. |
| Inbox.QueryFor | app/src/main/java/com/natanp_josefm_michaelk/picturegram/NotificationsActivity.java:64-76 | Nothing is queried without a signed-in user or with a null display name. Otherwise the query is for the display name. |
| Inbox.SignedOutToast | app/src/main/java/com/natanp_josefm_michaelk/picturegram/NotificationsActivity.java:64-68 | "You need to be signed in to view notifications" is shown exactly when nothing is queried. |
| Inbox.ConvertedIds | app/src/main/java/com/natanp_josefm_michaelk/picturegram/NotificationsActivity.java:93-122 | The batch holds the id of every convertible document and of nothing else. |
| Inbox.InsertNewestFirst | app/src/main/java/com/natanp_josefm_michaelk/picturegram/NotificationsActivity.java:125 | Inserting into a newest-first list keeps it newest first and adds exactly that notice. |
| Inbox.SortNewestFirst | app/src/main/java/com/natanp_josefm_michaelk/picturegram/NotificationsActivity.java:125 | The sorted list has non-increasing timestamps and is a permutation of its input. |
| Inbox.Convert | app/src/main/java/com/natanp_josefm_michaelk/picturegram/NotificationsActivity.java:96-110 | A fresh notice carries the document's fields and id. A timestamp of 1 or less becomes `now`; any other timestamp is kept. |
| Inbox.ConvertDocuments | app/src/main/java/com/natanp_josefm_michaelk/picturegram/NotificationsActivity.java:93-122 | One fresh notice per convertible document, carrying that document's id in batch order. Non-convertible documents are skipped and not marked. Every notice is the conversion of some document. |
| Inbox.NotificationsScreen.constructor | app/src/main/java/com/natanp_josefm_michaelk/picturegram/NotificationsActivity.java:55 | The list starts empty. |
| Inbox.NotificationsScreen.OnQuerySuccess | app/src/main/java/com/natanp_josefm_michaelk/picturegram/NotificationsActivity.java:78-154 | A null or empty result shows "No notifications" and leaves the previous list. Otherwise the list is rebuilt from the convertible documents and sorted newest first, and exactly their ids go into the batch. The batch is committed iff the list is non-empty. |
| Inbox.IsMissingIndexError | app/src/main/java/com/natanp_josefm_michaelk/picturegram/NotificationsActivity.java:138-162 | Both failure listeners (138-139 and 161-162) apply one test. An error is a missing-index error iff its message is non-null and contains both "FAILED_PRECONDITION" and "index". |
| Inbox.FailureToast | app/src/main/java/com/natanp_josefm_michaelk/picturegram/NotificationsActivity.java:133-171 | Both failure listeners show the setup hint for a missing-index error. Otherwise the query's listener (156-171) shows "Error loading notifications: " plus the message, and the batch commit's (133-148) "Error marking notifications as read: " plus the message; a null message reads "null". |
| Inbox.MissingIndexNeedsBothWords | app/src/main/java/com/natanp_josefm_michaelk/picturegram/NotificationsActivity.java:161-162 | A null message and a message with only "index" are not missing-index errors. A typical FAILED_PRECONDITION message is one. |
| Inbox.Rendered | app/src/main/java/com/natanp_josefm_michaelk/picturegram/NotificationsActivity.java:206-216 | "like" gives the star and "X liked your photo". "follow" gives the add icon and "X started following you". Any other type, null included, gives the info icon and "X interacted with your profile". |
| Inbox.FallbackExactlyForRejectedTypes | app/src/main/java/com/natanp_josefm_michaelk/picturegram/NotificationsActivity.java:212-216 | The fallback icon and text appear exactly for the types the checking constructor rejects. |
| UserSearch.Needle | app/src/main/java/com/natanp_josefm_michaelk/picturegram/UsersActivity.java:108-111 | The lowered, trimmed query is empty exactly when the query is null or blank. |
| UserSearch.Matching | app/src/main/java/com/natanp_josefm_michaelk/picturegram/UsersActivity.java:112-116 | Holds exactly the users whose lower-cased name contains the needle. It is never longer than the input. |
| UserSearch.MatchingIsSubsequence | app/src/main/java/com/natanp_josefm_michaelk/picturegram/UsersActivity.java:112-116 | The matches are picked out of the user list at strictly increasing positions, so order is kept. |
| UserSearch.Scan | app/src/main/java/com/natanp_josefm_michaelk/picturegram/UsersActivity.java:112-116 | Without nameless users the loop collects exactly the matches. It throws iff some user has no name: `getName()` returns null and `toLowerCase()` on it throws. At the throw, the list holds the matches before the first such user. |
| UserSearch.WithoutUser | app/src/main/java/com/natanp_josefm_michaelk/picturegram/UsersActivity.java:83-89 | A document is kept iff it is not the signed-in user's own. |
| UserSearch.WithoutUserInOrder | app/src/main/java/com/natanp_josefm_michaelk/picturegram/UsersActivity.java:82-89 | The kept documents are taken at strictly increasing indexes, and every other user's document is among them. So the load keeps query order and drops only the signed-in user. |
| UserSearch.SkipUser | app/src/main/java/com/natanp_josefm_michaelk/picturegram/UsersActivity.java:82-89 | The `continue` loop builds exactly `WithoutUser` of the documents. With `WithoutUserInOrder`, it skips only the signed-in user and keeps query order. |
| UserSearch.UsersScreen.constructor | app/src/main/java/com/natanp_josefm_michaelk/picturegram/UsersActivity.java:34-35 | Both lists start empty. |
| UserSearch.UsersScreen.FilterUsers | app/src/main/java/com/natanp_josefm_michaelk/picturegram/UsersActivity.java:106-119 | A blank query puts all users in `displayedUsers`, in order. Any other query puts the order-preserving matches there. If a user's name is null, `toLowerCase()` throws out of `filterUsers` before the adapter is refreshed, and `displayedUsers` then holds the matches before that user. The result never depends on the previous display. |
| UserSearch.UsersScreen.OnUsersLoaded | app/src/main/java/com/natanp_josefm_michaelk/picturegram/UsersActivity.java:81-91 | The loaded list never includes the signed-in user, and all of it is then shown. |
| UserSearch.UsersScreen.OnCreate | app/src/main/java/com/natanp_josefm_michaelk/picturegram/UsersActivity.java:61-92 | The content is visible iff a user is signed in. Without one, or with a failed query, nothing is loaded or filtered. |
| SelectionAdapter.PhotoSelectionAdapter.constructor | app/src/main/java/com/natanp_josefm_michaelk/picturegram/PhotoSelectionAdapter.java:20-25 | The adapter holds the very two lists it was given. |
| SelectionAdapter.PhotoSelectionAdapter.GetCount | app/src/main/java/com/natanp_josefm_michaelk/picturegram/PhotoSelectionAdapter.java:28-30 | The count equals the photo list's length. |
| SelectionAdapter.PhotoSelectionAdapter.GetItem | app/src/main/java/com/natanp_josefm_michaelk/picturegram/PhotoSelectionAdapter.java:33-35 | The item at a valid position is the photo id stored there. |
| SelectionAdapter.PhotoSelectionAdapter.GetItemId | app/src/main/java/com/natanp_josefm_michaelk/picturegram/PhotoSelectionAdapter.java:38-40 | The item id is the position. |
| SelectionAdapter.PhotoSelectionAdapter.IsChecked | app/src/main/java/com/natanp_josefm_michaelk/picturegram/PhotoSelectionAdapter.java:56-62 | On bind, the box is checked iff the cell's id has an index in the selection. |
| SelectionAdapter.PhotoSelectionAdapter.OnClick | app/src/main/java/com/natanp_josefm_michaelk/picturegram/PhotoSelectionAdapter.java:65-76 | A selected id loses one occurrence and an unselected one is appended. The box shows the opposite of its old state. On a duplicate-free selection held apart from the photo list, the box then equals what `IsChecked` shows on the next bind for every cell with that id. |
| SelectionAdapter.ClickWithDuplicateLeavesIdSelected | app/src/main/java/com/natanp_josefm_michaelk/picturegram/PhotoSelectionAdapter.java:68-70 | With an id listed twice, one click clears the box although the id stays selected. |
| PhotoSelection.WithPrefix | app/src/main/java/com/natanp_josefm_michaelk/picturegram/PhotoSelectionActivity.java:126-136 | An id is listed iff some field with that id has a name starting with the prefix. |
| PhotoSelection.WithPrefixInOrder | app/src/main/java/com/natanp_josefm_michaelk/picturegram/PhotoSelectionActivity.java:126-136 | The ids come from matching fields at strictly increasing indexes, and every matching field is among them. So the scan keeps field order and skips no match. |
| PhotoSelection.AfterPopulate | app/src/main/java/com/natanp_josefm_michaelk/picturegram/PhotoSelectionActivity.java:122-145 | The list after a scan is the earlier ids plus the matches in field order. If that is empty, it is exactly the four defaults, so it is never empty. |
| PhotoSelection.CategoryFolder | app/src/main/java/com/natanp_josefm_michaelk/picturegram/PhotoSelectionActivity.java:94-108 | Spinner positions 1 to 5 name a "..._cat" folder. Position 4 alone uses the prefix "image"; the others use "Image_". |
| PhotoSelection.LimitationToast | app/src/main/java/com/natanp_josefm_michaelk/picturegram/PhotoSelectionActivity.java:160-161 | The toast is the fixed opening, then the folder, then " folder with prefix ", then the prefix. |
| PhotoSelection.PhotoSelectionScreen.constructor | app/src/main/java/com/natanp_josefm_michaelk/picturegram/PhotoSelectionActivity.java:37-47 | Fresh lists, the default category scanned, nothing selected, and an adapter over the same two lists. |
| PhotoSelection.PhotoSelectionScreen.PopulatePhotoList | app/src/main/java/com/natanp_josefm_michaelk/picturegram/PhotoSelectionActivity.java:122-145 | The available list becomes AfterPopulate of what it held. |
| PhotoSelection.PhotoSelectionScreen.AddDefaults | app/src/main/java/com/natanp_josefm_michaelk/picturegram/PhotoSelectionActivity.java:139-144 | Appends exactly `my_img1` to `my_img4`. |
| PhotoSelection.PhotoSelectionScreen.PopulateDrawablesByPrefix | app/src/main/java/com/natanp_josefm_michaelk/picturegram/PhotoSelectionActivity.java:147-162 | Appends the four defaults whatever the folder and prefix, which only appear in the toast. |
| PhotoSelection.PhotoSelectionScreen.OnItemSelected | app/src/main/java/com/natanp_josefm_michaelk/picturegram/PhotoSelectionActivity.java:84-113 | Both lists are cleared first. Category 0 rescans "my_img". Categories 1 to 5 leave exactly the four defaults. Any other position leaves nothing available. |
| PhotoSelection.PhotoSelectionScreen.OnPhotoClicked | app/src/main/java/com/natanp_josefm_michaelk/picturegram/PhotoSelectionAdapter.java:65-76 | A click through the adapter toggles the screen's own selection, keeps it duplicate-free, and the box shows membership. |
| PhotoSelection.PhotoSelectionScreen.OnUploadClicked | app/src/main/java/com/natanp_josefm_michaelk/picturegram/PhotoSelectionActivity.java:49-64 | An empty selection gives no result and "Please select at least one photo". Otherwise the result is a new list, distinct from the selection, with the same ids in order. |
| Registration.Submit | app/src/main/java/com/natanp_josefm_michaelk/picturegram/RegisterActivity.java:58-89 | The first failing check decides the message: blank field, then password under 6, then mismatch. An account is requested iff all pass, with the trimmed values. |
| Registration.SubmitIgnoresSurroundingSpace | app/src/main/java/com/natanp_josefm_michaelk/picturegram/RegisterActivity.java:59-62 | Pre-trimmed input gives the same outcome: only the trimmed fields are validated. |
| Registration.CreatedAccountsAreWellFormed | app/src/main/java/com/natanp_josefm_michaelk/picturegram/RegisterActivity.java:70-89 | A requested account has a non-empty username and email, a password of at least 6 characters, and no surrounding white space. |
| Registration.AfterCreate | app/src/main/java/com/natanp_josefm_michaelk/picturegram/RegisterActivity.java:103-148 | The login screen opens iff the account was created, whatever the profile update does. A failure reports the exception message, and the display name requested is the username. |
| Settings.GetBoolean | app/src/main/java/com/natanp_josefm_michaelk/picturegram/SettingsActivity.java:85 | A missing key gives the default; a stored key gives its value. |
| Settings.NotificationsText | app/src/main/java/com/natanp_josefm_michaelk/picturegram/SettingsActivity.java:115-117 | The text is "Disable Notifications" iff notifications are enabled. |
| Settings.PutBoolean | app/src/main/java/com/natanp_josefm_michaelk/picturegram/SettingsActivity.java:90 | The written key reads back the value. Every other key is unchanged. |
| Settings.FreshInstallDefaults | app/src/main/java/com/natanp_josefm_michaelk/picturegram/SettingsActivity.java:85-105 | With nothing stored, dark mode is off, notifications are on, and the text offers to disable them. |
| Settings.SwitchesAreIndependent | app/src/main/java/com/natanp_josefm_michaelk/picturegram/SettingsActivity.java:88-112 | Each switch's listener determines what that switch reads next and leaves the other switch as it was. |
| Settings.DecideProfileUpdate | app/src/main/java/com/natanp_josefm_michaelk/picturegram/SettingsActivity.java:124-158 | Nothing happens without a user. An empty trimmed name is rejected. An unchanged name updates directly. A changed name is taken (matches > 0), fails with the query, or updates when free. Updates carry the trimmed bio and name. |
| Settings.UnchangedNameIgnoresLookup | app/src/main/java/com/natanp_josefm_michaelk/picturegram/SettingsActivity.java:154-157 | Keeping one's own name never depends on the uniqueness query. |
| Settings.ChangedNameNeedsFreeName | app/src/main/java/com/natanp_josefm_michaelk/picturegram/SettingsActivity.java:137-153 | A changed name is applied only when the query succeeded with no match. |
| Settings.AfterUserDataUpdate | app/src/main/java/com/natanp_josefm_michaelk/picturegram/SettingsActivity.java:160-198 | The profile reopens with the new name iff both the display name and the document were updated. Otherwise the result is "Error updating profile". |
| Login.CheckLoginInput | app/src/main/java/com/natanp_josefm_michaelk/picturegram/LoginActivity.java:55-68 | Sign-in is attempted iff the trimmed email and password are both non-empty, and uses the trimmed values. |
| Login.ProfileName | app/src/main/java/com/natanp_josefm_michaelk/picturegram/LoginActivity.java:98-103 | The display name if non-null and non-empty, else "Default User", also for a null user. The name is never empty. |
| Login.ProfileKeys | app/src/main/java/com/natanp_josefm_michaelk/picturegram/LoginActivity.java:101-103 | All users without a display name share one gallery key. Distinct names get distinct keys. |
| Login.OnStart | app/src/main/java/com/natanp_josefm_michaelk/picturegram/LoginActivity.java:33-40 | An already signed-in user goes straight to the profile, and only then. |
| Login.AfterSignIn | app/src/main/java/com/natanp_josefm_michaelk/picturegram/LoginActivity.java:71-88 | A success opens the profile. A failure only shows "Authentication failed." and does not navigate. |
| Render.ViewOf | app/src/main/java/com/natanp_josefm_michaelk/picturegram/PhotoAdapter.java:61 | The cell reads the photo's likers and count as they are. |
| Render.ImageSourceOf | app/src/main/java/com/natanp_josefm_michaelk/picturegram/PhotoAdapter.java:72-115 | A non-empty storage URL comes first. Next comes a non-empty path: a URI iff it starts with content:// or file://, otherwise the file if it exists and the default image if it does not. Then a non-zero resource id, else `my_img1`. Each case holds iff its condition does. |
| Render.DetailsOf | app/src/main/java/com/natanp_josefm_michaelk/picturegram/PhotoAdapter.java:117-170 | The description shows its text or "No description", and the count text is the like count's decimal text. The star is on iff the user is a liker. Drag, delete and edit are shown and fire iff the user is the author. |
| Render.BindCellAsWritten | app/src/main/java/com/natanp_josefm_michaelk/picturegram/PhotoAdapter.java:60-171 | As written, the details are bound iff the image is not a missing file. |
| Render.MissingFileSkipsDetails | app/src/main/java/com/natanp_josefm_michaelk/picturegram/PhotoAdapter.java:89-94 | A plain path whose file is gone gets no description, like display or listeners. |
| Render.BindCell | app/src/main/java/com/natanp_josefm_michaelk/picturegram/PhotoAdapter.java:60-171 | The corrected binding binds the details for every photo. |
| Render.BindCellDetailsIndependentOfFile | app/src/main/java/com/natanp_josefm_michaelk/picturegram/PhotoAdapter.java:89-94 | In the corrected binding, file existence changes only the image. The two bindings agree whenever the image is not a missing file. |
| Render.AuthorlessPhotoHasNoControls | app/src/main/java/com/natanp_josefm_michaelk/picturegram/PhotoAdapter.java:63-67 | A photo without an author never shows or fires delete, edit or drag. |
| Render.StarMatchesToggle | app/src/main/java/com/natanp_josefm_michaelk/picturegram/PhotoAdapter.java:127-134 | After a consistent toggle, the star is on iff the user had not liked the photo before, and the count text is the number of likers. |
| Fanout.FollowersOf | cloud-function/functions/index.js:32 | A missing followers field counts as empty. |
| Fanout.FollowerTokens | cloud-function/functions/index.js:47-53 | A token is listed iff some follower document carries it and it is non-empty. There are never more tokens than documents. |
| Fanout.FollowerTokensInOrder | cloud-function/functions/index.js:47-53 | The tokens come from documents at strictly increasing indexes, and every document with a truthy token contributes its own entry. So document order is kept, and a token two documents carry is sent twice. |
| Fanout.BuildMessage | cloud-function/functions/index.js:65-87 | The message goes to that token, titled "<author> posted a new photo". The body is the description, or the stock text when it is falsy. The data carries the photo id, author id, type "new_photo" and the profile deep link. |
| Fanout.SendAll | cloud-function/functions/index.js:63-94 | Each token gets exactly one attempt, in order, with its message. A failed send does not stop later ones. |
| Fanout.OnPhotoUpload | cloud-function/functions/index.js:5-101 | A falsy author id or name, a missing author, no followers, or no tokens each end without messages, each iff its condition. Otherwise one message per token is attempted. |

## Left out

- Storage: Gson and SharedPreferences are a map from key to photo list. The map holds the list itself, so a later edit to a photo object is visible in the store before the next save. The JSON copy in between is not modelled.
- I/O and media: image copying, temp files, deleting photo files, Glide loading and `DateUtils` relative times are not modelled. Whether a file exists is a parameter.
- Firebase and asynchrony: Firebase Auth, Firestore, Storage and Cloud Messaging calls are not modelled. Their results, success flags and exception messages are parameters. The order in which callbacks interleave is not modelled.
- UI effects: the toasts of the modelled branches are returned as strings. Intents, view visibility other than the cell's controls, and layout are left out.
- UserSearch.UsersScreen.FilterUsers: the null-name exception escapes the text listener (UsersActivity.java:99-101) uncaught. Its effect on the app, a crash of the UI thread, is not modelled; the method only reports `threw` and the list's state at the throw.
- Toasts of code outside the model are not returned: those of the catch blocks listed below, of `loadUserData` and `logout` in `SettingsActivity`, and of `onPhotoClick`, which only shows the clicked position and changes nothing.
- Clock and reflection: the clock is a `now` parameter. Reflection over `R.drawable` is a given list of (name, id) pairs, and a `field.getInt` that throws is not modelled.
- Drawables: resource ids are 1 to 4 in the model. The Android build assigns the real values.
- JavaLang.ToLower: lower-cases ASCII letters only, not the Unicode case mapping of `String.toLowerCase`. Strings are sequences of characters, not UTF-16 code units.
- Integer width: likes, timestamps and positions are unbounded integers, so 32-bit and 64-bit overflow is not modelled.
- Inbox.SortNewestFirst: proves order and permutation but not that the sort is stable for equal timestamps, which `Collections.sort` is.
- The catch blocks are not modelled:
  - around `Uri.parse` and Glide in `PhotoAdapter`;
  - around the camera result's photo creation;
  - around `toObject` (a document that throws is treated like one that converts to null);
  - the outer try/catch of `loadNotifications` ("Unexpected error: ");
  - the outermost try/catch of the cloud function.
- Profile.ProfileScreen.OnMove and Profile.ProfileScreen.OnDeleteClick: require valid positions, and the path where the Java code throws is not modelled. The callbacks pass `getAdapterPosition()` without checking it (ProfileActivity.java:257-258, PhotoAdapter.java:151). Android returns -1 (`RecyclerView.NO_POSITION`) for a holder whose item was already removed. For example, a second tap on the delete button of a cell that is still animating out after `notifyItemRemoved` (ProfileActivity.java:404-405) runs `userPhotoList.remove(-1)`, which throws.
- Profile.ProfileScreen.OnGalleryResult and Profile.ProfileScreen.OnCameraResult: `ProfileActivity` calls a two-argument `UserPhoto(String, String)` constructor that UserPhoto.java does not define. The model uses the four-argument file constructor with no author.
- `UsersActivity` builds `User(id, name, url)`, which User.java does not define. That user record is the `UserSearch.Account` datatype.
- `toggleLike` does not clamp the decrement of the like count. The model follows the code (`UserPhotos.UnclampedDecrement`), and non-negativity is proved only from a consistent state (`UserPhotos.TogglePreservesConsistency`).
- A null user name is not modelled. The profile screen and the cell adapter always receive a string; a null name would give the key "user_photos_null".
- Fanout.OnPhotoUpload: only null, missing and "" count as falsy. Other falsy JavaScript values (0, false, NaN) in these string fields are not modelled.
- Fanout.OnPhotoUpload: the `in` query's limit on the number of followers, and the order in which Firestore returns follower documents, are not modelled. The follower documents are given.
- Not part of this model: the remaining files are plumbing, namely the notification channel and permissions, the background polling service, FCM token and broadcast handling, the splash screen (whose name fallback repeats `LoginActivity`'s), the login stub `MainActivity`, and `UserAdapter`:
  - NotificationHelper.java
  - BackgroundNotificationService.java
  - FCMTokenService.java
  - FCMBroadcastReceiver.java
  - SplashActivity.java
  - MainActivity.java
  - UserAdapter.java

## Findings

| source | as written | input that shows it | evidently intended | confidence | as-written member | corrected member |
|---|---|---|---|---|---|---|
| app/src/main/java/com/natanp_josefm_michaelk/picturegram/PhotoAdapter.java:90-94 | When a plain file path's file is missing, `onBindViewHolder` sets the default image and `return`s. This skips the description, the like count and star, and every click, touch and drag-handle binding. | A photo with no storage URL, file path "/data/photo.jpg" whose file is gone, description "Sunset" and 3 likes. The recycled cell keeps the previous photo's text, likes and listeners; the listeners act on the previous photo. | Only the image falls back to `my_img1`; the rest of the cell is bound as for any photo. | not executed | Render.BindCellAsWritten, Render.MissingFileSkipsDetails | Render.BindCell, Render.BindCellDetailsIndependentOfFile |

# Photography studio: client proofing and portfolio curation, modelled in Dafny

The system is a photography studio's web site. It has a public portfolio and a
client-proofing area. An administrator curates the portfolio: categories hold albums,
and albums hold photos. The administrator shares an album with a client behind a PIN.
The client opens the album, selects favourite photos (optionally up to a cap) and
submits the selection once.

The system is a React client over a hosted database. This model replaces every store
call with state held by the model's classes:
- a map from ids to rows, or a sequence of the rows inserted;
- an oracle parameter for what the call returned: the PIN check's verdict, whether an
  upload produced a URL, whether a write succeeded.

The modules:

| file | module | models |
|---|---|---|
| `common.dfy` | `Common` | nullable values; JavaScript truthiness of strings; `String.prototype.trim`; the global `parseInt`; `String(n)` for integers |
| `portfolio.dfy` | `Portfolio` | the album and photo rows, with their distinct-id predicate |
| `client_proof.dfy` | `ClientProof` | the client page (`ProofPage`): PIN gate, capped selection, one-time submission, favourites filter |
| `gallery_curation.dfy` | `GalleryCuration` | the curation screen (`Curation`): three-level navigation, drag-and-drop reorder, sequential upload queue, photo counts, category cards, album-creation guard |
| `client_albums.dfy` | `ClientAlbums` | the client-access screen (`ClientAlbumsAdmin`): access form ↔ album row, "enabled ⇒ PIN not blank", reopening a submission, counters, share link |
| `legacy_gallery.dfy` | `LegacyGallery` | the flat gallery screen (`LegacyGalleryAdmin`): category filter, insert/update with optional upload, submit-enable rule |
| `dashboard.dfy` | `Dashboard` | the dashboard's statistics |
| `auth.dfy` | `Auth` | the admin session flag (`AuthProvider`): PIN check, reload, sign-out |

Points where the code's behaviour is easy to misread, modelled as the code has it:
- New photos of an upload batch get `display_order = images.length + i`
  (`src/components/admin/AdminGalleryNew.tsx:557`), not "current maximum plus one".
  After a deletion the two differ, and a new photo can then share its position with
  an existing one.
- The cap is checked only against the selection the page holds. Nothing checks it
  against the stored selection rows.
- `selection_limit` is a plain number. A stored `0` means no cap, because the check
  tests its truthiness. A negative value blocks every addition. Only a positive value
  acts as a cap.

## Model

| member | source | states |
|---|---|---|
| Common.Trim | src/components/admin/AdminClientAlbums.tsx:130 | the trimmed string neither starts nor ends with whitespace and is empty exactly when the input is blank; it is the run of the input that starts at the first non-blank character, and only whitespace follows it |
| Common.TrimOfTrimmed | src/components/admin/AdminClientAlbums.tsx:130 | trimming a string that is already trimmed returns it unchanged |
| Common.TrimIdempotent | src/components/admin/AdminClientAlbums.tsx:130 | trimming twice is trimming once |
| Common.IntToString | src/components/admin/AdminClientAlbums.tsx:103 | the text is never empty, so a set limit never shows as an empty field; it starts with '-' exactly for negative numbers |
| Common.ParseIntOfDigits | src/components/admin/AdminClientAlbums.tsx:131 | `parseInt` of a non-empty run of decimal digits is the number they spell |
| Common.ParseIntOfMinusDigits | src/components/admin/AdminClientAlbums.tsx:131 | `parseInt` of '-' followed by a non-empty run of decimal digits is minus the number they spell |
| Common.ParseIntSkipsLeadingBlanks | src/components/admin/AdminClientAlbums.tsx:131 | leading whitespace does not change what `parseInt` reads |
| Common.ParseIntIgnoresTrailingText | src/components/admin/AdminClientAlbums.tsx:131 | `parseInt` stops at the first character that is not a digit: digits followed by other text give the number the digits spell |
| Common.ParseIntOfIntToString | src/components/admin/AdminClientAlbums.tsx:103-131 | `parseInt` of the text the form shows for a number gives back that number |
| ClientProof.Toggle | src/pages/ClientProof.tsx:132-151 | the selection changes in the clicked photo only; the photo ends up selected exactly when it was not selected and the cap allows one more |
| ClientProof.ToggleRespectsCap | src/pages/ClientProof.tsx:135-151 | a selection that starts within a cap stays within it after a click |
| ClientProof.ToggleTwice | src/pages/ClientProof.tsx:132-150 | a second click on the same photo undoes the first (unless the cap forbids re-adding it) |
| ClientProof.CapOfTwoClicks | src/pages/ClientProof.tsx:135-151 | under a cap of two, clicking three photos selects the first two and refuses the third |
| ClientProof.FavouritesFilter | src/pages/ClientProof.tsx:335-336 | without the favourites view every photo is shown; with it, exactly the selected photos; never more photos than loaded |
| ClientProof.FavouritesFilterAppend | src/pages/ClientProof.tsx:335-336 | the favourites filter keeps the photos' order (it distributes over concatenation) |
| ClientProof.ProofPage.constructor | src/pages/ClientProof.tsx:31-46 | the page starts locked, loading, with no photos, an empty selection and not submitted |
| ClientProof.ProofPage.FetchAlbum | src/pages/ClientProof.tsx:49-72 | only a client-enabled album is shown (otherwise not found); the page opens submitted exactly when `client_submitted_at` is set |
| ClientProof.ProofPage.EnterPin | src/pages/ClientProof.tsx:237 | typing sets the PIN field |
| ClientProof.ProofPage.HandlePinSubmit | src/pages/ClientProof.tsx:103-127 | only a valid PIN unlocks; a wrong PIN or a failed check keeps the page locked, clears the field and shows the matching message; nothing happens without a loaded album |
| ClientProof.ProofPage.FetchAfterUnlock | src/pages/ClientProof.tsx:75-101 | photos and stored selections load only once unlocked; a failed selection query keeps the current selection |
| ClientProof.ProofPage.TogglePhotoSelection | src/pages/ClientProof.tsx:129-151 | ignored once submitted or without an album id; refused with no change when adding would pass the cap; otherwise the selection becomes `Toggle` of the old one and stays within the cap |
| ClientProof.ProofPage.HandleSubmit | src/pages/ClientProof.tsx:167-200 | an empty selection is refused and changes nothing; otherwise submitting ends, the timestamp is stored and the page becomes submitted exactly when the write succeeded |
| ClientProof.ProofPage.Limit | src/pages/ClientProof.tsx:135 | the cap is the loaded album's `selection_limit`; without an album there is none |
| ClientProof.ProofPage.VisiblePhotos | src/pages/ClientProof.tsx:335-336 | the grid shows every loaded photo without the favourites view, and with it exactly the loaded photos that are selected |
| ClientProof.ProofPage.ToggleFavouritesView | src/pages/ClientProof.tsx:398 | the favourites button flips the view |
| GalleryCuration.AlbumsIn | src/components/admin/AdminGalleryNew.tsx:377-378 | the albums of a category are exactly the listed albums with that category |
| GalleryCuration.AlbumsInAppend | src/components/admin/AdminGalleryNew.tsx:377-378 | the category filter keeps the albums' order (it distributes over concatenation) |
| GalleryCuration.GetAlbumCount | src/components/admin/AdminGalleryNew.tsx:377-378 | a category's card count is at most the number of albums, and 0 exactly when no album has that category |
| GalleryCuration.GetAlbumCountAppend | src/components/admin/AdminGalleryNew.tsx:377-378 | the card count of two album lists together is the sum of their counts |
| GalleryCuration.AlbumCountsPartition | src/components/admin/AdminGalleryNew.tsx:377-378 | when every album belongs to one of the distinct listed categories, the category cards' counts add up to the number of albums |
| GalleryCuration.GetCategoryCover | src/components/admin/AdminGalleryNew.tsx:382-385 | the card shows the cover of the first album of the category that has one, and null exactly when none has |
| GalleryCuration.CountPhotos | src/components/admin/AdminGalleryNew.tsx:336-343 | the dictionary has an entry exactly for the album ids that occur, and each album's count equals its number of photos; null album ids are not counted |
| GalleryCuration.GetPhotoCount | src/components/admin/AdminGalleryNew.tsx:380 | an album's shown count is its entry in the count dictionary, or 0 when it has none |
| GalleryCuration.FindIndex | src/components/admin/AdminGalleryNew.tsx:605-606 | the first position holding the id, or -1 exactly when no photo has it |
| GalleryCuration.ArrayMove | src/components/admin/AdminGalleryNew.tsx:608 | the moved list has the same length and the same photos (a permutation), with the dragged photo at the target position |
| GalleryCuration.ArrayMoveAt | src/components/admin/AdminGalleryNew.tsx:608 | where each photo of the moved list came from |
| GalleryCuration.ArrayMoveInverse | src/components/admin/AdminGalleryNew.tsx:608 | dragging a photo back to where it came from restores the list |
| GalleryCuration.ArrayMoveKeepsDistinctIds | src/components/admin/AdminGalleryNew.tsx:604-609 | reordering never makes two photos share an id |
| GalleryCuration.WithPositionsAt | src/components/admin/AdminGalleryNew.tsx:611-616 | after the writes, each photo's stored `display_order` is its position and other rows keep theirs |
| GalleryCuration.ReorderIdempotent | src/components/admin/AdminGalleryNew.tsx:611-616 | writing the same order twice leaves the store as writing it once |
| GalleryCuration.StripExtension | src/components/admin/AdminGalleryNew.tsx:554 | the title is a prefix of the file name; when it is shorter, the name has a final extension (a last '.' followed by at least one character, none of them '/' or '.') at the cut; and when the name has a final extension, the title is exactly the part before it |
| GalleryCuration.BatchRowsOnlySuccesses | src/components/admin/AdminGalleryNew.tsx:549-558 | every row a batch stores belongs to a file `j` whose upload succeeded and whose insert went through, and carries `display_order = images.length + j`; no row exists for a failed upload |
| GalleryCuration.BatchRowsEverySuccess | src/components/admin/AdminGalleryNew.tsx:549-558 | every file `j` whose upload succeeded and whose insert went through gets its row, with `display_order = images.length + j` |
| GalleryCuration.BatchRowsCount | src/components/admin/AdminGalleryNew.tsx:549-558 | a batch stores as many rows as files whose upload and insert both succeeded, at most one per file |
| GalleryCuration.DropCompletedKeepsTheRest | src/components/admin/AdminGalleryNew.tsx:575 | the cleanup drops the completed entries, keeps every other one (the failed ones in particular), and is idempotent |
| GalleryCuration.DropCompletedAppend | src/components/admin/AdminGalleryNew.tsx:575 | the cleanup keeps the order of the entries it leaves (it distributes over concatenation) |
| GalleryCuration.MiddleUploadFails | src/components/admin/AdminGalleryNew.tsx:532-575 | of three files whose second upload fails, the first and third get rows at positions 0 and 2, and only the failed entry stays queued |
| GalleryCuration.InsertErrorIgnored | src/components/admin/AdminGalleryNew.tsx:549-564 | a file whose upload succeeds but whose row insert fails still ends complete, so the cleanup removes it and no row exists for it |
| GalleryCuration.BatchStep | src/components/admin/AdminGalleryNew.tsx:530-570 | while a batch runs, each file is held by its own queue entry alone (the queue held none of the fresh files before), and settling that entry advances the batch by one file |
| GalleryCuration.SetStatusOfOnlyEntry | src/components/admin/AdminGalleryNew.tsx:535-570 | updating a queue entry by File identity touches that file's entry alone when no other entry holds the file |
| GalleryCuration.CreateAlbumRow | src/components/admin/AdminGalleryNew.tsx:410-418 | an album is inserted exactly when a category is selected and the title is not blank; the title is stored as typed and an empty date as null |
| GalleryCuration.Curation.constructor | src/components/admin/AdminGalleryNew.tsx:278-296 | the screen starts on the category cards with nothing selected, loaded or queued |
| GalleryCuration.Curation.FetchAlbums | src/components/admin/AdminGalleryNew.tsx:349-361 | a successful query replaces the album list; a failed one keeps it |
| GalleryCuration.Curation.FetchPhotos | src/components/admin/AdminGalleryNew.tsx:363-375 | a successful query replaces the photo list; a failed one keeps it |
| GalleryCuration.Curation.FetchAllPhotoCounts | src/components/admin/AdminGalleryNew.tsx:329-347 | after a successful query every album's shown count is its number of photos (0 when it has none); a failed query keeps the counts |
| GalleryCuration.Curation.NavigateToCategory | src/components/admin/AdminGalleryNew.tsx:388-391 | opens the album level of that category |
| GalleryCuration.Curation.NavigateToAlbum | src/components/admin/AdminGalleryNew.tsx:393-396 | opens the photo level of that album |
| GalleryCuration.Curation.NavigateBack | src/components/admin/AdminGalleryNew.tsx:398-407 | photos go back to albums (dropping the album and its photos); albums go back to categories (dropping the category); nothing changes at the top |
| GalleryCuration.Curation.BreadcrumbToCategories | src/components/admin/AdminGalleryNew.tsx:703 | the root link returns to the category cards with nothing selected |
| GalleryCuration.Curation.BreadcrumbToAlbums | src/components/admin/AdminGalleryNew.tsx:717 | the category link returns to the album level, dropping the album |
| GalleryCuration.Curation.HandleDragEnd | src/components/admin/AdminGalleryNew.tsx:601-618 | no drop target, or a drop on itself, changes nothing; otherwise the list becomes the moved permutation with the dragged photo at the target's index, and every photo's stored `display_order` equals its new index |
| GalleryCuration.Curation.MovePhoto | src/components/admin/AdminGalleryNew.tsx:608-616 | the list becomes the moved one and its positions are written, keeping the photos' ids distinct |
| GalleryCuration.Curation.WritePositions | src/components/admin/AdminGalleryNew.tsx:611-616 | the write loop leaves the store as writing each photo's position in order |
| GalleryCuration.Curation.HandleFilesSelected | src/components/admin/AdminGalleryNew.tsx:518-572 | without an open album nothing happens; otherwise each file ends complete exactly when its upload returned a URL, and failed otherwise, and the stored rows are exactly those of the files whose upload and insert both succeeded, at `images.length + j` |
| GalleryCuration.Curation.UploadOne | src/components/admin/AdminGalleryNew.tsx:534-570 | one file of a batch: its entry ends complete exactly when the upload returned a URL, whatever the insert's outcome, and failed otherwise; a row is stored exactly when the upload returned a URL and the insert succeeded |
| GalleryCuration.Curation.ClearCompletedUploads | src/components/admin/AdminGalleryNew.tsx:574-577 | the queue loses its completed entries |
| ClientAlbums.ConfigFormFor | src/components/admin/AdminClientAlbums.tsx:98-106 | the form copies the album's settings; a null PIN or a null limit shows as an empty field, and the limit's text parses back to the limit |
| ClientAlbums.ConfigPatchFor | src/components/admin/AdminClientAlbums.tsx:117-131 | refused exactly when access is enabled with a blank PIN; otherwise the PIN is stored trimmed, or null when blank; an empty limit is stored as null, any other as its `parseInt` |
| ClientAlbums.AcceptedConfigKeepsPinInvariant | src/components/admin/AdminClientAlbums.tsx:117-130 | an accepted save never leaves an enabled album without a PIN that is not blank |
| ClientAlbums.SaveOfUntouchedForm | src/components/admin/AdminClientAlbums.tsx:98-133 | opening the dialog and saving it unchanged writes back exactly the stored settings |
| ClientAlbums.ConfiguredTouchesOnlyThatRow | src/components/admin/AdminClientAlbums.tsx:126-133 | the update changes the selected album's access columns and no other row |
| ClientAlbums.ConfiguredKeepsPinInvariant | src/components/admin/AdminClientAlbums.tsx:114-133 | a store whose albums all satisfy the PIN rule still does after an accepted save |
| ClientAlbums.WithSubmissionCleared | src/components/admin/AdminClientAlbums.tsx:151-154 | reopening clears that album's `client_submitted_at` and touches no other row |
| ClientAlbums.ClientEnabledAlbums | src/components/admin/AdminClientAlbums.tsx:172 | exactly the client-enabled albums, at most as many as there are albums |
| ClientAlbums.ClientEnabledAlbumsAppend | src/components/admin/AdminClientAlbums.tsx:172 | the list of client-enabled albums keeps their order and multiplicity (it distributes over concatenation) |
| ClientAlbums.SubmittedCount | src/components/admin/AdminClientAlbums.tsx:173 | at most the number of albums, and 0 exactly when no album has a submission |
| ClientAlbums.SubmittedCountAppend | src/components/admin/AdminClientAlbums.tsx:173 | the submitted count of two album lists together is the sum of their counts |
| ClientAlbums.ShareLink | src/components/admin/AdminClientAlbums.tsx:165 | the link is the origin, then the client route `/cliente/`, then the album id |
| ClientAlbums.ShareLinkIdentifiesAlbum | src/components/admin/AdminClientAlbums.tsx:165 | two albums of one site never share a link |
| ClientAlbums.ClientAlbumsAdmin.constructor | src/components/admin/AdminClientAlbums.tsx:35-49 | the screen starts with no album selected, an empty form and the dialog closed |
| ClientAlbums.ClientAlbumsAdmin.OpenConfigDialog | src/components/admin/AdminClientAlbums.tsx:98-106 | the dialog opens on the album with the form `ConfigFormFor` gives |
| ClientAlbums.ClientAlbumsAdmin.EditForm | src/components/admin/AdminClientAlbums.tsx:375-401 | the inputs set the form |
| ClientAlbums.ClientAlbumsAdmin.HandleSaveConfig | src/components/admin/AdminClientAlbums.tsx:114-142 | nothing is written without an album or when the PIN rule refuses the form; otherwise the album's row is updated when the write succeeds, which also closes the dialog; stored selections are never touched, and the PIN rule is kept for the whole store |
| ClientAlbums.ClientAlbumsAdmin.HandleResetSubmission | src/components/admin/AdminClientAlbums.tsx:144-162 | without confirmation nothing changes; a successful reopen clears only `client_submitted_at` of that album; the selections are kept |
| ClientAlbums.ClientAlbumsAdmin.CopyLink | src/components/admin/AdminClientAlbums.tsx:164-170 | the clipboard is handed the share link; the album is marked as copied exactly when the clipboard accepts it, and a rejected write leaves the mark as it was |
| LegacyGallery.FilteredImages | src/components/admin/AdminGallery.tsx:176-178 | "all" shows every image; any other category shows exactly the images of that category |
| LegacyGallery.CategoryFilter | src/components/admin/AdminGallery.tsx:178 | exactly the images of the category, never more than there are |
| LegacyGallery.CategoryFilterAppend | src/components/admin/AdminGallery.tsx:178 | the filter keeps the images' order (it distributes over concatenation) |
| LegacyGallery.CategoryFilterOfCategory | src/components/admin/AdminGallery.tsx:178 | a list within one category passes the filter unchanged |
| LegacyGallery.FilteredImagesIdempotent | src/components/admin/AdminGallery.tsx:176-178 | filtering twice is filtering once |
| LegacyGallery.SubmitDisabled | src/components/admin/AdminGallery.tsx:273 | submit is enabled exactly when not uploading, with a category, and either editing an image or with a file chosen; so a new image without a file is always disabled |
| LegacyGallery.ResolveImageUrl | src/components/admin/AdminGallery.tsx:92-102 | the submission aborts exactly when a chosen file fails to upload; an uploaded file's URL is used; an edit without a new file keeps the stored URL |
| LegacyGallery.EnabledNewImageUploads | src/components/admin/AdminGallery.tsx:92-102 | a new-image submission the button allows always uploads, so it never writes an empty URL |
| LegacyGallery.LegacyGalleryAdmin.constructor | src/components/admin/AdminGallery.tsx:31-45 | the screen starts loading, filter "all", empty form, nothing edited |
| LegacyGallery.LegacyGalleryAdmin.FetchImages | src/components/admin/AdminGallery.tsx:51-65 | a successful query replaces the list and a failed one keeps it; loading ends either way |
| LegacyGallery.LegacyGalleryAdmin.SelectCategory | src/components/admin/AdminGallery.tsx:296-306 | the filter buttons set the category |
| LegacyGallery.LegacyGalleryAdmin.VisibleImages | src/components/admin/AdminGallery.tsx:176-178 | the grid shows the images that pass the selected filter |
| LegacyGallery.LegacyGalleryAdmin.EditForm | src/components/admin/AdminGallery.tsx:209-253 | the inputs set the form |
| LegacyGallery.LegacyGalleryAdmin.HandleEdit | src/components/admin/AdminGallery.tsx:159-168 | the dialog opens on the image with its text fields and no file |
| LegacyGallery.LegacyGalleryAdmin.ResetForm | src/components/admin/AdminGallery.tsx:170-174 | the form is cleared, nothing is being edited and the dialog is closed |
| LegacyGallery.LegacyGalleryAdmin.HandleSubmit | src/components/admin/AdminGallery.tsx:87-141 | a failed upload or a failed write changes nothing but the uploading flag; a successful edit updates that row, keeping its URL without a new file; a successful addition inserts a row at `display_order = images.length`; success resets the form |
| Dashboard.CountPublished | src/components/admin/AdminDashboard.tsx:33 | at most the number of albums, equal to it exactly when all are published, 0 exactly when none is |
| Dashboard.CountPublishedAppend | src/components/admin/AdminDashboard.tsx:33 | the published count of two lists together is the sum of their counts |
| Dashboard.FetchStats | src/components/admin/AdminDashboard.tsx:29-37 | without albums nothing changes; otherwise the totals are the list lengths (0 photos when that list is null), the published count is `CountPublished` of the albums, 6 categories, and the recent albums are the first five (or fewer) |
| Dashboard.FetchStatsKeepsConsistency | src/components/admin/AdminDashboard.tsx:13-37 | the counters start consistent and every fetch keeps them so |
| Dashboard.AllPublishedIffNoDraft | src/components/admin/AdminDashboard.tsx:33 | all albums count as published exactly when none is a draft |
| Auth.PinVerdict | src/hooks/useAuth.tsx:26-46 | success exactly when the check answered true; the error is null exactly on success, and its text tells a failed call, a wrong PIN and an exception apart |
| Auth.AuthProvider.constructor | src/hooks/useAuth.tsx:16-17 | the provider starts as not admin and loading |
| Auth.AuthProvider.LoadSession | src/hooks/useAuth.tsx:19-24 | after loading, admin exactly when the stored flag is "true" |
| Auth.AuthProvider.VerifyPin | src/hooks/useAuth.tsx:26-46 | the result is `PinVerdict`'s; only success stores the flag and grants admin, anything else changes nothing |
| Auth.AuthProvider.SignOut | src/hooks/useAuth.tsx:48-51 | the flag is removed and admin access dropped |
| Auth.SessionFlagRoundTrip | src/hooks/useAuth.tsx:21-50 | a stored flag grants admin access on reload; a signed-out session does not |

## Left out

- Store I/O. Every database query, insert, update and delete, the storage upload,
  `getPublicUrl` and the two PIN-check RPCs are outside the model. Their results are
  parameters: query rows or `None`, a URL or `None`, write succeeded or not, the PIN
  verdict. What the server does with them is not modelled.
- Refreshes after a write are not modelled: `fetchAlbums` and `fetchImages` after a
  save, and `fetchPhotos` after an upload batch. The model offers the fetch methods
  separately.
- The selection write after a click is not modelled
  (`src/pages/ClientProof.tsx:154-164`). It is awaited, but its errors are ignored
  and the page's selection is set before it, so the stored selection rows are outside
  the model. The model keeps the page's optimistic selection.
- Reorder writes are awaited one at a time, but their errors are ignored and the
  list is set before them (`src/components/admin/AdminGalleryNew.tsx:608-616`).
  `Curation.HandleDragEnd` models them as all landing in order, so a partial failure
  is not modelled.
- Timing and cosmetic nondeterminism are left out:
  - the 1500 ms delay before the queue cleanup, modelled as the separate
    `ClearCompletedUploads`;
  - the 2 s reset of the copied marker;
  - the upload progress bar;
  - the object-URL previews;
  - file names built from `Date.now()` and `Math.random()`;
  - toasts, `console.error` and the navigation to the not-found page.
- `Curation.HandleFilesSelected`'s toast says the whole batch was sent even when some
  uploads failed. The model does not include toasts.
- ProofPage.HandleSubmit: the handler does not itself check `isSubmitted`. After a
  submission the page only renders the "submitted" screen, which has no submit
  button, so the model does not add that guard.
- ParseInt: the model gives exact integers. Precision beyond 2^53 and the
  `selection_limit` column's range are not modelled. A field that does not parse
  (NaN) is modelled as null, which is what the JSON body carries.
- Album and photo editing, deletion and cover selection are left out: the "no file
  keeps the old URL" rule is modelled on the flat gallery screen only. Also left out:
  the selections viewer, the feature toggle, the public pages, the sticky-scroll
  effects, the hero and about editors, and the sign-in page, which expects members
  the hook does not provide.
- The `site_images` table is seen through two separate fields of `Curation`:
  `storedOrder` (each row's `display_order`, which the reorder writes update) and
  `insertedPhotos` (the rows an upload batch inserts). New rows do not enter
  `storedOrder` until a later fetch, which is not modelled.
- Curation.HandleDragEnd requires that both ids belong to the displayed photos,
  because the sortable grid's items are exactly those ids
  (`src/components/admin/AdminGalleryNew.tsx:892`). The index -1 that `findIndex`
  returns for an unknown id is therefore not reached.
- Curation.HandleFilesSelected requires that the files of a batch are distinct and
  not already queued. The browser hands over new File objects for each selection,
  and the queue matches entries by object identity.

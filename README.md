# WikiPrompt client rules, modelled in Dafny

WikiPrompt is a React client for sharing AI prompt packs over a hosted backend.
Most of the client is UI, but seven components hold rules that are stated and proved here:

- **Profile page.** It enriches pack rows for its "my packs" and "liked" tabs with:
  - favourite counts;
  - the viewer's favourite flag;
  - each creator's display name and avatar;
  - the non-blank preview images.

  It also checks a new avatar before saving the profile.
- **Pack card.** It covers:
  - the favourite toggle, which changes the card only after the backend mutation succeeds;
  - the preview-image normalisation;
  - the collage layout;
  - the creator-avatar fallback.
- **Dashboard.** It holds the filter state and the category multi-select.
- **Sidebar.** Its price inputs are clamped into [0, 100] without the bounds crossing.
- **Upload form.** It keeps at most nine images, caps the title and prompt lengths, and validates and submits the pack.
- **Welcome banner.** Its slogan carousel index moves forward and back modulo four.
- **Pack manager.** It covers:
  - the creator-only delete control;
  - the checks made before the delete;
  - the check that the row is gone;
  - the storage paths of the images removed afterwards.

Backend answers are parameters of the operations:
- query results, errors with their codes, storage uploads;
- the reachability probe of an uploaded image;
- the check that a deleted row is gone.

The URL parser is also a parameter: the function from a URL to its pathname.

Shared modules:
- `Js` holds nullable values, loosely typed JSON entries, string truthiness and SDK error objects.
- `Strings` holds `trim`, `split`, `join` and first-occurrence `replace`.
- `Collections` holds lookups built from key/value lists (a later entry wins) and first-occurrence de-duplication.

Component state that handlers update in place is a class whose fields mirror the component's state variables:
- `Profile.ProfilePage`
- `PromptCard.Card`
- `Dashboard.DashboardPage`
- `UploadPage.UploadForm`
- `WelcomeBanner.Banner`
- `PromptPackManager.Manager`

Behaviours of the code worth noting:
- The profile page never inserts a fallback image: a pack with no usable image has an empty image list (`Profile.ValidPreviewImages`).
- The card uses the fallback image only when the image column is not an array or is an empty array. A non-empty array of blank entries shows no image at all (`PromptCard.BlankEntriesGiveNoImage`).
- The card changes its count and flag only after the mutation succeeds; a failed mutation changes nothing (`PromptCard.Card.HandleFavorite`).
- The placeholder avatar of a creator without a name is seeded with the lower-case "anonymous", while the name shown is "Anonymous" (`Profile.AvatarSeedFollowsName`).

## Model

| member | source | states |
|---|---|---|
| `Js.OrElse` | src/pages/Profile.tsx:151 | `a \|\| fallback` gives `a` exactly when it is a non-empty string, else the fallback |
| `Js.CaughtMessage` | src/pages/upload/UploadPage.tsx:145-147 | a caught value shows its own message only when it is an `Error` instance, else the fallback text |
| `Strings.TrimStart` | src/components/PromptCard.tsx:93 | leading trim keeps the suffix from the first non-whitespace character; everything dropped is whitespace |
| `Strings.TrimEnd` | src/components/PromptCard.tsx:93 | trailing trim keeps the prefix up to the last non-whitespace character; everything dropped is whitespace |
| `Strings.TrimEmptyIffBlank` | src/components/PromptCard.tsx:93 | `s.trim() !== ''` holds exactly when `s` has a non-whitespace character |
| `Strings.Split` | src/components/PromptPackManager.tsx:99 | splitting always gives at least one piece |
| `Strings.SplitPieces` | src/components/PromptPackManager.tsx:99 | no piece of a split contains the separator, and there is one piece more than there are separators |
| `Strings.Trim` | src/components/PromptCard.tsx:93 | the trimmed string is a slice of the input with only whitespace on either side, and it starts and ends on a non-whitespace character |
| `Strings.Join` | src/components/PromptPackManager.tsx:99 | the joined string starts with the first piece, followed by the separator when there is a second piece |
| `Strings.SplitJoin` | src/components/PromptPackManager.tsx:99 | splitting the join of pieces that hold no separator gives back the pieces |
| `Strings.JoinSplit` | src/components/PromptPackManager.tsx:99 | joining the pieces of a split with the same separator gives back the string |
| `Strings.SplitWithoutSeparator` | src/pages/Profile.tsx:318 | a string without the separator splits into itself alone |
| `Strings.SplitAtSeparator` | src/pages/Profile.tsx:318 | splitting `x + sep + y` gives the pieces of `x` followed by the pieces of `y` |
| `Strings.IndexOfFrom` | src/pages/upload/UploadPage.tsx:112 | the result is the first occurrence of the pattern at or after the start, or none when there is no occurrence |
| `Strings.ReplaceFirst` | src/pages/upload/UploadPage.tsx:112 | with no occurrence of the pattern the string is returned unchanged |
| `Strings.ReplaceFirstAt` | src/pages/upload/UploadPage.tsx:112 | when the first occurrence is at `i`, exactly that occurrence is replaced and the text before and after it is kept |
| `Collections.MapFromPairs` | src/pages/Profile.tsx:111-115 | the lookup built by the reduce has exactly the keys of the entries |
| `Collections.LastEntryWins` | src/pages/Profile.tsx:111-115 | a key's value is the value of its last entry, so a later duplicate overwrites an earlier one |
| `Collections.LookupHasLastValue` | src/pages/Profile.tsx:132-134 | every key in the lookup holds the value of the last entry with that key |
| `Collections.Distinct` | src/pages/Profile.tsx:126 | `Array.from(new Set(s))` has no duplicates, contains every value of `s` and only values of `s`, and is no longer than `s` |
| `Collections.DistinctOfDistinct` | src/pages/Profile.tsx:126 | a list already free of duplicates is kept as it is, order included |
| `PromptCard.InitialFavoriteCount` | src/components/PromptCard.tsx:45-49 | the initial counter is the numeric `favorite_count`, else the first embedded aggregate count, else 0 |
| `PromptCard.InitialIsFavorited` | src/components/PromptCard.tsx:44 | the initial flag holds exactly when `is_favorited` is true |
| `PromptCard.Toggled` | src/components/PromptCard.tsx:60-81 | after a successful mutation the flag flips, and the counter drops by one when unfavouriting and rises by one when favouriting |
| `PromptCard.ToggleTwiceRestores` | src/components/PromptCard.tsx:60-81 | two successful toggles restore the flag and the counter |
| `PromptCard.ToggledKeepsCountConsistent` | src/components/PromptCard.tsx:60-81 | a non-negative counter that counts the viewer's own favourite stays so across a toggle |
| `PromptCard.Card.constructor` | src/components/PromptCard.tsx:44-49 | a rendered card starts with the initial flag and counter of its props |
| `PromptCard.Card.HandleFavorite` | src/components/PromptCard.tsx:51-85 | without a user: no mutation, no state change and a redirect to the sign-in route; with a user, the delete or insert mutation matches the flag, and the state is toggled only when the mutation succeeds |
| `PromptCard.CardTestIsShowable` | src/components/PromptCard.tsx:93 | the card's filter keeps exactly the string entries with a non-whitespace character |
| `PromptCard.ShowableUrls` | src/components/PromptCard.tsx:93 | the filtered list is no longer than the input; a string is in it exactly when it is a non-blank string entry of the input |
| `PromptCard.NoShowableEntryGivesNothing` | src/components/PromptCard.tsx:93 | entries none of which is a non-blank string give an empty list |
| `PromptCard.ShowableUrlsAppend` | src/components/PromptCard.tsx:93 | the filter commutes with concatenation, so kept entries stay in input order |
| `PromptCard.ShowableUrlsKeepsShowable` | src/components/PromptCard.tsx:93 | filtering a list of non-blank strings keeps all of it, so the filter is idempotent |
| `PromptCard.PreviewImages` | src/components/PromptCard.tsx:92-94 | the fallback image is used exactly for a non-array or an empty array; otherwise the list is the filtered entries, which may be empty |
| `PromptCard.BlankEntriesGiveNoImage` | src/components/PromptCard.tsx:92-94 | a non-empty array holding only blank or non-string entries yields no image at all |
| `PromptCard.MixedEntriesKeepUrl` | src/components/PromptCard.tsx:92-94 | from `["", "  ", url, null]` only the URL is kept |
| `PromptCard.GridCols` | src/components/PromptCard.tsx:96-100 | one column for exactly one image, two otherwise |
| `PromptCard.CollageOf` | src/components/PromptCard.tsx:102-175 | covers the collage: the first min(4, n) images are shown; one column for a single tile, else two; rows of 100 above two tiles, else 200; the "+N" badge appears iff n > 4 and shown plus badge equals n |
| `PromptCard.OnImageError` | src/components/PromptCard.tsx:151-157 | a failed image gets the fallback as its source, and the source is assigned exactly when it was not already the fallback |
| `PromptCard.OnImageErrorAssignsAtMostOnce` | src/components/PromptCard.tsx:154-156 | however many load failures follow each other, the source is assigned at most once and ends as the fallback; a failing fallback is never assigned again |
| `PromptCard.CardAvatar` | src/components/PromptCard.tsx:230-231 | the avatar is `creator_avatar`, else `creator_avatar_url`, else the placeholder seeded by the name or "anonymous", and is never empty |
| `Profile.CreatorIds` | src/pages/Profile.tsx:126 | the creator ids have no duplicates and are exactly the packs' creator ids |
| `Profile.CreatorName` | src/pages/Profile.tsx:151 | full name if non-empty, else username if non-empty, else "Anonymous"; never empty |
| `Profile.CreatorAvatar` | src/pages/Profile.tsx:152-153 | the stored avatar if non-empty, else the placeholder seeded by full name, username or "anonymous" |
| `Profile.AvatarSeedFollowsName` | src/pages/Profile.tsx:151-153 | the placeholder seed is the displayed name, except that a nameless creator is shown as "Anonymous" but seeded "anonymous" |
| `Profile.ProfileTestIsShowable` | src/pages/Profile.tsx:140 | the page's image test keeps exactly the entries the card's test keeps |
| `Profile.ValidPreviewImages` | src/pages/Profile.tsx:139-141 | a non-array or an empty array gives no images; otherwise a string is kept exactly when it is a non-blank string entry, with the card's filter; no fallback is added |
| `Profile.FavoriteCountMap` | src/pages/Profile.tsx:111-115 | the lookup holds exactly the pack ids of the RPC rows, and nothing when the RPC returned null |
| `Profile.CreatorMap` | src/pages/Profile.tsx:132-134 | the lookup holds exactly the ids of the creator rows, each under its own id, and nothing when the query returned null |
| `Profile.TransformPack` | src/pages/Profile.tsx:137-158 | a view keeps the row's fields, keeps exactly the non-blank string images, has a non-empty creator name ("Anonymous" without a creator), the looked-up count or 0, and the tab's favourite flag |
| `Profile.EnrichPacks` | src/pages/Profile.tsx:137-159 | one view per fetched row, in the same order, with none for null rows; a row whose creator is missing is kept |
| `Profile.EnrichKeepsRows` | src/pages/Profile.tsx:143-157 | each view keeps its row's id, title, texts and dates; in "my packs" it is flagged iff the id is among the viewer's favourites, and in "liked" it is always flagged |
| `Profile.CountFromLastRpcRow` | src/pages/Profile.tsx:111-115 | a pack's count is the count of the last RPC row for its id |
| `Profile.CountDefaultsToZero` | src/pages/Profile.tsx:156 | a pack without an RPC row counts 0, and so does every pack when the RPC returned null |
| `Profile.MissingCreatorIsAnonymous` | src/pages/Profile.tsx:151-153 | a pack whose creator has no row shows "Anonymous" and the "anonymous" placeholder |
| `Profile.CreatorFromLastRow` | src/pages/Profile.tsx:132-138 | a pack whose creator has rows takes the name and avatar of the last row for that id |
| `Profile.CardOfView` | src/pages/Profile.tsx:445-456 | a card rendered from a view starts with the view's count and flag, and shows the view's images or the fallback when there are none |
| `Profile.WithField` | src/pages/Profile.tsx:508-530 | an editor field edit sets that field and keeps the others |
| `Profile.HeaderAvatar` | src/pages/Profile.tsx:471 | in the editor the header shows the preview; otherwise it shows the stored avatar or the placeholder seeded by the e-mail address |
| `Profile.AvatarProblem` | src/pages/Profile.tsx:304-310 | an avatar over 5 MiB is refused with the size message before the type check; otherwise only JPEG, PNG and GIF pass |
| `Profile.OldAvatarPath` | src/pages/Profile.tsx:316-323 | without a stored avatar nothing is removed; otherwise the removed path is `<user>/` followed by the stored URL's last `/`-piece, and nothing is removed when that piece is empty |
| `Profile.OldAvatarPathOfUrl` | src/pages/Profile.tsx:318-322 | for a stored URL ending in `/<file>` the removed path is `<user>/<file>` |
| `Profile.ProfilePage.constructor` | src/pages/Profile.tsx:72-80 | the page starts loading, with empty lists, no error and the editor closed |
| `Profile.ProfilePage.FetchMyPacks` | src/pages/Profile.tsx:85-168 | does nothing without a user; a failed query shows its message and keeps the list; otherwise the list becomes the enriched rows, flagged by the viewer's favourites, and loading ends |
| `Profile.ProfilePage.FetchLikedPacks` | src/pages/Profile.tsx:170-263 | does nothing without a user; an empty liked list empties the tab and queries no packs; otherwise the liked ids are queried and the list becomes the enriched rows, all flagged; each failure shows its message |
| `Profile.ProfilePage.EditClick` | src/pages/Profile.tsx:277-281 | opens the editor on the stored profile, previewing its avatar when it has one |
| `Profile.ProfilePage.AvatarChange` | src/pages/Profile.tsx:283-293 | a chosen file becomes the pending avatar, and an empty choice changes nothing |
| `Profile.ProfilePage.EditField` | src/pages/Profile.tsx:512-528 | typing changes one field of an open form, and nothing without one |
| `Profile.ProfilePage.SaveProfile` | src/pages/Profile.tsx:295-376 | described below this table |
| `Profile.ProfilePage.CancelEdit` | src/pages/Profile.tsx:378-383 | closes the editor and drops the form, the pending file and the preview |
| `Dashboard.Without` | src/pages/Dashboard.tsx:41-43 | the filtered list lacks `c`, is no longer than the input, and keeps exactly the other values |
| `Dashboard.WithoutAppend` | src/pages/Dashboard.tsx:41-43 | removal works entry by entry, keeping order |
| `Dashboard.WithoutAbsent` | src/pages/Dashboard.tsx:41-43 | removing an absent category changes nothing |
| `Dashboard.WithoutIdempotent` | src/pages/Dashboard.tsx:41-43 | removing twice equals removing once |
| `Dashboard.WithoutAt` | src/pages/Dashboard.tsx:41-43 | in a repeat-free list, removing the category at `i` keeps all the others in order |
| `Dashboard.WithoutKeepsNoDuplicates` | src/pages/Dashboard.tsx:41-43 | removal keeps a list free of repeats |
| `Dashboard.Toggled` | src/pages/Dashboard.tsx:32-38 | the toggled category is present iff it was absent, others are unaffected, and an absent one is appended at the end |
| `Dashboard.ToggleAbsentTwice` | src/pages/Dashboard.tsx:32-38 | toggling an absent category twice gives back the list |
| `Dashboard.ToggledKeepsNoDuplicates` | src/pages/Dashboard.tsx:32-38 | toggling keeps a list free of repeats |
| `Dashboard.RunHasNoDuplicates` | src/pages/Dashboard.tsx:25-47 | from the empty start, no run of toggles, removals and clears selects a category twice |
| `Dashboard.DashboardPage.constructor` | src/pages/Dashboard.tsx:25-29 | starts with no categories, model "All", price [0, 100], sort "newest" and an empty search |
| `Dashboard.DashboardPage.HandleCategoryToggle` | src/pages/Dashboard.tsx:31-39 | removes a selected category or appends an unselected one, keeps the list repeat-free, and changes no other filter |
| `Dashboard.DashboardPage.RemoveCategory` | src/pages/Dashboard.tsx:41-43 | removes the category and keeps the rest in order |
| `Dashboard.DashboardPage.ClearSelectedCategories` | src/pages/Dashboard.tsx:45-47 | empties the selection and changes no other filter |
| `Dashboard.DashboardPage.SetSelectedAiModel` | src/pages/Dashboard.tsx:62 | the sidebar's model choice replaces the model filter only |
| `Dashboard.DashboardPage.SetPriceRange` | src/pages/Dashboard.tsx:63 | the sidebar's range replaces the price filter only |
| `Dashboard.DashboardPage.SetSortBy` | src/pages/Dashboard.tsx:64 | the sidebar's sort choice replaces the sort order only |
| `Dashboard.DashboardPage.SetSearchQuery` | src/pages/Dashboard.tsx:86 | the search box replaces the query only |
| `Sidebar.HandlePriceChange` | src/components/Sidebar.tsx:36-38 | the slider's new range is passed on unchanged |
| `Sidebar.HandleMinPriceInput` | src/components/Sidebar.tsx:40-43 | the minimum becomes `min(max(0, v), hi)`, given case by case, and the maximum is kept |
| `Sidebar.HandleMaxPriceInput` | src/components/Sidebar.tsx:45-48 | the maximum becomes `max(min(100, v), lo)`, given case by case, and the minimum is kept |
| `Sidebar.MinInputKeepsWellFormed` | src/components/Sidebar.tsx:40-43 | from 0 ≤ lo ≤ hi ≤ 100 the min box keeps 0 ≤ lo ≤ hi ≤ 100 |
| `Sidebar.MaxInputKeepsWellFormed` | src/components/Sidebar.tsx:45-48 | from 0 ≤ lo ≤ hi ≤ 100 the max box keeps 0 ≤ lo ≤ hi ≤ 100 |
| `Sidebar.MinInputIdempotent` | src/components/Sidebar.tsx:41-42 | typing the same minimum twice equals typing it once |
| `Sidebar.MaxInputIdempotent` | src/components/Sidebar.tsx:46-47 | typing the same maximum twice equals typing it once |
| `UploadPage.WithoutIndex` | src/pages/upload/UploadPage.tsx:70-72 | dropping an index never lengthens the list |
| `UploadPage.WithoutIndexRemovesOne` | src/pages/upload/UploadPage.tsx:70-72 | exactly the entry at the index goes and the rest keep their order; an out-of-range index changes nothing |
| `UploadPage.SecureUrl` | src/pages/upload/UploadPage.tsx:112 | a URL without "http://" is kept; with one, the result is one character longer |
| `UploadPage.SecureUrlOfHttp` | src/pages/upload/UploadPage.tsx:112 | a URL starting with "http://" gets "https://", and the rest is kept, even a later "http://" |
| `UploadPage.SecureUrlKeepsOthers` | src/pages/upload/UploadPage.tsx:112 | a URL without "http://" is kept as it is |
| `UploadPage.ImageOutcome` | src/pages/upload/UploadPage.tsx:91-125 | one image gives its secured URL exactly when storage accepted it, the public URL is non-empty and the probe succeeded; otherwise it gives the storage error, the missing-URL message or the accessibility message |
| `UploadPage.UploadAll` | src/pages/upload/UploadPage.tsx:90-127 | all URLs in image order when every image succeeds; otherwise the message of the first failing image by position |
| `UploadPage.SubmitProblem` | src/pages/upload/UploadPage.tsx:76-83 | fewer than three images is reported before missing fields; the submit proceeds iff both checks pass |
| `UploadPage.UploadForm.constructor` | src/pages/upload/UploadPage.tsx:45-51 | the form starts empty, with no images, no error and not loading |
| `UploadPage.UploadForm.OnDrop` | src/pages/upload/UploadPage.tsx:53-60 | a drop that would pass nine images is refused whole with the limit message; otherwise it is appended in order and the error cleared; at most nine images ever |
| `UploadPage.UploadForm.RemoveImage` | src/pages/upload/UploadPage.tsx:70-72 | removes exactly the image at the index; an out-of-range index changes nothing |
| `UploadPage.UploadForm.SetTitle` | src/pages/upload/UploadPage.tsx:170-174 | a title edit is taken only up to 100 characters, else the old title stays |
| `UploadPage.UploadForm.SetPrompt` | src/pages/upload/UploadPage.tsx:232-236 | a prompt edit is taken only up to 2000 characters, else the old prompt stays |
| `UploadPage.UploadForm.SetAiModel` | src/pages/upload/UploadPage.tsx:249 | the model selector sets the model only |
| `UploadPage.UploadForm.SetCategory` | src/pages/upload/UploadPage.tsx:265 | the category selector sets the category only |
| `UploadPage.UploadForm.HandleSubmit` | src/pages/upload/UploadPage.tsx:74-151 | a validation failure shows its message and sends no upload and no insert; without a user no upload is sent either; uploads are sent exactly when validation passes and a user is signed in; the pack is inserted only when every upload succeeds; the browser goes home only when the insert succeeds; every failure shows its message |
| `WelcomeBanner.JsRemainder` | src/components/WelcomeBanner.tsx:75 | JavaScript's `%` agrees with the mathematical remainder on non-negative operands and is non-positive for negative ones |
| `WelcomeBanner.Next` | src/components/WelcomeBanner.tsx:74-76 | next maps i to i + 1 and the last slogan to the first, staying in range |
| `WelcomeBanner.Prev` | src/components/WelcomeBanner.tsx:78-80 | prev maps i to i − 1 and the first slogan to the last, staying in range |
| `WelcomeBanner.NextPrevInverse` | src/components/WelcomeBanner.tsx:74-80 | next after prev and prev after next are both the identity |
| `WelcomeBanner.NextNIsShift` | src/components/WelcomeBanner.tsx:75 | k steps forward from i land on (i + k) mod 4 |
| `WelcomeBanner.FullRotation` | src/components/WelcomeBanner.tsx:66-75 | four steps forward return to the start |
| `WelcomeBanner.PressAllInRange` | src/components/WelcomeBanner.tsx:74-80 | no run of arrow presses takes the index out of the slogan list |
| `WelcomeBanner.GalleryMatchesSlogans` | src/components/WelcomeBanner.tsx:6-55 | there is one row of four gallery images per slogan |
| `WelcomeBanner.SlideAt` | src/components/WelcomeBanner.tsx:121-154 | an index in range shows its slogan and its own row of four gallery images, `GALLERY_IMAGES[i]` |
| `WelcomeBanner.Banner.constructor` | src/components/WelcomeBanner.tsx:58-59 | the banner starts on the first slogan, not fading |
| `WelcomeBanner.Banner.HandleNext` | src/components/WelcomeBanner.tsx:74-76 | the right arrow moves to the next slogan and keeps the index in range |
| `WelcomeBanner.Banner.HandlePrev` | src/components/WelcomeBanner.tsx:78-80 | the left arrow moves to the previous slogan and keeps the index in range |
| `WelcomeBanner.Banner.RotationStart` | src/components/WelcomeBanner.tsx:63-64 | the rotation tick starts the fade and keeps the slogan |
| `WelcomeBanner.Banner.RotationEnd` | src/components/WelcomeBanner.tsx:65-68 | the delayed step moves to the next slogan and ends the fade |
| `PromptPackManager.ShowsControls` | src/components/PromptPackManager.tsx:140-142 | the controls show exactly for the signed-in creator |
| `PromptPackManager.DeleteGuard` | src/components/PromptPackManager.tsx:43-58 | described below this table |
| `PromptPackManager.DeleteErrorMessage` | src/components/PromptPackManager.tsx:66-72 | code PGRST204 reads as the permission message; other errors show as the catch block shows them |
| `PromptPackManager.JoinAppend` | src/components/PromptPackManager.tsx:99 | joining two non-empty runs of pieces puts one separator between their joins |
| `PromptPackManager.LastTwoSegments` | src/components/PromptPackManager.tsx:99 | a pathname without '/' is kept whole |
| `PromptPackManager.LastTwoIsSuffix` | src/components/PromptPackManager.tsx:99 | the storage path is a tail of the pathname |
| `PromptPackManager.LastTwoOfStoragePath` | src/components/PromptPackManager.tsx:99 | a pathname `.../<folder>/<file>` gives `<folder>/<file>` |
| `PromptPackManager.EntryPath` | src/components/PromptPackManager.tsx:95-105 | an entry gives a path exactly when it is a non-empty string whose URL parses |
| `PromptPackManager.StoragePaths` | src/components/PromptPackManager.tsx:94-106 | no more paths than entries |
| `PromptPackManager.StoragePathsAppend` | src/components/PromptPackManager.tsx:94-106 | the filter/map/filter chain works entry by entry, keeping order |
| `PromptPackManager.StoragePathsAllParse` | src/components/PromptPackManager.tsx:94-106 | when every entry is a parseable non-empty string, each gives its path at its own position |
| `PromptPackManager.StoragePathsSkipsUnusable` | src/components/PromptPackManager.tsx:94-106 | non-strings, empty strings and unparseable URLs give no path |
| `PromptPackManager.PathsToRemove` | src/components/PromptPackManager.tsx:92 | an image column that is not an array gives nothing to remove; an array gives exactly the storage paths of its entries |
| `PromptPackManager.Manager.constructor` | src/components/PromptPackManager.tsx:29-30 | the dialog starts closed with no error |
| `PromptPackManager.Manager.OpenDeleteDialog` | src/components/PromptPackManager.tsx:147 | the delete icon opens the dialog |
| `PromptPackManager.Manager.CloseDeleteDialog` | src/components/PromptPackManager.tsx:169 | cancel closes the dialog |
| `PromptPackManager.Manager.DismissError` | src/components/PromptPackManager.tsx:179 | closing the message clears the error |
| `PromptPackManager.Manager.HandleDelete` | src/components/PromptPackManager.tsx:32-137 | described below this table |

Three rows need more room than a table cell:

- **`Profile.ProfilePage.SaveProfile`**
  - It does nothing without a user or an open form.
  - A pending avatar is checked for size, then type, before anything is sent.
  - It removes the old avatar, then uploads.
  - The upload's failure and no-data cases each show their own message.
  - Otherwise the form is written with the new URL.
  - A failed update shows its message and keeps the editor open, with the pending file and the preview; success closes it and clears both.
- **`PromptPackManager.DeleteGuard`** runs its checks in this order, all before the delete:
  1. a failed lookup;
  2. no pack;
  3. no user;
  4. a user who is not the creator.

  Each has its own message, and the delete goes ahead iff the creator is signed in.
- **`PromptPackManager.Manager.HandleDelete`**
  - A failed check sends no delete.
  - A refused delete, or a row still found afterwards, removes no image and does not navigate.
  - Only a confirmed delete removes the image paths and sends the browser home.
  - The parent's `onDelete` callback is called exactly when the delete is confirmed and a callback was given.
  - The dialog closes in every outcome.

## Left out

- The backend SDK calls (queries, the RPC, storage, auth) are not modelled; their answers are method parameters.
- The URL parser (`new URL(...).pathname`) is a parameter, the function from a URL to its pathname.
- `UploadPage.UploadAll` reports the first failing image by position. `Promise.all` rejects with the first failure to settle in time, which depends on timing.
- `UploadPage.UploadForm.HandleSubmit` takes one storage answer per image (`|uploads| == |images|`).
- `UploadPage.UploadForm.HandleSubmit` uses the V8 wording for the error thrown when nobody is signed in.
- Timers are not modelled: the banner's rotation interval and fade delay, and the one-second wait before the deletion check. Their state updates are modelled as `RotationStart`/`RotationEnd`.
- Races are not modelled: overlapping fetches, the tab-switch effect that starts them, and stale closures over `images` in the drop handler.
- `PromptCard.Card.HandleFavorite`: overlapping clicks are not modelled. The handler has no in-flight guard and reads the flag from its closure, so a second click before the first mutation resolves sends the same mutation again and can change the count twice. Each call of the method is one click that completes before the next.
- Exceptions thrown outside the modelled error paths are not modelled (for example a null `likedIds` list, or a rejected storage removal). Their catch blocks show the thrown error's own message when it is an `Error`, else the fallback text, and the `finally` blocks still end loading or close the dialog.
- Random and time-based file names are not modelled (`Math.random`, `Date.now`), and neither is the uploaded avatar's own path.
- Logging, the grid-refresh event, `refreshProfile`, and locale date formatting are not modelled.
- The avatar's data-URL preview is not modelled; it comes from `FileReader`.
- The drop zone's own accept and size filters are not modelled: the accepted files are the input.
- `Sidebar.HandleMinPriceInput`: the `Number(...)` parse of the input box is not modelled. The clamp is modelled over whole numbers, so NaN and fractions are left out.
- `Sidebar.HandleMaxPriceInput`: the `Number(...)` parse is not modelled, for the same reason.
- `WelcomeBanner.JsRemainder` states the result only in sign and magnitude for negative operands; the handlers never pass one.
- String lengths are counted in Unicode characters, not UTF-16 code units, so the length caps differ for characters outside the Basic Multilingual Plane.
- A pack id that names an `Object.prototype` property (such as `constructor`) would read an inherited member of the count object; the model's lookup has no such keys.
- The listing grid's filter/sort query, purchases and prices are not modelled: `PromptGrid.tsx` renders a fixed sample list with hard-coded prices, and none of the modelled components computes them.
- Rendering and styling are not modelled.

/** The profile page of `src/pages/Profile.tsx`: the two tabs ("my packs",
    "liked packs") that load pack rows and enrich them with favourite counts,
    the viewer's favourite flag and the creator's display name and avatar, and
    the avatar checks of the profile editor. Backend answers are parameters. */
module Profile {
  import opened Js
  import opened Strings
  import opened Collections
  import PromptCard

  /** A `prompt_packs` row as the query returns it. */
  datatype PackRow = PackRow(
    id: string,
    title: string,
    prompt: string,
    fullPrompt: Option<string>,
    aiModel: Option<string>,
    category: Option<string>,
    previewImages: RawArray,
    creatorId: string,
    createdAt: string,
    updatedAt: string)

  /** One row of the `get_favorite_counts` remote procedure. */
  datatype CountRow = CountRow(packId: string, count: int)

  /** One `users` row of the creator lookup. */
  datatype Creator = Creator(id: string, fullName: Option<string>, username: Option<string>, avatarUrl: Option<string>)

  /** A pack as the page hands it to the cards. */
  datatype PackView = PackView(
    id: string,
    title: string,
    prompt: string,
    fullPrompt: Option<string>,
    aiModel: Option<string>,
    category: Option<string>,
    previewImages: seq<string>,
    creatorName: string,
    creatorAvatar: string,
    createdAt: string,
    updatedAt: string,
    favoriteCount: int,
    isFavorited: bool)

  const ANONYMOUS := "Anonymous"
  const AVATAR_SEED_FALLBACK := "anonymous"

  // ----- lookups -----

  function CountPairs(rows: seq<CountRow>): (pairs: seq<(string, int)>)
    ensures |pairs| == |rows|
    ensures forall k :: 0 <= k < |rows| ==> pairs[k] == (rows[k].packId, rows[k].count)
  {
    seq(|rows|, k requires 0 <= k < |rows| => (rows[k].packId, rows[k].count))
  }

  /** `favoriteCountMap`: the RPC rows (none when it returned null) folded into
      a pack-id lookup, a later row overwriting an earlier one. */
  function FavoriteCountMap(rpc: Option<seq<CountRow>>): (counts: map<string, int>)
    ensures rpc.None? ==> counts == map[]
    ensures rpc.Some? ==> forall id :: id in counts <==> exists j :: 0 <= j < |rpc.value| && rpc.value[j].packId == id
  {
    var rows := if rpc.Some? then rpc.value else [];
    var pairs := CountPairs(rows);
    assert forall id :: id in KeysOf(pairs) <==> exists j :: 0 <= j < |rows| && rows[j].packId == id by {
      forall id ensures id in KeysOf(pairs) <==> exists j :: 0 <= j < |rows| && rows[j].packId == id {
        if exists j :: 0 <= j < |rows| && rows[j].packId == id {
          var j :| 0 <= j < |rows| && rows[j].packId == id;
          assert pairs[j].0 == id;
        }
      }
    }
    MapFromPairs(pairs)
  }

  /** `favoriteCountMap[id] || 0` */
  function CountOf(counts: map<string, int>, id: string): int {
    if id in counts then counts[id] else 0
  }

  /** `creatorIds`: the distinct creator ids of the fetched packs. */
  function CreatorIds(packs: seq<PackRow>): (ids: seq<string>)
    ensures NoDuplicates(ids)
    ensures forall k :: 0 <= k < |packs| ==> packs[k].creatorId in ids
    ensures forall k :: 0 <= k < |ids| ==> exists j :: 0 <= j < |packs| && packs[j].creatorId == ids[k]
  {
    var all := seq(|packs|, k requires 0 <= k < |packs| => packs[k].creatorId);
    var ids := Distinct(all);
    assert forall k :: 0 <= k < |packs| ==> all[k] == packs[k].creatorId;
    assert forall k :: 0 <= k < |ids| ==> ids[k] in all;
    ids
  }

  function CreatorPairs(rows: seq<Creator>): (pairs: seq<(string, Creator)>)
    ensures |pairs| == |rows|
    ensures forall k :: 0 <= k < |rows| ==> pairs[k] == (rows[k].id, rows[k])
  {
    seq(|rows|, k requires 0 <= k < |rows| => (rows[k].id, rows[k]))
  }

  /** `creatorMap`: the creator rows (none when the query returned null) by id. */
  function CreatorMap(data: Option<seq<Creator>>): (creators: map<string, Creator>)
    ensures data.None? ==> creators == map[]
    ensures data.Some? ==> forall id :: id in creators <==> exists j :: 0 <= j < |data.value| && data.value[j].id == id
    ensures forall id :: id in creators ==> creators[id].id == id
  {
    var rows := if data.Some? then data.value else [];
    var pairs := CreatorPairs(rows);
    assert forall id :: id in KeysOf(pairs) <==> exists j :: 0 <= j < |rows| && rows[j].id == id by {
      forall id ensures id in KeysOf(pairs) <==> exists j :: 0 <= j < |rows| && rows[j].id == id {
        if exists j :: 0 <= j < |rows| && rows[j].id == id {
          var j :| 0 <= j < |rows| && rows[j].id == id;
          assert pairs[j].0 == id;
        }
      }
    }
    assert forall id :: id in MapFromPairs(pairs) ==> MapFromPairs(pairs)[id].id == id by {
      forall id | id in MapFromPairs(pairs) ensures MapFromPairs(pairs)[id].id == id {
        LookupHasLastValue(pairs, id);
      }
    }
    MapFromPairs(pairs)
  }

  function Lookup(creators: map<string, Creator>, id: string): Option<Creator> {
    if id in creators then Some(creators[id]) else None
  }

  // ----- display fields -----

  function FullName(c: Option<Creator>): Option<string> {
    if c.Some? then c.value.fullName else None
  }

  function Username(c: Option<Creator>): Option<string> {
    if c.Some? then c.value.username else None
  }

  function AvatarUrl(c: Option<Creator>): Option<string> {
    if c.Some? then c.value.avatarUrl else None
  }

  /** `creator_name`: full name, else username, else "Anonymous"; never empty. */
  function CreatorName(c: Option<Creator>): (name: string)
    ensures Truthy(name)
    ensures FullName(c).Some? && Truthy(FullName(c).value) ==> name == FullName(c).value
    ensures !(FullName(c).Some? && Truthy(FullName(c).value)) && Username(c).Some? && Truthy(Username(c).value)
      ==> name == Username(c).value
    ensures !(FullName(c).Some? && Truthy(FullName(c).value)) && !(Username(c).Some? && Truthy(Username(c).value))
      ==> name == ANONYMOUS
  {
    OrElse(FullName(c), OrElse(Username(c), ANONYMOUS))
  }

  /** The placeholder seed: full name, else username, else "anonymous". */
  function AvatarSeed(c: Option<Creator>): string {
    OrElse(FullName(c), OrElse(Username(c), AVATAR_SEED_FALLBACK))
  }

  /** `creator_avatar`: the stored avatar when there is one, else the placeholder
      for the seed. */
  function CreatorAvatar(c: Option<Creator>): (url: string)
    ensures AvatarUrl(c).Some? && Truthy(AvatarUrl(c).value) ==> url == AvatarUrl(c).value
    ensures !(AvatarUrl(c).Some? && Truthy(AvatarUrl(c).value)) ==> url == PromptCard.DicebearAvatarUrl(AvatarSeed(c))
  {
    OrElse(AvatarUrl(c), PromptCard.DicebearAvatarUrl(AvatarSeed(c)))
  }

  /** The placeholder is seeded by the display name, except that a creator
      with neither name (or no creator row at all) is shown as "Anonymous" but
      seeded with the lower-case "anonymous". */
  lemma AvatarSeedFollowsName(c: Option<Creator>)
    ensures (FullName(c).Some? && Truthy(FullName(c).value)) || (Username(c).Some? && Truthy(Username(c).value))
      ==> AvatarSeed(c) == CreatorName(c)
    ensures !(FullName(c).Some? && Truthy(FullName(c).value)) && !(Username(c).Some? && Truthy(Username(c).value))
      ==> CreatorName(c) == ANONYMOUS && AvatarSeed(c) == AVATAR_SEED_FALLBACK
  {
  }

  /** The page's filter test on one entry: a truthy string that is not empty
      after trimming. */
  predicate ProfileKeepsImage(v: JsValue) {
    v.JsString? && Truthy(v.s) && Trim(v.s) != ""
  }

  lemma ProfileTestIsShowable(v: JsValue)
    ensures ProfileKeepsImage(v) <==> PromptCard.IsShowableUrl(v)
  {
    if v.JsString? {
      TrimEmptyIffBlank(v.s);
    }
  }

  /** `validPreviewImages`: the showable entries of an array, [] for anything
      else; no fallback image is put in. */
  function ValidPreviewImages(raw: RawArray): (r: seq<string>)
    ensures raw.NotAnArray? ==> r == []
    ensures raw.ArrayOf? ==> r == PromptCard.ShowableUrls(raw.items)
    ensures raw.ArrayOf? && raw.items == [] ==> r == []
    ensures forall x :: x in r <==> raw.ArrayOf? && JsString(x) in raw.items && !IsBlank(x)
  {
    if raw.ArrayOf? then PromptCard.ShowableUrls(raw.items) else []
  }

  // ----- the row transform -----

  /** How a tab decides `is_favorited`: membership in the viewer's favourite
      ids ("my packs"), or always (the "liked" tab). */
  datatype FavoriteRule = ViewerFavorites(ids: seq<string>) | AllFavorited

  function IsFavorited(rule: FavoriteRule, id: string): bool {
    match rule
    case ViewerFavorites(ids) => id in ids
    case AllFavorited => true
  }

  /** `transformPack`: the row's own fields, its showable images, the creator's
      display fields (a missing creator shows as anonymous), its favourite count
      (0 without one) and the tab's favourite flag. */
  function TransformPack(pack: PackRow, creators: map<string, Creator>, counts: map<string, int>, rule: FavoriteRule): (v: PackView)
    ensures v.id == pack.id && v.title == pack.title && v.prompt == pack.prompt && v.fullPrompt == pack.fullPrompt
    ensures v.aiModel == pack.aiModel && v.category == pack.category
    ensures v.createdAt == pack.createdAt && v.updatedAt == pack.updatedAt
    ensures forall x :: x in v.previewImages <==> pack.previewImages.ArrayOf? && JsString(x) in pack.previewImages.items && !IsBlank(x)
    ensures Truthy(v.creatorName)
    ensures pack.creatorId !in creators ==> v.creatorName == ANONYMOUS
    ensures v.favoriteCount == (if pack.id in counts then counts[pack.id] else 0)
    ensures v.isFavorited <==> rule.AllFavorited? || pack.id in rule.ids
  {
    var creator := Lookup(creators, pack.creatorId);
    PackView(
      pack.id, pack.title, pack.prompt, pack.fullPrompt, pack.aiModel, pack.category,
      ValidPreviewImages(pack.previewImages),
      CreatorName(creator),
      CreatorAvatar(creator),
      pack.createdAt, pack.updatedAt,
      CountOf(counts, pack.id),
      IsFavorited(rule, pack.id))
  }

  /** `transformedData`: one view per fetched row (none when the rows are null),
      in the same order; a row whose creator is missing is kept. */
  function EnrichPacks(packsData: Option<seq<PackRow>>, rpc: Option<seq<CountRow>>, creatorData: Option<seq<Creator>>, rule: FavoriteRule): (views: seq<PackView>)
    ensures packsData.None? ==> views == []
    ensures packsData.Some? ==> |views| == |packsData.value|
    ensures packsData.Some? ==> forall k :: 0 <= k < |views| ==>
      views[k] == TransformPack(packsData.value[k], CreatorMap(creatorData), FavoriteCountMap(rpc), rule)
  {
    var packs := if packsData.Some? then packsData.value else [];
    var creators := CreatorMap(creatorData);
    var counts := FavoriteCountMap(rpc);
    seq(|packs|, k requires 0 <= k < |packs| => TransformPack(packs[k], creators, counts, rule))
  }

  /** Every view carries its row's id, title and texts unchanged, and its
      favourite flag by the tab's rule. */
  lemma EnrichKeepsRows(packs: seq<PackRow>, rpc: Option<seq<CountRow>>, creatorData: Option<seq<Creator>>, rule: FavoriteRule, k: int)
    requires 0 <= k < |packs|
    ensures var v := EnrichPacks(Some(packs), rpc, creatorData, rule)[k];
      && v.id == packs[k].id && v.title == packs[k].title && v.prompt == packs[k].prompt
      && v.fullPrompt == packs[k].fullPrompt && v.aiModel == packs[k].aiModel && v.category == packs[k].category
      && v.createdAt == packs[k].createdAt && v.updatedAt == packs[k].updatedAt
      && (rule.ViewerFavorites? ==> (v.isFavorited <==> packs[k].id in rule.ids))
      && (rule.AllFavorited? ==> v.isFavorited)
  {
  }

  /** A pack's count is the count of the last RPC row for its id. */
  lemma CountFromLastRpcRow(packs: seq<PackRow>, rows: seq<CountRow>, creatorData: Option<seq<Creator>>, rule: FavoriteRule, k: int, j: int)
    requires 0 <= k < |packs| && 0 <= j < |rows|
    requires rows[j].packId == packs[k].id
    requires forall j' :: j < j' < |rows| ==> rows[j'].packId != rows[j].packId
    ensures EnrichPacks(Some(packs), Some(rows), creatorData, rule)[k].favoriteCount == rows[j].count
  {
    var pairs := CountPairs(rows);
    assert IsLastWithKey(pairs, j);
    LastEntryWins(pairs, j);
  }

  /** A pack with no RPC row, or any pack when the RPC returned null, counts 0. */
  lemma CountDefaultsToZero(packs: seq<PackRow>, rpc: Option<seq<CountRow>>, creatorData: Option<seq<Creator>>, rule: FavoriteRule, k: int)
    requires 0 <= k < |packs|
    requires rpc.Some? ==> forall j :: 0 <= j < |rpc.value| ==> rpc.value[j].packId != packs[k].id
    ensures EnrichPacks(Some(packs), rpc, creatorData, rule)[k].favoriteCount == 0
  {
    var pairs := CountPairs(if rpc.Some? then rpc.value else []);
    assert packs[k].id !in KeysOf(pairs);
  }

  /** A pack whose creator has no row is shown as "Anonymous" with the
      "anonymous" placeholder avatar. */
  lemma MissingCreatorIsAnonymous(packs: seq<PackRow>, rpc: Option<seq<CountRow>>, creatorData: Option<seq<Creator>>, rule: FavoriteRule, k: int)
    requires 0 <= k < |packs|
    requires creatorData.Some? ==> forall j :: 0 <= j < |creatorData.value| ==> creatorData.value[j].id != packs[k].creatorId
    ensures var v := EnrichPacks(Some(packs), rpc, creatorData, rule)[k];
      v.creatorName == ANONYMOUS && v.creatorAvatar == PromptCard.DicebearAvatarUrl(AVATAR_SEED_FALLBACK)
  {
    var pairs := CreatorPairs(if creatorData.Some? then creatorData.value else []);
    assert packs[k].creatorId !in KeysOf(pairs);
  }

  /** A pack whose creator has a row takes its name and avatar from the last
      row for that id. */
  lemma CreatorFromLastRow(packs: seq<PackRow>, rpc: Option<seq<CountRow>>, rows: seq<Creator>, rule: FavoriteRule, k: int, j: int)
    requires 0 <= k < |packs| && 0 <= j < |rows|
    requires rows[j].id == packs[k].creatorId
    requires forall j' :: j < j' < |rows| ==> rows[j'].id != rows[j].id
    ensures var v := EnrichPacks(Some(packs), rpc, Some(rows), rule)[k];
      v.creatorName == CreatorName(Some(rows[j])) && v.creatorAvatar == CreatorAvatar(Some(rows[j]))
  {
    var pairs := CreatorPairs(rows);
    assert IsLastWithKey(pairs, j);
    LastEntryWins(pairs, j);
  }

  /** A card rendered from a view starts with the view's count and flag; its
      images are the view's images, or the fallback when the view has none. */
  function CardPropsOf(v: PackView): PromptCard.CardProps {
    PromptCard.CardProps(
      v.id, v.title, ArrayOf(PromptCard.AsJsStrings(v.previewImages)),
      Some(v.creatorName), Some(v.creatorAvatar), None,
      Some(v.favoriteCount), None, Some(v.isFavorited))
  }

  lemma CardOfView(packs: seq<PackRow>, rpc: Option<seq<CountRow>>, creatorData: Option<seq<Creator>>, rule: FavoriteRule, k: int)
    requires 0 <= k < |packs|
    ensures var v := EnrichPacks(Some(packs), rpc, creatorData, rule)[k];
      var p := CardPropsOf(v);
      && PromptCard.InitialFavoriteCount(p) == v.favoriteCount
      && PromptCard.InitialIsFavorited(p) == v.isFavorited
      && PromptCard.PreviewImages(p.previewImages) == (if v.previewImages == [] then [PromptCard.FALLBACK_IMAGE] else v.previewImages)
  {
    var v := EnrichPacks(Some(packs), rpc, creatorData, rule)[k];
    PromptCard.ShowableUrlsKeepsShowable(v.previewImages);
  }

  // ----- the page -----

  /** A file chosen for the avatar. */
  datatype AvatarFile = AvatarFile(name: string, size: int, mimeType: string)

  /** The editable profile fields. */
  datatype ProfileForm = ProfileForm(fullName: Option<string>, username: Option<string>, bio: Option<string>, avatarUrl: Option<string>)

  /** The storage answer to the avatar upload. */
  datatype AvatarUpload = UploadFailed | NoDataReturned | Uploaded(publicUrl: string)

  const MAX_AVATAR_BYTES := 5 * 1024 * 1024
  const AVATAR_TYPES := ["image/jpeg", "image/png", "image/gif"]
  const AVATAR_TOO_LARGE := "Avatar image must be less than 5MB"
  const AVATAR_WRONG_TYPE := "Avatar must be a JPEG, PNG, or GIF file"
  const AVATAR_UPLOAD_FAILED := "Failed to upload avatar. Please try again."
  const AVATAR_NO_DATA := "Failed to upload avatar. No data returned."
  const PROFILE_UPDATE_FAILED := "Failed to update profile. Please try again."

  /** The three text fields of the editor. */
  datatype FormField = FullNameField | UsernameField | BioField

  /** The form with one field set to `value`, the others kept. */
  function WithField(form: ProfileForm, field: FormField, value: string): (r: ProfileForm)
    ensures r.avatarUrl == form.avatarUrl
    ensures r.fullName == (if field == FullNameField then Some(value) else form.fullName)
    ensures r.username == (if field == UsernameField then Some(value) else form.username)
    ensures r.bio == (if field == BioField then Some(value) else form.bio)
  {
    match field
    case FullNameField => form.(fullName := Some(value))
    case UsernameField => form.(username := Some(value))
    case BioField => form.(bio := Some(value))
  }

  /** The header avatar: in the editor, the chosen preview (none shows the
      avatar's initials); otherwise the stored avatar, else a placeholder seeded
      by the e-mail address (or "anonymous"). */
  function HeaderAvatar(isEditMode: bool, avatarPreview: Option<string>, stored: Option<string>, email: Option<string>): (src: Option<string>)
    ensures isEditMode ==> (src.Some? <==> avatarPreview.Some? && Truthy(avatarPreview.value))
    ensures isEditMode && src.Some? ==> src == avatarPreview
    ensures !isEditMode && stored.Some? && Truthy(stored.value) ==> src == stored
    ensures !isEditMode && !(stored.Some? && Truthy(stored.value)) ==> src == Some(PromptCard.DicebearAvatarUrl(OrElse(email, AVATAR_SEED_FALLBACK)))
  {
    if isEditMode then
      (if avatarPreview.Some? && Truthy(avatarPreview.value) then avatarPreview else None)
    else Some(OrElse(stored, PromptCard.DicebearAvatarUrl(OrElse(email, AVATAR_SEED_FALLBACK))))
  }

  /** The avatar checks: the size limit is checked before the type. */
  function AvatarProblem(f: AvatarFile): (problem: Option<string>)
    ensures f.size > MAX_AVATAR_BYTES ==> problem == Some(AVATAR_TOO_LARGE)
    ensures f.size <= MAX_AVATAR_BYTES && f.mimeType !in AVATAR_TYPES ==> problem == Some(AVATAR_WRONG_TYPE)
    ensures problem.None? <==> f.size <= MAX_AVATAR_BYTES && f.mimeType in AVATAR_TYPES
  {
    if f.size > MAX_AVATAR_BYTES then Some(AVATAR_TOO_LARGE)
    else if f.mimeType !in AVATAR_TYPES then Some(AVATAR_WRONG_TYPE)
    else None
  }

  /** The storage path of the previous avatar to remove: the user's folder and
      the last `/`-piece of the stored URL, when both are non-empty. */
  function OldAvatarPath(userId: UserId, stored: Option<string>): (path: Option<string>)
    ensures !(stored.Some? && Truthy(stored.value)) ==> path.None?
    ensures path.Some? ==>
      stored.Some? && path.value == userId + "/" + Split(stored.value, '/')[|Split(stored.value, '/')| - 1]
    ensures stored.Some? && Truthy(stored.value) && Split(stored.value, '/')[|Split(stored.value, '/')| - 1] == "" ==>
      path.None?
  {
    if stored.Some? && Truthy(stored.value) then
      var parts := Split(stored.value, '/');
      var file := parts[|parts| - 1];
      if Truthy(file) then Some(userId + "/" + file) else None
    else None
  }

  /** For an avatar URL ending in `/<file>`, the old path is `<user>/<file>`. */
  lemma OldAvatarPathOfUrl(userId: UserId, prefix: string, file: string)
    requires '/' !in file && file != ""
    ensures OldAvatarPath(userId, Some(prefix + "/" + file)) == Some(userId + "/" + file)
  {
    SplitAtSeparator(prefix, file, '/');
    SplitWithoutSeparator(file, '/');
  }

  class ProfilePage {
    var isLoading: bool
    var error: Option<string>
    var myPacks: seq<PackView>
    var likedPacks: seq<PackView>
    var isEditMode: bool
    var editForm: Option<ProfileForm>
    var avatarFile: Option<AvatarFile>
    var avatarPreview: Option<string>

    constructor ()
      ensures isLoading && error.None? && myPacks == [] && likedPacks == []
      ensures !isEditMode && editForm.None? && avatarFile.None? && avatarPreview.None?
    {
      isLoading := true;
      error := None;
      myPacks := [];
      likedPacks := [];
      isEditMode := false;
      editForm := None;
      avatarFile := None;
      avatarPreview := None;
    }

    /** The "my packs" tab. Without a user nothing happens. A failed pack query
        sets the error and keeps the old list. Otherwise the list becomes the
        enriched rows and the ids of their creators are looked up. */
    method FetchMyPacks(
      user: Option<UserId>,
      packs: Fetched<Option<seq<PackRow>>>,
      rpc: Option<seq<CountRow>>,
      favoritesData: Option<seq<string>>,
      creatorData: Option<seq<Creator>>)
      returns (creatorQuery: Option<seq<string>>)
      modifies this
      ensures user.None? ==> creatorQuery.None? && isLoading == old(isLoading) && error == old(error) && myPacks == old(myPacks)
      ensures user.Some? && packs.Failed? ==>
        creatorQuery.None? && !isLoading && error == Some(packs.message) && myPacks == old(myPacks)
      ensures user.Some? && packs.Ok? ==>
        && !isLoading && error.None?
        && creatorQuery == Some(CreatorIds(if packs.data.Some? then packs.data.value else []))
        && myPacks == EnrichPacks(packs.data, rpc, creatorData,
                                  ViewerFavorites(if favoritesData.Some? then favoritesData.value else []))
      ensures likedPacks == old(likedPacks) && isEditMode == old(isEditMode) && editForm == old(editForm)
      ensures avatarFile == old(avatarFile) && avatarPreview == old(avatarPreview)
    {
      if user.None? {
        return None;
      }
      isLoading := true;
      error := None;
      if packs.Failed? {
        error := Some(packs.message);
        creatorQuery := None;
      } else {
        var rows := if packs.data.Some? then packs.data.value else [];
        var userFavorites := if favoritesData.Some? then favoritesData.value else [];
        creatorQuery := Some(CreatorIds(rows));
        myPacks := EnrichPacks(packs.data, rpc, creatorData, ViewerFavorites(userFavorites));
      }
      isLoading := false;
    }

    /** The "liked packs" tab. Without a user nothing happens. A failed id query
        sets the error. No liked ids: the list becomes empty and no pack query
        is made. Otherwise the packs with those ids are queried; a failed query
        sets the error, a successful one makes the list the enriched rows, all
        flagged as favourites. */
    method FetchLikedPacks(
      user: Option<UserId>,
      likedIds: Fetched<seq<string>>,
      packs: Fetched<Option<seq<PackRow>>>,
      rpc: Option<seq<CountRow>>,
      creatorData: Option<seq<Creator>>)
      returns (packQuery: Option<seq<string>>)
      modifies this
      ensures user.None? ==> packQuery.None? && isLoading == old(isLoading) && error == old(error) && likedPacks == old(likedPacks)
      ensures user.Some? && likedIds.Failed? ==>
        packQuery.None? && !isLoading && error == Some(likedIds.message) && likedPacks == old(likedPacks)
      ensures user.Some? && likedIds.Ok? && likedIds.data == [] ==>
        packQuery.None? && !isLoading && error.None? && likedPacks == []
      ensures user.Some? && likedIds.Ok? && likedIds.data != [] ==> packQuery == Some(likedIds.data) && !isLoading
      ensures user.Some? && likedIds.Ok? && likedIds.data != [] && packs.Failed? ==>
        error == Some(packs.message) && likedPacks == old(likedPacks)
      ensures user.Some? && likedIds.Ok? && likedIds.data != [] && packs.Ok? ==>
        error.None? && likedPacks == EnrichPacks(packs.data, rpc, creatorData, AllFavorited)
      ensures myPacks == old(myPacks) && isEditMode == old(isEditMode) && editForm == old(editForm)
      ensures avatarFile == old(avatarFile) && avatarPreview == old(avatarPreview)
    {
      if user.None? {
        return None;
      }
      isLoading := true;
      error := None;
      packQuery := None;
      match likedIds {
        case Failed(message) =>
          error := Some(message);
        case Ok(ids) =>
          if ids == [] {
            likedPacks := [];
          } else {
            packQuery := Some(ids);
            match packs {
              case Failed(message) =>
                error := Some(message);
              case Ok(data) =>
                likedPacks := EnrichPacks(data, rpc, creatorData, AllFavorited);
            }
          }
      }
      isLoading := false;
    }

    /** Opening the editor on the stored profile. */
    method EditClick(profile: Option<ProfileForm>)
      modifies this
      ensures editForm == profile && isEditMode
      ensures avatarPreview == (if profile.Some? && profile.value.avatarUrl.Some? && Truthy(profile.value.avatarUrl.value)
                                then profile.value.avatarUrl else None)
      ensures isLoading == old(isLoading) && error == old(error) && myPacks == old(myPacks)
      ensures likedPacks == old(likedPacks) && avatarFile == old(avatarFile)
    {
      editForm := profile;
      avatarPreview := if profile.Some? && profile.value.avatarUrl.Some? && Truthy(profile.value.avatarUrl.value)
                       then profile.value.avatarUrl else None;
      isEditMode := true;
    }

    /** Closing the editor without saving. */
    method CancelEdit()
      modifies this
      ensures !isEditMode && editForm.None? && avatarFile.None? && avatarPreview.None?
      ensures isLoading == old(isLoading) && error == old(error) && myPacks == old(myPacks) && likedPacks == old(likedPacks)
    {
      isEditMode := false;
      editForm := None;
      avatarFile := None;
      avatarPreview := None;
    }

    /** Picking a file for the avatar (an empty pick changes nothing). */
    method AvatarChange(file: Option<AvatarFile>)
      modifies this
      ensures avatarFile == (if file.Some? then file else old(avatarFile))
      ensures isLoading == old(isLoading) && error == old(error) && myPacks == old(myPacks) && likedPacks == old(likedPacks)
      ensures isEditMode == old(isEditMode) && editForm == old(editForm) && avatarPreview == old(avatarPreview)
    {
      if file.Some? {
        avatarFile := file;
      }
    }

    /** Typing into one field of the open editor (no open form: nothing changes). */
    method EditField(field: FormField, value: string)
      modifies this
      ensures old(editForm).None? ==> editForm.None?
      ensures old(editForm).Some? ==> editForm == Some(WithField(old(editForm).value, field, value))
      ensures isLoading == old(isLoading) && error == old(error) && myPacks == old(myPacks) && likedPacks == old(likedPacks)
      ensures isEditMode == old(isEditMode) && avatarFile == old(avatarFile) && avatarPreview == old(avatarPreview)
    {
      if editForm.Some? {
        editForm := Some(WithField(editForm.value, field, value));
      }
    }

    /** Saving the editor. Without a user or an open form nothing happens.
        A chosen avatar is checked (size, then type) before anything is sent;
        then the old avatar file is removed, the new one uploaded, and the
        profile row updated with the form and the avatar URL. Any failure sets
        its message and leaves the editor open; success closes it. */
    method SaveProfile(user: Option<UserId>, storedAvatarUrl: Option<string>, upload: AvatarUpload, updateFails: bool)
      returns (removedAvatar: Option<string>, written: Option<ProfileForm>)
      modifies this
      ensures user.None? || old(editForm).None? ==>
        removedAvatar.None? && written.None? && error == old(error) && isLoading == old(isLoading)
        && isEditMode == old(isEditMode) && avatarFile == old(avatarFile) && avatarPreview == old(avatarPreview)
      ensures user.Some? && old(editForm).Some? ==> !isLoading
      ensures user.Some? && old(editForm).Some? && old(avatarFile).Some? && AvatarProblem(old(avatarFile).value).Some? ==>
        error == AvatarProblem(old(avatarFile).value) && removedAvatar.None? && written.None?
      ensures user.Some? && old(editForm).Some? && old(avatarFile).Some? && AvatarProblem(old(avatarFile).value).None? ==>
        removedAvatar == OldAvatarPath(user.value, storedAvatarUrl)
      ensures user.Some? && old(editForm).Some? && old(avatarFile).Some? && AvatarProblem(old(avatarFile).value).None? && upload.UploadFailed? ==>
        error == Some(AVATAR_UPLOAD_FAILED) && written.None?
      ensures user.Some? && old(editForm).Some? && old(avatarFile).Some? && AvatarProblem(old(avatarFile).value).None? && upload.NoDataReturned? ==>
        error == Some(AVATAR_NO_DATA) && written.None?
      ensures user.Some? && old(editForm).Some? && old(avatarFile).Some? && AvatarProblem(old(avatarFile).value).None? && upload.Uploaded? ==>
        written == Some(old(editForm).value.(avatarUrl := Some(upload.publicUrl)))
      ensures user.Some? && old(editForm).Some? && old(avatarFile).None? ==>
        removedAvatar.None? && written == old(editForm)
      ensures written.Some? && updateFails ==>
        error == Some(PROFILE_UPDATE_FAILED) && isEditMode == old(isEditMode)
        && avatarFile == old(avatarFile) && avatarPreview == old(avatarPreview)
      ensures written.Some? && !updateFails ==> error.None? && !isEditMode && avatarFile.None? && avatarPreview.None?
      ensures written.None? ==> isEditMode == old(isEditMode) && avatarFile == old(avatarFile) && avatarPreview == old(avatarPreview)
      ensures editForm == old(editForm) && myPacks == old(myPacks) && likedPacks == old(likedPacks)
    {
      removedAvatar, written := None, None;
      if user.None? || editForm.None? {
        return;
      }
      error := None;
      isLoading := true;
      var form := editForm.value;
      var avatarUrl := form.avatarUrl;
      if avatarFile.Some? {
        var problem := AvatarProblem(avatarFile.value);
        if problem.Some? {
          error := problem;
          isLoading := false;
          return;
        }
        removedAvatar := OldAvatarPath(user.value, storedAvatarUrl);
        match upload {
          case UploadFailed =>
            error := Some(AVATAR_UPLOAD_FAILED);
            isLoading := false;
            return;
          case NoDataReturned =>
            error := Some(AVATAR_NO_DATA);
            isLoading := false;
            return;
          case Uploaded(url) =>
            avatarUrl := Some(url);
        }
      }
      written := Some(form.(avatarUrl := avatarUrl));
      if updateFails {
        error := Some(PROFILE_UPDATE_FAILED);
      } else {
        isEditMode := false;
        avatarFile := None;
        avatarPreview := None;
      }
      isLoading := false;
    }
  }
}

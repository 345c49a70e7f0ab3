/** The pack card of `src/components/PromptCard.tsx`: its favourite flag and
    counter (local state changed only after the backend mutation succeeds),
    the normalisation of the preview-image list, the collage layout, and the
    creator-avatar fallback. */
module PromptCard {
  import opened Js
  import opened Strings

  const FALLBACK_IMAGE := "https://placehold.co/400x400/e0e0e0/9e9e9e?text=No+Preview"
  const SIGN_IN_ROUTE := "/auth?mode=signin"
  const DICEBEAR_AVATAR_PREFIX := "https://api.dicebear.com/7.x/avataaars/svg?seed="

  /** The placeholder avatar generated for `seed`. */
  function DicebearAvatarUrl(seed: string): string {
    DICEBEAR_AVATAR_PREFIX + seed
  }

  /** The card's props, as far as the card reads them. `favoriteCount` is
      `Some` only when the prop holds a number; `favorites` is the embedded
      `favorites(count)` aggregate, one count per row. */
  datatype CardProps = CardProps(
    id: string,
    title: string,
    previewImages: RawArray,
    creatorName: Option<string>,
    creatorAvatar: Option<string>,
    creatorAvatarUrl: Option<string>,
    favoriteCount: Option<int>,
    favorites: Option<seq<int>>,
    isFavorited: Option<bool>)

  // ----- initial state -----

  /** Initial counter: the numeric `favorite_count` prop, else the first
      embedded aggregate count, else 0. */
  function InitialFavoriteCount(p: CardProps): (n: int)
    ensures p.favoriteCount.Some? ==> n == p.favoriteCount.value
    ensures p.favoriteCount.None? && p.favorites.Some? && |p.favorites.value| > 0 ==> n == p.favorites.value[0]
    ensures p.favoriteCount.None? && (p.favorites.None? || p.favorites.value == []) ==> n == 0
  {
    match p.favoriteCount
    case Some(n) => n
    case None =>
      if p.favorites.Some? && |p.favorites.value| > 0 then p.favorites.value[0] else 0
  }

  /** Initial flag: `is_favorited || false`. */
  function InitialIsFavorited(p: CardProps): (b: bool)
    ensures b <==> p.isFavorited == Some(true)
  {
    p.isFavorited.Some? && p.isFavorited.value
  }

  // ----- the favourite toggle -----

  /** The card's local favourite state. */
  datatype FavoriteState = FavoriteState(isFavorited: bool, favoriteCount: int)

  /** The edge mutation the card sends to the backend. */
  datatype FavoriteMutation =
    | DeleteFavorite(userId: UserId, packId: string)
    | InsertFavorite(userId: UserId, packId: string)

  /** The state after a mutation that succeeded: the flag flips and the
      counter moves by one in the same direction. */
  function Toggled(s: FavoriteState): (t: FavoriteState)
    ensures t.isFavorited == !s.isFavorited
    ensures s.isFavorited ==> t.favoriteCount == s.favoriteCount - 1
    ensures !s.isFavorited ==> t.favoriteCount == s.favoriteCount + 1
  {
    if s.isFavorited then FavoriteState(false, s.favoriteCount - 1)
    else FavoriteState(true, s.favoriteCount + 1)
  }

  /** Two successful toggles give back the state the card started from. */
  lemma ToggleTwiceRestores(s: FavoriteState)
    ensures Toggled(Toggled(s)) == s
  {
  }

  /** A state where a favourited card counts at least its viewer's own
      favourite stays so across a successful toggle, and the counter never
      goes negative. */
  predicate CountConsistent(s: FavoriteState) {
    s.favoriteCount >= 0 && (s.isFavorited ==> s.favoriteCount >= 1)
  }

  lemma ToggledKeepsCountConsistent(s: FavoriteState)
    requires CountConsistent(s)
    ensures CountConsistent(Toggled(s))
  {
  }

  /** One card's interactive state. */
  class Card {
    const packId: string
    var isFavorited: bool
    var favoriteCount: int

    function State(): FavoriteState
      reads this
    {
      FavoriteState(isFavorited, favoriteCount)
    }

    /** The state a card starts with when it is rendered for `p`. */
    constructor (p: CardProps)
      ensures packId == p.id
      ensures isFavorited == InitialIsFavorited(p)
      ensures favoriteCount == InitialFavoriteCount(p)
    {
      packId := p.id;
      isFavorited := InitialIsFavorited(p);
      favoriteCount := InitialFavoriteCount(p);
    }

    /** A click on the heart. Without a user: no mutation, no state change,
        and the browser is sent to the sign-in route. With a user: the delete
        (when favourited) or insert mutation is sent; only when it succeeds
        does the state flip; a failed mutation changes nothing. */
    method HandleFavorite(user: Option<UserId>, mutationFails: bool)
      returns (navigateTo: Option<string>, mutation: Option<FavoriteMutation>)
      modifies this
      ensures user.None? ==> navigateTo == Some(SIGN_IN_ROUTE) && mutation.None?
      ensures user.Some? ==> navigateTo.None?
      ensures user.Some? && old(isFavorited) ==> mutation == Some(DeleteFavorite(user.value, packId))
      ensures user.Some? && !old(isFavorited) ==> mutation == Some(InsertFavorite(user.value, packId))
      ensures State() == if user.Some? && !mutationFails then Toggled(old(State())) else old(State())
    {
      if user.None? {
        return Some(SIGN_IN_ROUTE), None;
      }
      navigateTo := None;
      if isFavorited {
        mutation := Some(DeleteFavorite(user.value, packId));
        if !mutationFails {
          isFavorited := false;
          favoriteCount := favoriteCount - 1;
        }
      } else {
        mutation := Some(InsertFavorite(user.value, packId));
        if !mutationFails {
          isFavorited := true;
          favoriteCount := favoriteCount + 1;
        }
      }
    }
  }

  // ----- preview images -----

  /** The card's filter test on one entry: a string that is not empty after
      trimming. */
  predicate CardKeepsImage(v: JsValue) {
    v.JsString? && Trim(v.s) != ""
  }

  /** An entry that is a string with a non-whitespace character. */
  predicate IsShowableUrl(v: JsValue) {
    v.JsString? && !IsBlank(v.s)
  }

  lemma CardTestIsShowable(v: JsValue)
    ensures CardKeepsImage(v) <==> IsShowableUrl(v)
  {
    if v.JsString? {
      TrimEmptyIffBlank(v.s);
    }
  }

  /** The string entries that are not blank, in their original order. */
  function ShowableUrls(items: seq<JsValue>): (r: seq<string>)
    ensures |r| <= |items|
    ensures forall k :: 0 <= k < |r| ==> !IsBlank(r[k]) && r[k] != ""
    ensures forall x :: x in r <==> JsString(x) in items && !IsBlank(x)
  {
    if items == [] then []
    else
      var rest := ShowableUrls(items[1..]);
      assert items == [items[0]] + items[1..];
      if IsShowableUrl(items[0]) then [items[0].s] + rest else rest
  }

  /** An array none of whose entries is a non-blank string yields no image. */
  lemma {:induction false} NoShowableEntryGivesNothing(items: seq<JsValue>)
    requires forall k :: 0 <= k < |items| ==> !IsShowableUrl(items[k])
    ensures ShowableUrls(items) == []
  {
    if items != [] {
      assert !IsShowableUrl(items[0]);
      NoShowableEntryGivesNothing(items[1..]);
    }
  }

  /** The filter works entry by entry: it commutes with concatenation, so the
      relative order of the kept entries is the input order. */
  lemma {:induction false} ShowableUrlsAppend(a: seq<JsValue>, b: seq<JsValue>)
    ensures ShowableUrls(a + b) == ShowableUrls(a) + ShowableUrls(b)
  {
    if a == [] {
      assert a + b == b;
    } else {
      assert (a + b)[0] == a[0] && (a + b)[1..] == a[1..] + b;
      ShowableUrlsAppend(a[1..], b);
    }
  }

  /** The strings of a list, as JSON array entries. */
  function AsJsStrings(urls: seq<string>): (r: seq<JsValue>)
    ensures |r| == |urls| && forall k :: 0 <= k < |r| ==> r[k] == JsString(urls[k])
  {
    seq(|urls|, k requires 0 <= k < |urls| => JsString(urls[k]))
  }

  /** Filtering a list that holds only non-blank strings keeps all of it:
      the filter is idempotent. */
  lemma {:induction false} ShowableUrlsKeepsShowable(urls: seq<string>)
    requires forall k :: 0 <= k < |urls| ==> !IsBlank(urls[k])
    ensures ShowableUrls(AsJsStrings(urls)) == urls
  {
    if urls != [] {
      var items := AsJsStrings(urls);
      assert items[1..] == AsJsStrings(urls[1..]);
      assert IsShowableUrl(items[0]);
      ShowableUrlsKeepsShowable(urls[1..]);
      assert ShowableUrls(items) == [urls[0]] + urls[1..];
    }
  }

  /** `previewImages`: the fallback image when the prop is not an array or is
      an empty array; otherwise the showable entries (possibly none). */
  function PreviewImages(raw: RawArray): (r: seq<string>)
    ensures raw.NotAnArray? || raw.items == [] ==> r == [FALLBACK_IMAGE]
    ensures raw.ArrayOf? && raw.items != [] ==> r == ShowableUrls(raw.items)
  {
    if raw.ArrayOf? && |raw.items| > 0 then ShowableUrls(raw.items) else [FALLBACK_IMAGE]
  }

  /** A non-empty array of blank entries leaves the card with no image at all:
      the fallback is only used for a missing or empty array. */
  lemma BlankEntriesGiveNoImage()
    ensures PreviewImages(ArrayOf([JsString(""), JsString("  "), JsOther])) == []
  {
    assert IsBlank("  ");
    assert [JsString(""), JsString("  "), JsOther][1..] == [JsString("  "), JsOther];
    assert [JsString("  "), JsOther][1..] == [JsOther];
  }

  /** Empty, blank and non-string entries are dropped around a real URL. */
  lemma MixedEntriesKeepUrl(url: string)
    requires !IsBlank(url)
    ensures PreviewImages(ArrayOf([JsString(""), JsString("  "), JsString(url), JsOther])) == [url]
  {
    var items := [JsString(""), JsString("  "), JsString(url), JsOther];
    assert IsBlank("  ");
    assert items[1..] == [JsString("  "), JsString(url), JsOther];
    assert items[1..][1..] == [JsString(url), JsOther];
    assert items[1..][1..][1..] == [JsOther];
    assert ShowableUrls([JsOther]) == [];
    assert ShowableUrls([JsString(url), JsOther]) == [url];
    assert ShowableUrls([JsString("  "), JsString(url), JsOther]) == [url];
  }

  // ----- collage layout -----

  /** `getGridCols`: one column for a single image, two otherwise. */
  function GridCols(imageCount: int): (cols: int)
    ensures imageCount == 1 ==> cols == 1
    ensures imageCount != 1 ==> cols == 2
  {
    if imageCount == 1 then 1
    else if imageCount == 2 then 2
    else 2
  }

  /** What the collage renders: the tiles shown, the grid's columns and row
      height, and the "+N" overflow badge when there is one. */
  datatype Collage = Collage(shown: seq<string>, cols: int, rowHeight: int, badge: Option<int>)

  function CollageOf(previewImages: seq<string>): (c: Collage)
    ensures |c.shown| == Min(4, |previewImages|) && c.shown == previewImages[..|c.shown|]
    ensures c.cols == (if |c.shown| == 1 then 1 else 2)
    ensures c.rowHeight == (if |c.shown| > 2 then 100 else 200)
    ensures c.badge.Some? <==> |previewImages| > 4
    ensures c.badge.Some? ==> c.badge.value > 0 && |c.shown| + c.badge.value == |previewImages|
  {
    var shown := if |previewImages| <= 4 then previewImages else previewImages[..4];
    Collage(
      shown,
      GridCols(|shown|),
      if |shown| > 2 then 100 else 200,
      if |previewImages| > 4 then Some(|previewImages| - 4) else None)
  }

  /** What the image `onError` handler does to the element: its new source,
      and whether `src` was changed (an assignment makes the browser load the
      image again, which can raise `onError` once more). */
  datatype ImageErrorStep = ImageErrorStep(src: string, changed: bool)

  /** The image `onError` handler: a source other than the fallback is
      replaced by the fallback; the fallback itself is not assigned again. */
  function OnImageError(src: string): (r: ImageErrorStep)
    ensures r.src == FALLBACK_IMAGE
    ensures r.changed <==> src != FALLBACK_IMAGE
  {
    if src != FALLBACK_IMAGE then ImageErrorStep(FALLBACK_IMAGE, true)
    else ImageErrorStep(src, false)
  }

  /** The handler runs `n` times in a row, each failure feeding the next; the
      result counts the assignments made. */
  function OnImageErrors(src: string, n: nat): (r: (string, nat))
    decreases n
  {
    if n == 0 then (src, 0)
    else
      var step := OnImageError(src);
      var rest := OnImageErrors(step.src, n - 1);
      (rest.0, rest.1 + (if step.changed then 1 else 0))
  }

  /** However often loading fails, the source is assigned at most once, so a
      failing fallback does not set off an endless chain of reloads. */
  lemma {:induction false} OnImageErrorAssignsAtMostOnce(src: string, n: nat)
    ensures OnImageErrors(src, n).1 <= 1
    ensures n > 0 ==> OnImageErrors(src, n).0 == FALLBACK_IMAGE
    ensures src == FALLBACK_IMAGE ==> OnImageErrors(src, n).1 == 0
    decreases n
  {
    if n > 0 {
      OnImageErrorAssignsAtMostOnce(FALLBACK_IMAGE, n - 1);
    }
  }

  /** The creator avatar: `creator_avatar`, else `creator_avatar_url`, else a
      placeholder seeded by the creator name (or "anonymous"). */
  function CardAvatar(p: CardProps): (url: string)
    ensures p.creatorAvatar.Some? && Truthy(p.creatorAvatar.value) ==> url == p.creatorAvatar.value
    ensures !(p.creatorAvatar.Some? && Truthy(p.creatorAvatar.value)) && p.creatorAvatarUrl.Some? && Truthy(p.creatorAvatarUrl.value)
      ==> url == p.creatorAvatarUrl.value
    ensures !(p.creatorAvatar.Some? && Truthy(p.creatorAvatar.value)) && !(p.creatorAvatarUrl.Some? && Truthy(p.creatorAvatarUrl.value))
      ==> url == DicebearAvatarUrl(OrElse(p.creatorName, "anonymous"))
    ensures url != ""
  {
    OrElse(p.creatorAvatar, OrElse(p.creatorAvatarUrl, DicebearAvatarUrl(OrElse(p.creatorName, "anonymous"))))
  }
}

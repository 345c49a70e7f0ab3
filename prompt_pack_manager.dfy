/** The creator's delete control of `src/components/PromptPackManager.tsx`:
    who sees it, the checks made before the delete, the check that the row is
    really gone, and the storage paths of the pack's images that are removed
    afterwards. Backend answers are parameters, and so is the URL parser (as
    the function from a URL to its pathname, `None` when it does not parse). */
module PromptPackManager {
  import opened Js
  import opened Strings

  const COULD_NOT_FETCH := "Could not fetch prompt pack"
  const NOT_FOUND := "Prompt pack not found"
  const MUST_LOG_IN := "You must be logged in to delete a prompt pack"
  const NO_PERMISSION := "You do not have permission to delete this prompt pack"
  const STILL_EXISTS := "Deletion failed: Prompt pack still exists. This might be a permissions issue."
  const DELETE_FAILED := "Failed to delete prompt pack"
  /** The code the backend gives a delete that matched no row it may delete. */
  const NO_ROWS_DELETED_CODE := "PGRST204"
  const HOME_ROUTE := "/"

  /** What the lookup of the pack before the delete returned. */
  datatype PackFetch =
    | FetchFailed
    | NoPack
    | Found(creatorId: UserId, previewImages: RawArray)

  /** The management controls are shown to the pack's creator only. */
  function ShowsControls(user: Option<UserId>, creatorId: UserId): (shown: bool)
    ensures shown <==> user == Some(creatorId)
  {
    !(user.None? || user.value != creatorId)
  }

  /** The checks before the delete, in their order: the lookup failed, no
      pack, nobody signed in, somebody other than the creator. */
  function DeleteGuard(fetch: PackFetch, user: Option<UserId>): (problem: Option<string>)
    ensures fetch.FetchFailed? ==> problem == Some(COULD_NOT_FETCH)
    ensures fetch.NoPack? ==> problem == Some(NOT_FOUND)
    ensures fetch.Found? && user.None? ==> problem == Some(MUST_LOG_IN)
    ensures fetch.Found? && user.Some? && user.value != fetch.creatorId ==> problem == Some(NO_PERMISSION)
    ensures problem.None? <==> fetch.Found? && user == Some(fetch.creatorId)
  {
    match fetch
    case FetchFailed => Some(COULD_NOT_FETCH)
    case NoPack => Some(NOT_FOUND)
    case Found(creatorId, _) =>
      if user.None? then Some(MUST_LOG_IN)
      else if user.value != creatorId then Some(NO_PERMISSION)
      else None
  }

  /** The message shown for a delete the backend refused: "no rows" reads as a
      permission problem; any other error is shown as the catch block shows a
      thrown value. */
  function DeleteErrorMessage(e: SdkError): (message: string)
    ensures e.code == NO_ROWS_DELETED_CODE ==> message == NO_PERMISSION
    ensures e.code != NO_ROWS_DELETED_CODE ==> message == CaughtMessage(e, DELETE_FAILED)
  {
    if e.code == NO_ROWS_DELETED_CODE then NO_PERMISSION else CaughtMessage(e, DELETE_FAILED)
  }

  // ----- storage paths -----

  /** Joining two non-empty runs of pieces puts one separator between them. */
  lemma {:induction false} JoinAppend(a: seq<string>, b: seq<string>, sep: char)
    requires a != [] && b != []
    ensures Join(a + b, sep) == Join(a, sep) + [sep] + Join(b, sep)
  {
    if |a| == 1 {
      assert (a + b)[1..] == b;
    } else {
      assert (a + b)[0] == a[0] && (a + b)[1..] == a[1..] + b;
      JoinAppend(a[1..], b, sep);
    }
  }

  /** The last two `/`-pieces of a pathname, joined by `/` again (the whole
      of it when it has fewer): split, keep the last two, join. */
  function LastTwoSegments(path: string): (r: string)
    ensures '/' !in path ==> r == path
  {
    var parts := Split(path, '/');
    var n := |parts|;
    JoinSplit(path, '/');
    Join(parts[n - (if n < 2 then n else 2)..], '/')
  }

  /** The result is the tail of the pathname. */
  lemma LastTwoIsSuffix(path: string)
    ensures |LastTwoSegments(path)| <= |path|
    ensures LastTwoSegments(path) == path[|path| - |LastTwoSegments(path)|..]
  {
    var parts := Split(path, '/');
    var n := |parts|;
    JoinSplit(path, '/');
    if n > 2 {
      assert parts == parts[..n - 2] + parts[n - 2..];
      JoinAppend(parts[..n - 2], parts[n - 2..], '/');
    } else {
      assert parts[0..] == parts;
    }
  }

  /** For a storage pathname `.../<folder>/<file>` the path is `<folder>/<file>`. */
  lemma LastTwoOfStoragePath(prefix: string, folder: string, file: string)
    requires '/' !in folder && '/' !in file
    ensures LastTwoSegments(prefix + "/" + folder + "/" + file) == folder + "/" + file
  {
    var path := prefix + "/" + folder + "/" + file;
    assert path == prefix + ['/'] + (folder + ['/'] + file);
    SplitAtSeparator(prefix, folder + ['/'] + file, '/');
    SplitAtSeparator(folder, file, '/');
    SplitWithoutSeparator(folder, '/');
    SplitWithoutSeparator(file, '/');
    var parts := Split(path, '/');
    assert parts == Split(prefix, '/') + [folder, file];
    var n := |parts|;
    assert parts[n - 2..] == [folder, file];
    assert [folder, file][1..] == [file];
    assert Join([folder, file], '/') == folder + ['/'] + file;
  }

  /** The storage path of one image entry, if it yields one: a non-empty string
      whose URL parses. */
  function EntryPath(v: JsValue, pathname: string -> Option<string>): (r: Option<string>)
    ensures r.Some? <==> v.JsString? && v.s != "" && pathname(v.s).Some?
  {
    if v.JsString? && v.s != "" then
      match pathname(v.s)
      case None => None
      case Some(p) => Some(LastTwoSegments(p))
    else None
  }

  /** The paths of all entries that yield one, in their order. */
  function StoragePaths(items: seq<JsValue>, pathname: string -> Option<string>): (paths: seq<string>)
    ensures |paths| <= |items|
  {
    if items == [] then []
    else
      var rest := StoragePaths(items[1..], pathname);
      match EntryPath(items[0], pathname)
      case None => rest
      case Some(p) => [p] + rest
  }

  /** The filter/map/filter chain works entry by entry, keeping order. */
  lemma {:induction false} StoragePathsAppend(a: seq<JsValue>, b: seq<JsValue>, pathname: string -> Option<string>)
    ensures StoragePaths(a + b, pathname) == StoragePaths(a, pathname) + StoragePaths(b, pathname)
  {
    if a == [] {
      assert a + b == b;
    } else {
      assert (a + b)[0] == a[0] && (a + b)[1..] == a[1..] + b;
      StoragePathsAppend(a[1..], b, pathname);
    }
  }

  /** When every entry is a non-empty string that parses, every entry gives
      its path, at its own position. */
  lemma {:induction false} StoragePathsAllParse(items: seq<JsValue>, pathname: string -> Option<string>)
    requires forall k :: 0 <= k < |items| ==> items[k].JsString? && items[k].s != "" && pathname(items[k].s).Some?
    ensures |StoragePaths(items, pathname)| == |items|
    ensures forall k :: 0 <= k < |items| ==>
      StoragePaths(items, pathname)[k] == LastTwoSegments(pathname(items[k].s).value)
  {
    if items != [] {
      StoragePathsAllParse(items[1..], pathname);
      var rest := StoragePaths(items[1..], pathname);
      assert StoragePaths(items, pathname) == [LastTwoSegments(pathname(items[0].s).value)] + rest;
      forall k | 1 <= k < |items|
        ensures StoragePaths(items, pathname)[k] == LastTwoSegments(pathname(items[k].s).value)
      {
        assert items[k] == items[1..][k - 1];
      }
    }
  }

  /** Entries that are not strings, empty strings and URLs that do not parse
      give no path. */
  lemma {:induction false} StoragePathsSkipsUnusable(items: seq<JsValue>, pathname: string -> Option<string>)
    requires forall k :: 0 <= k < |items| ==> EntryPath(items[k], pathname).None?
    ensures StoragePaths(items, pathname) == []
  {
    if items != [] {
      assert forall k :: 0 <= k < |items[1..]| ==> items[1..][k] == items[k + 1];
      StoragePathsSkipsUnusable(items[1..], pathname);
    }
  }

  /** The images to remove once the row is gone: only an array column has any. */
  function PathsToRemove(images: RawArray, pathname: string -> Option<string>): (paths: seq<string>)
    ensures images.NotAnArray? ==> paths == []
    ensures images.ArrayOf? ==> paths == StoragePaths(images.items, pathname)
  {
    if images.ArrayOf? then StoragePaths(images.items, pathname) else []
  }

  /** The controls of one pack. */
  class Manager {
    const packId: string
    const creatorId: UserId
    var deleteDialogOpen: bool
    var error: Option<string>

    constructor (packId: string, creatorId: UserId)
      ensures this.packId == packId && this.creatorId == creatorId
      ensures !deleteDialogOpen && error.None?
    {
      this.packId := packId;
      this.creatorId := creatorId;
      deleteDialogOpen := false;
      error := None;
    }

    /** The delete icon. */
    method OpenDeleteDialog()
      modifies this
      ensures deleteDialogOpen && error == old(error)
    {
      deleteDialogOpen := true;
    }

    /** "Cancel", or closing the dialog. */
    method CloseDeleteDialog()
      modifies this
      ensures !deleteDialogOpen && error == old(error)
    {
      deleteDialogOpen := false;
    }

    /** Closing the error message. */
    method DismissError()
      modifies this
      ensures error.None? && deleteDialogOpen == old(deleteDialogOpen)
    {
      error := None;
    }

    /** "Delete" in the dialog. The checks run first and any failure stops
        before the delete is sent. A refused delete, or a row still found
        afterwards, stops before any image is removed. Only when the row is
        gone are the image paths removed, the page refreshed, the parent's
        `onDelete` callback called (when it was given) and the browser sent
        home. The dialog closes in every case. */
    method HandleDelete(
      user: Option<UserId>,
      fetch: PackFetch,
      deleteError: Option<SdkError>,
      stillExists: bool,
      pathname: string -> Option<string>,
      hasOnDelete: bool)
      returns (deleteSent: bool, removedPaths: seq<string>, notified: bool, navigateTo: Option<string>)
      modifies this
      ensures !deleteDialogOpen
      ensures DeleteGuard(fetch, user).Some? ==>
        error == DeleteGuard(fetch, user) && !deleteSent && removedPaths == [] && navigateTo.None?
      ensures DeleteGuard(fetch, user).None? ==> deleteSent
      ensures DeleteGuard(fetch, user).None? && deleteError.Some? ==>
        error == Some(DeleteErrorMessage(deleteError.value)) && removedPaths == [] && navigateTo.None?
      ensures DeleteGuard(fetch, user).None? && deleteError.None? && stillExists ==>
        error == Some(STILL_EXISTS) && removedPaths == [] && navigateTo.None?
      ensures DeleteGuard(fetch, user).None? && deleteError.None? && !stillExists ==>
        error.None? && navigateTo == Some(HOME_ROUTE) && removedPaths == PathsToRemove(fetch.previewImages, pathname)
      ensures navigateTo.Some? <==> error.None?
      ensures notified <==> hasOnDelete && navigateTo.Some?
    {
      error := None;
      deleteSent, removedPaths, notified, navigateTo := false, [], false, None;
      var problem := DeleteGuard(fetch, user);
      if problem.Some? {
        error := problem;
        deleteDialogOpen := false;
        return;
      }
      deleteSent := true;
      if deleteError.Some? {
        error := Some(DeleteErrorMessage(deleteError.value));
        deleteDialogOpen := false;
        return;
      }
      if stillExists {
        error := Some(STILL_EXISTS);
        deleteDialogOpen := false;
        return;
      }
      removedPaths := PathsToRemove(fetch.previewImages, pathname);
      notified := hasOnDelete;
      navigateTo := Some(HOME_ROUTE);
      deleteDialogOpen := false;
    }
  }
}

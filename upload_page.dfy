/** The upload form of `src/pages/upload/UploadPage.tsx`: a bounded list of
    dropped images, length-capped title and prompt fields, and the submit
    sequence (validation, one storage upload per image, the pack insert). The
    storage answers, the reachability probe and the insert's answer are
    parameters. */
module UploadPage {
  import opened Js
  import opened Strings

  const MAX_IMAGES := 9
  const MIN_IMAGES := 3
  const MAX_TITLE_LENGTH := 100
  const MAX_PROMPT_LENGTH := 2000

  const TOO_MANY_IMAGES := "Maximum 9 images allowed"
  const TOO_FEW_IMAGES := "Please upload at least 3 images"
  const MISSING_FIELDS := "Please fill in all required fields"
  const NO_PUBLIC_URL := "Failed to get public URL for uploaded image"
  const NOT_ACCESSIBLE := "Failed to verify image URL accessibility"
  const UPLOAD_FAILED := "Failed to upload prompt pack"
  /** What reading `user!.id` throws when nobody is signed in (the V8 wording). */
  const NO_USER := "Cannot read properties of null (reading 'id')"
  const HOME_ROUTE := "/"

  /** A file the drop zone accepted. */
  datatype ImageFile = ImageFile(name: string, size: int)

  /** The list filtered by position: every entry except the one at `index`. */
  function WithoutIndex<T>(s: seq<T>, index: int): (r: seq<T>)
    ensures |r| <= |s|
  {
    if s == [] then []
    else (if index == 0 then [] else [s[0]]) + WithoutIndex(s[1..], index - 1)
  }

  /** Exactly the entry at `index` goes, the others keep their order; an index
      outside the list changes nothing. */
  lemma {:induction false} WithoutIndexRemovesOne<T>(s: seq<T>, index: int)
    ensures 0 <= index < |s| ==> WithoutIndex(s, index) == s[..index] + s[index + 1..]
    ensures !(0 <= index < |s|) ==> WithoutIndex(s, index) == s
  {
    if s != [] {
      WithoutIndexRemovesOne(s[1..], index - 1);
      if index == 0 {
        assert s[index + 1..] == s[1..];
      } else if 0 < index < |s| {
        assert s[..index] == [s[0]] + s[1..][..index - 1];
        assert s[index + 1..] == s[1..][index..];
      } else {
        assert [s[0]] + s[1..] == s;
      }
    }
  }

  /** The public URL with its first "http://" replaced by "https://". */
  function SecureUrl(url: string): (r: string)
    ensures (forall j :: !OccursAt(url, "http://", j)) ==> r == url
    ensures (exists j :: OccursAt(url, "http://", j)) ==> |r| == |url| + 1
  {
    ReplaceFirst(url, "http://", "https://")
  }

  /** A URL that starts with the insecure scheme gets the secure one; the rest
      is kept, even a later "http://". */
  lemma SecureUrlOfHttp(rest: string)
    ensures SecureUrl("http://" + rest) == "https://" + rest
  {
    var u := "http://" + rest;
    assert OccursAt(u, "http://", 0) by {
      assert u[0..7] == "http://";
    }
    ReplaceFirstAt(u, "http://", "https://", 0);
    assert u[7..] == rest;
  }

  /** A URL without "http://" (an "https://" one, say) is kept as it is. */
  lemma SecureUrlKeepsOthers(url: string)
    requires forall j: nat :: !OccursAt(url, "http://", j)
    ensures SecureUrl(url) == url
  {
  }

  /** What storage and the reachability probe answer for one image. */
  datatype ImageUpload =
    | StorageFailed(err: SdkError)
    | Uploaded(publicUrl: string, accessible: bool)

  /** The URL kept for one image, or the message of what its upload threw. */
  function ImageOutcome(u: ImageUpload): (r: Fetched<string>)
    ensures r.Ok? <==> u.Uploaded? && Truthy(u.publicUrl) && u.accessible
    ensures r.Ok? ==> r.data == SecureUrl(u.publicUrl)
    ensures u.StorageFailed? ==> r == Failed(CaughtMessage(u.err, UPLOAD_FAILED))
    ensures u.Uploaded? && !Truthy(u.publicUrl) ==> r == Failed(NO_PUBLIC_URL)
    ensures u.Uploaded? && Truthy(u.publicUrl) && !u.accessible ==> r == Failed(NOT_ACCESSIBLE)
  {
    match u
    case StorageFailed(e) => Failed(CaughtMessage(e, UPLOAD_FAILED))
    case Uploaded(url, accessible) =>
      if !Truthy(url) then Failed(NO_PUBLIC_URL)
      else if !accessible then Failed(NOT_ACCESSIBLE)
      else Ok(SecureUrl(url))
  }

  /** The uploads together: every URL, in the order of the images, when all of
      them succeed; otherwise the message of the first image (by position)
      that failed. */
  function UploadAll(uploads: seq<ImageUpload>): (r: Fetched<seq<string>>)
    ensures r.Ok? <==> forall k :: 0 <= k < |uploads| ==> ImageOutcome(uploads[k]).Ok?
    ensures r.Ok? ==> |r.data| == |uploads| && forall k :: 0 <= k < |uploads| ==> ImageOutcome(uploads[k]) == Ok(r.data[k])
    ensures r.Failed? ==>
      exists k :: 0 <= k < |uploads| && ImageOutcome(uploads[k]) == Failed(r.message) &&
        forall j :: 0 <= j < k ==> ImageOutcome(uploads[j]).Ok?
  {
    if uploads == [] then Ok([])
    else
      match ImageOutcome(uploads[0])
      case Failed(m) => Failed(m)
      case Ok(url) =>
        var rest := UploadAll(uploads[1..]);
        if rest.Failed? then
          FirstFailureAfterOk(uploads, rest.message);
          rest
        else
          assert forall k :: 1 <= k < |uploads| ==> uploads[k] == uploads[1..][k - 1];
          Ok([url] + rest.data)
  }

  /** A first failure in the images after a successful first image is the
      first failure of all of them. */
  lemma FirstFailureAfterOk(uploads: seq<ImageUpload>, message: string)
    requires uploads != [] && ImageOutcome(uploads[0]).Ok?
    requires
      exists k :: 0 <= k < |uploads[1..]| && ImageOutcome(uploads[1..][k]) == Failed(message) &&
        forall j :: 0 <= j < k ==> ImageOutcome(uploads[1..][j]).Ok?
    ensures
      exists k :: 0 <= k < |uploads| && ImageOutcome(uploads[k]) == Failed(message) &&
        forall j :: 0 <= j < k ==> ImageOutcome(uploads[j]).Ok?
  {
    var tail := uploads[1..];
    var k :| 0 <= k < |tail| && ImageOutcome(tail[k]) == Failed(message) &&
      forall j :: 0 <= j < k ==> ImageOutcome(tail[j]).Ok?;
    assert uploads[k + 1] == tail[k];
    forall j | 0 <= j < k + 1
      ensures ImageOutcome(uploads[j]).Ok?
    {
      if j > 0 {
        assert uploads[j] == tail[j - 1];
      }
    }
  }

  /** The row the submit inserts. */
  datatype PackInsert = PackInsert(
    title: string,
    prompt: string,
    fullPrompt: string,
    aiModel: string,
    category: string,
    previewImages: seq<string>,
    creatorId: UserId)

  /** The first validation message of a submit, if any: the image count is
      checked before the required fields. */
  function SubmitProblem(imageCount: int, title: string, prompt: string, aiModel: string, category: string): (problem: Option<string>)
    ensures imageCount < MIN_IMAGES ==> problem == Some(TOO_FEW_IMAGES)
    ensures imageCount >= MIN_IMAGES && (title == "" || prompt == "" || aiModel == "" || category == "") ==> problem == Some(MISSING_FIELDS)
    ensures problem.None? <==> imageCount >= MIN_IMAGES && Truthy(title) && Truthy(prompt) && Truthy(aiModel) && Truthy(category)
  {
    if imageCount < MIN_IMAGES then Some(TOO_FEW_IMAGES)
    else if !Truthy(title) || !Truthy(prompt) || !Truthy(aiModel) || !Truthy(category) then Some(MISSING_FIELDS)
    else None
  }

  class UploadForm {
    var title: string
    var prompt: string
    var aiModel: string
    var category: string
    var images: seq<ImageFile>
    var error: Option<string>
    var loading: bool

    /** The bounds the handlers keep: at most nine images, and the caps of
        the two text fields. */
    predicate Valid()
      reads this
    {
      |images| <= MAX_IMAGES && |title| <= MAX_TITLE_LENGTH && |prompt| <= MAX_PROMPT_LENGTH
    }

    constructor ()
      ensures Valid()
      ensures title == "" && prompt == "" && aiModel == "" && category == ""
      ensures images == [] && error.None? && !loading
    {
      title, prompt, aiModel, category := "", "", "", "";
      images := [];
      error := None;
      loading := false;
    }

    /** A drop: all of it is added at the end, or, when the list would pass
        nine images, none of it and the limit message is shown. */
    method OnDrop(accepted: seq<ImageFile>)
      requires Valid()
      modifies this
      ensures Valid()
      ensures |old(images)| + |accepted| > MAX_IMAGES ==> images == old(images) && error == Some(TOO_MANY_IMAGES)
      ensures |old(images)| + |accepted| <= MAX_IMAGES ==> images == old(images) + accepted && error.None?
      ensures title == old(title) && prompt == old(prompt) && aiModel == old(aiModel)
      ensures category == old(category) && loading == old(loading)
    {
      if |images| + |accepted| > MAX_IMAGES {
        error := Some(TOO_MANY_IMAGES);
        return;
      }
      images := images + accepted;
      error := None;
    }

    method RemoveImage(index: int)
      requires Valid()
      modifies this
      ensures Valid()
      ensures images == WithoutIndex(old(images), index)
      ensures 0 <= index < |old(images)| ==> images == old(images)[..index] + old(images)[index + 1..]
      ensures !(0 <= index < |old(images)|) ==> images == old(images)
      ensures title == old(title) && prompt == old(prompt) && aiModel == old(aiModel)
      ensures category == old(category) && error == old(error) && loading == old(loading)
    {
      WithoutIndexRemovesOne(images, index);
      images := WithoutIndex(images, index);
    }

    /** A title edit is taken only up to 100 characters. */
    method SetTitle(value: string)
      requires Valid()
      modifies this
      ensures Valid()
      ensures title == if |value| <= MAX_TITLE_LENGTH then value else old(title)
      ensures prompt == old(prompt) && aiModel == old(aiModel) && category == old(category)
      ensures images == old(images) && error == old(error) && loading == old(loading)
    {
      if |value| <= MAX_TITLE_LENGTH {
        title := value;
      }
    }

    /** A prompt edit is taken only up to 2000 characters. */
    method SetPrompt(value: string)
      requires Valid()
      modifies this
      ensures Valid()
      ensures prompt == if |value| <= MAX_PROMPT_LENGTH then value else old(prompt)
      ensures title == old(title) && aiModel == old(aiModel) && category == old(category)
      ensures images == old(images) && error == old(error) && loading == old(loading)
    {
      if |value| <= MAX_PROMPT_LENGTH {
        prompt := value;
      }
    }

    method SetAiModel(value: string)
      requires Valid()
      modifies this
      ensures Valid() && aiModel == value
      ensures title == old(title) && prompt == old(prompt) && category == old(category)
      ensures images == old(images) && error == old(error) && loading == old(loading)
    {
      aiModel := value;
    }

    method SetCategory(value: string)
      requires Valid()
      modifies this
      ensures Valid() && category == value
      ensures title == old(title) && prompt == old(prompt) && aiModel == old(aiModel)
      ensures images == old(images) && error == old(error) && loading == old(loading)
    {
      category := value;
    }

    /** The submit. A validation failure shows its message and sends nothing.
        Otherwise every image is uploaded (`uploads` holds the answer for
        each); the pack is inserted only when all of them give a URL, and the
        browser goes home only when the insert succeeds. Any failure shows its
        message; the form is left as it was. */
    method HandleSubmit(user: Option<UserId>, uploads: seq<ImageUpload>, insertError: Option<SdkError>)
      returns (uploadsSent: bool, inserted: Option<PackInsert>, navigateTo: Option<string>)
      requires Valid()
      requires |uploads| == |images|
      modifies this
      ensures Valid()
      ensures uploadsSent <==> SubmitProblem(|images|, title, prompt, aiModel, category).None? && user.Some?
      ensures inserted.Some? ==> uploadsSent
      ensures title == old(title) && prompt == old(prompt) && aiModel == old(aiModel)
      ensures category == old(category) && images == old(images)
      ensures SubmitProblem(|images|, title, prompt, aiModel, category).Some? ==>
        error == SubmitProblem(|images|, title, prompt, aiModel, category) && loading == old(loading)
        && inserted.None? && navigateTo.None?
      ensures SubmitProblem(|images|, title, prompt, aiModel, category).None? ==> !loading
      ensures SubmitProblem(|images|, title, prompt, aiModel, category).None? && user.None? ==>
        error == Some(NO_USER) && inserted.None? && navigateTo.None?
      ensures SubmitProblem(|images|, title, prompt, aiModel, category).None? && user.Some? && UploadAll(uploads).Failed? ==>
        error == Some(UploadAll(uploads).message) && inserted.None? && navigateTo.None?
      ensures SubmitProblem(|images|, title, prompt, aiModel, category).None? && user.Some? && UploadAll(uploads).Ok? ==>
        inserted == Some(PackInsert(title, prompt, prompt, aiModel, category, UploadAll(uploads).data, user.value))
      ensures inserted.Some? && insertError.Some? ==>
        error == Some(CaughtMessage(insertError.value, UPLOAD_FAILED)) && navigateTo.None?
      ensures inserted.Some? && insertError.None? ==> error.None? && navigateTo == Some(HOME_ROUTE)
    {
      uploadsSent, inserted, navigateTo := false, None, None;
      var problem := SubmitProblem(|images|, title, prompt, aiModel, category);
      if problem.Some? {
        error := problem;
        return;
      }
      loading := true;
      error := None;
      if user.None? {
        error := Some(NO_USER);
        loading := false;
        return;
      }
      uploadsSent := true;
      var urls := UploadAll(uploads);
      if urls.Failed? {
        error := Some(urls.message);
        loading := false;
        return;
      }
      inserted := Some(PackInsert(title, prompt, prompt, aiModel, category, urls.data, user.value));
      if insertError.Some? {
        error := Some(CaughtMessage(insertError.value, UPLOAD_FAILED));
      } else {
        navigateTo := Some(HOME_ROUTE);
      }
      loading := false;
    }
  }
}

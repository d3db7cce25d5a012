/** The thread composer: picked images with their previews, and a submit that uploads the images
    one by one, creates the thread and prepends it to the profile store. */
module CreateThread {
  import opened Wrappers
  import Lists
  import Text
  import Browser
  import Profiles

  const MaxImages := 10
  const MaxThreads := 10
  /** Where a created thread leads. */
  const FeedRoute := "/feed"

  datatype SubmitOutcome =
    | NeedsContent    // nothing to post: blank text and no images
    | TooManyThreads  // the store already holds the maximum number of threads
    | Failed          // an upload or the create call was rejected
    | Created(thread: Profiles.Thread)

  /** The URLs of the uploaded images, in image order; `None` as soon as one upload fails. */
  function UploadAll(images: seq<Browser.File>, upload: Browser.File -> Option<string>): (r: Option<seq<string>>)
    ensures r.Some? <==> forall i :: 0 <= i < |images| ==> upload(images[i]).Some?
    ensures r.Some? ==> |r.value| == |images|
    ensures r.Some? ==> forall i :: 0 <= i < |images| ==> r.value[i] == upload(images[i]).value
  {
    if images == [] then Some([])
    else match upload(images[0])
      case None => None
      case Some(url) =>
        match UploadAll(images[1..], upload)
        case None =>
          assert !upload(images[1..][0]).Some? || exists i :: 0 < i < |images| && !upload(images[i]).Some? by {
            var j :| 0 <= j < |images[1..]| && !upload(images[1..][j]).Some?;
            assert images[1..][j] == images[j + 1];
          }
          None
        case Some(rest) => Some([url] + rest)
  }

  /** The `for ... of images` loop of `handleSubmit`: upload each image in turn, collecting the URLs,
      and give up at the first rejected upload. */
  method UploadImages(images: seq<Browser.File>, upload: Browser.File -> Option<string>)
    returns (urls: Option<seq<string>>)
    ensures urls == UploadAll(images, upload)
  {
    var uploaded: seq<string> := [];
    var i := 0;
    while i < |images|
      invariant 0 <= i <= |images|
      invariant |uploaded| == i
      invariant forall j :: 0 <= j < i ==> upload(images[j]).Some? && uploaded[j] == upload(images[j]).value
    {
      var response := upload(images[i]);
      if response.None? {
        assert !upload(images[i]).Some?;
        return None;
      }
      uploaded := uploaded + [response.value];
      i := i + 1;
    }
    var all := UploadAll(images, upload);
    assert all.Some? && all.value == uploaded;
    urls := Some(uploaded);
  }

  /** What `handleSubmit` ends in, given the text, the picked images, how many threads the store holds,
      and what the server answers to each upload and to the create call. */
  function SubmitResult(
    content: string, images: seq<Browser.File>, threadCount: nat,
    upload: Browser.File -> Option<string>,
    create: (string, seq<string>) -> Option<Profiles.Thread>): (r: SubmitOutcome)
    ensures r == NeedsContent <==> Text.Trim(content) == "" && images == []
    ensures r == TooManyThreads <==> !(Text.Trim(content) == "" && images == []) && threadCount >= MaxThreads
    ensures r.Created? ==> threadCount < MaxThreads
    ensures r.Created? ==>
      UploadAll(images, upload).Some? && create(content, UploadAll(images, upload).value) == Some(r.thread)
    ensures !(Text.Trim(content) == "" && images == []) && threadCount < MaxThreads
            && UploadAll(images, upload).Some? && create(content, UploadAll(images, upload).value).Some?
            ==> r == Created(create(content, UploadAll(images, upload).value).value)
    ensures r == Failed <==>
      !(Text.Trim(content) == "" && images == []) && threadCount < MaxThreads
      && (UploadAll(images, upload).None? || create(content, UploadAll(images, upload).value).None?)
  {
    if Text.Trim(content) == "" && images == [] then NeedsContent
    else if threadCount >= MaxThreads then TooManyThreads
    else match UploadAll(images, upload)
      case None => Failed
      case Some(urls) =>
        match create(content, urls)
        case None => Failed
        case Some(t) => Created(t)
  }

  /** The create call receives one URL per picked image, in the order the images were picked. */
  lemma CreateGetsOneUrlPerImage(
    content: string, images: seq<Browser.File>, threadCount: nat,
    upload: Browser.File -> Option<string>,
    create: (string, seq<string>) -> Option<Profiles.Thread>)
    requires SubmitResult(content, images, threadCount, upload, create).Created?
    ensures var urls := UploadAll(images, upload).value;
            |urls| == |images| && forall i :: 0 <= i < |images| ==> urls[i] == upload(images[i]).value
  {
  }

  /** A text-only post, with room in the store and a server that accepts it, is created. */
  lemma TextOnlyPostIsCreated(
    content: string, threadCount: nat,
    upload: Browser.File -> Option<string>,
    create: (string, seq<string>) -> Option<Profiles.Thread>, t: Profiles.Thread)
    requires Text.Trim(content) != "" && threadCount < MaxThreads
    requires create(content, []) == Some(t)
    ensures SubmitResult(content, [], threadCount, upload, create) == Created(t)
  {
  }

  /** The screen's state: the text, the picked images and their previews, and the busy flag. */
  class ThreadComposer {
    var content: string
    var images: seq<Browser.File>
    var imagePreviews: seq<string>
    var uploading: bool

    /** One preview per image, and never more than the maximum number of images. */
    ghost predicate Valid()
      reads this
    {
      |images| == |imagePreviews| && |images| <= MaxImages
    }

    constructor ()
      ensures content == "" && images == [] && imagePreviews == [] && !uploading
      ensures Valid()
    {
      content := "";
      images := [];
      imagePreviews := [];
      uploading := false;
    }

    method EditContent(text: string)
      modifies this`content
      ensures content == text
    {
      content := text;
    }

    /** `handleImageSelect`: refuse the whole selection if it would exceed the maximum, otherwise append
        the files and one preview URL per file. */
    method SelectImages(files: seq<Browser.File>, createObjectUrl: Browser.File -> string) returns (accepted: bool)
      modifies this`images, this`imagePreviews
      ensures accepted <==> |old(images)| + |files| <= MaxImages
      ensures accepted ==> images == old(images) + files
      ensures accepted ==> imagePreviews == old(imagePreviews) + Lists.Map(files, createObjectUrl)
      ensures !accepted ==> images == old(images) && imagePreviews == old(imagePreviews)
      ensures old(Valid()) ==> Valid()
      ensures old(Valid()) && accepted ==>
        Lists.Zip(images, imagePreviews)
          == old(Lists.Zip(images, imagePreviews)) + Lists.Zip(files, Lists.Map(files, createObjectUrl))
    {
      if |images| + |files| > MaxImages {
        return false;
      }
      var previews := Lists.Map(files, createObjectUrl);
      if |images| == |imagePreviews| {
        Lists.ZipAppend(images, imagePreviews, files, previews);
      }
      images := images + files;
      imagePreviews := imagePreviews + previews;
      accepted := true;
    }

    /** `removeImage`: drop the same position from both lists. */
    method RemoveImage(index: int)
      modifies this`images, this`imagePreviews
      ensures images == Lists.RemoveAt(old(images), index)
      ensures imagePreviews == Lists.RemoveAt(old(imagePreviews), index)
      ensures old(Valid()) ==> Valid()
      ensures old(Valid()) ==> Lists.Zip(images, imagePreviews) == Lists.RemoveAt(old(Lists.Zip(images, imagePreviews)), index)
    {
      if |images| == |imagePreviews| {
        Lists.ZipRemoveAt(images, imagePreviews, index);
      }
      images := Lists.RemoveAt(images, index);
      imagePreviews := Lists.RemoveAt(imagePreviews, index);
    }

    /** `handleSubmit`: the two guards, the uploads, the create call, and `addThread` and the move to
        the feed only when all of them succeeded. */
    method Submit(
      store: Profiles.ProfileStore,
      upload: Browser.File -> Option<string>,
      create: (string, seq<string>) -> Option<Profiles.Thread>) returns (outcome: SubmitOutcome, route: Option<string>)
      modifies store`threads, this`uploading
      ensures outcome == SubmitResult(content, images, |old(store.threads)|, upload, create)
      ensures route == Some(FeedRoute) <==> outcome.Created?
      ensures route.None? <==> !outcome.Created?
      ensures outcome.Created? ==> store.threads == [outcome.thread] + old(store.threads)
      ensures !outcome.Created? ==> store.threads == old(store.threads)
      ensures outcome.Created? || outcome == Failed ==> !uploading
      ensures outcome == NeedsContent || outcome == TooManyThreads ==> uploading == old(uploading)
    {
      route := None;
      if Text.Trim(content) == "" && |images| == 0 {
        return NeedsContent, None;
      }
      if |store.threads| >= MaxThreads {
        return TooManyThreads, None;
      }
      uploading := true;
      var urls := UploadImages(images, upload);
      if urls.None? {
        outcome := Failed;
      } else {
        var created := create(content, urls.value);
        if created.None? {
          outcome := Failed;
        } else {
          store.AddThread(created.value);
          outcome := Created(created.value);
          route := Some(FeedRoute);
        }
      }
      uploading := false;
    }
  }
}

/** The profile-completion step after first sign-in: username availability, the avatar checks, the form
    schema and the submit that stores the completed user. */
module CompleteProfile {
  import opened Wrappers
  import Text
  import Browser
  import Auth

  const UsernameMin := 3
  const UsernameMax := 30
  const NameMin := 2
  const NameMax := 100
  const BioMax := 500
  const MaxAvatarBytes := 5 * 1024 * 1024

  const NotAnImageMessage := "Please upload an image file"
  const TooLargeMessage := "Image size must be less than 5MB"
  const AvatarUploadedMessage := "Avatar uploaded successfully"
  const AvatarFailedMessage := "Failed to upload avatar"
  const UsernameTakenMessage := "Username is not available"
  const CompletedMessage := "Profile completed successfully!"
  const CompleteFailedMessage := "Failed to complete profile"

  /** The characters of `[a-zA-Z0-9_]`. */
  predicate IsUsernameChar(c: char) {
    ('a' <= c <= 'z') || ('A' <= c <= 'Z') || ('0' <= c <= '9') || c == '_'
  }

  /** The username rule: 3 to 30 characters, each a letter, a digit or `_`. */
  predicate UsernameValid(u: string) {
    UsernameMin <= |u| <= UsernameMax && forall i :: 0 <= i < |u| ==> IsUsernameChar(u[i])
  }

  /** The form schema: username, a name of 2 to 100 characters, a bio of at most 500. */
  predicate FormValid(form: Form) {
    UsernameValid(form.username) && NameMin <= |form.name| <= NameMax && |form.bio| <= BioMax
  }

  datatype Form = Form(username: string, name: string, bio: string)

  /** What `POST /auth/complete-profile` receives: the form with the current avatar. */
  datatype Payload = Payload(username: string, name: string, bio: string, avatar: Option<string>)

  /** Whether the availability lookup is made for a username at all. */
  predicate LooksUpUsername(username: string) {
    |username| >= UsernameMin
  }

  /** The availability the screen shows after the lookup settles: unknown for a short username, and
      "taken" when the lookup itself fails. */
  function AvailabilityAfter(username: string, lookup: Option<bool>): (r: Option<bool>)
    ensures r.None? <==> !LooksUpUsername(username)
    ensures r == Some(true) <==> LooksUpUsername(username) && lookup == Some(true)
  {
    if !LooksUpUsername(username) then None
    else if lookup.Some? then lookup
    else Some(false)
  }

  /** Every username the schema accepts is looked up; the converse does not hold, since the lookup
      only checks the length. */
  lemma ValidUsernamesAreLookedUp(u: string)
    requires UsernameValid(u)
    ensures LooksUpUsername(u)
  {
  }

  lemma SomeLookedUpUsernamesAreInvalid()
    ensures LooksUpUsername("a b") && !UsernameValid("a b")
  {
    assert !IsUsernameChar("a b"[1]);
  }

  /** The submit is refused only on a definite "taken"; an unknown availability lets it through. */
  predicate SubmitAllowed(usernameAvailable: Option<bool>) {
    usernameAvailable != Some(false)
  }

  lemma FailedLookupBlocksSubmit(username: string)
    requires LooksUpUsername(username)
    ensures !SubmitAllowed(AvailabilityAfter(username, None))
  {
  }

  lemma ShortUsernameDoesNotBlockSubmit(username: string, lookup: Option<bool>)
    requires !LooksUpUsername(username)
    ensures SubmitAllowed(AvailabilityAfter(username, lookup))
  {
  }

  datatype AvatarCheck = NoFile | NotAnImage | TooLarge | Upload

  /** `handleAvatarUpload`'s gates, the type test first. */
  function CheckAvatar(file: Option<Browser.File>): (r: AvatarCheck)
    ensures r == Upload <==>
      file.Some? && Text.StartsWith(file.value.mimeType, "image/") && file.value.size <= MaxAvatarBytes
    ensures r == NotAnImage <==> file.Some? && !Text.StartsWith(file.value.mimeType, "image/")
    ensures r == TooLarge ==> file.Some? && file.value.size > MaxAvatarBytes
  {
    if file.None? then NoFile
    else if !Text.StartsWith(file.value.mimeType, "image/") then NotAnImage
    else if file.value.size > MaxAvatarBytes then TooLarge
    else Upload
  }

  /** The size limit is inclusive: a file of exactly five mebibytes is uploaded. */
  lemma FiveMebibyteImageIsUploaded(name: string)
    ensures CheckAvatar(Some(Browser.File(name, "image/png", 5242880))) == Upload
  {
  }

  /** The toast for a file stopped by a gate; a missing file is ignored silently. */
  function AvatarMessage(c: AvatarCheck): (m: Option<string>)
    ensures m.Some? <==> c == NotAnImage || c == TooLarge
    ensures c == NotAnImage ==> m == Some(NotAnImageMessage)
    ensures c == TooLarge ==> m == Some(TooLargeMessage)
  {
    match c
    case NotAnImage => Some(NotAnImageMessage)
    case TooLarge => Some(TooLargeMessage)
    case _ => None
  }

  /** Every picked file is either sent or explained by a toast. */
  lemma PickedFileIsSentOrExplained(file: Browser.File)
    ensures CheckAvatar(Some(file)) == Upload || AvatarMessage(CheckAvatar(Some(file))).Some?
  {
  }

  class ProfileCompletion {
    var usernameAvailable: Option<bool>
    var checkingUsername: bool
    var avatar: Option<string>
    var uploading: bool

    constructor (user: Option<Auth.User>)
      ensures usernameAvailable == None && !checkingUsername && !uploading
      ensures avatar == (if user.Some? then Text.NonEmpty(user.value.avatar) else None)
    {
      usernameAvailable := None;
      checkingUsername := false;
      avatar := if user.Some? then Text.NonEmpty(user.value.avatar) else None;
      uploading := false;
    }

    /** The availability effect, once its delay has elapsed: a short username clears the answer without
        asking; otherwise the server's answer is stored, and a failed lookup counts as taken. */
    method CheckUsername(username: string, lookup: string -> Option<bool>)
      modifies this`usernameAvailable, this`checkingUsername
      ensures usernameAvailable == AvailabilityAfter(username, if LooksUpUsername(username) then lookup(username) else None)
      ensures LooksUpUsername(username) ==> !checkingUsername
      ensures !LooksUpUsername(username) ==> checkingUsername == old(checkingUsername)
    {
      if !LooksUpUsername(username) {
        usernameAvailable := None;
        return;
      }
      checkingUsername := true;
      var answer := lookup(username);
      usernameAvailable := if answer.Some? then answer else Some(false);
      checkingUsername := false;
    }

    /** `handleAvatarUpload`: only a file that passes both gates is sent; a rejected upload keeps the avatar.
        `toast` is the screen's own message. */
    method UploadAvatar(file: Option<Browser.File>, upload: Browser.File -> Option<string>)
      returns (check: AvatarCheck, toast: Option<string>)
      modifies this`avatar, this`uploading
      ensures check == CheckAvatar(file)
      ensures check != Upload ==> toast == AvatarMessage(check)
      ensures check == Upload ==>
        toast == Some(if upload(file.value).Some? then AvatarUploadedMessage else AvatarFailedMessage)
      ensures check == Upload && upload(file.value).Some? ==> avatar == upload(file.value)
      ensures !(check == Upload && upload(file.value).Some?) ==> avatar == old(avatar)
      ensures check == Upload ==> !uploading
      ensures check != Upload ==> uploading == old(uploading)
    {
      check := CheckAvatar(file);
      if check != Upload {
        return check, AvatarMessage(check);
      }
      uploading := true;
      var response := upload(file.value);
      if response.Some? {
        avatar := response;
        toast := Some(AvatarUploadedMessage);
      } else {
        toast := Some(AvatarFailedMessage);
      }
      uploading := false;
    }

    /** `handleSubmit(onSubmit)`: the schema first, then the availability, then the request; only an
        accepted request stores the user and leads to the dashboard of the returned user's role. The
        schema reports its own errors on the form, so `toast` is the screen's message from then on. */
    method Submit(form: Form, auth: Auth.AuthStore, complete: Payload -> Option<Auth.User>)
      returns (sent: Option<Payload>, route: Option<string>, toast: Option<string>)
      modifies auth`user, auth`isAuthenticated
      ensures !FormValid(form) ==> toast == None
      ensures FormValid(form) && !SubmitAllowed(usernameAvailable) ==> toast == Some(UsernameTakenMessage)
      ensures sent.Some? ==> toast == Some(if route.Some? then CompletedMessage else CompleteFailedMessage)
      ensures sent.Some? <==> FormValid(form) && SubmitAllowed(usernameAvailable)
      ensures sent.Some? ==> sent.value == Payload(form.username, form.name, form.bio, avatar)
      ensures route.Some? <==> sent.Some? && complete(sent.value).Some?
      ensures route.Some? ==> auth.user == complete(sent.value) && auth.isAuthenticated
                              && route.value == "/dashboard/" + auth.user.value.role.Name()
      ensures route.None? ==> auth.user == old(auth.user) && auth.isAuthenticated == old(auth.isAuthenticated)
    {
      if !FormValid(form) {
        return None, None, None;
      }
      if !SubmitAllowed(usernameAvailable) {
        return None, None, Some(UsernameTakenMessage);
      }
      var payload := Payload(form.username, form.name, form.bio, avatar);
      sent := Some(payload);
      var completed := complete(payload);
      if completed.None? {
        return sent, None, Some(CompleteFailedMessage);
      }
      auth.SetUser(completed);
      route := Some("/dashboard/" + completed.value.role.Name());
      toast := Some(CompletedMessage);
    }
  }
}

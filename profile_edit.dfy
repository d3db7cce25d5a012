/** The profile editor: the form's validation, the skill list edited locally, the two image uploads,
    and the save that replaces the signed-in user. */
module ProfileEdit {
  import opened Wrappers
  import Lists
  import Text
  import Browser
  import Auth

  const NameMin := 2
  const NameMax := 100
  const BioMax := 500

  /** The form schema: a name of 2 to 100 characters and a bio of at most 500. */
  predicate FormValid(name: string, bio: string) {
    NameMin <= |name| <= NameMax && |bio| <= BioMax
  }

  /** What `PUT /profile/edit` receives: the form fields with the locally held images and skills. */
  datatype Payload = Payload(
    name: string,
    bio: string,
    avatar: Option<string>,
    coverImage: Option<string>,
    skills: seq<string>)

  /** The skill `addSkill` appends for the typed input, if any: the trimmed text, when it is not blank
      and not already listed. */
  function SkillToAdd(skills: seq<string>, input: string): (r: Option<string>)
    ensures r.Some? <==> Text.Trim(input) != "" && Text.Trim(input) !in skills
    ensures r.Some? ==> r.value == Text.Trim(input) && r.value !in skills
  {
    var t := Text.Trim(input);
    if t != "" && t !in skills then Some(t) else None
  }

  /** Adding a skill never lists one twice, and never adds a blank one. */
  lemma AddingSkillKeepsNoDup(skills: seq<string>, input: string)
    requires Lists.NoDup(skills)
    requires SkillToAdd(skills, input).Some?
    ensures Lists.NoDup(skills + [SkillToAdd(skills, input).value])
    ensures SkillToAdd(skills, input).value != ""
  {
  }

  /** Re-entering a listed skill, with any surrounding whitespace, adds nothing. */
  lemma ListedSkillIsNotAddedAgain(skills: seq<string>, input: string)
    requires Text.Trim(input) in skills
    ensures SkillToAdd(skills, input) == None
  {
  }

  class ProfileEditor {
    var avatar: Option<string>
    var coverImage: Option<string>
    var skills: seq<string>
    var skillInput: string
    var uploading: bool

    /** Initial state from the signed-in user: an empty avatar counts as none, the cover always starts empty. */
    constructor (user: Option<Auth.User>)
      ensures avatar == (if user.Some? then Text.NonEmpty(user.value.avatar) else None)
      ensures coverImage == None
      ensures skills == (if user.Some? && user.value.skills.Some? then user.value.skills.value else [])
      ensures skillInput == "" && !uploading
    {
      avatar := if user.Some? then Text.NonEmpty(user.value.avatar) else None;
      coverImage := None;
      skills := if user.Some? && user.value.skills.Some? then user.value.skills.value else [];
      skillInput := "";
      uploading := false;
    }

    method EditSkillInput(text: string)
      modifies this`skillInput
      ensures skillInput == text
    {
      skillInput := text;
    }

    /** `addSkill`: append the trimmed input and clear the box, or change nothing. */
    method AddSkill()
      modifies this`skills, this`skillInput
      ensures var t := SkillToAdd(old(skills), old(skillInput));
              if t.Some? then skills == old(skills) + [t.value] && skillInput == ""
              else skills == old(skills) && skillInput == old(skillInput)
      ensures old(Lists.NoDup(skills)) ==> Lists.NoDup(skills)
    {
      var t := SkillToAdd(skills, skillInput);
      if t.Some? {
        if Lists.NoDup(skills) {
          AddingSkillKeepsNoDup(skills, skillInput);
        }
        skills := skills + [t.value];
        skillInput := "";
      }
    }

    /** `removeSkill`: drop every copy of the skill. */
    method RemoveSkill(skill: string)
      modifies this`skills
      ensures skills == Lists.RemoveAll(old(skills), skill)
      ensures skill !in skills
      ensures old(Lists.NoDup(skills)) ==> Lists.NoDup(skills)
    {
      if Lists.NoDup(skills) {
        Lists.RemoveAllNoDup(skills, skill);
      }
      skills := Lists.RemoveAll(skills, skill);
    }

    /** `handleAvatarUpload`: no file, no request; a rejected upload keeps the old avatar. */
    method UploadAvatar(file: Option<Browser.File>, upload: Browser.File -> Option<string>)
      modifies this`avatar, this`uploading
      ensures file.None? ==> avatar == old(avatar) && uploading == old(uploading)
      ensures file.Some? ==> !uploading
      ensures file.Some? && upload(file.value).Some? ==> avatar == upload(file.value)
      ensures file.Some? && upload(file.value).None? ==> avatar == old(avatar)
    {
      if file.None? {
        return;
      }
      uploading := true;
      var response := upload(file.value);
      if response.Some? {
        avatar := response;
      }
      uploading := false;
    }

    /** `handleCoverUpload`: the same flow for the cover image. */
    method UploadCover(file: Option<Browser.File>, upload: Browser.File -> Option<string>)
      modifies this`coverImage, this`uploading
      ensures file.None? ==> coverImage == old(coverImage) && uploading == old(uploading)
      ensures file.Some? ==> !uploading
      ensures file.Some? && upload(file.value).Some? ==> coverImage == upload(file.value)
      ensures file.Some? && upload(file.value).None? ==> coverImage == old(coverImage)
    {
      if file.None? {
        return;
      }
      uploading := true;
      var response := upload(file.value);
      if response.Some? {
        coverImage := response;
      }
      uploading := false;
    }

    /** `handleSubmit(onSubmit)`: an invalid form sends nothing; otherwise the payload carries the local
        images and skills, and only an accepted save replaces the user and leads to the new profile page. */
    method Submit(name: string, bio: string, auth: Auth.AuthStore, save: Payload -> Option<Auth.User>)
      returns (sent: Option<Payload>, route: Option<string>)
      modifies auth`user, auth`isAuthenticated
      ensures sent.Some? <==> FormValid(name, bio)
      ensures sent.Some? ==> sent.value == Payload(name, bio, avatar, coverImage, skills)
      ensures route.Some? <==> sent.Some? && save(sent.value).Some?
      ensures route.Some? ==> auth.user == save(sent.value) && auth.isAuthenticated
                              && route.value == "/profile/" + auth.user.value.username
      ensures route.None? ==> auth.user == old(auth.user) && auth.isAuthenticated == old(auth.isAuthenticated)
    {
      if !FormValid(name, bio) {
        return None, None;
      }
      var payload := Payload(name, bio, avatar, coverImage, skills);
      sent := Some(payload);
      var updated := save(payload);
      if updated.None? {
        return sent, None;
      }
      auth.SetUser(updated);
      route := Some("/profile/" + updated.value.username);
    }
  }
}

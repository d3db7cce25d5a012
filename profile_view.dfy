/** The profile page: whose profile it is, the follow button, and the first threads shown. */
module ProfileView {
  import opened Wrappers
  import Lists
  import Text
  import Auth
  import Profiles

  const ShownThreads := 10

  /** `user?.username === username`: with nobody signed in and no route parameter both sides are
      `undefined`, so the page counts as one's own. */
  function IsOwnProfile(user: Option<Auth.User>, routeUsername: Option<string>): (r: bool)
    ensures user.Some? ==> (r <==> routeUsername == Some(user.value.username))
    ensures user.None? ==> (r <==> routeUsername.None?)
  {
    (if user.Some? then Some(user.value.username) else None) == routeUsername
  }

  predicate IsFollowing(following: seq<string>, profile: Profiles.Profile) {
    profile.id in following
  }

  /** The follow button's caption. */
  function ButtonLabel(following: bool): (caption: string)
    ensures caption == "Unfollow" <==> following
    ensures caption == "Follow" <==> !following
  {
    if following then "Unfollow" else "Follow"
  }

  /** The follow list after a successful click on the button: unfollow when listed, follow otherwise. */
  function Toggled(following: seq<string>, id: string): (r: seq<string>)
    ensures id in following ==> r == Lists.RemoveAll(following, id)
    ensures id !in following ==> r == following + [id]
  {
    if id in following then Lists.RemoveAll(following, id) else following + [id]
  }

  /** The button flips membership, leaves everyone else's membership alone, and never lists anyone twice. */
  lemma ToggleFlipsOnlyThatMember(following: seq<string>, id: string)
    ensures id in Toggled(following, id) <==> id !in following
    ensures forall x :: x != id ==> (x in Toggled(following, id) <==> x in following)
    ensures Lists.NoDup(following) ==> Lists.NoDup(Toggled(following, id))
  {
    if id in following {
      if Lists.NoDup(following) {
        Lists.RemoveAllNoDup(following, id);
      }
    } else {
      if Lists.NoDup(following) {
        Profiles.FollowNewKeepsNoDup(following, id);
      }
    }
  }

  /** The caption names what a successful click does: "Unfollow" takes the id off the list, "Follow" puts
      it on. */
  lemma CaptionNamesTheClick(following: seq<string>, id: string)
    ensures ButtonLabel(id in following) == "Unfollow" ==> id !in Toggled(following, id)
    ensures ButtonLabel(id in following) == "Follow" ==> id in Toggled(following, id)
  {
  }

  /** Two successful clicks give back the same set of followed ids. */
  lemma ToggleTwiceKeepsMembers(following: seq<string>, id: string)
    ensures forall x :: x in Toggled(Toggled(following, id), id) <==> x in following
  {
    ToggleFlipsOnlyThatMember(following, id);
    ToggleFlipsOnlyThatMember(Toggled(following, id), id);
  }

  /** `threads.slice(0, 10)`. */
  function VisibleThreads(threads: seq<Profiles.Thread>): (r: seq<Profiles.Thread>)
    ensures |r| == if |threads| < ShownThreads then |threads| else ShownThreads
    ensures r == threads[..|r|]
  {
    if |threads| <= ShownThreads then threads else threads[..ShownThreads]
  }

  class ProfilePage {
    const routeUsername: Option<string>

    constructor (routeUsername0: Option<string>)
      ensures routeUsername == routeUsername0
    {
      routeUsername := routeUsername0;
    }

    /** The fetch effect: nothing without a route parameter; a fetched profile goes to the store and its
        threads become the store's thread list. */
    method Load(store: Profiles.ProfileStore, fetch: string -> Option<Profiles.Profile>)
      modifies store`currentProfile, store`threads
      ensures routeUsername.Some? && routeUsername.value != "" && fetch(routeUsername.value).Some? ==>
        store.currentProfile == fetch(routeUsername.value) && store.threads == fetch(routeUsername.value).value.threads
      ensures !(routeUsername.Some? && routeUsername.value != "" && fetch(routeUsername.value).Some?) ==>
        store.currentProfile == old(store.currentProfile) && store.threads == old(store.threads)
    {
      if routeUsername.None? || routeUsername.value == "" {
        return;
      }
      var profile := fetch(routeUsername.value);
      if profile.None? {
        return;
      }
      store.SetCurrentProfile(profile);
      store.SetThreads(profile.value.threads);
    }

    /** `handleFollow`: without a profile nothing is sent; the id is appended only after the server accepts. */
    method HandleFollow(store: Profiles.ProfileStore, post: string -> bool)
      modifies store`following
      ensures store.currentProfile.Some? && post("/profile/" + Text.Interpolate(routeUsername) + "/follow") ==>
        store.following == old(store.following) + [store.currentProfile.value.id]
      ensures !(store.currentProfile.Some? && post("/profile/" + Text.Interpolate(routeUsername) + "/follow")) ==>
        store.following == old(store.following)
    {
      if store.currentProfile.None? || !post("/profile/" + Text.Interpolate(routeUsername) + "/follow") {
        return;
      }
      store.FollowUser(store.currentProfile.value.id);
    }

    /** `handleUnfollow`: the same flow, removing the id. */
    method HandleUnfollow(store: Profiles.ProfileStore, post: string -> bool)
      modifies store`following
      ensures store.currentProfile.Some? && post("/profile/" + Text.Interpolate(routeUsername) + "/unfollow") ==>
        store.following == Lists.RemoveAll(old(store.following), store.currentProfile.value.id)
      ensures !(store.currentProfile.Some? && post("/profile/" + Text.Interpolate(routeUsername) + "/unfollow")) ==>
        store.following == old(store.following)
    {
      if store.currentProfile.None? || !post("/profile/" + Text.Interpolate(routeUsername) + "/unfollow") {
        return;
      }
      store.UnfollowUser(store.currentProfile.value.id);
    }

    /** The button picks the handler from the current membership, so a successful click toggles it and
        the follow list stays free of duplicates. */
    method ClickFollowButton(store: Profiles.ProfileStore, post: string -> bool)
      requires store.currentProfile.Some?
      modifies store`following
      ensures var id := store.currentProfile.value.id;
              var url := "/profile/" + Text.Interpolate(routeUsername) + (if id in old(store.following) then "/unfollow" else "/follow");
              store.following == if post(url) then Toggled(old(store.following), id) else old(store.following)
      ensures old(Lists.NoDup(store.following)) ==> Lists.NoDup(store.following)
    {
      ToggleFlipsOnlyThatMember(store.following, store.currentProfile.value.id);
      if IsFollowing(store.following, store.currentProfile.value) {
        HandleUnfollow(store, post);
      } else {
        HandleFollow(store, post);
      }
    }
  }
}

/** The profile store: the profile being viewed, a thread list, and the signed-in user's follow lists. */
module Profiles {
  import opened Wrappers
  import Lists

  datatype Author = Author(id: string, username: string, name: string, avatar: Option<string>)

  datatype Thread = Thread(
    id: string,
    author: Author,
    content: string,
    images: Option<seq<string>>,
    likes: int,
    comments: int,
    shares: int,
    liked: bool,
    createdAt: string)

  /** A `Partial<Thread>`: each present field overrides the thread's own when spread over it. */
  datatype ThreadChanges = ThreadChanges(
    id: Option<string>,
    author: Option<Author>,
    content: Option<string>,
    images: Option<Option<seq<string>>>,
    likes: Option<int>,
    comments: Option<int>,
    shares: Option<int>,
    liked: Option<bool>,
    createdAt: Option<string>)

  const NoChanges := ThreadChanges(None, None, None, None, None, None, None, None, None)

  datatype Profile = Profile(
    id: string,
    username: string,
    name: string,
    bio: Option<string>,
    avatar: Option<string>,
    coverImage: Option<string>,
    followers: int,
    following: int,
    courses: int,
    certificates: int,
    threads: seq<Thread>,
    skills: Option<seq<string>>,
    socialLinks: Option<map<string, string>>)

  /** `{ ...t, ...u }`. */
  function Apply(t: Thread, u: ThreadChanges): Thread {
    Thread(
      u.id.GetOr(t.id), u.author.GetOr(t.author), u.content.GetOr(t.content),
      u.images.GetOr(t.images), u.likes.GetOr(t.likes), u.comments.GetOr(t.comments),
      u.shares.GetOr(t.shares), u.liked.GetOr(t.liked), u.createdAt.GetOr(t.createdAt))
  }

  /** An empty change set leaves a thread as it is. */
  lemma ApplyNoChanges(t: Thread)
    ensures Apply(t, NoChanges) == t
  {
  }

  /** Changes that only touch `liked` and `likes` leave every other field of the thread alone. */
  lemma ApplyLikeChanges(t: Thread, liked: bool, likes: int)
    ensures Apply(t, NoChanges.(liked := Some(liked), likes := Some(likes))) == t.(liked := liked, likes := likes)
  {
  }

  /** The list `updateThread(id, u)` produces: every thread with that id has `u` spread over it, the
      other threads are untouched, and the list keeps its length and order. */
  function UpdateThreads(ts: seq<Thread>, id: string, u: ThreadChanges): (r: seq<Thread>)
    ensures |r| == |ts|
    ensures forall i :: 0 <= i < |ts| && ts[i].id == id ==> r[i] == Apply(ts[i], u)
    ensures forall i :: 0 <= i < |ts| && ts[i].id != id ==> r[i] == ts[i]
  {
    Lists.Patch(ts, (t: Thread) => t.id == id, (t: Thread) => Apply(t, u))
  }

  /** Updating a thread id that is not in the list changes nothing. */
  lemma UpdateUnknownThread(ts: seq<Thread>, id: string, u: ThreadChanges)
    requires forall i :: 0 <= i < |ts| ==> ts[i].id != id
    ensures UpdateThreads(ts, id, u) == ts
  {
  }

  /** `followUser` appends without looking: following someone already followed lists them twice. */
  lemma FollowTwiceDuplicates(following: seq<string>, id: string)
    requires id in following
    ensures !Lists.NoDup(following + [id])
  {
    var i :| 0 <= i < |following| && following[i] == id;
    assert (following + [id])[i] == (following + [id])[|following|];
  }

  /** `followUser` of someone not yet followed keeps the list duplicate-free. */
  lemma FollowNewKeepsNoDup(following: seq<string>, id: string)
    requires Lists.NoDup(following) && id !in following
    ensures Lists.NoDup(following + [id])
  {
  }

  /** `unfollowUser` undoes a `followUser` of someone who was not followed before. */
  lemma UnfollowUndoesFollow(following: seq<string>, id: string)
    requires id !in following
    ensures Lists.RemoveAll(following + [id], id) == following
  {
    Lists.RemoveAllAppend(following, [id], id);
    Lists.RemoveAbsent(following, id);
  }

  class ProfileStore {
    var currentProfile: Option<Profile>
    var threads: seq<Thread>
    var followers: seq<string>
    var following: seq<string>

    constructor ()
      ensures currentProfile == None && threads == [] && followers == [] && following == []
    {
      currentProfile := None;
      threads := [];
      followers := [];
      following := [];
    }

    method SetCurrentProfile(p: Option<Profile>)
      modifies this`currentProfile
      ensures currentProfile == p
    {
      currentProfile := p;
    }

    method SetThreads(ts: seq<Thread>)
      modifies this`threads
      ensures threads == ts
    {
      threads := ts;
    }

    /** Newest first. */
    method AddThread(t: Thread)
      modifies this`threads
      ensures threads == [t] + old(threads)
    {
      threads := [t] + threads;
    }

    method UpdateThread(id: string, u: ThreadChanges)
      modifies this`threads
      ensures threads == UpdateThreads(old(threads), id, u)
    {
      threads := UpdateThreads(threads, id, u);
    }

    /** Appends, with no check for an id already present. */
    method FollowUser(id: string)
      modifies this`following
      ensures following == old(following) + [id]
    {
      following := following + [id];
    }

    /** Removes every occurrence and keeps the other ids in order. */
    method UnfollowUser(id: string)
      modifies this`following
      ensures following == Lists.RemoveAll(old(following), id)
      ensures id !in following
    {
      following := Lists.RemoveAll(following, id);
    }
  }
}

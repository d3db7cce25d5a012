/** The feed: the thread list fetched per filter into the profile store, and the like button. */
module Feed {
  import opened Wrappers
  import Lists
  import Profiles

  datatype FeedFilter = All | Following {
    function Param(): string {
      match this
      case All => "all"
      case Following => "following"
    }
  }

  predicate HasId(t: Profiles.Thread, id: string) {
    t.id == id
  }

  /** The change `handleLike` sends to `updateThread`, read off the first thread with the id: the
      liked flag negated and the count raised by one; for an unknown id, liked and a count of 1. */
  function LikeChanges(threads: seq<Profiles.Thread>, id: string): (u: Profiles.ThreadChanges)
    ensures var k := Lists.FindIndex(threads, t => HasId(t, id));
            u == Profiles.NoChanges.(
              liked := Some(if k >= 0 then !threads[k].liked else true),
              likes := Some(if k >= 0 then threads[k].likes + 1 else 1))
  {
    var k := Lists.FindIndex(threads, t => HasId(t, id));
    if k >= 0 then Profiles.NoChanges.(liked := Some(!threads[k].liked), likes := Some(threads[k].likes + 1))
    else Profiles.NoChanges.(liked := Some(true), likes := Some(1))
  }

  /** The thread list after an accepted like: same length, only the threads with the id change, and of
      those only the flag and the count. */
  function Liked(threads: seq<Profiles.Thread>, id: string): (r: seq<Profiles.Thread>)
    ensures |r| == |threads|
    ensures forall i :: 0 <= i < |threads| && threads[i].id != id ==> r[i] == threads[i]
    ensures forall i :: 0 <= i < |threads| && threads[i].id == id ==>
      r[i] == threads[i].(liked := r[i].liked, likes := r[i].likes)
  {
    Profiles.UpdateThreads(threads, id, LikeChanges(threads, id))
  }

  /** Every thread with the id takes the first such thread's flag, negated, and its count plus one;
      nothing else about any thread changes. */
  lemma LikeUpdatesFromFirstMatch(threads: seq<Profiles.Thread>, id: string, k: int)
    requires 0 <= k < |threads| && threads[k].id == id
    requires forall j :: 0 <= j < k ==> threads[j].id != id
    ensures |Liked(threads, id)| == |threads|
    ensures forall i :: 0 <= i < |threads| && threads[i].id == id ==>
      Liked(threads, id)[i] == threads[i].(liked := !threads[k].liked, likes := threads[k].likes + 1)
    ensures forall i :: 0 <= i < |threads| && threads[i].id != id ==> Liked(threads, id)[i] == threads[i]
  {
    var f := Lists.FindIndex(threads, t => HasId(t, id));
    assert f == k by {
      assert HasId(threads[k], id);
    }
    forall i | 0 <= i < |threads| && threads[i].id == id
      ensures Liked(threads, id)[i] == threads[i].(liked := !threads[k].liked, likes := threads[k].likes + 1)
    {
      Profiles.ApplyLikeChanges(threads[i], !threads[k].liked, threads[k].likes + 1);
    }
  }

  /** The button toggles the first matching thread's flag but always raises its count, even when it
      takes a like away. */
  lemma UnlikeStillRaisesCount(threads: seq<Profiles.Thread>, id: string, k: int)
    requires 0 <= k < |threads| && threads[k].id == id && threads[k].liked
    requires forall j :: 0 <= j < k ==> threads[j].id != id
    ensures !Liked(threads, id)[k].liked
    ensures Liked(threads, id)[k].likes == threads[k].likes + 1
  {
  }

  /** Liking a thread that is not in the list changes nothing. */
  lemma LikeUnknownThread(threads: seq<Profiles.Thread>, id: string)
    requires forall i :: 0 <= i < |threads| ==> threads[i].id != id
    ensures Liked(threads, id) == threads
  {
  }

  class FeedView {
    var filter: FeedFilter

    constructor ()
      ensures filter == All
    {
      filter := All;
    }

    /** The fetch effect: a successful fetch replaces the store's threads, a failed one keeps them. */
    method Load(store: Profiles.ProfileStore, fetch: string -> Option<seq<Profiles.Thread>>)
      modifies store`threads
      ensures fetch(filter.Param()).Some? ==> store.threads == fetch(filter.Param()).value
      ensures fetch(filter.Param()).None? ==> store.threads == old(store.threads)
    {
      var data := fetch(filter.Param());
      if data.Some? {
        store.SetThreads(data.value);
      }
    }

    method SelectFilter(f: FeedFilter, store: Profiles.ProfileStore, fetch: string -> Option<seq<Profiles.Thread>>)
      modifies this`filter, store`threads
      ensures filter == f
      ensures fetch(f.Param()).Some? ==> store.threads == fetch(f.Param()).value
      ensures fetch(f.Param()).None? ==> store.threads == old(store.threads)
    {
      filter := f;
      Load(store, fetch);
    }

    /** `handleLike`: the thread changes only after the server accepts the like. */
    method HandleLike(store: Profiles.ProfileStore, id: string, post: string -> bool)
      modifies store`threads
      ensures post("/threads/" + id + "/like") ==> store.threads == Liked(old(store.threads), id)
      ensures !post("/threads/" + id + "/like") ==> store.threads == old(store.threads)
    {
      if !post("/threads/" + id + "/like") {
        return;
      }
      store.UpdateThread(id, LikeChanges(store.threads, id));
    }
  }
}

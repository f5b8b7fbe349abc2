/** The likers list of a post and what `/toggleLikePost` does to it
    (routes/auth.js:481-490): a membership test, an unlike that filters out every
    occurrence of the caller, and a like that appends the caller once. */
module Likes {
  import opened Types

  /** `post.likers.some(likerId => likerId.toString() === user._id.toString())`:
      ObjectIds with the same string are the same id. The caller has liked the post
      exactly when they occur among the likers at least once. */
  predicate HasLiked(likers: seq<ObjectId>, id: ObjectId): (r: bool)
    ensures r <==> multiset(likers)[id] > 0
    ensures r <==> exists k :: 0 <= k < |likers| && likers[k] == id
  {
    id in likers
  }

  /** `post.likers.filter(likerId => likerId.toString() !== user._id.toString())`. */
  function Without(likers: seq<ObjectId>, id: ObjectId): (r: seq<ObjectId>)
    ensures multiset(r) == multiset(likers)[id := 0]
    ensures !HasLiked(r, id)
  {
    if |likers| == 0 then []
    else
      assert likers == [likers[0]] + likers[1..];
      if likers[0] == id then Without(likers[1..], id)
      else [likers[0]] + Without(likers[1..], id)
  }

  /** The likers after one toggle by `id`. When `id` has not liked the post it is
      appended and then appears exactly once; when it has, every occurrence is removed
      and every other liker keeps its multiplicity. */
  function Toggled(likers: seq<ObjectId>, id: ObjectId): (r: seq<ObjectId>)
    ensures !HasLiked(likers, id) ==> r == likers + [id] && multiset(r)[id] == 1
    ensures HasLiked(likers, id) ==> !HasLiked(r, id)
    ensures forall x :: x != id ==> multiset(r)[x] == multiset(likers)[x]
  {
    if HasLiked(likers, id) then Without(likers, id) else likers + [id]
  }

  /** Filtering out an id that is not there changes nothing. */
  lemma {:induction false} WithoutAbsent(likers: seq<ObjectId>, id: ObjectId)
    requires !HasLiked(likers, id)
    ensures Without(likers, id) == likers
  {
    if |likers| > 0 {
      assert likers == [likers[0]] + likers[1..];
      WithoutAbsent(likers[1..], id);
    }
  }

  /** Filtering distributes over concatenation. */
  lemma {:induction false} WithoutAppend(a: seq<ObjectId>, b: seq<ObjectId>, id: ObjectId)
    ensures Without(a + b, id) == Without(a, id) + Without(b, id)
  {
    if |a| > 0 {
      assert (a + b)[1..] == a[1..] + b;
      WithoutAppend(a[1..], b, id);
    } else {
      assert a + b == b;
    }
  }

  /** Two toggles from "not liked" give back the original likers. */
  lemma {:induction false} ToggleTwiceRestores(likers: seq<ObjectId>, id: ObjectId)
    requires !HasLiked(likers, id)
    ensures HasLiked(Toggled(likers, id), id)
    ensures Toggled(Toggled(likers, id), id) == likers
  {
    var once := likers + [id];
    assert once[|likers|] == id;
    assert Toggled(likers, id) == once;
    WithoutAppend(likers, [id], id);
    WithoutAbsent(likers, id);
    assert Without([id], id) == [];
  }
}

/** The newsfeed selection of `/getNewsfeed` (routes/auth.js:444-446):
    `user.posts.sort((a, b) => b.createdAt - a.createdAt).slice(0, 5)`.
    `Array.prototype.sort` is stable, so posts with the same `createdAt` keep the order
    in which they were added. */
module Feed {
  import opened Types

  /** How many posts the feed returns at most (`slice(0, 5)`). */
  const FeedSize: nat := 5

  /** Newest first: `createdAt` never increases along the sequence. */
  predicate SortedNewestFirst(s: seq<Post>)
  {
    forall i, j :: 0 <= i < j < |s| ==> s[i].createdAt >= s[j].createdAt
  }

  /** The posts of `s` created at time `t`, in their order in `s`. */
  function WithTime(s: seq<Post>, t: int): (r: seq<Post>)
    ensures forall i :: 0 <= i < |r| ==> r[i].createdAt == t
  {
    if |s| == 0 then []
    else (if s[0].createdAt == t then [s[0]] else []) + WithTime(s[1..], t)
  }

  lemma WithTimeCons(p: Post, s: seq<Post>, t: int)
    ensures WithTime([p] + s, t) == (if p.createdAt == t then [p] else []) + WithTime(s, t)
  {
    assert ([p] + s)[1..] == s;
  }

  /** A post created at `t` puts something in the posts created at `t`. */
  lemma {:induction false} WithTimeNonEmpty(s: seq<Post>, i: nat)
    requires i < |s|
    ensures WithTime(s, s[i].createdAt) != []
  {
    if i > 0 && s[0].createdAt != s[i].createdAt {
      WithTimeNonEmpty(s[1..], i - 1);
    }
  }

  /** Inserts `p` into a newest-first sequence ahead of every post that is not newer:
      one step of the stable sort, where `p` was added before all of `s`. */
  function Insert(p: Post, s: seq<Post>): (r: seq<Post>)
    requires SortedNewestFirst(s)
    ensures SortedNewestFirst(r)
    ensures multiset(r) == multiset(s) + multiset{p}
    ensures forall t :: WithTime(r, t) == WithTime([p] + s, t)
  {
    if |s| == 0 || p.createdAt >= s[0].createdAt then [p] + s
    else
      var rest := Insert(p, s[1..]);
      InsertBehindSorted(p, s, rest);
      InsertBehindKeepsTies(p, s, rest);
      [s[0]] + rest
  }

  /** Putting the head of `s` in front of the insertion into its tail keeps the order
      and the contents. */
  lemma InsertBehindSorted(p: Post, s: seq<Post>, rest: seq<Post>)
    requires SortedNewestFirst(s) && |s| > 0 && p.createdAt < s[0].createdAt
    requires SortedNewestFirst(rest) && multiset(rest) == multiset(s[1..]) + multiset{p}
    ensures SortedNewestFirst([s[0]] + rest)
    ensures multiset([s[0]] + rest) == multiset(s) + multiset{p}
  {
    assert s == [s[0]] + s[1..];
    forall k | 0 <= k < |rest| ensures rest[k].createdAt <= s[0].createdAt {
      assert rest[k] in multiset(rest);
      if rest[k] != p {
        assert rest[k] in multiset(s[1..]);
        assert rest[k] in s[1..];
      }
    }
  }

  lemma InsertBehindKeepsTies(p: Post, s: seq<Post>, rest: seq<Post>)
    requires |s| > 0 && p.createdAt < s[0].createdAt
    requires forall t :: WithTime(rest, t) == WithTime([p] + s[1..], t)
    ensures forall t :: WithTime([s[0]] + rest, t) == WithTime([p] + s, t)
  {
    forall t ensures WithTime([s[0]] + rest, t) == WithTime([p] + s, t) {
      InsertBehindKeepsTime(p, s, rest, t);
    }
  }

  /** The same, for one creation time `t`: `p` and the head of `s` cannot both be of
      time `t`, so swapping them does not change the posts of time `t`. */
  lemma InsertBehindKeepsTime(p: Post, s: seq<Post>, rest: seq<Post>, t: int)
    requires |s| > 0 && p.createdAt < s[0].createdAt
    requires WithTime(rest, t) == WithTime([p] + s[1..], t)
    ensures WithTime([s[0]] + rest, t) == WithTime([p] + s, t)
  {
    assert s == [s[0]] + s[1..];
    WithTimeCons(s[0], rest, t);
    WithTimeCons(p, s[1..], t);
    WithTimeCons(s[0], s[1..], t);
    WithTimeCons(p, s, t);
    if s[0].createdAt == t {
      assert p.createdAt != t;
    }
  }

  /** The posts ordered newest first, ties in their original order. */
  function SortNewestFirst(s: seq<Post>): (r: seq<Post>)
    ensures SortedNewestFirst(r)
    ensures multiset(r) == multiset(s)
    ensures forall t :: WithTime(r, t) == WithTime(s, t)
  {
    if |s| == 0 then []
    else
      var rest := SortNewestFirst(s[1..]);
      assert s == [s[0]] + s[1..];
      forall t ensures WithTime(Insert(s[0], rest), t) == WithTime(s, t) {
        WithTimeCons(s[0], rest, t);
        WithTimeCons(s[0], s[1..], t);
      }
      Insert(s[0], rest)
  }

  /** At most the five newest posts, newest first: the start of the sorted posts, five
      long or all of them. */
  function Newsfeed(posts: seq<Post>): (r: seq<Post>)
    ensures r <= SortNewestFirst(posts) && |r| <= FeedSize
    ensures |r| == FeedSize || r == SortNewestFirst(posts)
  {
    var sorted := SortNewestFirst(posts);
    sorted[..if |sorted| < FeedSize then |sorted| else FeedSize]
  }

  /** Every post picked out for time `t` is one of the posts of `s`. */
  lemma {:induction false} WithTimeFrom(s: seq<Post>, t: int, i: nat)
    requires i < |WithTime(s, t)|
    ensures WithTime(s, t)[i] in s
  {
    assert |s| > 0;
    WithTimeCons(s[0], s[1..], t);
    assert s == [s[0]] + s[1..];
    if s[0].createdAt == t {
      if i > 0 {
        WithTimeFrom(s[1..], t, i - 1);
      }
    } else {
      WithTimeFrom(s[1..], t, i);
    }
  }

  /** Two newest-first arrangements of the same posts that pick out the same posts, in
      the same order, for every creation time are the same sequence: a stable sort has
      only one result. */
  lemma {:induction false} StableOrderIsUnique(a: seq<Post>, b: seq<Post>)
    requires SortedNewestFirst(a) && SortedNewestFirst(b)
    requires multiset(a) == multiset(b)
    requires forall t :: WithTime(a, t) == WithTime(b, t)
    ensures a == b
  {
    assert |a| == |multiset(a)| == |multiset(b)| == |b|;
    if |a| > 0 {
      SameHead(a, b);
      SameTails(a, b);
      StableOrderIsUnique(a[1..], b[1..]);
      assert a == [a[0]] + a[1..] && b == [b[0]] + b[1..];
    }
  }

  /** Two non-empty newest-first sequences that agree on every creation time's posts
      start with the same post. */
  lemma SameHead(a: seq<Post>, b: seq<Post>)
    requires |a| > 0 && |b| > 0
    requires SortedNewestFirst(a) && SortedNewestFirst(b)
    requires forall t :: WithTime(a, t) == WithTime(b, t)
    ensures a[0] == b[0]
  {
    var ta, tb := a[0].createdAt, b[0].createdAt;
    WithTimeNonEmpty(a, 0);
    WithTimeNonEmpty(b, 0);
    NoneNewerThanHead(b, ta);
    NoneNewerThanHead(a, tb);
    assert a == [a[0]] + a[1..] && b == [b[0]] + b[1..];
    WithTimeCons(a[0], a[1..], ta);
    WithTimeCons(b[0], b[1..], ta);
  }

  /** In a newest-first sequence, no time that occurs is later than the first post's. */
  lemma NoneNewerThanHead(s: seq<Post>, t: int)
    requires SortedNewestFirst(s) && WithTime(s, t) != []
    ensures |s| > 0 && t <= s[0].createdAt
  {
    WithTimeFrom(s, t, 0);
    var k :| 0 <= k < |s| && s[k] == WithTime(s, t)[0];
  }

  /** Dropping the same first post from both keeps them agreeing on every creation time. */
  lemma SameTails(a: seq<Post>, b: seq<Post>)
    requires |a| > 0 && |b| > 0 && a[0] == b[0] && multiset(a) == multiset(b)
    requires forall t :: WithTime(a, t) == WithTime(b, t)
    ensures multiset(a[1..]) == multiset(b[1..])
    ensures forall t :: WithTime(a[1..], t) == WithTime(b[1..], t)
  {
    assert a == [a[0]] + a[1..] && b == [b[0]] + b[1..];
    assert multiset(a[1..]) == multiset(a) - multiset{a[0]};
    assert multiset(b[1..]) == multiset(b) - multiset{b[0]};
    forall t ensures WithTime(a[1..], t) == WithTime(b[1..], t) {
      WithTimeCons(a[0], a[1..], t);
      WithTimeCons(b[0], b[1..], t);
      var n := if a[0].createdAt == t then 1 else 0;
      assert WithTime(a[1..], t) == WithTime(a, t)[n..];
      assert WithTime(b[1..], t) == WithTime(b, t)[n..];
    }
  }

  /** The sort is the stable newest-first order of the posts: any newest-first
      permutation of the posts that keeps the posts of each time in their original order
      is the sort's result. */
  lemma SortIsStableOrder(s: seq<Post>, r: seq<Post>)
    requires SortedNewestFirst(r) && multiset(r) == multiset(s)
    requires forall t :: WithTime(r, t) == WithTime(s, t)
    ensures r == SortNewestFirst(s)
  {
    StableOrderIsUnique(r, SortNewestFirst(s));
  }

  /** The feed holds five posts, or all of them when there are fewer. */
  lemma FeedSizeBound(posts: seq<Post>)
    ensures |Newsfeed(posts)| == if |posts| < FeedSize then |posts| else FeedSize
  {
    var sorted := SortNewestFirst(posts);
    assert |sorted| == |multiset(sorted)| == |multiset(posts)| == |posts|;
  }

  /** The feed is newest first and every post in it is one of the user's posts. */
  lemma FeedOrderedFromPosts(posts: seq<Post>)
    ensures SortedNewestFirst(Newsfeed(posts))
    ensures multiset(Newsfeed(posts)) <= multiset(posts)
  {
    var sorted := SortNewestFirst(posts);
    var feed := Newsfeed(posts);
    var omitted := sorted[|feed|..];
    assert sorted == feed + omitted;
    assert multiset(sorted) == multiset(feed) + multiset(omitted);
  }

  /** No post left out of the feed is newer than a post in it. */
  lemma FeedHoldsNewest(posts: seq<Post>)
    ensures forall q, p :: q in multiset(posts) - multiset(Newsfeed(posts)) && p in Newsfeed(posts) ==>
      q.createdAt <= p.createdAt
  {
    var sorted := SortNewestFirst(posts);
    var feed := Newsfeed(posts);
    var omitted := sorted[|feed|..];
    SplitIsOrdered(sorted, |feed|);
    assert sorted == feed + omitted;
    calc {
      multiset(posts) - multiset(feed);
      multiset(sorted) - multiset(feed);
      (multiset(feed) + multiset(omitted)) - multiset(feed);
      multiset(omitted);
    }
  }

  /** In a newest-first sequence, nothing after position `n` is newer than anything before it. */
  lemma SplitIsOrdered(s: seq<Post>, n: nat)
    requires SortedNewestFirst(s) && n <= |s|
    ensures forall q, p :: q in s[n..] && p in s[..n] ==> q.createdAt <= p.createdAt
  {
    forall q, p | q in s[n..] && p in s[..n] ensures q.createdAt <= p.createdAt {
      var j :| 0 <= j < |s| - n && s[n..][j] == q;
      var i :| 0 <= i < n && s[..n][i] == p;
      assert s[i] == p && s[n + j] == q;
    }
  }

  /** Posts that share a creation time appear in the feed in the order they were added,
      and they are the earliest-added posts of that time. */
  lemma FeedKeepsTieOrder(posts: seq<Post>, t: int)
    ensures WithTime(Newsfeed(posts), t) <= WithTime(posts, t)
  {
    var sorted := SortNewestFirst(posts);
    var feed := Newsfeed(posts);
    var omitted := sorted[|feed|..];
    assert sorted == feed + omitted;
    WithTimeAppend(feed, omitted, t);
    assert WithTime(posts, t) == WithTime(feed, t) + WithTime(omitted, t);
  }

  lemma {:induction false} WithTimeAppend(a: seq<Post>, b: seq<Post>, t: int)
    ensures WithTime(a + b, t) == WithTime(a, t) + WithTime(b, t)
  {
    if |a| == 0 {
      assert a + b == b;
    } else {
      var c := a[1..] + b;
      assert a + b == [a[0]] + c;
      assert a == [a[0]] + a[1..];
      WithTimeCons(a[0], c, t);
      WithTimeCons(a[0], a[1..], t);
      WithTimeAppend(a[1..], b, t);
    }
  }

  /** A post newer than every earlier post leads the feed once it is added. */
  lemma NewestPostLeadsFeed(posts: seq<Post>, p: Post)
    requires forall j :: 0 <= j < |posts| ==> posts[j].createdAt < p.createdAt
    ensures Newsfeed(posts + [p]) != [] && Newsfeed(posts + [p])[0] == p
  {
    var all := posts + [p];
    var sorted := SortNewestFirst(all);
    assert p in multiset(all);
    assert p in sorted;
    FeedSizeBound(all);
    var k :| 0 <= k < |sorted| && sorted[k] == p;
    assert sorted[0].createdAt >= p.createdAt;
    assert sorted[0] in multiset(all);
    assert sorted[0] in all;
  }
}

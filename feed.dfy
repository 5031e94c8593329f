/**
 * The feed: the fetched posts in the order the query returns them, each
 * annotated with whether the viewer has voted on it and with its position.
 */
module Feed {
  import opened Wrappers
  import opened Store
  import TakeCard

  /** The posts query's answer: its data (possibly null) and whether it reported an error. */
  datatype PostsResponse = PostsResponse(data: Option<seq<Post>>, failed: bool)

  /** What the feed renders: the error state, the empty state, or one card per post. */
  datatype View = ErrorState | EmptyState | Cards(cards: seq<TakeCard.CardProps>)

  // ---------------------------------------------------------------------------
  // The viewer's votes

  /**
   * The set the feed builds from the votes query: every returned post id when
   * a user is signed in and the query returned data, and nothing otherwise.
   */
  function VotedPostIds(user: Option<string>, votes: Option<seq<string>>): set<string>
  {
    if user.Some? && votes.Some? then set p | p in votes.value else {}
  }

  /** `userVotes.add(v.post_id)` for every returned row, in a loop. */
  method CollectUserVotes(user: Option<string>, votes: Option<seq<string>>) returns (userVotes: set<string>)
    ensures userVotes == VotedPostIds(user, votes)
  {
    userVotes := {};
    if user.Some? && votes.Some? {
      var rows := votes.value;
      var i := 0;
      while i < |rows|
        invariant 0 <= i <= |rows|
        invariant userVotes == set j | 0 <= j < i :: rows[j]
      {
        userVotes := userVotes + {rows[i]};
        i := i + 1;
      }
      assert userVotes == set p | p in rows by {
        forall p | p in rows ensures p in userVotes {
          var j :| 0 <= j < |rows| && rows[j] == p;
        }
      }
    }
  }

  /** The votes query `select('post_id').eq('user_id', userId)` answered from the table: exactly that user's post ids. */
  ghost predicate AnswersVotesQuery(rows: seq<string>, table: set<Vote>, userId: string)
  {
    && (forall i :: 0 <= i < |rows| ==> Vote(rows[i], userId) in table)
    && (forall v :: v in table && v.userId == userId ==> v.postId in rows)
  }

  /** Answered correctly, the set the feed builds is exactly the ids of the posts the user has voted on. */
  lemma VotedPostIdsExact(rows: seq<string>, table: set<Vote>, userId: string)
    requires AnswersVotesQuery(rows, table, userId)
    ensures VotedPostIds(Some(userId), Some(rows)) == set v | v in table && v.userId == userId :: v.postId
  {
    var built := VotedPostIds(Some(userId), Some(rows));
    var spec := set v | v in table && v.userId == userId :: v.postId;
    forall p | p in built ensures p in spec {
      var i :| 0 <= i < |rows| && rows[i] == p;
      assert Vote(p, userId) in table;
    }
  }

  // ---------------------------------------------------------------------------
  // The rendered view

  /** `posts.map((post, index) => <TakeCard …/>)`: each card gets its post, the viewer, its membership flag and its position. */
  function Annotate(posts: seq<Post>, user: Option<string>, userVotes: set<string>): (cards: seq<TakeCard.CardProps>)
    ensures |cards| == |posts|
    ensures forall i :: 0 <= i < |posts| ==>
      cards[i] == TakeCard.CardProps(posts[i], user, posts[i].id in userVotes, i)
  {
    seq(|posts|, i requires 0 <= i < |posts| => TakeCard.CardProps(posts[i], user, posts[i].id in userVotes, i))
  }

  /** The feed's branches: an error shows only the error state, no posts only the empty state, otherwise the cards. */
  function Render(user: Option<string>, posts: PostsResponse, userVotes: set<string>): (v: View)
    ensures v.ErrorState? <==> posts.failed
    ensures v.EmptyState? <==> !posts.failed && (posts.data.None? || posts.data.value == [])
    ensures v.Cards? ==> posts.data.Some? && |v.cards| == |posts.data.value| > 0
  {
    if posts.failed then ErrorState
    else if posts.data.None? || |posts.data.value| == 0 then EmptyState
    else Cards(Annotate(posts.data.value, user, userVotes))
  }

  /** The server component: the error check comes first; the votes are gathered with a loop; then the view is built. */
  method LoadFeed(user: Option<string>, posts: PostsResponse, votes: Option<seq<string>>) returns (v: View)
    ensures v == Render(user, posts, VotedPostIds(user, votes))
  {
    if posts.failed {
      return ErrorState;
    }
    var userVotes := CollectUserVotes(user, votes);
    v := Render(user, posts, userVotes);
  }

  /** The posts the cards show, in card order. */
  function CardPosts(cards: seq<TakeCard.CardProps>): seq<Post>
  {
    seq(|cards|, i requires 0 <= i < |cards| => cards[i].post)
  }

  // ---------------------------------------------------------------------------
  // Ranking

  /** Vote counts never rise along the sequence. */
  ghost predicate NonIncreasing(posts: seq<Post>)
  {
    forall i, j :: 0 <= i < j < |posts| ==> posts[i].voteCount >= posts[j].voteCount
  }

  /**
   * `order('vote_count', { ascending: false })`: the query returns the stored
   * rows in some order of non-increasing counts; ties are in no stated order.
   */
  ghost predicate RankedFrom(stored: multiset<Post>, fetched: seq<Post>)
  {
    multiset(fetched) == stored && NonIncreasing(fetched)
  }

  /** The cards show the stored posts, ranked, in the query's order, at positions 0..n-1. */
  lemma RankedCards(user: Option<string>, stored: multiset<Post>, fetched: seq<Post>, userVotes: set<string>)
    requires RankedFrom(stored, fetched) && fetched != []
    ensures Render(user, PostsResponse(Some(fetched), false), userVotes).Cards?
    ensures var cards := Render(user, PostsResponse(Some(fetched), false), userVotes).cards;
      && RankedFrom(stored, CardPosts(cards))
      && forall i :: 0 <= i < |cards| ==> cards[i].index == i
  {
    var cards := Render(user, PostsResponse(Some(fetched), false), userVotes).cards;
    assert CardPosts(cards) == fetched;
  }

  /** The first card holds a post with the highest vote count of all stored posts. */
  lemma TopCardHoldsMaximum(stored: multiset<Post>, fetched: seq<Post>)
    requires RankedFrom(stored, fetched)
    ensures forall p :: p in stored ==> fetched != [] && fetched[0].voteCount >= p.voteCount
  {
    forall p | p in stored ensures fetched != [] && fetched[0].voteCount >= p.voteCount {
      assert p in multiset(fetched);
      var i :| 0 <= i < |fetched| && fetched[i] == p;
    }
  }

  /** The vote counts in card order. */
  function Counts(posts: seq<Post>): (r: seq<int>)
    ensures |r| == |posts|
  {
    seq(|posts|, i requires 0 <= i < |posts| => posts[i].voteCount)
  }

  /**
   * The query's lack of a tie-break does not reach the counts: any two ranked
   * answers for the same rows show the same count at every position, so the
   * rank badges always go to the same counts.
   */
  lemma RankCountsIgnoreTies(stored: multiset<Post>, a: seq<Post>, b: seq<Post>)
    requires RankedFrom(stored, a) && RankedFrom(stored, b)
    ensures |a| == |b| && Counts(a) == Counts(b)
  {
    CountsPreservePermutation(a, b);
    DescendingPermutationsEqual(Counts(a), Counts(b));
  }

  ghost predicate Descending(x: seq<int>)
  {
    forall i, j :: 0 <= i < j < |x| ==> x[i] >= x[j]
  }

  lemma CountsConcat(a: seq<Post>, b: seq<Post>)
    ensures Counts(a + b) == Counts(a) + Counts(b)
  {
    assert forall i :: 0 <= i < |a + b| ==> Counts(a + b)[i] == (Counts(a) + Counts(b))[i];
  }

  /** Reordering the posts reorders their counts. */
  lemma {:induction false} CountsPreservePermutation(a: seq<Post>, b: seq<Post>)
    requires multiset(a) == multiset(b)
    ensures multiset(Counts(a)) == multiset(Counts(b))
    decreases |a|
  {
    if a == [] {
      assert |multiset(b)| == 0;
    } else {
      assert a[0] in multiset(b);
      var j :| 0 <= j < |b| && b[j] == a[0];
      var rest := RemoveAt(b, j);
      assert a == [a[0]] + a[1..];
      assert multiset(a[1..]) == multiset(a) - multiset{a[0]};
      CountsPreservePermutation(a[1..], rest);
      CountsConcat([a[0]], a[1..]);
      assert Counts([a[0]]) == [a[0].voteCount];
    }
  }

  /** Dropping the element at `j` drops it from the posts' multiset and its count from the counts' multiset. */
  lemma RemoveAt(b: seq<Post>, j: nat) returns (rest: seq<Post>)
    requires j < |b|
    ensures multiset(rest) == multiset(b) - multiset{b[j]}
    ensures multiset(Counts(b)) == multiset{b[j].voteCount} + multiset(Counts(rest))
  {
    rest := b[..j] + b[j + 1..];
    assert b == b[..j] + [b[j]] + b[j + 1..];
    CountsConcat(b[..j], [b[j]]);
    CountsConcat(b[..j] + [b[j]], b[j + 1..]);
    CountsConcat(b[..j], b[j + 1..]);
    assert Counts([b[j]]) == [b[j].voteCount];
  }

  /** Two descending orderings of the same integers are the same sequence. */
  lemma {:induction false} DescendingPermutationsEqual(x: seq<int>, y: seq<int>)
    requires multiset(x) == multiset(y) && Descending(x) && Descending(y)
    ensures x == y
    decreases |x|
  {
    assert |x| == |multiset(x)| == |y|;
    if x != [] {
      HeadIsMaximum(x, y[0]);
      HeadIsMaximum(y, x[0]);
      assert x[0] == y[0];
      var x', y' := x[1..], y[1..];
      assert x == [x[0]] + x';
      assert y == [y[0]] + y';
      assert multiset(x') == multiset(y') by {
        assert multiset(x) == multiset{x[0]} + multiset(x');
        assert multiset(y) == multiset{y[0]} + multiset(y');
        assert multiset(x') == multiset(x) - multiset{x[0]};
        assert multiset(y') == multiset(y) - multiset{y[0]};
      }
      DescendingTail(x);
      DescendingTail(y);
      DescendingPermutationsEqual(x', y');
    }
  }

  lemma HeadIsMaximum(x: seq<int>, e: int)
    requires Descending(x) && e in multiset(x)
    ensures x != [] && x[0] >= e
  {
    var k :| 0 <= k < |x| && x[k] == e;
    assert k == 0 || x[0] >= x[k];
  }

  lemma DescendingTail(x: seq<int>)
    requires Descending(x) && x != []
    ensures Descending(x[1..])
  {
    forall i, j | 0 <= i < j < |x| - 1 ensures x[1..][i] >= x[1..][j] {
      assert x[1..][i] == x[i + 1] && x[1..][j] == x[j + 1];
    }
  }

  lemma NonIncreasingCounts(posts: seq<Post>)
    requires NonIncreasing(posts)
    ensures Descending(Counts(posts))
  {
  }

  // ---------------------------------------------------------------------------
  // Annotation

  /** With a correctly answered votes query, a card is marked upvoted exactly when the table holds the viewer's vote for its post. */
  lemma HasUpvotedMatchesTable(posts: PostsResponse, rows: seq<string>, table: set<Vote>, userId: string)
    requires AnswersVotesQuery(rows, table, userId)
    ensures var v := Render(Some(userId), posts, VotedPostIds(Some(userId), Some(rows)));
      v.Cards? ==> forall i :: 0 <= i < |v.cards| ==>
        (v.cards[i].hasUpvoted <==> Vote(v.cards[i].post.id, userId) in table)
  {
    VotedPostIdsExact(rows, table, userId);
  }

  /** With no user, every card has no current user, is not upvoted, and ignores clicks. */
  lemma SignedOutFeed(posts: PostsResponse, votes: Option<seq<string>>)
    ensures var v := Render(None, posts, VotedPostIds(None, votes));
      v.Cards? ==> forall i :: 0 <= i < |v.cards| ==>
        && v.cards[i].currentUserId == None
        && !v.cards[i].hasUpvoted
        && !TakeCard.AcceptsClick(v.cards[i].currentUserId, false)
  {
  }
}

/**
 * The rows the front end reads and writes through its database client,
 * and the two tables it writes to. The database itself is not modelled:
 * a write is applied or not according to an outcome supplied by the caller.
 */
module Store {

  /** A row of the `posts_with_stats` view, as the feed fetches it. */
  datatype Post = Post(id: string, content: string, createdAt: string, voteCount: int, username: string)

  /** A row of the `votes` table: the pair (post_id, user_id). */
  datatype Vote = Vote(postId: string, userId: string)

  /** A row the composer inserts into the `posts` table. */
  datatype NewPost = NewPost(content: string, userId: string)

  /**
   * How an awaited write ends: it took effect (`Stored`), the promise resolved
   * with an `{ error }` value and nothing was written (`Rejected`), or the
   * promise rejected and nothing was written (`Threw`).
   */
  datatype WriteOutcome = Stored | Rejected | Threw

  /** The votes recorded for one post. */
  function VotesFor(rows: set<Vote>, postId: string): set<Vote>
  {
    set v | v in rows && v.postId == postId
  }

  /** `delete().match({ post_id, user_id })`: drop every row that matches both columns. */
  function WithoutMatch(rows: set<Vote>, postId: string, userId: string): (r: set<Vote>)
    ensures r == rows - {Vote(postId, userId)}
  {
    set v | v in rows && !(v.postId == postId && v.userId == userId)
  }

  /** Inserting a new vote for a post raises that post's count by one and leaves every other post's votes alone. */
  lemma InsertCountsOne(rows: set<Vote>, v: Vote)
    requires v !in rows
    ensures |VotesFor(rows + {v}, v.postId)| == |VotesFor(rows, v.postId)| + 1
    ensures forall q :: q != v.postId ==> VotesFor(rows + {v}, q) == VotesFor(rows, q)
  {
    assert VotesFor(rows + {v}, v.postId) == VotesFor(rows, v.postId) + {v};
  }

  /** Deleting a recorded vote lowers that post's count by one and leaves every other post's votes alone. */
  lemma DeleteCountsOne(rows: set<Vote>, v: Vote)
    requires v in rows
    ensures |VotesFor(rows - {v}, v.postId)| == |VotesFor(rows, v.postId)| - 1
    ensures forall q :: q != v.postId ==> VotesFor(rows - {v}, q) == VotesFor(rows, q)
  {
    assert VotesFor(rows, v.postId) == VotesFor(rows - {v}, v.postId) + {v};
  }

  /** The `votes` table, as a set of (post_id, user_id) pairs. */
  class VoteTable {
    var rows: set<Vote>

    constructor (rows: set<Vote>)
      ensures this.rows == rows
    {
      this.rows := rows;
    }

    /** `from('votes').insert({ post_id, user_id })` when it takes effect. */
    method Insert(v: Vote)
      modifies this
      ensures rows == old(rows) + {v}
    {
      rows := rows + {v};
    }

    /** `from('votes').delete().match({ post_id, user_id })` when it takes effect. */
    method DeleteMatch(postId: string, userId: string)
      modifies this
      ensures rows == WithoutMatch(old(rows), postId, userId)
    {
      rows := WithoutMatch(rows, postId, userId);
    }
  }

  /** The `posts` table, as the sequence of rows inserted so far. */
  class PostsTable {
    var rows: seq<NewPost>

    constructor (rows: seq<NewPost>)
      ensures this.rows == rows
    {
      this.rows := rows;
    }

    /** `from('posts').insert({ content, user_id })` when it takes effect. */
    method Insert(p: NewPost)
      modifies this
      ensures rows == old(rows) + [p]
    {
      rows := rows + [p];
    }
  }
}

/**
 * One feed card: the optimistic vote toggle with its revert, and the
 * small display rules (name, rank badge, accent line).
 */
module TakeCard {
  import opened Wrappers
  import opened Store

  /** What the feed hands to a card. */
  datatype CardProps = CardProps(post: Post, currentUserId: Option<string>, hasUpvoted: bool, index: nat)

  /** `!currentUserId` in the guard is true for a missing id and for the empty string alike. */
  predicate SignedIn(currentUserId: Option<string>)
  {
    currentUserId.Some? && currentUserId.value != ""
  }

  /** The guard of the vote handler: a click is acted on only with a user and no vote in flight. */
  predicate AcceptsClick(currentUserId: Option<string>, isVoting: bool)
  {
    SignedIn(currentUserId) && !isVoting
  }

  /** The vote button is disabled without a user. */
  predicate VoteButtonDisabled(currentUserId: Option<string>)
  {
    !SignedIn(currentUserId)
  }

  /** A disabled button means the handler would ignore the click anyway. */
  lemma DisabledButtonIgnoresClicks(currentUserId: Option<string>, isVoting: bool)
    ensures VoteButtonDisabled(currentUserId) ==> !AcceptsClick(currentUserId, isVoting)
    ensures currentUserId == Some("") ==> VoteButtonDisabled(currentUserId)
  {
  }

  // ---------------------------------------------------------------------------
  // The vote state and its transitions

  /** The part of a card's state that a vote changes and the page shows. */
  datatype VoteState = VoteState(hasUpvoted: bool, voteCount: int)

  /** The optimistic step: flip the flag and move the count by one towards the new flag. */
  function Flipped(s: VoteState): VoteState
  {
    var up := !s.hasUpvoted;
    VoteState(up, if up then s.voteCount + 1 else s.voteCount - 1)
  }

  /** The catch branch: given the flag the click aimed for, put the flag and the count back. */
  function Reverted(s: VoteState, intended: bool): VoteState
  {
    VoteState(!intended, if !intended then s.voteCount + 1 else s.voteCount - 1)
  }

  /** As written: only a thrown write is reverted; a write that resolves with an error is kept. */
  function AfterWrite(pending: VoteState, outcome: WriteOutcome): VoteState
  {
    if outcome == Threw then Reverted(pending, pending.hasUpvoted) else pending
  }

  /** Corrected: any write that did not take effect is reverted. */
  function AfterWriteChecked(pending: VoteState, outcome: WriteOutcome): VoteState
  {
    if outcome != Stored then Reverted(pending, pending.hasUpvoted) else pending
  }

  /** A whole accepted click as written: the optimistic step, then the write's outcome. */
  function Clicked(s: VoteState, outcome: WriteOutcome): VoteState
  {
    AfterWrite(Flipped(s), outcome)
  }

  /** A whole accepted click with the corrected error handling. */
  function ClickedChecked(s: VoteState, outcome: WriteOutcome): VoteState
  {
    AfterWriteChecked(Flipped(s), outcome)
  }

  /**
   * The vote table after the write of one click: the pair is inserted when the
   * click upvotes and deleted by match when it unvotes, only if the write took
   * effect; no other row changes.
   */
  function TableAfter(rows: set<Vote>, vote: Vote, upvote: bool, outcome: WriteOutcome): (r: set<Vote>)
    ensures forall w :: w != vote ==> (w in r <==> w in rows)
    ensures outcome == Stored ==> (vote in r <==> upvote)
    ensures outcome != Stored ==> r == rows
  {
    if outcome != Stored then rows
    else if upvote then rows + {vote}
    else WithoutMatch(rows, vote.postId, vote.userId)
  }

  /** A click moves the count by exactly one, up when it upvotes and down when it unvotes, with no floor at zero. */
  lemma FlipMovesCountByOne(s: VoteState)
    ensures Flipped(s).hasUpvoted == !s.hasUpvoted
    ensures Flipped(s).voteCount == s.voteCount + (if s.hasUpvoted then -1 else 1)
    ensures s == VoteState(true, 0) ==> Flipped(s).voteCount == -1
  {
  }

  /** The catch branch undoes the optimistic step exactly. */
  lemma RevertUndoesFlip(s: VoteState)
    ensures Reverted(Flipped(s), !s.hasUpvoted) == s
  {
  }

  /**
   * As written: a thrown write ends in the pre-click state; a stored write and a
   * write that resolved with an error both end in the flipped state.
   */
  lemma ClickOutcomes(s: VoteState)
    ensures Clicked(s, Threw) == s
    ensures Clicked(s, Stored) == Flipped(s)
    ensures Clicked(s, Rejected) == Flipped(s)
  {
  }

  /** Two clicks whose writes are stored restore the original flag and count. */
  lemma TwoStoredClicksRestore(s: VoteState)
    ensures Clicked(Clicked(s, Stored), Stored) == s
  {
  }

  /** The card agrees with the vote table: its flag is the pair's presence and its count the post's votes. */
  predicate Synced(s: VoteState, rows: set<Vote>, postId: string, userId: string)
  {
    && s.hasUpvoted == (Vote(postId, userId) in rows)
    && s.voteCount == |VotesFor(rows, postId)|
  }

  /** Every accepted click keeps the card in agreement with the table, unless the write resolves with an error. */
  lemma {:induction false} ClickKeepsSync(s: VoteState, rows: set<Vote>, postId: string, userId: string, outcome: WriteOutcome)
    requires Synced(s, rows, postId, userId)
    requires outcome != Rejected
    ensures Synced(Clicked(s, outcome), TableAfter(rows, Vote(postId, userId), !s.hasUpvoted, outcome), postId, userId)
  {
    var v := Vote(postId, userId);
    if outcome == Stored {
      if s.hasUpvoted {
        assert WithoutMatch(rows, postId, userId) == rows - {v};
        DeleteCountsOne(rows, v);
      } else {
        InsertCountsOne(rows, v);
      }
    }
  }

  /** As written: a write that resolves with an error leaves the card showing a vote state the table does not hold. */
  lemma RejectedClickLosesSync(s: VoteState, rows: set<Vote>, postId: string, userId: string)
    requires Synced(s, rows, postId, userId)
    ensures !Synced(Clicked(s, Rejected), TableAfter(rows, Vote(postId, userId), !s.hasUpvoted, Rejected), postId, userId)
  {
  }

  /** With the corrected handling every outcome keeps the card in agreement with the table. */
  lemma {:induction false} CheckedClickKeepsSync(s: VoteState, rows: set<Vote>, postId: string, userId: string, outcome: WriteOutcome)
    requires Synced(s, rows, postId, userId)
    ensures Synced(ClickedChecked(s, outcome), TableAfter(rows, Vote(postId, userId), !s.hasUpvoted, outcome), postId, userId)
  {
    var v := Vote(postId, userId);
    if outcome == Stored {
      assert ClickedChecked(s, outcome) == Clicked(s, outcome);
      ClickKeepsSync(s, rows, postId, userId, outcome);
    } else {
      assert ClickedChecked(s, outcome) == s;
    }
  }

  // ---------------------------------------------------------------------------
  // The card component

  class Card {
    const post: Post
    const currentUserId: Option<string>
    const index: nat
    var hasUpvoted: bool
    var voteCount: int
    var isVoting: bool
    var showFlash: bool

    /** A vote is in flight only for a signed-in user (the guard let it through). */
    ghost predicate Valid()
      reads this
    {
      isVoting ==> SignedIn(currentUserId)
    }

    function State(): VoteState
      reads this
    {
      VoteState(hasUpvoted, voteCount)
    }

    /** The state hooks start from the props. */
    constructor (props: CardProps)
      ensures post == props.post && currentUserId == props.currentUserId && index == props.index
      ensures State() == VoteState(props.hasUpvoted, props.post.voteCount)
      ensures !isVoting && !showFlash && Valid()
    {
      post := props.post;
      currentUserId := props.currentUserId;
      index := props.index;
      hasUpvoted := props.hasUpvoted;
      voteCount := props.post.voteCount;
      isVoting := false;
      showFlash := false;
    }

    /**
     * The handler up to the awaited write: ignore the click without a user or
     * while a vote is in flight; otherwise mark the vote in flight, flip the
     * flag, move the count, and raise the flash on an upvote.
     */
    method Click() returns (started: bool)
      requires Valid()
      modifies this
      ensures Valid()
      ensures started == AcceptsClick(currentUserId, old(isVoting))
      ensures !started ==> unchanged(this)
      ensures started ==> isVoting && State() == Flipped(old(State()))
      ensures started ==> showFlash == (hasUpvoted || old(showFlash))
    {
      if !SignedIn(currentUserId) || isVoting {
        return false;
      }
      isVoting := true;
      var newHasUpvoted := !hasUpvoted;
      hasUpvoted := newHasUpvoted;
      voteCount := if newHasUpvoted then voteCount + 1 else voteCount - 1;
      if newHasUpvoted {
        showFlash := true;
      }
      started := true;
    }

    /**
     * The handler from the awaited write on, as written. While a vote is in
     * flight nothing else changes the flag, so the current flag is the one the
     * click aimed for. The write's returned value is not inspected: only a
     * thrown write is reverted. The vote is no longer in flight on every path.
     */
    method Settle(table: VoteTable, outcome: WriteOutcome)
      requires Valid() && isVoting
      modifies this, table
      ensures Valid() && !isVoting && showFlash == old(showFlash)
      ensures State() == AfterWrite(old(State()), outcome)
      ensures table.rows == TableAfter(old(table.rows), Vote(post.id, currentUserId.value), old(hasUpvoted), outcome)
    {
      var newHasUpvoted := hasUpvoted;
      WriteVote(table, newHasUpvoted, outcome);
      if outcome == Threw {
        hasUpvoted := !newHasUpvoted;
        voteCount := if !newHasUpvoted then voteCount + 1 else voteCount - 1;
      }
      isVoting := false;
    }

    /** The handler from the awaited write on, corrected to revert on a returned error as well. */
    method SettleChecked(table: VoteTable, outcome: WriteOutcome)
      requires Valid() && isVoting
      modifies this, table
      ensures Valid() && !isVoting && showFlash == old(showFlash)
      ensures State() == AfterWriteChecked(old(State()), outcome)
      ensures table.rows == TableAfter(old(table.rows), Vote(post.id, currentUserId.value), old(hasUpvoted), outcome)
    {
      var newHasUpvoted := hasUpvoted;
      WriteVote(table, newHasUpvoted, outcome);
      if outcome != Stored {
        hasUpvoted := !newHasUpvoted;
        voteCount := if !newHasUpvoted then voteCount + 1 else voteCount - 1;
      }
      isVoting := false;
    }

    /** The write itself: insert the pair when upvoting, delete by match when not; only when it takes effect. */
    method WriteVote(table: VoteTable, upvote: bool, outcome: WriteOutcome)
      requires SignedIn(currentUserId)
      modifies table
      ensures table.rows == TableAfter(old(table.rows), Vote(post.id, currentUserId.value), upvote, outcome)
    {
      if outcome == Stored {
        if upvote {
          table.Insert(Vote(post.id, currentUserId.value));
        } else {
          table.DeleteMatch(post.id, currentUserId.value);
        }
      }
    }

    /** One click handled to the end, as written. */
    method HandleVote(table: VoteTable, outcome: WriteOutcome)
      requires Valid()
      modifies this, table
      ensures Valid()
      ensures !AcceptsClick(currentUserId, old(isVoting)) ==> unchanged(this) && unchanged(table)
      ensures AcceptsClick(currentUserId, old(isVoting)) ==>
        && !isVoting
        && State() == Clicked(old(State()), outcome)
        && showFlash == (!old(hasUpvoted) || old(showFlash))
        && table.rows == TableAfter(old(table.rows), Vote(post.id, currentUserId.value), !old(hasUpvoted), outcome)
    {
      var started := Click();
      if started {
        Settle(table, outcome);
      }
    }

    /** One click handled to the end, with the corrected error handling. */
    method HandleVoteChecked(table: VoteTable, outcome: WriteOutcome)
      requires Valid()
      modifies this, table
      ensures Valid()
      ensures !AcceptsClick(currentUserId, old(isVoting)) ==> unchanged(this) && unchanged(table)
      ensures AcceptsClick(currentUserId, old(isVoting)) ==>
        && !isVoting
        && State() == ClickedChecked(old(State()), outcome)
        && showFlash == (!old(hasUpvoted) || old(showFlash))
        && table.rows == TableAfter(old(table.rows), Vote(post.id, currentUserId.value), !old(hasUpvoted), outcome)
    {
      var started := Click();
      if started {
        SettleChecked(table, outcome);
      }
    }
  }

  // ---------------------------------------------------------------------------
  // Display rules

  /** `post.username || 'ANON'`: the name shown is never empty. */
  function DisplayName(username: string): (r: string)
    ensures r != ""
    ensures username == "" ==> r == "ANON"
    ensures username != "" ==> r == username
  {
    if username == "" then "ANON" else username
  }

  datatype Accent = Pink | Cyan | Violet | White

  datatype Badge = Badge(rank: nat, colour: Accent)

  /** The rank badge `#index+1`, shown on the first three cards, each in its own colour. */
  function RankBadge(index: nat): (r: Option<Badge>)
    ensures r.Some? <==> index < 3
    ensures r.Some? ==> 1 <= r.value.rank <= 3 && r.value.rank == index + 1
    ensures r.Some? ==> r.value.colour != White
    ensures index == 0 ==> r == Some(Badge(1, Pink))
    ensures index == 1 ==> r == Some(Badge(2, Cyan))
    ensures index == 2 ==> r == Some(Badge(3, Violet))
  {
    if index == 0 then Some(Badge(1, Pink))
    else if index == 1 then Some(Badge(2, Cyan))
    else if index == 2 then Some(Badge(3, Violet))
    else None
  }

  /** The "TOP TAKE" rank goes to the first card only. */
  predicate ShowsTopTake(index: nat)
  {
    index == 0
  }

  /** The first card is the one with both the "TOP TAKE" label and the #1 badge. */
  lemma TopTakeIsFirstBadge(index: nat)
    ensures ShowsTopTake(index) <==> RankBadge(index) == Some(Badge(1, Pink))
    ensures ShowsTopTake(index) ==> RankBadge(index).Some?
  {
  }

  /** `Math.min(100, (voteCount / 10) * 100)`: ten percent per vote, capped at 100. */
  function AccentWidth(voteCount: int): (r: real)
    ensures r <= 100.0
    ensures r == (if voteCount >= 10 then 100 else 10 * voteCount) as real
  {
    var w := (voteCount as real / 10.0) * 100.0;
    if w < 100.0 then w else 100.0
  }

  /** The accent line's colour: pink for the first card, cyan for the second, white otherwise. */
  function AccentColour(index: nat): (r: Accent)
    ensures r != Violet
    ensures index < 2 ==> RankBadge(index).Some? && r == RankBadge(index).value.colour
  {
    if index == 0 then Pink else if index == 1 then Cyan else White
  }
}

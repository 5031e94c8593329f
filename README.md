# techtakes: votes, feed and composer

A model of the three client components of the techtakes front end that carry
logic: the post card's optimistic vote toggle (`take-card.tsx`), the feed that
lists posts by vote count and marks the viewer's votes (`feed.tsx`), and the
composer that validates and submits a new post (`create-take.tsx`).

- `wrappers.dfy` — `Option`.
- `store.dfy` (module `Store`) — the rows the components read and write
  (`Post`, `Vote`, `NewPost`), how an awaited database write ends
  (`WriteOutcome`: `Stored`, `Rejected` for a call that resolves with an
  `{ error }`, `Threw` for a rejected promise), and the two written tables as
  classes: `VoteTable` (a set of `(post_id, user_id)` pairs) and `PostsTable`.
- `take_card.dfy` (module `TakeCard`) — the vote handler as a `Card` class
  whose fields are the component's state hooks (`hasUpvoted`, `voteCount`,
  `isVoting`, `showFlash`). `Click` is the handler up to the awaited write and
  `Settle` the rest, so a click arriving while a vote is in flight can be
  expressed; `HandleVote` runs both. Each method's new state is given by pure
  transition functions (`Flipped`, `Reverted`, `AfterWrite`, `TableAfter`) about
  which the lemmas are stated. The display rules (name, rank badge, accent
  line) are functions.
- `feed.dfy` (module `Feed`) — the viewer's voted-post set built by a loop
  (`CollectUserVotes`), the pure view (`Render`, `Annotate`), and the ranking
  contract of the posts query (`RankedFrom`: a permutation of the stored rows
  with non-increasing counts, ties in no particular order).
- `create_take.dfy` (module `CreateTake`) — ECMAScript `trim`, the row a
  submit inserts, the `Composer` class (`content`, `isSubmitting`), and the
  counter and progress-bar thresholds.

The database, the authentication service and the network are not modelled:
the fetched posts, the answer of the votes query, the signed-in user and each
write's outcome are parameters. A write whose outcome is `Rejected` or `Threw`
is taken to have changed no row.

## Model

| member | source | states |
|---|---|---|
| `Store.WithoutMatch` | src/components/take-card.tsx:55-58 | deleting by match on both columns removes exactly the one pair and no other row |
| `Store.VoteTable.Insert` | src/components/take-card.tsx:50-53 | a stored insert adds the pair to the vote table |
| `Store.VoteTable.DeleteMatch` | src/components/take-card.tsx:55-58 | a stored delete leaves the table without the matching rows |
| `Store.PostsTable.Insert` | src/components/create-take.tsx:25-28 | a stored insert appends the row to the posts table |
| `TakeCard.DisabledButtonIgnoresClicks` | src/components/take-card.tsx:88 | the button is disabled without a user (also for an empty id), and then the handler's guard would ignore the click |
| `TakeCard.TableAfter` | src/components/take-card.tsx:49-59 | after a stored write the pair is present iff the click upvoted; no other row changes under any outcome; a write that did not take effect changes nothing |
| `TakeCard.FlipMovesCountByOne` | src/components/take-card.tsx:39-41 | a click flips the flag and moves the count by +1 when upvoting and -1 when unvoting, down to -1 from 0 (no floor) |
| `TakeCard.RevertUndoesFlip` | src/components/take-card.tsx:60-62 | the catch branch restores exactly the pre-click flag and count |
| `TakeCard.ClickOutcomes` | src/components/take-card.tsx:48-65 | a thrown write ends in the pre-click state; a stored write and a write that resolves with an error both keep the flipped state |
| `TakeCard.TwoStoredClicksRestore` | src/components/take-card.tsx:39-41 | two clicks whose writes are stored restore the original flag and count |
| `TakeCard.ClickKeepsSync` | src/components/take-card.tsx:39-62 | if the card agreed with the table (flag = pair present, count = the post's votes), it still agrees after a click whose write was stored or threw |
| `TakeCard.RejectedClickLosesSync` | src/components/take-card.tsx:48-62 | as written, a write that resolves with an error always leaves the card's flag disagreeing with the table |
| `TakeCard.CheckedClickKeepsSync` | src/components/take-card.tsx:48-62 | with a returned error treated as a failure, every outcome keeps the card in agreement with the table |
| `TakeCard.Card.constructor` | src/components/take-card.tsx:29-32 | the state starts from the props' flag and count, with no vote in flight and no flash |
| `TakeCard.Card.Click` | src/components/take-card.tsx:35-46 | without a user or with a vote in flight nothing changes; otherwise the vote is in flight, the state is flipped and an upvote raises the flash |
| `TakeCard.Card.Settle` | src/components/take-card.tsx:48-65 | the table changes as `TableAfter` says, the state is reverted only on a thrown write, and the vote is no longer in flight |
| `TakeCard.Card.WriteVote` | src/components/take-card.tsx:49-59 | the write inserts the pair when upvoting and deletes by match otherwise, only when it takes effect |
| `TakeCard.Card.HandleVote` | src/components/take-card.tsx:35-66 | an ignored click changes neither the card nor the table; an accepted one ends with no vote in flight, the state `Clicked` gives and the table `TableAfter` gives |
| `TakeCard.Card.SettleChecked` | src/components/take-card.tsx:48-65 | as `Settle`, but also reverting when the write resolves with an error |
| `TakeCard.Card.HandleVoteChecked` | src/components/take-card.tsx:35-66 | as `HandleVote`, with the corrected error handling |
| `TakeCard.SignedIn` | src/components/take-card.tsx:36 | a user id counts as present only when it is given and non-empty, as `!currentUserId` treats the empty string as absent |
| `TakeCard.AcceptsClick` | src/components/take-card.tsx:36 | the handler's guard: a signed-in user and no vote in flight |
| `TakeCard.VoteButtonDisabled` | src/components/take-card.tsx:88 | the button is disabled exactly when no user is signed in; `DisabledButtonIgnoresClicks` ties it to the guard |
| `TakeCard.Flipped` | src/components/take-card.tsx:39-41 | the optimistic step; `FlipMovesCountByOne` and `TwoStoredClicksRestore` state its effect |
| `TakeCard.Reverted` | src/components/take-card.tsx:61-62 | the catch branch computed from the intended flag; `RevertUndoesFlip` states that it undoes the flip |
| `TakeCard.AfterWrite` | src/components/take-card.tsx:48-62 | as written, only a thrown write reverts; `ClickOutcomes` states the three cases |
| `TakeCard.Clicked` | src/components/take-card.tsx:39-62 | a whole accepted click as written; `ClickOutcomes`, `ClickKeepsSync` and `RejectedClickLosesSync` state its effect |
| `TakeCard.AfterWriteChecked` | src/components/take-card.tsx:48-62 | the corrected handling: every write that did not take effect reverts |
| `TakeCard.ClickedChecked` | src/components/take-card.tsx:39-62 | a whole accepted click with the corrected handling; `CheckedClickKeepsSync` states its effect |
| `TakeCard.ShowsTopTake` | src/components/take-card.tsx:152 | "TOP TAKE" is shown at index 0 only; `TopTakeIsFirstBadge` ties it to the #1 badge |
| `TakeCard.DisplayName` | src/components/take-card.tsx:68 | the shown name is the username, or 'ANON' when it is empty; never empty |
| `TakeCard.RankBadge` | src/components/take-card.tsx:129-138 | a badge appears iff the index is below 3, labelled index+1, pink for #1, cyan for #2 and violet for #3 |
| `TakeCard.TopTakeIsFirstBadge` | src/components/take-card.tsx:152-156 | "TOP TAKE" is shown exactly on the card with the #1 badge |
| `TakeCard.AccentWidth` | src/components/take-card.tsx:169 | the accent width is 10 percent per vote, capped at 100 |
| `TakeCard.AccentColour` | src/components/take-card.tsx:170-174 | the first two cards' accents match their badge colours; no accent is violet |
| `Feed.VotedPostIds` | src/components/feed.tsx:24-33 | the viewer's voted-post set: the returned post ids for a signed-in user with data, empty otherwise; `VotedPostIdsExact` ties it to the table |
| `Feed.CollectUserVotes` | src/components/feed.tsx:24-33 | the loop builds the set of returned post ids for a signed-in user with data, and the empty set otherwise |
| `Feed.VotedPostIdsExact` | src/components/feed.tsx:24-33 | when the votes query is answered from the table, the set is exactly the post ids of that user's votes |
| `Feed.Annotate` | src/components/feed.tsx:56-63 | one card per post, in order, with the viewer's id, the membership flag and the position as index |
| `Feed.Render` | src/components/feed.tsx:13-66 | an error gives only the error state; no data or no posts gives only the empty state; otherwise one card per post |
| `Feed.LoadFeed` | src/components/feed.tsx:4-67 | the component renders the view for the set the votes loop builds |
| `Feed.RankedCards` | src/components/feed.tsx:8-11 | for a ranked answer the cards show a permutation of the stored posts with non-increasing counts, at indices 0..n-1 |
| `Feed.TopCardHoldsMaximum` | src/components/feed.tsx:11 | the first card's count is at least every stored post's count |
| `Feed.RankCountsIgnoreTies` | src/components/feed.tsx:11 | any two ranked answers for the same rows have the same count at every position, so the badges go to the same counts whatever the tie order |
| `Feed.HasUpvotedMatchesTable` | src/components/feed.tsx:24-63 | with a correct votes answer, a card is marked upvoted iff the table holds the viewer's vote for its post |
| `Feed.SignedOutFeed` | src/components/feed.tsx:60-61 | with no user every card has no current user, is not upvoted and ignores clicks |
| `CreateTake.IsWhitespace` | src/components/create-take.tsx:26 | the code points `trim` removes: ECMAScript's WhiteSpace and LineTerminator characters |
| `CreateTake.TrimStart` | src/components/create-take.tsx:26 | a suffix of the text that starts with a non-whitespace character, everything cut off being whitespace |
| `CreateTake.TrimEnd` | src/components/create-take.tsx:26 | a prefix of the text that ends with a non-whitespace character, everything cut off being whitespace |
| `CreateTake.Trim` | src/components/create-take.tsx:21 | a slice of the text, everything cut off at either end being whitespace, with no whitespace at either end of its own; empty iff the text is all whitespace |
| `CreateTake.TrimIdempotent` | src/components/create-take.tsx:26 | trimming trimmed text changes nothing, so the stored content is already trimmed |
| `CreateTake.SubmittedRow` | src/components/create-take.tsx:21-28 | a row exists iff there is a user and a non-whitespace character; it is exactly the trimmed text with the user's id, so its content is non-empty, trimmed and no longer than the text |
| `CreateTake.SubmitDisabled` | src/components/create-take.tsx:109 | the button is disabled exactly when the trimmed text is empty or a submit is in flight |
| `CreateTake.Renders` | src/components/create-take.tsx:39 | the composer renders only with a user |
| `CreateTake.ControlsMatchHandler` | src/components/create-take.tsx:109 | an enabled button on a rendered form submits a row; a button disabled by its text, or no form (no user, line 39), means nothing is inserted |
| `CreateTake.Composer.constructor` | src/components/create-take.tsx:10-11 | the text box starts empty with no submit in flight |
| `CreateTake.Composer.Edit` | src/components/create-take.tsx:64-69 | typing replaces the text, which stays within the 280 cap |
| `CreateTake.Composer.BeginSubmit` | src/components/create-take.tsx:19-23 | the guard lets through exactly the `SubmittedRow` cases, changing nothing otherwise; then the submit is in flight |
| `CreateTake.Composer.FinishSubmit` | src/components/create-take.tsx:24-36 | a stored insert appends the row and clears the text; a returned or thrown error keeps the text and the table; the submit is no longer in flight |
| `CreateTake.Composer.HandleSubmit` | src/components/create-take.tsx:19-37 | an empty trimmed text or no user changes nothing; otherwise the table and the text end as `FinishSubmit` says |
| `CreateTake.CharPercent` | src/components/create-take.tsx:17 | the character count as a percentage of 280; `CharPercentBounded` bounds it |
| `CreateTake.Progress` | src/components/create-take.tsx:87-91 | red above 90 percent, orange above 75, the gradient otherwise; `ProgressThresholds` restates it in characters |
| `CreateTake.CharPercentBounded` | src/components/create-take.tsx:16-17 | under the 280 cap the percentage is within 0..100 |
| `CreateTake.ProgressThresholds` | src/components/create-take.tsx:87-91 | the bar is red iff over 252 characters, orange iff 211..252, the gradient otherwise |
| `CreateTake.Counter` | src/components/create-take.tsx:101 | the counter is danger iff over 260, warning iff 221..260, neutral otherwise |
| `CreateTake.DangerCounterHasRedBar` | src/components/create-take.tsx:87-101 | a danger counter always comes with a red bar |

## Findings

| source | as written | input that shows it | evidently intended | confidence | as-written member | corrected member |
|---|---|---|---|---|---|---|
| src/components/take-card.tsx:48-62 | the `{ error }` returned by the insert or delete is never inspected, so the revert runs only when the call throws | a click whose write resolves with an error (for example a rejected row) and no exception: the card shows the flipped flag and count while the table is unchanged | treat a returned error as a failure and revert, as the composer does by rethrowing it (src/components/create-take.tsx:29) | medium, not executed | `TakeCard.RejectedClickLosesSync`, `TakeCard.Card.HandleVote` | `TakeCard.CheckedClickKeepsSync`, `TakeCard.Card.HandleVoteChecked` |

## Left out

- The database: the `posts_with_stats` view, how it counts votes, how it sorts, and any unique constraint on votes. Query answers and write outcomes are parameters; a `Rejected` or `Threw` write is taken to have written nothing.
- A specified tie-break for equal vote counts: the code gives none, so the model requires only non-increasing counts and proves the counts do not depend on the tie order.
- A floor at zero for the vote count: the code has none, and the model keeps none.
- The flash timer (`setTimeout`, take-card.tsx:45): `showFlash` is raised but its reset after 400 ms is not modelled.
- Relative times (`formatDistanceToNow`): a date library.
- Animation, class names and colours other than the rank badges, accents, counter and progress bar.
- `router.refresh()` and `console.error` in the composer; `e.preventDefault()`.
- React rendering: state updates are taken as applied at once, so a second click between `setIsVoting(true)` and the next render (which would still see the old `isVoting`) is not modelled; two clients voting at once are not modelled either.
- `TakeCard.AccentWidth`: computed in exact arithmetic; the floating-point result of `(voteCount / 10) * 100` can differ in the last bits for some negative counts.
- `CreateTake.CharPercentBounded`, `CreateTake.ProgressThresholds`: the percentage is computed in exact arithmetic, not in floating point.
- Lengths count the characters of the model's string; the source counts UTF-16 code units, which agree outside the astral planes.
- The `focus` and `blur` state and the bottom bar it shows; the e-mail prefix in the header.
- Authentication and login pages, the news widget and script, and all other presentation components are not part of this model.

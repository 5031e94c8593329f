/**
 * The composer: which new post a submit inserts, what the text box holds
 * afterwards, and the length-dependent styling.
 */
module CreateTake {
  import opened Wrappers
  import opened Store

  /** The text box's `maxLength`. */
  const MaxLength: nat := 280

  // ---------------------------------------------------------------------------
  // String.prototype.trim

  /** ECMAScript's WhiteSpace and LineTerminator code points, which `trim` removes. */
  predicate IsWhitespace(c: char)
  {
    || c == '\t' || c == '\n' || c == '\U{000B}' || c == '\U{000C}' || c == '\r' || c == ' '
    || c == '\U{00A0}' || c == '\U{1680}' || ('\U{2000}' <= c <= '\U{200A}')
    || c == '\U{2028}' || c == '\U{2029}' || c == '\U{202F}' || c == '\U{205F}'
    || c == '\U{3000}' || c == '\U{FEFF}'
  }

  /** Neither end of the text is whitespace. */
  predicate NoOuterWhitespace(s: string)
  {
    s == [] || (!IsWhitespace(s[0]) && !IsWhitespace(s[|s| - 1]))
  }

  /** The text without its leading whitespace: a suffix of it, all of whose cut-off part is whitespace. */
  function TrimStart(s: string): (r: string)
    ensures |r| <= |s| && r == s[|s| - |r|..]
    ensures forall i :: 0 <= i < |s| - |r| ==> IsWhitespace(s[i])
    ensures r != [] ==> !IsWhitespace(r[0])
  {
    if s != [] && IsWhitespace(s[0]) then TrimStart(s[1..]) else s
  }

  /** The text without its trailing whitespace: a prefix of it, all of whose cut-off part is whitespace. */
  function TrimEnd(s: string): (r: string)
    ensures |r| <= |s| && r == s[..|r|]
    ensures forall i :: |r| <= i < |s| ==> IsWhitespace(s[i])
    ensures r != [] ==> !IsWhitespace(r[|r| - 1])
  {
    if s != [] && IsWhitespace(s[|s| - 1]) then TrimEnd(s[..|s| - 1]) else s
  }

  /**
   * `content.trim()`: the text with whitespace removed at both ends. It is a
   * slice of the text, has no whitespace at either end, and is empty exactly
   * when the text is all whitespace.
   */
  function Trim(s: string): (r: string)
    ensures |r| <= |s|
    ensures NoOuterWhitespace(r)
    ensures r == [] <==> forall i :: 0 <= i < |s| ==> IsWhitespace(s[i])
    ensures exists k ::
      && 0 <= k <= |s| - |r| && r == s[k..][..|r|]
      && (forall i :: 0 <= i < k ==> IsWhitespace(s[i]))
      && (forall i :: k + |r| <= i < |s| ==> IsWhitespace(s[i]))
  {
    var t := TrimStart(s);
    var r := TrimEnd(t);
    var k := |s| - |t|;
    assert r == s[k..][..|r|];
    assert r != [] ==> !IsWhitespace(r[0]) by {
      if r != [] { assert r[0] == t[0]; }
    }
    r
  }

  /** Trimming is idempotent. */
  lemma TrimIdempotent(s: string)
    ensures Trim(Trim(s)) == Trim(s)
  {
    var r := Trim(s);
    assert TrimStart(r) == r;
    assert TrimEnd(r) == r;
  }

  // ---------------------------------------------------------------------------
  // Submitting

  /**
   * The row a submit inserts: none when the trimmed text is empty or there is
   * no user; otherwise the trimmed text, non-empty and without outer
   * whitespace, and the user's id.
   */
  function SubmittedRow(content: string, user: Option<string>): (r: Option<NewPost>)
    ensures r.Some? <==> user.Some? && exists i :: 0 <= i < |content| && !IsWhitespace(content[i])
    ensures r.Some? ==> r.value == NewPost(Trim(content), user.value)
    ensures r.Some? ==>
      && r.value.content != []
      && NoOuterWhitespace(r.value.content)
      && Trim(r.value.content) == r.value.content
      && |r.value.content| <= |content|
  {
    var t := Trim(content);
    if t == [] || user.None? then None
    else
      TrimIdempotent(content);
      Some(NewPost(t, user.value))
  }

  /** The submit button is disabled when the trimmed text is empty or a submit is in flight. */
  predicate SubmitDisabled(content: string, isSubmitting: bool)
  {
    Trim(content) == [] || isSubmitting
  }

  /** The composer renders nothing without a user. */
  predicate Renders(user: Option<string>)
  {
    user.Some?
  }

  /**
   * The controls agree with the handler: an enabled button on a rendered form
   * submits a row; a button disabled by its text, or a form that does not
   * render, stands for a submit that inserts nothing.
   */
  lemma ControlsMatchHandler(content: string, isSubmitting: bool, user: Option<string>)
    ensures Renders(user) && !SubmitDisabled(content, isSubmitting) ==> SubmittedRow(content, user).Some?
    ensures SubmitDisabled(content, false) ==> SubmittedRow(content, user).None?
    ensures !Renders(user) ==> SubmittedRow(content, user).None?
  {
  }

  class Composer {
    const user: Option<string>
    var content: string
    var isSubmitting: bool

    /** The text box never holds more than its `maxLength`. */
    ghost predicate Valid()
      reads this
    {
      |content| <= MaxLength
    }

    constructor (user: Option<string>)
      ensures this.user == user && content == [] && !isSubmitting && Valid()
    {
      this.user := user;
      content := [];
      isSubmitting := false;
    }

    /** `onChange`: the browser delivers at most `maxLength` characters. */
    method Edit(text: string)
      requires |text| <= MaxLength
      modifies this
      ensures Valid() && content == text && isSubmitting == old(isSubmitting)
    {
      content := text;
    }

    /** The handler up to the awaited insert: the guard, then the submit is marked in flight. */
    method BeginSubmit() returns (row: Option<NewPost>)
      requires Valid()
      modifies this
      ensures Valid() && row == SubmittedRow(old(content), user)
      ensures row.None? ==> unchanged(this)
      ensures row.Some? ==> isSubmitting && content == old(content)
    {
      row := SubmittedRow(content, user);
      if row.None? {
        return;
      }
      isSubmitting := true;
    }

    /**
     * The handler from the awaited insert on: a returned error is rethrown, so
     * only a stored insert clears the text; the submit is no longer in flight
     * on every path.
     */
    method FinishSubmit(table: PostsTable, row: NewPost, outcome: WriteOutcome)
      requires Valid()
      modifies this, table
      ensures Valid() && !isSubmitting
      ensures table.rows == if outcome == Stored then old(table.rows) + [row] else old(table.rows)
      ensures content == if outcome == Stored then [] else old(content)
    {
      if outcome == Stored {
        table.Insert(row);
        content := [];
      }
      isSubmitting := false;
    }

    /** One submit handled to the end. */
    method HandleSubmit(table: PostsTable, outcome: WriteOutcome)
      requires Valid()
      modifies this, table
      ensures Valid()
      ensures SubmittedRow(old(content), user).None? ==> unchanged(this) && unchanged(table)
      ensures SubmittedRow(old(content), user).Some? ==>
        && !isSubmitting
        && table.rows == (if outcome == Stored then old(table.rows) + [SubmittedRow(old(content), user).value] else old(table.rows))
        && content == (if outcome == Stored then [] else old(content))
    {
      var row := BeginSubmit();
      if row.Some? {
        FinishSubmit(table, row.value, outcome);
      }
    }
  }

  // ---------------------------------------------------------------------------
  // Length-dependent styling

  /** `(charCount / 280) * 100`, in exact arithmetic. */
  function CharPercent(charCount: nat): real
  {
    (charCount as real / MaxLength as real) * 100.0
  }

  /** Within the text box's cap the percentage stays within 0..100. */
  lemma CharPercentBounded(content: string)
    requires |content| <= MaxLength
    ensures 0.0 <= CharPercent(|content|) <= 100.0
  {
  }

  datatype ProgressColour = Red | Orange | Gradient

  /** The progress bar: red above 90 percent, orange above 75 percent, the gradient otherwise. */
  function Progress(charCount: nat): ProgressColour
  {
    if CharPercent(charCount) > 90.0 then Red
    else if CharPercent(charCount) > 75.0 then Orange
    else Gradient
  }

  /** The percentage thresholds in whole characters: over 252 is red, 211 to 252 orange. */
  lemma ProgressThresholds(charCount: nat)
    ensures Progress(charCount) == Red <==> charCount > 252
    ensures Progress(charCount) == Orange <==> 210 < charCount <= 252
    ensures Progress(charCount) == Gradient <==> charCount <= 210
  {
  }

  datatype CounterStyle = Danger | Warning | Neutral

  /** The counter's style: danger above 260 characters, warning from 221 to 260, neutral otherwise. */
  function Counter(charCount: nat): (r: CounterStyle)
    ensures r == Danger <==> charCount > 260
    ensures r == Warning <==> 220 < charCount <= 260
    ensures r == Neutral <==> charCount <= 220
  {
    if charCount > 260 then Danger else if charCount > 220 then Warning else Neutral
  }

  /** Near the cap the two indicators agree: a danger counter comes with a red bar. */
  lemma DangerCounterHasRedBar(charCount: nat)
    requires Counter(charCount) == Danger
    ensures Progress(charCount) == Red
  {
    ProgressThresholds(charCount);
  }
}

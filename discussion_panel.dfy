/** The project discussion: posting a comment, the mention tokeniser that
    `renderMentions` runs on each comment's text, and the comment ages. */
module DiscussionPanel {
  import opened Collections
  import opened Text
  import opened Elapsed

  datatype Author = Author(id: string, name: string, email: string, avatar: Option<string>)
  datatype Attachment = Attachment(id: string, name: string, mimeType: string, url: string)

  /** A comment; absent `replies` and `attachments` are empty sequences and
      `createdAt` is a millisecond timestamp. */
  datatype Comment = Comment(
    id: string,
    text: string,
    author: Author,
    createdAt: int,
    replies: seq<Comment>,
    likes: Option<nat>,
    attachments: seq<Attachment>)

  const CurrentAuthor := Author("current-user", "Current User", "user@company.com", None)

  /** `handleSubmitComment` on the comment list, with the fresh id and the
      clock reading as parameters. */
  function SubmitComment(comments: seq<Comment>, text: string, id: string, now: int): seq<Comment>
  {
    if Trim(text) == [] then comments
    else [Comment(id, text, CurrentAuthor, now, [], Some(0), [])] + comments
  }

  /** A blank input posts nothing; otherwise exactly one comment is put in
      front, with the untrimmed text, the fresh id, the clock reading, no
      likes, replies or attachments, and the old list follows. */
  lemma SubmitCommentSpec(comments: seq<Comment>, text: string, id: string, now: int)
    ensures Trim(text) == [] ==> SubmitComment(comments, text, id, now) == comments
    ensures Trim(text) != [] ==>
              var r := SubmitComment(comments, text, id, now);
              |r| == |comments| + 1 && r[1..] == comments &&
              r[0].text == text && r[0].likes == Some(0) && r[0].author == CurrentAuthor && r[0].id == id &&
              r[0].createdAt == now && r[0].replies == [] && r[0].attachments == []
    ensures (forall i :: 0 <= i < |text| ==> IsSpace(text[i])) <==>
            SubmitComment(comments, text, id, now) == comments
  {
    TrimEmptyIffBlank(text);
    if Trim(text) != [] {
      assert |SubmitComment(comments, text, id, now)| == |comments| + 1;
    }
  }

  /** `formatTimeAgo(date)` against the clock reading `now`. */
  function FormatTimeAgo(date: int, now: int): Label
  {
    TimeAgo(DiffInMinutes(now - date))
  }

  // ------------------------------------------------------------ mentions

  /** `\w`: ASCII letters, digits and the underscore. */
  predicate IsWordChar(c: char)
  {
    'A' <= c <= 'Z' || 'a' <= c <= 'z' || '0' <= c <= '9' || c == '_'
  }

  /** The length of the run of word characters starting at `i`. */
  function WordRun(s: string, i: nat): (n: nat)
    requires i <= |s|
    ensures i + n <= |s|
    ensures forall j :: i <= j < i + n ==> IsWordChar(s[j])
    ensures i + n < |s| ==> !IsWordChar(s[i + n])
    decreases |s| - i
  {
    if i < |s| && IsWordChar(s[i]) then 1 + WordRun(s, i + 1) else 0
  }

  /** `@\w+` matches at `q`: an `@` followed by at least one word character. */
  predicate MatchAt(s: string, q: nat)
  {
    q + 1 < |s| && s[q] == '@' && IsWordChar(s[q + 1])
  }

  /** Where the greedy match at `q` ends. */
  function MatchEnd(s: string, q: nat): (e: nat)
    requires MatchAt(s, q)
    ensures q + 2 <= e <= |s|
    ensures e < |s| ==> !IsWordChar(s[e])
  {
    q + 1 + WordRun(s, q + 1)
  }

  /** A captured mention: `@` and one or more word characters. */
  predicate IsMention(t: string)
  {
    |t| >= 2 && t[0] == '@' && forall j :: 1 <= j < |t| ==> IsWordChar(t[j])
  }

  /** Plain text between mentions: nowhere an `@` followed by a word
      character. */
  predicate NoMention(t: string)
  {
    forall j :: 0 <= j < |t| - 1 ==> !(t[j] == '@' && IsWordChar(t[j + 1]))
  }

  /** The split of `s[p..]` that `split(/(@\w+)/)` produces, having already
      tried (and failed) to match at the positions `p` up to `q`. */
  function SplitFrom(s: string, p: nat, q: nat): (parts: seq<string>)
    requires p <= q <= |s|
    ensures |parts| % 2 == 1
    decreases |s| - q
  {
    if q == |s| then [s[p..]]
    else if MatchAt(s, q) then
      var e := MatchEnd(s, q);
      [s[p..q], s[q..e]] + SplitFrom(s, e, e)
    else SplitFrom(s, p, q + 1)
  }

  /** `text.split(/(@\w+)/)`: text, mention, text, ..., text. */
  function MentionParts(text: string): (parts: seq<string>)
    ensures |parts| % 2 == 1
  {
    SplitFrom(text, 0, 0)
  }

  /** The parts concatenate back to the text after `p`. */
  lemma {:induction false} SplitFromConcat(s: string, p: nat, q: nat)
    requires p <= q <= |s|
    ensures Concat(SplitFrom(s, p, q)) == s[p..]
    decreases |s| - q
  {
    if q == |s| {
    } else if MatchAt(s, q) {
      var e := MatchEnd(s, q);
      SplitFromConcat(s, e, e);
      ConcatAppend([s[p..q], s[q..e]], SplitFrom(s, e, e));
      assert s[p..] == s[p..q] + s[q..e] + s[e..];
    } else {
      SplitFromConcat(s, p, q + 1);
    }
  }

  /** The shape of the split: odd-indexed parts are mentions, each ending
      where the word characters stop, and even-indexed parts hold none. */
  lemma {:induction false} SplitFromShape(s: string, p: nat, q: nat)
    requires p <= q <= |s|
    requires forall j :: p <= j < q ==> !MatchAt(s, j)
    ensures forall k :: 0 <= k < |SplitFrom(s, p, q)| && k % 2 == 1 ==> IsMention(SplitFrom(s, p, q)[k])
    ensures forall k :: 0 <= k < |SplitFrom(s, p, q)| && k % 2 == 0 ==> NoMention(SplitFrom(s, p, q)[k])
    ensures forall k :: 0 <= k < |SplitFrom(s, p, q)| - 1 && k % 2 == 1 ==>
              SplitFrom(s, p, q)[k + 1] == [] || !IsWordChar(SplitFrom(s, p, q)[k + 1][0])
    ensures SplitFrom(s, p, q)[0] != [] ==> p < |s| && SplitFrom(s, p, q)[0][0] == s[p]
    decreases |s| - q
  {
    var parts := SplitFrom(s, p, q);
    if q == |s| {
      assert NoMention(s[p..]) by {
        forall j | 0 <= j < |s[p..]| - 1 ensures !(s[p..][j] == '@' && IsWordChar(s[p..][j + 1])) {
          assert !MatchAt(s, p + j);
        }
      }
    } else if MatchAt(s, q) {
      var e := MatchEnd(s, q);
      SplitFromShape(s, e, e);
      var rest := SplitFrom(s, e, e);
      assert parts == [s[p..q], s[q..e]] + rest;
      assert NoMention(s[p..q]) by {
        forall j | 0 <= j < |s[p..q]| - 1 ensures !(s[p..q][j] == '@' && IsWordChar(s[p..q][j + 1])) {
          assert !MatchAt(s, p + j);
        }
      }
      assert IsMention(s[q..e]);
      forall k | 2 <= k < |parts|
        ensures parts[k] == rest[k - 2]
      {
      }
      forall k | 0 <= k < |parts| - 1 && k % 2 == 1
        ensures parts[k + 1] == [] || !IsWordChar(parts[k + 1][0])
      {
        if k == 1 {
          assert parts[2] == rest[0];
        } else {
          assert parts[k + 1] == rest[k - 1] && (k - 2) % 2 == 1;
        }
      }
    } else {
      SplitFromShape(s, p, q + 1);
    }
  }

  /** Splitting the text and joining the parts gives the text back; odd
      parts are the mentions, each as long as the word characters go, and
      even parts hold none. */
  lemma MentionPartsSpec(text: string)
    ensures Concat(MentionParts(text)) == text
    ensures forall k :: 0 <= k < |MentionParts(text)| && k % 2 == 1 ==> IsMention(MentionParts(text)[k])
    ensures forall k :: 0 <= k < |MentionParts(text)| && k % 2 == 0 ==> NoMention(MentionParts(text)[k])
    ensures forall k :: 0 <= k < |MentionParts(text)| - 1 && k % 2 == 1 ==>
              MentionParts(text)[k + 1] == [] || !IsWordChar(MentionParts(text)[k + 1][0])
  {
    SplitFromConcat(text, 0, 0);
    SplitFromShape(text, 0, 0);
  }

  /** What one part renders as. */
  datatype Segment = Plain(text: string) | Highlighted(text: string)

  function SegmentText(g: Segment): string
  {
    match g
    case Plain(t) => t
    case Highlighted(t) => t
  }

  /** `renderMentions` as written: a part is highlighted when it starts
      with `@`. */
  function RenderMentionsAsWritten(text: string): seq<Segment>
  {
    var parts := MentionParts(text);
    seq(|parts|, k requires 0 <= k < |parts| =>
      if |parts[k]| > 0 && parts[k][0] == '@' then Highlighted(parts[k]) else Plain(parts[k]))
  }

  /** `renderMentions` highlighting exactly the captured mentions. */
  function RenderMentions(text: string): seq<Segment>
  {
    var parts := MentionParts(text);
    seq(|parts|, k requires 0 <= k < |parts| => if k % 2 == 1 then Highlighted(parts[k]) else Plain(parts[k]))
  }

  function SegmentsText(gs: seq<Segment>): string
  {
    if gs == [] then "" else SegmentText(gs[0]) + SegmentsText(gs[1..])
  }

  lemma {:induction false} SegmentsTextOfParts(parts: seq<string>, gs: seq<Segment>)
    requires |gs| == |parts|
    requires forall k :: 0 <= k < |gs| ==> SegmentText(gs[k]) == parts[k]
    ensures SegmentsText(gs) == Concat(parts)
    decreases |gs|
  {
    if gs != [] {
      SegmentsTextOfParts(parts[1..], gs[1..]);
    }
  }

  lemma PlainIsNoMention(t: string)
    ensures NoMention(t) ==> !IsMention(t)
  {
    if NoMention(t) && |t| >= 2 {
      assert !(t[0] == '@' && IsWordChar(t[1]));
    }
  }

  /** The rendered comment shows the text unchanged, and a segment is
      highlighted exactly when it is a mention. */
  lemma RenderMentionsSpec(text: string)
    ensures SegmentsText(RenderMentions(text)) == text
    ensures forall k :: 0 <= k < |RenderMentions(text)| ==>
              (RenderMentions(text)[k].Highlighted? <==> IsMention(RenderMentions(text)[k].text))
  {
    MentionPartsSpec(text);
    var parts := MentionParts(text);
    SegmentsTextOfParts(parts, RenderMentions(text));
    forall k | 0 <= k < |parts| && k % 2 == 0
      ensures !IsMention(parts[k])
    {
      PlainIsNoMention(parts[k]);
    }
  }

  /** The two renderings agree exactly when no plain part starts with `@`. */
  lemma RenderingsAgree(text: string)
    ensures RenderMentionsAsWritten(text) == RenderMentions(text) <==>
            forall k :: 0 <= k < |MentionParts(text)| && k % 2 == 0 ==>
                          !(|MentionParts(text)[k]| > 0 && MentionParts(text)[k][0] == '@')
  {
    MentionPartsSpec(text);
    var parts := MentionParts(text);
    var a := RenderMentionsAsWritten(text);
    var b := RenderMentions(text);
    if forall k :: 0 <= k < |parts| && k % 2 == 0 ==> !(|parts[k]| > 0 && parts[k][0] == '@') {
      forall k | 0 <= k < |parts| ensures a[k] == b[k] {
        if k % 2 == 1 {
          assert IsMention(parts[k]);
        }
      }
    }
    if a == b {
      forall k | 0 <= k < |parts| && k % 2 == 0 ensures !(|parts[k]| > 0 && parts[k][0] == '@') {
        assert b[k] == Plain(parts[k]);
        assert a[k] == b[k];
      }
    }
  }

  /** "@ everyone" holds no mention, yet the rendering as written highlights
      all of it. */
  lemma LoneAtHighlighted()
    ensures MentionParts("@ everyone") == ["@ everyone"]
    ensures RenderMentionsAsWritten("@ everyone") == [Highlighted("@ everyone")]
    ensures RenderMentions("@ everyone") == [Plain("@ everyone")]
  {
    var s := "@ everyone";
    assert !MatchAt(s, 0) && !MatchAt(s, 1) && !MatchAt(s, 2) && !MatchAt(s, 3) && !MatchAt(s, 4);
    assert !MatchAt(s, 5) && !MatchAt(s, 6) && !MatchAt(s, 7) && !MatchAt(s, 8) && !MatchAt(s, 9);
    assert SplitFrom(s, 0, 10) == [s];
    assert SplitFrom(s, 0, 0) == SplitFrom(s, 0, 10);
  }

  // ------------------------------------------------------------ the panel

  /** The seeded comment texts. */
  function WireframesText(): string
  {
    "Hey team! I've just uploaded the new wireframes " +
    "for the homepage. Please take a look and " +
    "let me know your thoughts. @jane @mike"
  }

  function ReplyText(): string
  {
    "Looks great! I especially like the new " +
    "navigation layout. Very clean and intuitive."
  }

  function MigrationText(): string
  {
    "Quick update: The database migration is complete. " +
    "All user data has been successfully " +
    "transferred to the new schema."
  }

  /** The comment list on mount, timestamped relative to `now`. */
  function InitialComments(now: int): seq<Comment>
  {
    [
      Comment("1", WireframesText(), Author("1", "John Doe", "john@company.com", None), now - 2 * 3600000,
              [Comment("2", ReplyText(), Author("2", "Jane Smith", "jane@company.com", None), now - 3600000,
                       [], Some(1), [])],
              Some(3), []),
      Comment("3", MigrationText(), Author("3", "Mike Chen", "mike@company.com", None), now - 30 * 60000,
              [], Some(5), [Attachment("1", "migration-report.pdf", "application/pdf", "#")])
    ]
  }

  /** The panel's state. */
  class Panel {
    var comments: seq<Comment>
    var newComment: string
    var replyingTo: Option<string>

    constructor (now: int)
      ensures comments == InitialComments(now) && newComment == "" && replyingTo == None
    {
      comments := InitialComments(now);
      newComment := "";
      replyingTo := None;
    }

    method SetNewComment(text: string)
      modifies this
      ensures newComment == text && comments == old(comments) && replyingTo == old(replyingTo)
    {
      newComment := text;
    }

    /** The Reply and Cancel buttons: open or close the reply box under a
        comment. */
    method SetReplyingTo(target: Option<string>)
      modifies this
      ensures replyingTo == target && comments == old(comments) && newComment == old(newComment)
    {
      replyingTo := target;
    }

    /** `handleSubmitComment`: a non-blank input is posted and cleared. */
    method HandleSubmitComment(id: string, now: int)
      modifies this
      ensures comments == SubmitComment(old(comments), old(newComment), id, now)
      ensures newComment == if Trim(old(newComment)) == [] then old(newComment) else ""
      ensures replyingTo == old(replyingTo)
    {
      if Trim(newComment) == [] {
        return;
      }
      var comment := Comment(id, newComment, CurrentAuthor, now, [], Some(0), []);
      comments := [comment] + comments;
      newComment := "";
    }
  }
}

/** The shared helpers: the relative-time label, text truncation with an
    ellipsis, and the initials shown in avatar fallbacks. */
module Utils {
  import opened Collections
  import opened Text
  import opened Elapsed

  // ---------------------------------------------------------------------
  // formatRelativeTime
  // ---------------------------------------------------------------------

  /** `formatRelativeTime(date)` against the clock reading `nowMs`, both in
      milliseconds. */
  function FormatRelativeTime(dateMs: int, nowMs: int): Label
  {
    RelativeTime(FloorDiv(nowMs - dateMs, 1000))
  }

  /** The buckets on whole seconds: under a minute, and any date in the
      future, is "just now"; then minutes, hours and days; and the label is
      the one the panels compute on whole minutes. */
  lemma FormatRelativeTimeSpec(dateMs: int, nowMs: int)
    ensures var s := FloorDiv(nowMs - dateMs, 1000);
            var l := FormatRelativeTime(dateMs, nowMs);
            (l.JustNow? <==> s < 60) &&
            (l.MinutesAgo? <==> 60 <= s < 3600) &&
            (l.HoursAgo? <==> 3600 <= s < 86400) &&
            (l.DaysAgo? <==> 86400 <= s) &&
            (nowMs <= dateMs ==> l.JustNow?) &&
            l == TimeAgo(DiffInMinutes(nowMs - dateMs))
  {
    RelativeTimeAgreesWithTimeAgo(nowMs - dateMs);
  }

  // ---------------------------------------------------------------------
  // truncateText
  // ---------------------------------------------------------------------

  const DefaultMaxLength := 50

  /** The end index `slice(0, end)` actually uses: a negative end counts from
      the back, and the result is clamped to the string. */
  function SliceEnd(len: nat, end: int): (e: nat)
    ensures e <= len
    ensures 0 <= end <= len ==> e == end
    ensures end > len ==> e == len
    ensures end < 0 ==> e == if len + end < 0 then 0 else len + end
  {
    if end < 0 then (if len + end < 0 then 0 else len + end)
    else if end > len then len
    else end
  }

  /** `truncateText(text, maxLength)`: a text within the limit is returned
      as is; a longer one keeps its first `maxLength` characters (counted
      from the back for a negative limit) and gains an ellipsis, so with a
      non-negative limit it is exactly `maxLength + 3` long. */
  function TruncateText(text: string, maxLength: int): (r: string)
    ensures |text| <= maxLength ==> r == text
    ensures |text| > maxLength ==>
              |r| >= 3 && r[|r| - 3..] == "..." && StartsWith(text, r[..|r| - 3])
    ensures 0 <= maxLength < |text| ==>
              |r| == maxLength + 3 && r[..maxLength] == text[..maxLength]
    ensures 0 <= maxLength ==> |r| <= maxLength + 3
  {
    if |text| <= maxLength then text else text[..SliceEnd(|text|, maxLength)] + "..."
  }

  /** `truncateText(text)` with the limit left out: texts up to 50 long are
      kept, longer ones become their first 50 characters and "...". */
  function TruncateTextDefault(text: string): (r: string)
    ensures |text| <= DefaultMaxLength ==> r == text
    ensures |text| > DefaultMaxLength ==>
              |r| == DefaultMaxLength + 3 && r == text[..DefaultMaxLength] + "..."
    ensures |r| <= 53
  {
    TruncateText(text, DefaultMaxLength)
  }

  /** Truncating again with the same non-negative limit changes nothing. */
  lemma TruncateIdempotent(text: string, maxLength: int)
    requires 0 <= maxLength
    ensures TruncateText(TruncateText(text, maxLength), maxLength) == TruncateText(text, maxLength)
  {
    if |text| > maxLength {
      var r := text[..maxLength] + "...";
      assert r[..maxLength] == text[..maxLength];
    }
  }

  // ---------------------------------------------------------------------
  // generateInitials
  // ---------------------------------------------------------------------

  /** `word.charAt(0)`: the empty string for an empty word. */
  function CharAt0(word: string): string
  {
    if word == [] then "" else [word[0]]
  }

  /** `name.split(" ").map(w => w.charAt(0)).join("").toUpperCase().slice(0, 2)`. */
  function GenerateInitials(name: string): string
  {
    var all := Upper(Concat(Map(Split(name, ' '), CharAt0)));
    if |all| <= 2 then all else all[..2]
  }

  function NonEmpty(word: string): bool { word != [] }

  function FirstChar(word: string): char
  {
    if word == [] then ' ' else word[0]
  }

  function UpperFirst(word: string): char
  {
    UpperChar(FirstChar(word))
  }

  /** The reference: the uppercased first letters of the non-empty words, in
      order. */
  function WordInitials(name: string): string
  {
    Map(Filter(Split(name, ' '), NonEmpty), UpperFirst)
  }

  /** Joining the first characters skips the empty words. */
  lemma {:induction false} JoinedHeads(words: seq<string>)
    ensures Concat(Map(words, CharAt0)) == Map(Filter(words, NonEmpty), FirstChar)
    decreases |words|
  {
    if words != [] {
      var w, rest := words[0], words[1..];
      JoinedHeads(rest);
      MapCons(words, CharAt0);
      assert Map(words, CharAt0)[1..] == Map(rest, CharAt0);
      assert words == [w] + rest;
      FilterPrepend(w, rest, NonEmpty);
      if w != [] {
        MapCons([w] + Filter(rest, NonEmpty), FirstChar);
        assert ([w] + Filter(rest, NonEmpty))[1..] == Filter(rest, NonEmpty);
      }
    }
  }

  /** At most two characters: the first two of the reference, none of them
      a space. */
  lemma GenerateInitialsSpec(name: string)
    ensures var r := GenerateInitials(name);
            |r| <= 2 &&
            r == (if |WordInitials(name)| <= 2 then WordInitials(name) else WordInitials(name)[..2]) &&
            forall k :: 0 <= k < |r| ==> r[k] != ' '
  {
    var words := Split(name, ' ');
    JoinedHeads(words);
    var heads := Map(Filter(words, NonEmpty), FirstChar);
    assert Upper(heads) == WordInitials(name);
    SplitPiecesFree(name, ' ');
    var ref := WordInitials(name);
    forall k | 0 <= k < |ref| ensures ref[k] != ' ' {
      var w := Filter(words, NonEmpty)[k];
      assert w in words && w != [];
      assert w[0] in w;
    }
  }
}

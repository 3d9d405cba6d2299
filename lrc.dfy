/** Synchronised lyrics in the LRC format: `parse_lrc` turns the text into
    (milliseconds, line) entries ordered by time, and `find_line_at` picks the
    lyric line showing at a given moment. */
module Lrc {
  import opened Text
  import opened Wrappers

  /** One timed lyric line. */
  datatype Entry = Entry(time: int, text: seq<char>)

  /** The characters `str.splitlines` breaks at. */
  const LineBreaks: set<char> :=
    {'\n', '\r', '\U{b}', '\U{c}', '\U{1c}', '\U{1d}', '\U{1e}', '\U{85}', '\U{2028}', '\U{2029}'}

  /** Length of the first line of `s`: the index of the first line break, or `|s|`. */
  function LineLen(s: seq<char>): (k: nat)
    ensures k <= |s|
    ensures forall i | 0 <= i < k :: s[i] !in LineBreaks
    ensures k < |s| ==> s[k] in LineBreaks
  {
    if s == [] || s[0] in LineBreaks then 0 else 1 + LineLen(s[1..])
  }

  /** `str.splitlines()`: the lines without their terminators, `\r\n` counting as one
      terminator; a final terminator does not start another line. */
  function SplitLines(s: seq<char>): (lines: seq<seq<char>>)
    ensures |lines| <= |s|
    ensures lines == [] <==> s == []
    decreases |s|
  {
    if s == [] then []
    else
      var k := LineLen(s);
      if k == |s| then [s]
      else [s[..k]] + SplitLines(AfterBreak(s, k))
  }

  /** What follows the line break at `k`; `\r\n` is a single break. */
  function AfterBreak(s: seq<char>, k: nat): (rest: seq<char>)
    requires k < |s|
    ensures |rest| < |s|
  {
    if s[k] == '\r' && k + 1 < |s| && s[k + 1] == '\n' then s[k + 2..] else s[k + 1..]
  }

  predicate NoBreak(l: seq<char>) {
    forall j | 0 <= j < |l| :: l[j] !in LineBreaks
  }

  /** No line contains a line break. */
  lemma {:induction false} SplitLinesHaveNoBreak(s: seq<char>)
    ensures forall i | 0 <= i < |SplitLines(s)| :: NoBreak(SplitLines(s)[i])
    decreases |s|
  {
    if s != [] {
      var k := LineLen(s);
      if k < |s| {
        var rest := AfterBreak(s, k);
        SplitLinesHaveNoBreak(rest);
        var lines := SplitLines(s);
        assert lines == [s[..k]] + SplitLines(rest);
        forall i | 0 <= i < |lines| ensures NoBreak(lines[i]) {
          if i > 0 {
            assert lines[i] == SplitLines(rest)[i - 1];
          }
        }
      }
    }
  }

  // ---------------------------------------------------------------------------
  // Time tags: the pattern \[(\d{1,2}:\d{2}(?::\d{2})?(?:\.\d{1,3})?)\]
  // ---------------------------------------------------------------------------

  /** A time tag's fields as written: `first:second`, `first:second:third`,
      each optionally followed by `.frac`. */
  datatype Tag = Tag(first: seq<char>, second: seq<char>, third: Option<seq<char>>, frac: Option<seq<char>>)

  predicate AllDigits(d: seq<char>) {
    forall i | 0 <= i < |d| :: IsDigit(d[i])
  }

  /** The number of digits at `i`, at most `max`. */
  function DigitRun(s: seq<char>, i: nat, max: nat): (n: nat)
    requires i <= |s|
    ensures n <= max && i + n <= |s|
    ensures AllDigits(s[i..i + n])
    ensures n < max && i + n < |s| ==> !IsDigit(s[i + n])
    decreases max
  {
    if i < |s| && max > 0 && IsDigit(s[i]) then
      var n := DigitRun(s, i + 1, max - 1);
      assert s[i..i + 1 + n] == [s[i]] + s[i + 1..i + 1 + n];
      1 + n
    else 0
  }

  /** The outcome of an optional part `(?:<sep>\d{min,max})?`. */
  datatype Step = Fail | Ok(part: Option<seq<char>>, next: nat)

  /** An optional part at `j`: absent unless `sep` is there, and then it must
      have at least `min` digits. Absence after a `sep` that starts a broken
      part cannot lead to a match, since the pattern then needs `.` or `]` where
      `sep` is; so that case fails outright. */
  function OptionalPart(s: seq<char>, j: nat, sep: char, min: nat, max: nat): (r: Step)
    requires j <= |s|
    ensures r.Ok? && r.part.None? ==> r.next == j
    ensures r.Ok? && r.part.Some? ==> (j < |s| && s[j] == sep && r.next == j + 1 + |r.part.value| <= |s| &&
                                       min <= |r.part.value| <= max && AllDigits(r.part.value) &&
                                       s[j + 1..r.next] == r.part.value)
    ensures r.Ok? ==> r.next <= |s|
  {
    if j < |s| && s[j] == sep then
      var n := DigitRun(s, j + 1, max);
      if n < min then Fail else Ok(Some(s[j + 1..j + 1 + n]), j + 1 + n)
    else Ok(None, j)
  }

  /** The time tag starting at `i`, with the index just past its `]`. */
  function TagAt(s: seq<char>, i: nat): (r: Option<(Tag, nat)>)
    requires i <= |s|
    ensures r.Some? ==> i < r.value.1 <= |s| && s[i] == '['
  {
    if i >= |s| || s[i] != '[' then None
    else
      var a := DigitRun(s, i + 1, 2);
      if a == 0 || i + 1 + a >= |s| || s[i + 1 + a] != ':' then None
      else
        var j := i + 2 + a;
        if DigitRun(s, j, 2) != 2 then None
        else
          match TagTail(s, j + 2)
          case None => None
          case Some((third, frac, e)) => Some((Tag(s[i + 1..i + 1 + a], s[j..j + 2], third, frac), e))
  }

  /** What follows `first:second` in a tag: the optional `:third`, the
      optional `.frac`, then `]`; with the index just past the `]`. */
  function TagTail(s: seq<char>, k: nat): (r: Option<(Option<seq<char>>, Option<seq<char>>, nat)>)
    requires k <= |s|
    ensures r.Some? ==> k < r.value.2 <= |s| && s[r.value.2 - 1] == ']'
  {
    match OptionalPart(s, k, ':', 2, 2)
    case Fail => None
    case Ok(third, k2) =>
      match OptionalPart(s, k2, '.', 1, 3)
      case Fail => None
      case Ok(frac, e) => if e < |s| && s[e] == ']' then Some((third, frac, e + 1)) else None
  }

  /** `re.findall` of the tag pattern from `i`: matches taken left to right
      without overlap. */
  function TagsFrom(s: seq<char>, i: nat): (tags: seq<Tag>)
    requires i <= |s|
    ensures |tags| <= |s| - i
    decreases |s| - i
  {
    if i == |s| then []
    else match TagAt(s, i)
      case Some((t, e)) => [t] + TagsFrom(s, e)
      case None => TagsFrom(s, i + 1)
  }

  /** The decimal value of a digit string (`int()`): fewer than `10^|d|`. */
  function Value(d: seq<char>): (v: nat)
    ensures v < Pow10(|d|)
  {
    if d == [] then 0 else Value(d[..|d| - 1]) * 10 + (d[|d| - 1] as int - '0' as int) % 10
  }

  /** A fraction of one to three digits in milliseconds: less than a second. */
  function FracMs(f: Option<seq<char>>): (ms: nat)
    ensures f.Some? && 1 <= |f.value| <= 3 ==> ms < 1000
  {
    match f
    case None => 0
    case Some(d) => Value(d) * (if |d| == 1 then 100 else if |d| == 2 then 10 else 1)
  }

  /** The tag's time in milliseconds: a three-part tag counts hours, minutes and
      seconds, a two-part tag minutes and seconds, and a fraction of one to
      three digits adds under one second. */
  function TagMs(t: Tag): (ms: nat)
    ensures (t.frac.Some? ==> 1 <= |t.frac.value| <= 3) ==>
      (t.third.None? ==> Value(t.first) * 60000 + Value(t.second) * 1000 <= ms < Value(t.first) * 60000 + Value(t.second) * 1000 + 1000) &&
      (t.third.Some? ==> Value(t.first) * 3600000 + Value(t.second) * 60000 + Value(t.third.value) * 1000 <= ms <
                         Value(t.first) * 3600000 + Value(t.second) * 60000 + Value(t.third.value) * 1000 + 1000)
  {
    match t.third
    case Some(ss) => Value(t.first) * 3600000 + Value(t.second) * 60000 + Value(ss) * 1000 + FracMs(t.frac)
    case None => Value(t.first) * 60000 + Value(t.second) * 1000 + FracMs(t.frac)
  }

  function Pow10(n: nat): (p: nat)
    ensures p >= 1
  {
    if n == 0 then 1 else 10 * Pow10(n - 1)
  }

  // ---------------------------------------------------------------------------
  // Lines and entries
  // ---------------------------------------------------------------------------

  /** The length of the match of `^\[[^]]+\]+`: a `[`, at least one character
      other than `]`, then every `]` that follows; 0 when there is no match. */
  function LeadGroupLen(s: seq<char>): (n: nat)
    ensures n <= |s|
    ensures n > 0 ==> s[0] == '[' && s[n - 1] == ']' && n >= 3
  {
    if s == [] || s[0] != '[' then 0
    else
      var body := CountUntilClose(s, 1);
      if body == 0 || 1 + body == |s| then 0
      else 1 + body + CountCloses(s, 1 + body)
  }

  /** The number of characters other than `]` from `i`. */
  function CountUntilClose(s: seq<char>, i: nat): (n: nat)
    requires i <= |s|
    ensures i + n <= |s| && (i + n < |s| ==> s[i + n] == ']')
    ensures forall k | i <= k < i + n :: s[k] != ']'
    decreases |s| - i
  {
    if i == |s| || s[i] == ']' then 0 else 1 + CountUntilClose(s, i + 1)
  }

  /** The number of `]` from `i`. */
  function CountCloses(s: seq<char>, i: nat): (n: nat)
    requires i <= |s|
    ensures i + n <= |s| && (i < |s| && s[i] == ']' ==> n >= 1)
    ensures n > 0 ==> s[i + n - 1] == ']'
    decreases |s| - i
  {
    if i == |s| || s[i] != ']' then 0 else 1 + CountCloses(s, i + 1)
  }

  /** The text every tag of a stripped line shares: the line with its first
      leading bracket group (and the `]` run closing it) removed, stripped. */
  function LineText(raw: seq<char>): (t: seq<char>)
    ensures Trimmed(t)
  {
    Strip(raw[LeadGroupLen(raw)..])
  }

  /** One entry per tag, all with the same text. */
  function EntriesFor(tags: seq<Tag>, text: seq<char>): (es: seq<Entry>)
    ensures |es| == |tags|
    ensures forall k | 0 <= k < |es| :: es[k] == Entry(TagMs(tags[k]), text)
  {
    seq(|tags|, k requires 0 <= k < |tags| => Entry(TagMs(tags[k]), text))
  }

  /** The entries one line of the file contributes: none for a blank line,
      otherwise one per time tag, all sharing the line's text. */
  function LineEntries(line: seq<char>): (es: seq<Entry>)
    ensures Strip(line) == [] ==> es == []
    ensures Strip(line) != [] ==> |es| == |TagsFrom(Strip(line), 0)|
    ensures forall e | e in es :: e.text == LineText(Strip(line))
  {
    var raw := Strip(line);
    if raw == [] then [] else EntriesFor(TagsFrom(raw, 0), LineText(raw))
  }

  /** Every line is blank once stripped. */
  predicate AllBlank(lines: seq<seq<char>>) {
    forall j | 0 <= j < |lines| :: Strip(lines[j]) == []
  }

  /** The entries of the lines, in file order; blank lines add none, so a file
      of blank lines has no entries. */
  function Collect(lines: seq<seq<char>>): (es: seq<Entry>)
    ensures AllBlank(lines) ==> es == []
  {
    if lines == [] then [] else Collect(lines[..|lines| - 1]) + LineEntries(lines[|lines| - 1])
  }

  /** A line with no `[` has no time tag. */
  lemma {:induction false} NoBracketNoTags(s: seq<char>, i: nat)
    requires i <= |s|
    requires forall k | i <= k < |s| :: s[k] != '['
    ensures TagsFrom(s, i) == []
    decreases |s| - i
  {
    if i < |s| {
      NoBracketNoTags(s, i + 1);
    }
  }

  // ---------------------------------------------------------------------------
  // Stable sort by time (`list.sort(key=...)`)
  // ---------------------------------------------------------------------------

  predicate SortedByTime(s: seq<Entry>) {
    forall i, j | 0 <= i < j < |s| :: s[i].time <= s[j].time
  }

  /** Inserts `e` after every entry whose time is at most `e.time`. */
  function InsertByTime(sorted: seq<Entry>, e: Entry): (r: seq<Entry>)
    ensures multiset(r) == multiset(sorted) + multiset{e}
    ensures |r| == |sorted| + 1
  {
    if sorted == [] then [e]
    else if sorted[|sorted| - 1].time <= e.time then sorted + [e]
    else
      assert sorted == sorted[..|sorted| - 1] + [sorted[|sorted| - 1]];
      InsertByTime(sorted[..|sorted| - 1], e) + [sorted[|sorted| - 1]]
  }

  /** Stable insertion sort by time. */
  function SortByTime(s: seq<Entry>): (r: seq<Entry>)
    ensures multiset(r) == multiset(s)
    ensures |r| == |s|
  {
    if s == [] then []
    else
      assert s == s[..|s| - 1] + [s[|s| - 1]];
      InsertByTime(SortByTime(s[..|s| - 1]), s[|s| - 1])
  }

  /** The entries with time `t`, in order. */
  function WithTime(s: seq<Entry>, t: int): seq<Entry> {
    if s == [] then [] else WithTime(s[..|s| - 1], t) + (if s[|s| - 1].time == t then [s[|s| - 1]] else [])
  }

  /** Inserting `e` keeps every time at most a bound that `e` and `sorted` respect. */
  lemma {:induction false} InsertBounded(sorted: seq<Entry>, e: Entry, b: int)
    requires forall i | 0 <= i < |sorted| :: sorted[i].time <= b
    requires e.time <= b
    ensures forall i | 0 <= i < |InsertByTime(sorted, e)| :: InsertByTime(sorted, e)[i].time <= b
  {
    if sorted != [] && sorted[|sorted| - 1].time > e.time {
      InsertBounded(sorted[..|sorted| - 1], e, b);
    }
  }

  lemma {:induction false} InsertKeepsSorted(sorted: seq<Entry>, e: Entry)
    requires SortedByTime(sorted)
    ensures SortedByTime(InsertByTime(sorted, e))
  {
    if sorted != [] && sorted[|sorted| - 1].time > e.time {
      var init := sorted[..|sorted| - 1];
      var last := sorted[|sorted| - 1];
      InsertKeepsSorted(init, e);
      InsertBounded(init, e, last.time);
      var ins := InsertByTime(init, e);
      assert InsertByTime(sorted, e) == ins + [last];
    }
  }

  lemma WithTimeSnoc(s: seq<Entry>, x: Entry, t: int)
    ensures WithTime(s + [x], t) == WithTime(s, t) + (if x.time == t then [x] else [])
  {
    assert (s + [x])[..|s|] == s;
  }

  lemma {:induction false} InsertWithTime(sorted: seq<Entry>, e: Entry, t: int)
    ensures WithTime(InsertByTime(sorted, e), t) == WithTime(sorted, t) + (if e.time == t then [e] else [])
  {
    if sorted == [] {
      WithTimeSnoc([], e, t);
    } else if sorted[|sorted| - 1].time <= e.time {
      WithTimeSnoc(sorted, e, t);
    } else {
      var init := sorted[..|sorted| - 1];
      var last := sorted[|sorted| - 1];
      InsertWithTime(init, e, t);
      assert InsertByTime(sorted, e) == InsertByTime(init, e) + [last];
      WithTimeSnoc(InsertByTime(init, e), last, t);
      assert init + [last] == sorted;
      WithTimeSnoc(init, last, t);
    }
  }

  /** Sorting orders the entries by time, keeps exactly the same entries, and
      keeps entries of equal time in their original order. */
  lemma {:induction false} SortByTimeIsStableSort(s: seq<Entry>)
    ensures SortedByTime(SortByTime(s))
    ensures multiset(SortByTime(s)) == multiset(s)
    ensures forall t :: WithTime(SortByTime(s), t) == WithTime(s, t)
  {
    if s != [] {
      var init := s[..|s| - 1];
      SortByTimeIsStableSort(init);
      InsertKeepsSorted(SortByTime(init), s[|s| - 1]);
      forall t ensures WithTime(SortByTime(s), t) == WithTime(s, t) {
        InsertWithTime(SortByTime(init), s[|s| - 1], t);
      }
    }
  }

  // ---------------------------------------------------------------------------
  // parse_lrc
  // ---------------------------------------------------------------------------

  /** `parse_lrc`: every time tag of every non-blank line becomes an entry
      carrying the line's text, and the entries are sorted stably by time. */
  method ParseLrc(lrc: seq<char>) returns (entries: seq<Entry>)
    ensures entries == SortByTime(Collect(SplitLines(lrc)))
    ensures SortedByTime(entries)
    ensures multiset(entries) == multiset(Collect(SplitLines(lrc)))
  {
    var collected := CollectLines(SplitLines(lrc));
    SortByTimeIsStableSort(collected);
    entries := SortByTime(collected);
  }

  /** The outer loop of `parse_lrc`: the entries of each line, appended in file order. */
  method CollectLines(lines: seq<seq<char>>) returns (collected: seq<Entry>)
    ensures collected == Collect(lines)
  {
    collected := [];
    var i := 0;
    while i < |lines|
      invariant 0 <= i <= |lines|
      invariant collected == Collect(lines[..i])
    {
      CollectStep(lines, i);
      var raw := Strip(lines[i]);
      if raw != [] {
        collected := AppendTagged(collected, TagsFrom(raw, 0), LineText(raw));
      }
      i := i + 1;
    }
    assert lines[..i] == lines;
  }

  lemma CollectStep(lines: seq<seq<char>>, i: nat)
    requires i < |lines|
    ensures Collect(lines[..i + 1]) == Collect(lines[..i]) + LineEntries(lines[i])
  {
    assert lines[..i + 1][..i] == lines[..i];
  }

  /** The inner loop of `parse_lrc`: one entry per tag of the line, appended in order. */
  method AppendTagged(collected: seq<Entry>, tags: seq<Tag>, text: seq<char>) returns (r: seq<Entry>)
    ensures r == collected + EntriesFor(tags, text)
  {
    r := collected;
    var k := 0;
    while k < |tags|
      invariant 0 <= k <= |tags|
      invariant r == collected + EntriesFor(tags[..k], text)
    {
      r := r + [Entry(TagMs(tags[k]), text)];
      k := k + 1;
      assert EntriesFor(tags[..k], text) == EntriesFor(tags[..k - 1], text) + [Entry(TagMs(tags[k - 1]), text)];
    }
    assert tags[..k] == tags;
  }

  // ---------------------------------------------------------------------------
  // find_line_at
  // ---------------------------------------------------------------------------

  /** How many leading entries have time at most `ms`: where the scan stops. */
  function Reach(lines: seq<Entry>, ms: int): (n: nat)
    ensures n <= |lines|
    ensures forall j | 0 <= j < n :: lines[j].time <= ms
    ensures n < |lines| ==> lines[n].time > ms
  {
    if lines == [] || lines[0].time > ms then 0 else 1 + Reach(lines[1..], ms)
  }

  /** The text of the last entry with a non-empty text, or "" when there is none. */
  function LastText(s: seq<Entry>): (r: seq<char>)
    ensures r == [] || exists k | 0 <= k < |s| :: s[k].text == r
  {
    if s == [] then []
    else if s[|s| - 1].text != [] then s[|s| - 1].text
    else LastText(s[..|s| - 1])
  }

  /** `find_line_at`: scans the entries while their time is at most `ms`,
      remembering the last non-empty text. */
  method FindLineAt(lines: seq<Entry>, ms: int) returns (prior: seq<char>)
    ensures prior == LastText(lines[..Reach(lines, ms)])
  {
    prior := [];
    var i := 0;
    while i < |lines|
      invariant 0 <= i <= Reach(lines, ms)
      invariant prior == LastText(lines[..i])
    {
      var e := lines[i];
      if e.time <= ms {
        if e.text != [] {
          prior := e.text;
        }
        assert lines[..i + 1][..i] == lines[..i];
      } else {
        break;
      }
      i := i + 1;
    }
  }

  /** Nothing is showing before the first entry's time, or with no entries. */
  lemma NothingBeforeFirst(lines: seq<Entry>, ms: int)
    requires lines == [] || lines[0].time > ms
    ensures LastText(lines[..Reach(lines, ms)]) == []
  {
    assert lines[..0] == [];
  }

  /** The line shown is "" exactly when every entry reached has an empty text,
      and otherwise the text of a reached entry after which only empty texts follow. */
  lemma {:induction false} LastTextIsLastNonEmpty(s: seq<Entry>) returns (k: int)
    ensures LastText(s) == [] <==> forall j | 0 <= j < |s| :: s[j].text == []
    ensures LastText(s) != [] ==> (0 <= k < |s| && s[k].text == LastText(s) &&
                                   forall j | k < j < |s| :: s[j].text == [])
  {
    k := -1;
    if s != [] {
      if s[|s| - 1].text != [] {
        k := |s| - 1;
      } else {
        var init := s[..|s| - 1];
        k := LastTextIsLastNonEmpty(init);
        assert forall j | 0 <= j < |init| :: init[j] == s[j];
      }
    }
  }

  /** On entries sorted by time, the scan reaches exactly the entries with
      time at most `ms`. */
  lemma ReachOfSorted(lines: seq<Entry>, ms: int)
    requires SortedByTime(lines)
    ensures forall j | 0 <= j < |lines| :: j < Reach(lines, ms) <==> lines[j].time <= ms
  {
  }
}

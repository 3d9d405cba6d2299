/** The lenient guess evaluator of the command-line game: title normalisation,
    canonical titles, token-bounded containment, the fuzzy fallback and the
    artist bonus check. Every function here is total and deterministic. */
module GuessCli {
  import opened Text
  import opened Similarity

  // ---------------------------------------------------------------- normalize_title

  /** Characters that survive `re.sub(r"[^a-z0-9\s]", "", s)`. */
  predicate Kept(c: char) { IsLowerAlnum(c) || IsSpace(c) }

  /** `re.sub(r"[^a-z0-9\s]", "", s)`. */
  function KeepAllowed(s: seq<char>): (r: seq<char>)
    ensures |r| <= |s|
    ensures forall k :: 0 <= k < |r| ==> Kept(r[k])
  {
    if s == [] then [] else (if Kept(s[0]) then [s[0]] else []) + KeepAllowed(s[1..])
  }

  /** The letters and digits of `s`, in order. */
  function AlnumOf(s: seq<char>): seq<char> {
    if s == [] then [] else (if IsLowerAlnum(s[0]) then [s[0]] else []) + AlnumOf(s[1..])
  }

  /** The shape every normalised title has: lower-case letters, digits and
      single interior plain spaces, with no space at either end. */
  predicate Normalized(s: seq<char>) {
    (forall k :: 0 <= k < |s| ==> IsLowerAlnum(s[k]) || s[k] == ' ') &&
    NoDoubleSpace(s) && Trimmed(s)
  }

  /** `normalize_title`: lower-case, drop everything outside `[a-z0-9\s]`,
      turn every whitespace run into one space, strip the ends. */
  function NormalizeTitle(v: seq<char>): (r: seq<char>)
    ensures Normalized(r)
    ensures |r| <= |v|
  {
    var kept := KeepAllowed(Lower(v));
    var squashed := SquashSpaceRuns(kept, true);
    SquashFrom(kept, true);
    assert forall k :: 0 <= k < |squashed| ==> IsLowerAlnum(squashed[k]) || squashed[k] == ' ';
    StripKeepsWordChars(squashed);
    Strip(squashed)
  }

  lemma StripKeepsWordChars(s: seq<char>)
    requires forall k :: 0 <= k < |s| ==> IsLowerAlnum(s[k]) || s[k] == ' '
    requires NoDoubleSpace(s)
    ensures forall k :: 0 <= k < |Strip(s)| ==> IsLowerAlnum(Strip(s)[k]) || Strip(s)[k] == ' '
    ensures NoDoubleSpace(Strip(s))
  {
    var i, j := StripCharsSlice(s, Whitespace);
    SliceKeepsSpacing(s, i, j);
    assert forall k :: 0 <= k < j - i ==> s[i..j][k] == s[i + k];
  }

  lemma {:induction false} LowerNoop(s: seq<char>)
    requires forall k :: 0 <= k < |s| ==> IsLowerAlnum(s[k]) || s[k] == ' '
    ensures Lower(s) == s
  {
    assert forall k :: 0 <= k < |s| ==> Lower(s)[k] == s[k];
  }

  lemma {:induction false} KeepAllowedNoop(s: seq<char>)
    requires forall k :: 0 <= k < |s| ==> Kept(s[k])
    ensures KeepAllowed(s) == s
  {
    if s != [] {
      KeepAllowedNoop(s[1..]);
    }
  }

  /** A normalised title is its own normal form. */
  lemma NormalizeFixesNormalized(s: seq<char>)
    requires Normalized(s)
    ensures NormalizeTitle(s) == s
  {
    NormalizedIsPlain(s);
    LowerNoop(s);
    KeepAllowedNoop(s);
    SquashNoop(s, true);
    StripCharsNoop(s, Whitespace);
  }

  lemma NormalizedIsPlain(s: seq<char>)
    requires Normalized(s)
    ensures PlainSpaces(s) && forall k :: 0 <= k < |s| ==> Kept(s[k])
  {
  }

  /** Normalising twice is normalising once. */
  lemma NormalizeIdempotent(v: seq<char>)
    ensures NormalizeTitle(NormalizeTitle(v)) == NormalizeTitle(v)
  {
    NormalizeFixesNormalized(NormalizeTitle(v));
  }

  lemma {:induction false} KeepAllowedNonSpace(s: seq<char>)
    ensures NonSpace(KeepAllowed(s)) == AlnumOf(s)
  {
    if s != [] {
      KeepAllowedNonSpace(s[1..]);
      NonSpaceConcat(if Kept(s[0]) then [s[0]] else [], KeepAllowed(s[1..]));
    }
  }

  /** Normalising loses no letter or digit: apart from its spaces, the
      result is exactly the letters and digits of the lower-cased input. */
  lemma NormalizeKeepsAlnum(v: seq<char>)
    ensures NonSpace(NormalizeTitle(v)) == AlnumOf(Lower(v))
  {
    var kept := KeepAllowed(Lower(v));
    KeepAllowedNonSpace(Lower(v));
    SquashKeepsNonSpace(kept, true);
    StripKeepsNonSpace(SquashSpaceRuns(kept, true));
  }

  // ---------------------------------------------------------------- canonicalize_title

  /** Index of the first `)` in `t`, or `|t|` when there is none: how far `[^)]*` reaches. */
  function UntilClose(t: seq<char>): (n: nat)
    ensures n <= |t|
    ensures forall k :: 0 <= k < n ==> t[k] != ')'
    ensures n == |t| || t[n] == ')'
  {
    if t == [] || t[0] == ')' then 0 else 1 + UntilClose(t[1..])
  }

  /** Length of the match of `\s*\([^)]*\)` at the start of `s`, or 0 when it does not match there. */
  function GroupLen(s: seq<char>): (n: nat)
    ensures n <= |s|
    ensures n > 0 ==> s[n - 1] == ')'
  {
    var w := LeadCount(s, Whitespace);
    if w < |s| && s[w] == '(' then
      var c := w + 1 + UntilClose(s[w + 1..]);
      if c < |s| then c + 1 else 0
    else 0
  }

  /** `re.sub(r"\s*\([^)]*\)", "", s)`: scan left to right, deleting each match. */
  function StripParens(s: seq<char>): (r: seq<char>)
    ensures |r| <= |s|
    decreases |s|
  {
    if s == [] then []
    else
      var n := GroupLen(s);
      if n > 0 then StripParens(s[n..]) else [s[0]] + StripParens(s[1..])
  }

  /** No `(` is followed, anywhere later, by a `)`. */
  predicate NoClosedGroup(s: seq<char>) {
    forall i, j :: 0 <= i < j < |s| && s[i] == '(' ==> s[j] != ')'
  }

  /** Text without a `)` has nothing to remove. */
  lemma {:induction false} StripParensNoClose(s: seq<char>)
    requires ')' !in s
    ensures StripParens(s) == s
    decreases |s|
  {
    if s != [] {
      assert GroupLen(s) == 0;
      StripParensNoClose(s[1..]);
    }
  }

  /** Text with no closed group has nothing to remove. */
  lemma {:induction false} StripParensNoGroup(s: seq<char>)
    requires NoClosedGroup(s)
    ensures StripParens(s) == s
    decreases |s|
  {
    if s != [] {
      assert GroupLen(s) == 0;
      NoClosedGroupSlice(s, 1, |s|);
      assert s[1..|s|] == s[1..];
      StripParensNoGroup(s[1..]);
    }
  }

  lemma NoClosedGroupSlice(s: seq<char>, i: nat, j: nat)
    requires i <= j <= |s| && NoClosedGroup(s)
    ensures NoClosedGroup(s[i..j])
  {
    var t := s[i..j];
    forall a, b | 0 <= a < b < |t| && t[a] == '(' ensures t[b] != ')' {
      assert t[a] == s[i + a] && t[b] == s[i + b];
    }
  }

  /** Parentheses are never added: the substitution keeps plain spacing. */
  lemma {:induction false} StripParensKeepsPlain(s: seq<char>)
    requires PlainSpaces(s)
    ensures PlainSpaces(StripParens(s))
    decreases |s|
  {
    if s != [] {
      var n := GroupLen(s);
      if n > 0 {
        assert PlainSpaces(s[n..]) by {
          forall k | 0 <= k < |s| - n && IsSpace(s[n..][k]) ensures s[n..][k] == ' ' {
            assert s[n..][k] == s[k + n];
          }
        }
        StripParensKeepsPlain(s[n..]);
      } else {
        assert PlainSpaces(s[1..]) by {
          forall k | 0 <= k < |s| - 1 && IsSpace(s[1..][k]) ensures s[1..][k] == ' ' {
            assert s[1..][k] == s[k + 1];
          }
        }
        StripParensKeepsPlain(s[1..]);
        var t := StripParens(s[1..]);
        var r := [s[0]] + t;
        assert StripParens(s) == r;
        forall k | 0 <= k < |r| && IsSpace(r[k]) ensures r[k] == ' ' {
          if k > 0 {
            assert r[k] == t[k - 1];
          }
        }
      }
    }
  }

  /** After the substitution no parenthesised group is left: a `(` survives only
      when no `)` follows it. */
  lemma {:induction false} StripParensLeavesNoGroup(s: seq<char>)
    ensures NoClosedGroup(StripParens(s))
    decreases |s|
  {
    if s != [] {
      var n := GroupLen(s);
      if n > 0 {
        StripParensLeavesNoGroup(s[n..]);
      } else {
        StripParensLeavesNoGroup(s[1..]);
        if s[0] == '(' {
          UnclosedParen(s);
          StripParensNoClose(s[1..]);
        }
        ConsKeepsNoGroup(s[0], StripParens(s[1..]));
      }
    }
  }

  /** A `(` where the pattern does not match has no `)` anywhere after it. */
  lemma UnclosedParen(s: seq<char>)
    requires s != [] && s[0] == '(' && GroupLen(s) == 0
    ensures ')' !in s[1..]
  {
    assert LeadCount(s, Whitespace) == 0;
    assert 1 + UntilClose(s[1..]) == |s|;
  }

  lemma ConsKeepsNoGroup(c: char, rest: seq<char>)
    requires NoClosedGroup(rest) && (c == '(' ==> ')' !in rest)
    ensures NoClosedGroup([c] + rest)
  {
    var r := [c] + rest;
    forall i, j | 0 <= i < j < |r| && r[i] == '(' ensures r[j] != ')' {
      assert r[j] == rest[j - 1];
      if i > 0 {
        assert r[i] == rest[i - 1];
      }
    }
  }

  /** A group is removed together with the whitespace run in front of it. */
  lemma GroupRemoved(w: seq<char>, body: seq<char>, rest: seq<char>)
    requires forall k :: 0 <= k < |w| ==> IsSpace(w[k])
    requires ')' !in body
    ensures StripParens(w + ['('] + body + [')'] + rest) == StripParens(rest)
  {
    var s := w + ['('] + body + [')'] + rest;
    var lead := LeadCount(s, Whitespace);
    assert s[|w|] == '(';
    assert forall k :: 0 <= k < |w| ==> s[k] == w[k];
    assert lead == |w|;
    var t := s[|w| + 1..];
    assert t == body + [')'] + rest;
    var u := UntilClose(t);
    assert t[|body|] == ')';
    assert forall k :: 0 <= k < |body| ==> t[k] == body[k];
    assert u == |body|;
    assert GroupLen(s) == |w| + |body| + 2;
    assert s[|w| + |body| + 2..] == rest;
  }

  /** Text in front of the first `(` that does not end in whitespace is kept:
      the pattern can only start matching after it. */
  lemma {:induction false} PrefixKept(pre: seq<char>, tail: seq<char>)
    requires '(' !in pre && (pre == [] || !IsSpace(pre[|pre| - 1]))
    ensures StripParens(pre + tail) == pre + StripParens(tail)
    decreases |pre|
  {
    if pre == [] {
      assert pre + tail == tail;
    } else {
      var rest := pre[1..];
      assert rest == [] || rest[|rest| - 1] == pre[|pre| - 1];
      PrefixKept(rest, tail);
      PrefixStep(pre, tail);
      ConsRest(pre, StripParens(tail));
    }
  }

  lemma ConsRest(s: seq<char>, t: seq<char>)
    requires s != []
    ensures [s[0]] + (s[1..] + t) == s + t
  {
  }

  /** One step of the scan over such a text: its first character is kept. */
  lemma PrefixStep(pre: seq<char>, tail: seq<char>)
    requires '(' !in pre && pre != [] && !IsSpace(pre[|pre| - 1])
    ensures StripParens(pre + tail) == [pre[0]] + StripParens(pre[1..] + tail)
  {
    PrefixBlocksGroup(pre, tail);
    assert (pre + tail)[1..] == pre[1..] + tail;
  }

  /** The pattern cannot match at the front of such a text. */
  lemma PrefixBlocksGroup(pre: seq<char>, tail: seq<char>)
    requires '(' !in pre && pre != [] && !IsSpace(pre[|pre| - 1])
    ensures GroupLen(pre + tail) == 0
  {
    var s := pre + tail;
    var n := LeadCount(s, Whitespace);
    assert s[|pre| - 1] == pre[|pre| - 1];
    assert n < |pre|;
    assert s[n] == pre[n];
  }

  /** A group further in goes the same way, and the text in front of its
      whitespace run is kept as it is. */
  lemma GroupRemovedAfter(pre: seq<char>, w: seq<char>, body: seq<char>, rest: seq<char>)
    requires '(' !in pre && (pre == [] || !IsSpace(pre[|pre| - 1]))
    requires forall k :: 0 <= k < |w| ==> IsSpace(w[k])
    requires ')' !in body
    ensures StripParens(pre + w + ['('] + body + [')'] + rest) == pre + StripParens(rest)
  {
    var tail := w + ['('] + body + [')'] + rest;
    assert pre + w + ['('] + body + [')'] + rest == pre + tail;
    PrefixKept(pre, tail);
    GroupRemoved(w, body, rest);
  }

  /** The separator `canonicalize_title` splits on. */
  const SegmentSep: seq<char> := " - "

  /** The characters `str.strip(" -–—_\"' ")` removes from both ends. */
  const DashTrim: set<char> := {' ', '-', '\U{2013}', '\U{2014}', '_', '"', '\''}

  /** `[p.strip() for p in parts]`. */
  function StripAll(parts: seq<seq<char>>): (r: seq<seq<char>>)
    ensures |r| == |parts|
    ensures forall k :: 0 <= k < |r| ==> r[k] == Strip(parts[k])
  {
    if parts == [] then [] else [Strip(parts[0])] + StripAll(parts[1..])
  }

  /** The loop `for p in parts: if p: base = p; break`: index of the first
      non-empty part, or -1 when every part is empty. */
  function FirstNonEmpty(parts: seq<seq<char>>): (k: int)
    ensures -1 <= k < |parts|
    ensures k >= 0 ==> parts[k] != []
    ensures forall m :: 0 <= m < |parts| && (k < 0 || m < k) ==> parts[m] == []
  {
    if parts == [] then -1
    else if parts[0] != [] then 0
    else
      var k := FirstNonEmpty(parts[1..]);
      if k < 0 then -1 else k + 1
  }

  /** The base form chosen from the paren-free title: its first non-empty
      stripped `" - "` segment, or the whole paren-free title when all are empty. */
  function SegmentBase(noParen: seq<char>): (base: seq<char>)
    ensures base == [] <==> noParen == []
  {
    var parts := StripAll(SplitOn(noParen, SegmentSep));
    var k := FirstNonEmpty(parts);
    if k >= 0 then parts[k] else noParen
  }

  /** `canonicalize_title`. */
  function Canonicalize(raw: seq<char>): (r: seq<char>)
    ensures Trimmed(r) && NoDoubleSpace(r)
  {
    var base := SegmentBase(StripParens(raw));
    var trimmed := StripChars(base, DashTrim);
    var squashed := SquashSpaceRuns(trimmed, false);
    StripKeepsSpacing(squashed);
    Strip(squashed)
  }

  /** The base is the first segment that strips to something non-empty (its
      index is `k`); when there is none (`k < 0`), the paren-free title is kept whole. */
  lemma SegmentBaseChoice(noParen: seq<char>) returns (k: int)
    ensures var parts := SplitOn(noParen, SegmentSep);
      -1 <= k < |parts| &&
      (k < 0 ==> SegmentBase(noParen) == noParen &&
                 forall m :: 0 <= m < |parts| ==> Strip(parts[m]) == []) &&
      (k >= 0 ==> SegmentBase(noParen) == Strip(parts[k]) != [] &&
                  forall m :: 0 <= m < k ==> Strip(parts[m]) == [])
  {
    var parts := SplitOn(noParen, SegmentSep);
    var stripped := StripAll(parts);
    k := FirstNonEmpty(stripped);
    assert forall m :: 0 <= m < |parts| ==> Strip(parts[m]) == stripped[m];
  }

  /** The first `" - "` of `a + " - " + b` is the one after `a` when `a` has
      none of its own and does not end in a dash. */
  lemma FirstSeparatorAfter(a: seq<char>, b: seq<char>)
    requires !Occurs(SegmentSep, a) && a != [] && a[|a| - 1] != '-'
    ensures FindFrom(a + SegmentSep + b, SegmentSep, 0) == |a|
  {
    var s := a + SegmentSep + b;
    assert s[|a|..|a| + 3] == SegmentSep;
    assert OccursAt(SegmentSep, s, |a|);
    FindFromFirst(s, SegmentSep, 0);
    var i := FindFrom(s, SegmentSep, 0);
    forall k | 0 <= k < |a| ensures !OccursAt(SegmentSep, s, k) {
      if k <= |a| - 3 {
        assert a[k..k + 3] == s[k..k + 3];
        assert !OccursAt(SegmentSep, a, k);
      } else {
        assert s[k + 1] != '-';
        if k + 3 <= |s| {
          assert s[k..k + 3][1] == s[k + 1];
        }
      }
    }
  }

  /** Everything from the first `" - "` on is dropped, provided the text in
      front of it is not blank and does not itself end in a dash. */
  lemma DropsDashSuffix(a: seq<char>, b: seq<char>)
    requires ')' !in a && ')' !in b
    requires !Occurs(SegmentSep, a) && Strip(a) != [] && a[|a| - 1] != '-'
    ensures Canonicalize(a + SegmentSep + b) == Canonicalize(a)
  {
    var s := a + SegmentSep + b;
    StripParensNoClose(s);
    StripParensNoClose(a);
    FirstSeparatorAfter(a, b);
    assert s[..|a|] == a;
    var parts := SplitOn(s, SegmentSep);
    assert parts[0] == a;
    assert StripAll(parts)[0] == Strip(a);
    assert SegmentBase(s) == Strip(a);
    FindFromFirst(a, SegmentSep, 0);
    assert SplitOn(a, SegmentSep) == [a];
    assert SegmentBase(a) == Strip(a);
  }

  // ---------------------------------------------------------------- guess_contains_title

  /** The pattern `(?:^| )nt(?:$| )` matches in `ng` with `nt` starting at `i`:
      `ng` is then some text, `nt`, and some more text. */
  predicate TokenSpanAt(nt: seq<char>, ng: seq<char>, i: int)
    ensures TokenSpanAt(nt, ng, i) ==> 0 <= i && i + |nt| <= |ng| && ng == ng[..i] + nt + ng[i + |nt|..]
    ensures nt == ng ==> (TokenSpanAt(nt, ng, i) <==> i == 0)
  {
    OccursAt(nt, ng, i) &&
    (i == 0 || ng[i - 1] == ' ') &&
    (i + |nt| == |ng| || ng[i + |nt|] == ' ')
  }

  ghost predicate TokenSpanIn(nt: seq<char>, ng: seq<char>) {
    exists i :: TokenSpanAt(nt, ng, i)
  }

  /** `re.search` for that pattern: try every start position from `from` on. */
  function SearchTokenSpan(nt: seq<char>, ng: seq<char>, from: nat): (b: bool)
    requires from <= |ng| + 1
    ensures b <==> exists i :: from <= i && TokenSpanAt(nt, ng, i)
    decreases |ng| + 1 - from
  {
    if from + |nt| > |ng| then false
    else TokenSpanAt(nt, ng, from) || SearchTokenSpan(nt, ng, from + 1)
  }

  /** `guess_contains_title`: the canonical title, normalised, is a whole run of
      words of the normalised guess; an empty title is never contained. */
  function GuessContainsTitle(guess: seq<char>, title: seq<char>): (b: bool)
    ensures var ng := NormalizeTitle(guess);
      var nt := NormalizeTitle(Canonicalize(title));
      b <==> nt != [] && (ng == nt || TokenSpanIn(nt, ng))
  {
    var ng := NormalizeTitle(guess);
    var nt := NormalizeTitle(Canonicalize(title));
    if nt == [] then false
    else if ng == nt then true
    else SearchTokenSpan(nt, ng, 0)
  }

  /** An exact match is one case of the token-span rule, so the equality test
      only short-cuts the search. */
  lemma EqualIsTokenSpan(s: seq<char>)
    ensures TokenSpanIn(s, s)
  {
    assert s[0..|s|] == s;
    assert TokenSpanAt(s, s, 0);
  }

  /** A text without a closed group or `" - "` is its own base. */
  lemma BaseOfPlainText(t: seq<char>)
    requires NoClosedGroup(t) && !Occurs(SegmentSep, t) && Trimmed(t)
    ensures SegmentBase(StripParens(t)) == t
  {
    StripParensNoGroup(t);
    FindFromFirst(t, SegmentSep, 0);
    assert SplitOn(t, SegmentSep) == [t];
    StripCharsNoop(t, Whitespace);
    assert StripAll([t]) == [t];
  }

  /** The form `canonicalize_title` gives a title spaced with plain spaces: no
      parenthesised group, no `" - "`, single plain spaces, and no character of
      the final strip at either end. */
  ghost predicate CanonicalForm(t: seq<char>) {
    NoClosedGroup(t) && !Occurs(SegmentSep, t) && PlainSpaces(t) && NoDoubleSpace(t) &&
    (t == [] || (t[0] !in DashTrim && t[|t| - 1] !in DashTrim))
  }

  /** A title already in canonical form is left as it is. */
  lemma CanonicalFixed(t: seq<char>)
    requires CanonicalForm(t)
    ensures Canonicalize(t) == t
  {
    BaseOfPlainText(t);
    StripCharsNoop(t, DashTrim);
    SquashNoop(t, false);
    StripCharsNoop(t, Whitespace);
  }

  /** A slice keeps the absence of groups and of `" - "`. */
  lemma SliceKeepsShape(s: seq<char>, i: nat, j: nat)
    requires i <= j <= |s|
    ensures NoClosedGroup(s) ==> NoClosedGroup(s[i..j])
    ensures !Occurs(SegmentSep, s) ==> !Occurs(SegmentSep, s[i..j])
    ensures PlainSpaces(s) ==> PlainSpaces(s[i..j])
  {
    if NoClosedGroup(s) {
      NoClosedGroupSlice(s, i, j);
    }
    forall m | OccursAt(SegmentSep, s[i..j], m) ensures OccursAt(SegmentSep, s, i + m) {
      var u := s[i..j];
      forall q | 0 <= q < 3 ensures s[i + m + q] == SegmentSep[q] {
        assert u[m..m + 3][q] == u[m + q] == s[i + m + q];
      }
      assert s[i + m..i + m + 3] == SegmentSep;
    }
    SliceKeepsSpacing(s, i, j);
  }

  /** The dash-trimmed base of a paren-free, plain-spaced title has no group, no
      `" - "`, plain spaces and no trimmed character at either end. */
  lemma TrimmedBaseShape(noParen: seq<char>)
    requires NoClosedGroup(noParen) && PlainSpaces(noParen)
    ensures var t := StripChars(SegmentBase(noParen), DashTrim);
      NoClosedGroup(t) && !Occurs(SegmentSep, t) && PlainSpaces(t)
  {
    var parts := SplitOn(noParen, SegmentSep);
    var k := SegmentBaseChoice(noParen);
    var base := SegmentBase(noParen);
    if k >= 0 {
      SplitPartsLackSeparator(noParen, SegmentSep);
      var i, j := SplitPartSlice(noParen, SegmentSep, k);
      SliceKeepsShape(noParen, i, j);
      var a, b := StripCharsSlice(parts[k], Whitespace);
      SliceKeepsShape(parts[k], a, b);
      var c, d := StripCharsSlice(base, DashTrim);
      SliceKeepsShape(base, c, d);
    } else {
      forall m | 0 <= m < |parts| ensures AllIn(parts[m], Whitespace + {'-'}) {
        StripCharsEmpty(parts[m], Whitespace);
      }
      JoinAllIn(parts, SegmentSep, Whitespace + {'-'});
      SplitJoin(noParen, SegmentSep);
      forall c | c in noParen ensures c in DashTrim {
        var m :| 0 <= m < |noParen| && noParen[m] == c;
      }
      StripCharsEmpty(noParen, DashTrim);
    }
  }

  /** Squashing whitespace runs never joins a `(` to a later `)`. */
  lemma {:induction false} SquashKeepsNoGroup(s: seq<char>)
    requires NoClosedGroup(s)
    ensures NoClosedGroup(SquashSpaceRuns(s, false))
    decreases |s|
  {
    if |s| >= 2 && IsSpace(s[0]) && IsSpace(s[1]) {
      NoClosedGroupSlice(s, 2, |s|);
      assert s[2..|s|] == s[2..];
      ConsKeepsNoGroup(' ', s[2..]);
      SquashKeepsNoGroup([' '] + s[2..]);
    } else if s != [] {
      NoClosedGroupSlice(s, 1, |s|);
      assert s[1..|s|] == s[1..];
      SquashKeepsNoGroup(s[1..]);
      SquashFrom(s[1..], false);
      var t := SquashSpaceRuns(s[1..], false);
      if s[0] == '(' {
        forall k | 0 <= k < |t| ensures t[k] != ')' {
          if t[k] != ' ' {
            var m :| 0 <= m < |s[1..]| && s[1..][m] == t[k];
            assert s[1..][m] == s[m + 1];
          }
        }
      }
      ConsKeepsNoGroup(s[0], t);
      assert SquashSpaceRuns(s, false) == [s[0]] + t;
    }
  }

  /** Squashing runs of plain spaces never makes a `" - "` the text did not have. */
  lemma {:induction false} SquashKeepsNoSeparator(s: seq<char>)
    requires PlainSpaces(s) && !Occurs(SegmentSep, s)
    ensures !Occurs(SegmentSep, SquashSpaceRuns(s, false))
    decreases |s|
  {
    if s != [] {
      SliceKeepsShape(s, 1, |s|);
      assert s[1..|s|] == s[1..];
      SquashKeepsNoSeparator(s[1..]);
    }
    if |s| >= 2 && IsSpace(s[0]) && IsSpace(s[1]) {
      assert [' '] + s[2..] == s[1..];
    } else if s != [] {
      var t := SquashSpaceRuns(s[1..], false);
      var r := [s[0]] + t;
      assert SquashSpaceRuns(s, false) == r;
      forall m | OccursAt(SegmentSep, r, m) ensures false {
        if m > 0 {
          assert r[m..m + 3] == t[m - 1..m + 2];
          assert OccursAt(SegmentSep, t, m - 1);
        } else {
          SeparatorAtFront(s, t);
        }
      }
    }
  }

  /** The step of the proof above where the `" - "` would start at the front. */
  lemma SeparatorAtFront(s: seq<char>, t: seq<char>)
    requires PlainSpaces(s) && s != [] && t == SquashSpaceRuns(s[1..], false)
    requires OccursAt(SegmentSep, [s[0]] + t, 0)
    ensures OccursAt(SegmentSep, s, 0)
  {
    var r := [s[0]] + t;
    assert r[0..3] == SegmentSep;
    assert r[0] == r[0..3][0] == ' ';
    assert t[0] == r[0..3][1] == '-';
    assert t[1] == r[0..3][2] == ' ';
    assert s[1] == '-';
    assert s[1..][1..] == s[2..];
    assert t == [s[1]] + SquashSpaceRuns(s[2..], false);
    assert IsSpace(s[2]);
    assert s[0..3] == SegmentSep;
  }

  /** `canonicalize_title` removes every parenthesised group, everything from a
      `" - "` on, and the trimmed characters at both ends, when the title's
      whitespace is plain spaces. */
  lemma CanonicalizeShape(x: seq<char>)
    requires PlainSpaces(x)
    ensures CanonicalForm(Canonicalize(x))
  {
    var noParen := StripParens(x);
    StripParensLeavesNoGroup(x);
    StripParensKeepsPlain(x);
    var t := StripChars(SegmentBase(noParen), DashTrim);
    TrimmedBaseShape(noParen);
    var q := SquashSpaceRuns(t, false);
    SquashKeepsNoGroup(t);
    SquashKeepsNoSeparator(t);
    if t != [] {
      SquashKeepsLast(t, false);
    }
    StripCharsNoop(q, Whitespace);
  }

  /** On plain-spaced titles `canonicalize_title` is idempotent. */
  lemma CanonicalizeIdempotentPlain(x: seq<char>)
    requires PlainSpaces(x)
    ensures Canonicalize(Canonicalize(x)) == Canonicalize(x)
  {
    CanonicalizeShape(x);
    CanonicalFixed(Canonicalize(x));
  }

  /** A title whose two words are joined by a tab run and a dash, as in
      "A\t\t- B". */
  function TabDashTitle(a: char, b: char): seq<char> {
    [a, '\t', '\t', '-', ' ', b]
  }

  /** The characters allowed at the ends of [`TabDashTitle`]. */
  predicate PlainEnd(c: char) {
    c !in DashTrim && !IsSpace(c) && c != ')'
  }

  /** The squash step: the tab run becomes one plain space. */
  lemma SquashTabRun(a: char, b: char)
    requires PlainEnd(a) && PlainEnd(b)
    ensures SquashSpaceRuns(TabDashTitle(a, b), false) == [a] + SegmentSep + [b]
  {
    var s := TabDashTitle(a, b);
    assert s[1..] == ['\t', '\t', '-', ' ', b];
    assert ['\t', '\t', '-', ' ', b][2..] == ['-', ' ', b];
    assert SquashSpaceRuns([b], false) == [b];
    assert SquashSpaceRuns([' ', b], false) == [' ', b];
    assert SquashSpaceRuns(['-', ' ', b], false) == ['-', ' ', b];
    assert SquashSpaceRuns([' ', '-', ' ', b], false) == [' ', '-', ' ', b];
  }

  /** The title has no `" - "`, so it is its own base. */
  lemma TabTitleBase(a: char, b: char)
    requires PlainEnd(a) && PlainEnd(b)
    ensures SegmentBase(StripParens(TabDashTitle(a, b))) == TabDashTitle(a, b)
  {
    var s := TabDashTitle(a, b);
    StripParensNoClose(s);
    forall i ensures !OccursAt(SegmentSep, s, i) {
      if 0 <= i <= 3 {
        assert s[i..i + 3][0] == s[i];
      }
    }
    SplitWithoutSeparator(s, SegmentSep);
    StripCharsNoop(s, Whitespace);
    assert StripAll([s]) == [s];
  }

  /** Squashing a tab run can expose a `" - "`: the first pass turns
      "A\t\t- B" into "A - B" ... */
  lemma TabRunExposesSeparator(a: char, b: char)
    requires PlainEnd(a) && PlainEnd(b)
    ensures Canonicalize(TabDashTitle(a, b)) == [a] + SegmentSep + [b]
  {
    TabTitleBase(a, b);
    StripCharsNoop(TabDashTitle(a, b), DashTrim);
    SquashTabRun(a, b);
    StripCharsNoop([a] + SegmentSep + [b], Whitespace);
  }

  /** ... a second pass cuts "A - B" down to "A" ... */
  lemma DashSuffixCut(a: char, b: char)
    requires PlainEnd(a) && PlainEnd(b)
    ensures Canonicalize([a] + SegmentSep + [b]) == [a]
  {
    assert !Occurs(SegmentSep, [a]);
    DropsDashSuffix([a], [b]);
    OneCharCanonical(a);
  }

  /** ... so `canonicalize_title` is not idempotent once whitespace other than
      plain spaces is involved. */
  lemma CanonicalizeNotIdempotent(a: char, b: char)
    requires PlainEnd(a) && PlainEnd(b)
    ensures var once := Canonicalize(TabDashTitle(a, b));
      Canonicalize(once) == [a] != once
  {
    TabRunExposesSeparator(a, b);
    DashSuffixCut(a, b);
  }

  /** A single character that is neither whitespace nor trimmed is its own
      canonical title. */
  lemma OneCharCanonical(c: char)
    requires c !in DashTrim && !IsSpace(c)
    ensures Canonicalize([c]) == [c]
  {
    assert !Occurs(SegmentSep, [c]);
    CanonicalFixed([c]);
  }

  /** A plain lower-case word is its own canonical title. */
  lemma CarIsCanonical()
    ensures Canonicalize("car") == "car"
  {
    var t := "car";
    forall i ensures !OccursAt(SegmentSep, t, i) {
      if 0 <= i && i + 3 <= 3 {
        assert t[i..i + 3][0] == 'c';
      }
    }
    CanonicalFixed(t);
  }

  lemma NoSpanOfCarInScarlet()
    ensures !TokenSpanIn("car", "scarlet")
  {
    var ng := "scarlet";
    forall i ensures !TokenSpanAt("car", ng, i) {
      if 0 <= i <= 4 {
        assert ng[i..i + 3][0] == ng[i];
        assert i == 1 ==> ng[0] == 's';
      }
    }
  }

  /** A title found inside a longer word is not a match: "car" is not in "scarlet". */
  lemma SubwordIsNoMatch()
    ensures !GuessContainsTitle("scarlet", "car")
  {
    ScarletNormalized();
    CarNormalized();
    NoSpanOfCarInScarlet();
  }

  lemma ScarletNormalized()
    ensures NormalizeTitle("scarlet") == "scarlet"
  {
    NormalizeFixesNormalized("scarlet");
  }

  lemma CarPlainNormalized()
    ensures NormalizeTitle("car") == "car"
  {
    NormalizeFixesNormalized("car");
  }

  lemma CarNormalized()
    ensures NormalizeTitle(Canonicalize("car")) == "car"
  {
    CarIsCanonical();
    CarPlainNormalized();
  }

  // ---------------------------------------------------------------- is_correct_guess

  /** `is_correct_guess`: containment first; otherwise both normalised sides must be
      non-empty and `SequenceMatcher(None, ng, nt).ratio() >= 0.85`. */
  function IsCorrectGuess(guess: seq<char>, title: seq<char>): (b: bool)
    ensures GuessContainsTitle(guess, title) ==> b
    ensures !GuessContainsTitle(guess, title) ==>
      (b <==> var ng := NormalizeTitle(guess);
              var nt := NormalizeTitle(Canonicalize(title));
              ng != [] && nt != [] && CloseEnough(ng, nt))
  {
    if GuessContainsTitle(guess, title) then true
    else
      var ng := NormalizeTitle(guess);
      var nt := NormalizeTitle(Canonicalize(title));
      if ng == [] || nt == [] then false
      else CloseEnough(ng, nt)
  }

  /** A guess that normalises to the same non-empty text as the canonical title is correct. */
  lemma SameNormalFormIsCorrect(guess: seq<char>, title: seq<char>)
    requires NormalizeTitle(guess) == NormalizeTitle(Canonicalize(title)) != []
    ensures IsCorrectGuess(guess, title)
  {
  }

  /** The fuzzy fallback never accepts a guess whose normalised length is far
      from the title's: one of the two exceeding 23/17 of the other means the
      guess is correct only by containment. */
  lemma FuzzyNeedsComparableLength(guess: seq<char>, title: seq<char>)
    requires var ng := NormalizeTitle(guess);
      var nt := NormalizeTitle(Canonicalize(title));
      17 * |ng| > 23 * |nt| || 17 * |nt| > 23 * |ng|
    ensures IsCorrectGuess(guess, title) <==> GuessContainsTitle(guess, title)
  {
  }

  // ---------------------------------------------------------------- guess_includes_artist

  /** Length of the match of `,|&|feat\.?|with|x` (ignoring case) at the start of `s`,
      or 0 when none of the alternatives matches there. */
  function DelimLen(s: seq<char>): (n: nat)
    ensures n <= |s|
    ensures n == 0 || n == 1 || n == 4 || n == 5
  {
    if s == [] then 0
    else if s[0] == ',' || s[0] == '&' then 1
    else if |s| >= 4 && Lower(s[..4]) == "feat" then (if |s| >= 5 && s[4] == '.' then 5 else 4)
    else if |s| >= 4 && Lower(s[..4]) == "with" then 4
    else if LowerChar(s[0]) == 'x' then 1
    else 0
  }

  /** `re.split(r",|&|feat\.?|with|x", s, flags=re.IGNORECASE)`. */
  function SplitArtists(s: seq<char>): (tokens: seq<seq<char>>)
    ensures |tokens| >= 1
    decreases |s|
  {
    if s == [] then [[]]
    else
      var n := DelimLen(s);
      if n > 0 then [[]] + SplitArtists(s[n..])
      else
        var rest := SplitArtists(s[1..]);
        [[s[0]] + rest[0]] + rest[1..]
  }

  /** The delimiters `SplitArtists` cut at, in order. */
  function Delimiters(s: seq<char>): (ds: seq<seq<char>>)
    ensures |ds| == |SplitArtists(s)| - 1
    decreases |s|
  {
    if s == [] then []
    else
      var n := DelimLen(s);
      if n > 0 then [s[..n]] + Delimiters(s[n..]) else Delimiters(s[1..])
  }

  /** `tokens[0] + ds[0] + tokens[1] + ... + tokens[|ds|]`. */
  function Interleave(tokens: seq<seq<char>>, ds: seq<seq<char>>): seq<char>
    requires |tokens| == |ds| + 1
  {
    if ds == [] then tokens[0] else tokens[0] + ds[0] + Interleave(tokens[1..], ds[1..])
  }

  /** Growing the first token by one character grows the interleaving by that character. */
  lemma {:induction false} InterleaveCons(c: char, tokens: seq<seq<char>>, ds: seq<seq<char>>)
    requires |tokens| == |ds| + 1
    ensures Interleave([[c] + tokens[0]] + tokens[1..], ds) == [c] + Interleave(tokens, ds)
  {
    var grown := [[c] + tokens[0]] + tokens[1..];
    assert grown[0] == [c] + tokens[0];
    if ds != [] {
      assert grown[1..] == tokens[1..];
      var rest := ds[0] + Interleave(tokens[1..], ds[1..]);
      assert Interleave(grown, ds) == ([c] + tokens[0]) + rest;
      assert Interleave(tokens, ds) == tokens[0] + rest;
    }
  }

  /** A cut at delimiter `d` puts an empty token and `d` in front of the interleaving. */
  lemma {:induction false} InterleaveCut(d: seq<char>, tokens: seq<seq<char>>, ds: seq<seq<char>>)
    requires |tokens| == |ds| + 1
    ensures Interleave([[]] + tokens, [d] + ds) == d + Interleave(tokens, ds)
  {
    assert ([[]] + tokens)[1..] == tokens;
    assert ([d] + ds)[1..] == ds;
  }

  /** Splitting loses nothing: the tokens and the delimiters between them give back the input. */
  lemma {:induction false} SplitArtistsRoundTrip(s: seq<char>)
    ensures Interleave(SplitArtists(s), Delimiters(s)) == s
    decreases |s|
  {
    if s != [] {
      var n := DelimLen(s);
      if n > 0 {
        var tokens, ds := SplitArtists(s[n..]), Delimiters(s[n..]);
        calc {
          Interleave(SplitArtists(s), Delimiters(s));
          { assert SplitArtists(s) == [[]] + tokens && Delimiters(s) == [s[..n]] + ds; }
          Interleave([[]] + tokens, [s[..n]] + ds);
          { InterleaveCut(s[..n], tokens, ds); }
          s[..n] + Interleave(tokens, ds);
          { SplitArtistsRoundTrip(s[n..]); }
          s[..n] + s[n..];
          s;
        }
      } else {
        var rest, ds := SplitArtists(s[1..]), Delimiters(s[1..]);
        calc {
          Interleave(SplitArtists(s), Delimiters(s));
          { assert SplitArtists(s) == [[s[0]] + rest[0]] + rest[1..] && Delimiters(s) == ds; }
          Interleave([[s[0]] + rest[0]] + rest[1..], ds);
          { InterleaveCons(s[0], rest, ds); }
          [s[0]] + Interleave(rest, ds);
          { SplitArtistsRoundTrip(s[1..]); }
          [s[0]] + s[1..];
          s;
        }
      }
    }
  }

  /** Every cut is at a genuine delimiter. */
  lemma {:induction false} DelimitersMatch(s: seq<char>)
    ensures forall k :: 0 <= k < |Delimiters(s)| ==>
      |Delimiters(s)[k]| > 0 && DelimLen(Delimiters(s)[k]) == |Delimiters(s)[k]|
    decreases |s|
  {
    if s != [] {
      var n := DelimLen(s);
      if n > 0 {
        DelimitersMatch(s[n..]);
        var d := s[..n];
        assert DelimLen(d) == n by {
          if n >= 4 {
            assert d[..4] == s[..4];
          }
        }
      } else {
        DelimitersMatch(s[1..]);
      }
    }
  }

  /** A delimiter seen inside a prefix is also a delimiter in the whole text. */
  lemma DelimLenPrefix(t: seq<char>, u: seq<char>)
    ensures DelimLen(t) > 0 ==> DelimLen(t + u) > 0
  {
    var s := t + u;
    if |t| >= 4 {
      assert s[..4] == t[..4];
    }
  }

  /** No token contains a delimiter: the split cuts at every one. */
  lemma {:induction false} TokensHaveNoDelimiter(s: seq<char>)
    ensures forall k, p :: 0 <= k < |SplitArtists(s)| && 0 <= p < |SplitArtists(s)[k]| ==>
      DelimLen(SplitArtists(s)[k][p..]) == 0
    decreases |s|
  {
    if s != [] {
      var n := DelimLen(s);
      var tokens := SplitArtists(s);
      if n > 0 {
        TokensHaveNoDelimiter(s[n..]);
        forall k, p | 0 <= k < |tokens| && 0 <= p < |tokens[k]|
          ensures DelimLen(tokens[k][p..]) == 0
        {
          if k > 0 {
            assert tokens[k] == SplitArtists(s[n..])[k - 1];
          }
        }
      } else {
        TokensHaveNoDelimiter(s[1..]);
        var rest := SplitArtists(s[1..]);
        forall k, p | 0 <= k < |tokens| && 0 <= p < |tokens[k]|
          ensures DelimLen(tokens[k][p..]) == 0
        {
          if k > 0 {
            assert tokens[k] == rest[k];
          } else if p > 0 {
            assert tokens[0][p..] == rest[0][p - 1..];
          } else {
            TokenIsPrefix(s);
            DelimLenPrefix(s[..|tokens[0]|], s[|tokens[0]|..]);
            assert s[..|tokens[0]|] + s[|tokens[0]|..] == s;
          }
        }
      }
    }
  }

  /** The first token is where the text starts. */
  lemma TokenIsPrefix(s: seq<char>)
    ensures |SplitArtists(s)[0]| <= |s| && s[..|SplitArtists(s)[0]|] == SplitArtists(s)[0]
  {
    SplitArtistsRoundTrip(s);
    var tokens := SplitArtists(s);
    var ds := Delimiters(s);
    if ds != [] {
      assert s == tokens[0] + ds[0] + Interleave(tokens[1..], ds[1..]);
      assert s[..|tokens[0]|] == tokens[0];
    } else {
      assert s == tokens[0];
    }
  }

  /** The `x` alternative matches inside names, so "Alex" splits into "Ale" and "". */
  lemma SplitInsideName()
    ensures SplitArtists("Alex") == ["Ale", ""]
  {
    var s := "Alex";
    var r3 := SplitArtists(s[3..]);
    assert s[3..] == "x";
    assert DelimLen(s[3..]) == 1;
    assert s[3..][1..] == [];
    assert r3 == [[]] + SplitArtists([]);
    assert r3 == [[], []];
    var r2 := SplitArtists(s[2..]);
    assert s[2..][1..] == s[3..];
    assert DelimLen(s[2..]) == 0;
    assert r2 == [[s[2]] + r3[0]] + r3[1..];
    assert [s[2]] + r3[0] == ['e'] && r3[1..] == [[]];
    assert r2 == [['e'], []];
    var r1 := SplitArtists(s[1..]);
    assert s[1..][1..] == s[2..];
    assert DelimLen(s[1..]) == 0;
    assert r1 == [[s[1]] + r2[0]] + r2[1..];
    assert [s[1]] + r2[0] == ['l', 'e'] && r2[1..] == [[]];
    assert r1 == [['l', 'e'], []];
    assert s[1..] == "lex";
    var r0 := SplitArtists(s);
    assert Lower(s[..4])[0] == 'a';
    assert DelimLen(s) == 0;
    assert r0 == [[s[0]] + r1[0]] + r1[1..];
    assert [s[0]] + r1[0] == ['A', 'l', 'e'] && r1[1..] == [[]];
    assert r0 == [['A', 'l', 'e'], []];
  }

  /** The normalised, stripped key a token is looked up by. */
  function TokenKey(token: seq<char>): seq<char> {
    Strip(NormalizeTitle(token))
  }

  ghost predicate SomeTokenIn(tokens: seq<seq<char>>, ng: seq<char>) {
    exists k :: 0 <= k < |tokens| && TokenKey(tokens[k]) != [] && Occurs(TokenKey(tokens[k]), ng)
  }

  /** The loop over the tokens: does any non-empty key occur in the guess? */
  function AnyTokenIn(tokens: seq<seq<char>>, ng: seq<char>): (b: bool)
    ensures b <==> SomeTokenIn(tokens, ng)
  {
    if tokens == [] then false
    else
      SomeTokenInCons(tokens, ng);
      var key := TokenKey(tokens[0]);
      (key != [] && Contains(ng, key)) || AnyTokenIn(tokens[1..], ng)
  }

  lemma SomeTokenInCons(tokens: seq<seq<char>>, ng: seq<char>)
    requires tokens != []
    ensures SomeTokenIn(tokens, ng) <==>
      (TokenKey(tokens[0]) != [] && Occurs(TokenKey(tokens[0]), ng)) || SomeTokenIn(tokens[1..], ng)
  {
    if SomeTokenIn(tokens[1..], ng) {
      var k :| 0 <= k < |tokens[1..]| && TokenKey(tokens[1..][k]) != [] && Occurs(TokenKey(tokens[1..][k]), ng);
      assert tokens[k + 1] == tokens[1..][k];
    }
    if SomeTokenIn(tokens, ng) {
      var k :| 0 <= k < |tokens| && TokenKey(tokens[k]) != [] && Occurs(TokenKey(tokens[k]), ng);
      if k > 0 {
        assert tokens[1..][k - 1] == tokens[k];
      }
    }
  }

  /** `guess_includes_artist`: some non-empty artist token, normalised, is a
      substring of the normalised guess; failing that, the whole normalised
      artist is. */
  function GuessIncludesArtist(guess: seq<char>, artist: seq<char>): (b: bool)
    ensures var ng := NormalizeTitle(guess);
      b <==> SomeTokenIn(SplitArtists(artist), ng) || Occurs(NormalizeTitle(artist), ng)
    ensures NormalizeTitle(artist) == [] ==> b
  {
    var ng := NormalizeTitle(guess);
    assert OccursAt([], ng, 0);
    AnyTokenIn(SplitArtists(artist), ng) || Contains(ng, NormalizeTitle(artist))
  }

  /** Points for a correct guess, in the terminal and in the window alike: 3 when the
      guess also mentions the artist, else 1. */
  function GuessPoints(guess: seq<char>, artist: seq<char>): (p: int)
    ensures p == 1 || p == 3
    ensures p == 3 <==> GuessIncludesArtist(guess, artist)
  {
    if GuessIncludesArtist(guess, artist) then 3 else 1
  }
}

/** Character-level helpers shared by the model: the ASCII part of Python's
    string methods and of the regular-expression classes the source uses. */
module Text {

  /** Python's whitespace restricted to ASCII: `str.isspace`, `str.strip()`
      and the regex class `\s` agree on exactly these ten characters. */
  const Whitespace: set<char> :=
    {' ', '\t', '\n', '\r', '\U{0B}', '\U{0C}', '\U{1C}', '\U{1D}', '\U{1E}', '\U{1F}'}

  predicate IsSpace(c: char) { c in Whitespace }

  predicate IsDigit(c: char) { '0' <= c <= '9' }

  /** The regex class `[a-z0-9]`. */
  predicate IsLowerAlnum(c: char) { 'a' <= c <= 'z' || IsDigit(c) }

  /** `str.lower` on ASCII letters; every other character is left as it is. */
  function LowerChar(c: char): char {
    if 'A' <= c <= 'Z' then (c as int + 32) as char else c
  }

  /** `str.lower`: each character of `s` lowered on its own, in place. */
  function Lower(s: seq<char>): (r: seq<char>)
    ensures |r| == |s|
    ensures forall k :: 0 <= k < |s| ==> r[k] == LowerChar(s[k])
  {
    seq(|s|, i requires 0 <= i < |s| => LowerChar(s[i]))
  }

  /** No two adjacent whitespace characters. */
  predicate NoDoubleSpace(s: seq<char>) {
    forall i :: 0 <= i < |s| - 1 ==> !(IsSpace(s[i]) && IsSpace(s[i + 1]))
  }

  /** Every whitespace character of `s` is a plain space. */
  predicate PlainSpaces(s: seq<char>) {
    forall i :: 0 <= i < |s| && IsSpace(s[i]) ==> s[i] == ' '
  }

  /** Neither end of `s` is whitespace. */
  predicate Trimmed(s: seq<char>) {
    s == [] || (!IsSpace(s[0]) && !IsSpace(s[|s| - 1]))
  }

  /** Number of leading characters of `s` that are in `cs`. */
  function LeadCount(s: seq<char>, cs: set<char>): (n: nat)
    ensures n <= |s|
    ensures forall k :: 0 <= k < n ==> s[k] in cs
    ensures n == |s| || s[n] !in cs
  {
    if s != [] && s[0] in cs then 1 + LeadCount(s[1..], cs) else 0
  }

  /** Number of trailing characters of `s` that are in `cs`. */
  function TrailCount(s: seq<char>, cs: set<char>): (n: nat)
    ensures n <= |s|
    ensures forall k :: |s| - n <= k < |s| ==> s[k] in cs
    ensures n == |s| || s[|s| - n - 1] !in cs
  {
    if s != [] && s[|s| - 1] in cs then 1 + TrailCount(s[..|s| - 1], cs) else 0
  }

  /** Python's `str.strip(chars)`: the longest slice whose two ends are not in `cs`. */
  function StripChars(s: seq<char>, cs: set<char>): (r: seq<char>)
    ensures |r| <= |s|
    ensures r == [] || (r[0] !in cs && r[|r| - 1] !in cs)
  {
    var i := LeadCount(s, cs);
    s[i..|s| - TrailCount(s[i..], cs)]
  }

  /** What stripping removed: a prefix and a suffix made only of characters of `cs`. */
  lemma StripCharsSlice(s: seq<char>, cs: set<char>) returns (i: nat, j: nat)
    ensures i <= j <= |s| && StripChars(s, cs) == s[i..j]
    ensures forall k :: 0 <= k < i ==> s[k] in cs
    ensures forall k :: j <= k < |s| ==> s[k] in cs
  {
    i := LeadCount(s, cs);
    j := |s| - TrailCount(s[i..], cs);
    assert forall k :: j <= k < |s| ==> s[k] == s[i..][k - i];
  }

  /** Python's `str.strip()` with no argument. */
  function Strip(s: seq<char>): (r: seq<char>)
    ensures |r| <= |s|
    ensures Trimmed(r)
  {
    StripChars(s, Whitespace)
  }

  /** Stripping leaves a string whose ends are not in the set unchanged. */
  lemma StripCharsNoop(s: seq<char>, cs: set<char>)
    requires s == [] || (s[0] !in cs && s[|s| - 1] !in cs)
    ensures StripChars(s, cs) == s
  {
  }

  /** A slice keeps the whitespace properties of the string it is cut from. */
  lemma SliceKeepsSpacing(s: seq<char>, i: nat, j: nat)
    requires i <= j <= |s|
    ensures NoDoubleSpace(s) ==> NoDoubleSpace(s[i..j])
    ensures PlainSpaces(s) ==> PlainSpaces(s[i..j])
  {
    if NoDoubleSpace(s) {
      forall k | 0 <= k < j - i - 1
        ensures !(IsSpace(s[i..j][k]) && IsSpace(s[i..j][k + 1]))
      {
        assert s[i..j][k] == s[i + k] && s[i..j][k + 1] == s[i + k + 1];
      }
    }
  }

  lemma StripKeepsSpacing(s: seq<char>)
    ensures NoDoubleSpace(s) ==> NoDoubleSpace(Strip(s))
    ensures PlainSpaces(s) ==> PlainSpaces(Strip(s))
  {
    var i, j := StripCharsSlice(s, Whitespace);
    SliceKeepsSpacing(s, i, j);
  }

  /** The regex substitutions `re.sub(r"\s+", " ", s)` (when `single`) and
      `re.sub(r"\s{2,}", " ", s)` (when not): each maximal whitespace run
      long enough to match becomes one plain space; a lone whitespace
      character survives the second form unchanged. */
  function SquashSpaceRuns(s: seq<char>, single: bool): (r: seq<char>)
    ensures |r| <= |s|
    ensures r == [] <==> s == []
    ensures s != [] ==> (IsSpace(r[0]) <==> IsSpace(s[0]))
    ensures s != [] && (s[0] == ' ' || !IsSpace(s[0])) ==> r[0] == s[0]
    ensures NoDoubleSpace(r)
    ensures single ==> PlainSpaces(r)
    ensures PlainSpaces(s) ==> PlainSpaces(r)
    decreases |s|
  {
    if |s| >= 2 && IsSpace(s[0]) && IsSpace(s[1]) then SquashSpaceRuns([' '] + s[2..], single)
    else if s == [] then []
    else if single && IsSpace(s[0]) then [' '] + SquashSpaceRuns(s[1..], single)
    else [s[0]] + SquashSpaceRuns(s[1..], single)
  }

  /** Squashing changes nothing in a string already made of single plain spaces. */
  lemma {:induction false} SquashNoop(s: seq<char>, single: bool)
    requires PlainSpaces(s) && NoDoubleSpace(s)
    ensures SquashSpaceRuns(s, single) == s
    decreases |s|
  {
    if s != [] {
      assert PlainSpaces(s[1..]) && NoDoubleSpace(s[1..]) by {
        SliceKeepsSpacing(s, 1, |s|);
        assert s[1..|s|] == s[1..];
      }
      SquashNoop(s[1..], single);
    }
  }

  /** Every character squashing produces is a plain space or a character of the input. */
  lemma {:induction false} SquashFrom(s: seq<char>, single: bool)
    ensures forall k :: 0 <= k < |SquashSpaceRuns(s, single)| ==>
      SquashSpaceRuns(s, single)[k] == ' ' || SquashSpaceRuns(s, single)[k] in s
    decreases |s|
  {
    var r := SquashSpaceRuns(s, single);
    if |s| >= 2 && IsSpace(s[0]) && IsSpace(s[1]) {
      SquashFrom([' '] + s[2..], single);
      forall k | 0 <= k < |r| ensures r[k] == ' ' || r[k] in s {
        if r[k] != ' ' {
          assert r[k] in s[2..];
        }
      }
    } else if s != [] {
      SquashFrom(s[1..], single);
      var t := SquashSpaceRuns(s[1..], single);
      forall k | 0 <= k < |r| ensures r[k] == ' ' || r[k] in s {
        if k > 0 {
          assert r[k] == t[k - 1];
        }
      }
    }
  }

  /** The non-whitespace characters of `s`, in order. */
  function NonSpace(s: seq<char>): seq<char> {
    if s == [] then [] else (if IsSpace(s[0]) then [] else [s[0]]) + NonSpace(s[1..])
  }

  lemma {:induction false} NonSpaceConcat(a: seq<char>, b: seq<char>)
    ensures NonSpace(a + b) == NonSpace(a) + NonSpace(b)
  {
    if a != [] {
      assert a + b != [] && (a + b)[0] == a[0] && (a + b)[1..] == a[1..] + b;
      NonSpaceConcat(a[1..], b);
      calc {
        NonSpace(a + b);
        (if IsSpace(a[0]) then [] else [a[0]]) + NonSpace(a[1..] + b);
        (if IsSpace(a[0]) then [] else [a[0]]) + NonSpace(a[1..]) + NonSpace(b);
      }
    } else {
      assert a + b == b;
    }
  }

  /** Squashing whitespace runs never touches a non-whitespace character. */
  lemma {:induction false} SquashKeepsNonSpace(s: seq<char>, single: bool)
    ensures NonSpace(SquashSpaceRuns(s, single)) == NonSpace(s)
    decreases |s|
  {
    if |s| >= 2 && IsSpace(s[0]) && IsSpace(s[1]) {
      SquashKeepsNonSpace([' '] + s[2..], single);
      assert ([' '] + s[2..])[1..] == s[2..];
      assert s[1..][1..] == s[2..];
    } else if s != [] {
      SquashKeepsNonSpace(s[1..], single);
      NonSpaceConcat([SquashSpaceRuns(s, single)[0]], SquashSpaceRuns(s[1..], single));
      assert SquashSpaceRuns(s, single) == [SquashSpaceRuns(s, single)[0]] + SquashSpaceRuns(s[1..], single);
    }
  }

  /** Stripping whitespace never removes a non-whitespace character. */
  lemma StripKeepsNonSpace(s: seq<char>)
    ensures NonSpace(Strip(s)) == NonSpace(s)
  {
    var i, j := StripCharsSlice(s, Whitespace);
    var pre, mid, post := s[..i], s[i..j], s[j..];
    assert NonSpace(pre) == [] by {
      assert forall k :: 0 <= k < |pre| ==> pre[k] == s[k];
      AllSpaceNonSpace(pre);
    }
    assert NonSpace(post) == [] by {
      assert forall k :: 0 <= k < |post| ==> post[k] == s[j + k];
      AllSpaceNonSpace(post);
    }
    assert s == pre + mid + post;
    NonSpaceConcat(pre + mid, post);
    NonSpaceConcat(pre, mid);
  }

  lemma {:induction false} AllSpaceNonSpace(s: seq<char>)
    requires forall k :: 0 <= k < |s| ==> IsSpace(s[k])
    ensures NonSpace(s) == []
  {
    if s != [] {
      AllSpaceNonSpace(s[1..]);
    }
  }

  /** `p` occurs in `s` starting at index `i`. */
  predicate OccursAt(p: seq<char>, s: seq<char>, i: int) {
    0 <= i && i + |p| <= |s| && s[i..i + |p|] == p
  }

  /** `p in s` for strings: `p` occurs in `s` at some position. */
  ghost predicate Occurs(p: seq<char>, s: seq<char>)
    ensures Occurs(p, s) ==> |p| <= |s|
  {
    exists i :: OccursAt(p, s, i)
  }

  /** The scan behind Python's `p in s`: first position at or after `from` where `p` occurs. */
  function FindFrom(s: seq<char>, p: seq<char>, from: nat): (r: int)
    requires from <= |s|
    ensures r == -1 || (from <= r && OccursAt(p, s, r))
    decreases |s| - from
  {
    if from + |p| > |s| then -1
    else if s[from..from + |p|] == p then from
    else FindFrom(s, p, from + 1)
  }

  /** The scan finds the first occurrence at or after `from`, and reports -1 only when there is none. */
  lemma {:induction false} FindFromFirst(s: seq<char>, p: seq<char>, from: nat)
    requires from <= |s|
    ensures forall k :: from <= k && OccursAt(p, s, k) ==> 0 <= FindFrom(s, p, from) <= k
    decreases |s| - from
  {
    if from + |p| <= |s| && s[from..from + |p|] != p {
      FindFromFirst(s, p, from + 1);
    }
  }

  /** `p in s`, computed by the scan. */
  function Contains(s: seq<char>, p: seq<char>): (b: bool)
    ensures b <==> Occurs(p, s)
  {
    FindFromFirst(s, p, 0);
    FindFrom(s, p, 0) >= 0
  }

  /** Python's `s.split(sep)`: cut at every non-overlapping occurrence, left to right. */
  function SplitOn(s: seq<char>, sep: seq<char>): (parts: seq<seq<char>>)
    requires |sep| > 0
    ensures |parts| >= 1
    decreases |s|
  {
    var i := FindFrom(s, sep, 0);
    if i < 0 then [s] else [s[..i]] + SplitOn(s[i + |sep|..], sep)
  }

  /** No part of a split contains the separator. */
  lemma {:induction false} SplitPartsLackSeparator(s: seq<char>, sep: seq<char>)
    requires |sep| > 0
    ensures forall k :: 0 <= k < |SplitOn(s, sep)| ==> !Occurs(sep, SplitOn(s, sep)[k])
    decreases |s|
  {
    var i := FindFrom(s, sep, 0);
    if i >= 0 {
      var head := s[..i];
      var rest := s[i + |sep|..];
      forall k | OccursAt(sep, head, k) ensures OccursAt(sep, s, k) && k < i {
        assert head[k..k + |sep|] == s[k..k + |sep|];
      }
      FindFromFirst(s, sep, 0);
      assert !Occurs(sep, head);
      SplitPartsLackSeparator(rest, sep);
      var parts := SplitOn(s, sep);
      assert parts == [head] + SplitOn(rest, sep);
      forall k | 0 <= k < |parts| ensures !Occurs(sep, parts[k]) {
        if k > 0 {
          assert parts[k] == SplitOn(rest, sep)[k - 1];
        }
      }
    } else {
      FindFromFirst(s, sep, 0);
    }
  }

  /** Python's `sep.join(parts)`: it starts with the first part, and it is
      empty exactly when there are no parts or a single empty one. */
  function Join(parts: seq<seq<char>>, sep: seq<char>): (s: seq<char>)
    ensures |parts| > 0 ==> parts[0] <= s
    ensures |sep| > 0 ==> (s == [] <==> |parts| == 0 || (|parts| == 1 && parts[0] == []))
  {
    if |parts| == 0 then [] else if |parts| == 1 then parts[0] else parts[0] + sep + Join(parts[1..], sep)
  }

  lemma JoinCons(head: seq<char>, tail: seq<seq<char>>, sep: seq<char>)
    requires |tail| >= 1
    ensures Join([head] + tail, sep) == head + sep + Join(tail, sep)
  {
    assert ([head] + tail)[1..] == tail;
  }

  /** Splitting loses nothing: joining the parts back with the separator gives the input. */
  lemma {:induction false} SplitJoin(s: seq<char>, sep: seq<char>)
    requires |sep| > 0
    ensures Join(SplitOn(s, sep), sep) == s
    decreases |s|
  {
    var i := FindFrom(s, sep, 0);
    if i >= 0 {
      var rest := s[i + |sep|..];
      assert SplitOn(s, sep) == [s[..i]] + SplitOn(rest, sep);
      SplitJoin(rest, sep);
      JoinCons(s[..i], SplitOn(rest, sep), sep);
      assert s[..i] + sep + rest == s by {
        assert s[i..i + |sep|] == sep;
        assert s == s[..i] + s[i..i + |sep|] + rest;
      }
    }
  }

  /** Each part of a split is a slice of the split string. */
  lemma {:induction false} SplitPartSlice(s: seq<char>, sep: seq<char>, k: nat) returns (i: nat, j: nat)
    requires |sep| > 0 && k < |SplitOn(s, sep)|
    ensures i <= j <= |s| && SplitOn(s, sep)[k] == s[i..j]
    decreases |s|
  {
    var f := FindFrom(s, sep, 0);
    if f < 0 {
      assert SplitOn(s, sep) == [s];
      i, j := 0, |s|;
    } else {
      var rest := s[f + |sep|..];
      var tail := SplitOn(rest, sep);
      assert SplitOn(s, sep) == [s[..f]] + tail;
      if k == 0 {
        i, j := 0, f;
      } else {
        var i', j' := SplitPartSlice(rest, sep, k - 1);
        i, j := f + |sep| + i', f + |sep| + j';
        assert tail[k - 1] == rest[i'..j'] == s[i..j];
      }
    }
  }

  /** Every character of `s` is in `cs`. */
  predicate AllIn(s: seq<char>, cs: set<char>) {
    forall c :: c in s ==> c in cs
  }

  /** Joining parts made of characters of `cs` with a separator made of them
      gives a string made of them. */
  lemma {:induction false} JoinAllIn(parts: seq<seq<char>>, sep: seq<char>, cs: set<char>)
    requires forall k :: 0 <= k < |parts| ==> AllIn(parts[k], cs)
    requires AllIn(sep, cs)
    ensures AllIn(Join(parts, sep), cs)
  {
    if |parts| > 1 {
      JoinAllIn(parts[1..], sep, cs);
      assert parts[1..][0] == parts[1];
    }
  }

  /** Stripping empties a string exactly when all of it is in the set. */
  lemma StripCharsEmpty(s: seq<char>, cs: set<char>)
    ensures StripChars(s, cs) == [] <==> AllIn(s, cs)
  {
    var i, j := StripCharsSlice(s, cs);
    if StripChars(s, cs) == [] {
      assert i == j;
      forall c | c in s ensures c in cs {
        var k :| 0 <= k < |s| && s[k] == c;
        assert k < i || j <= k;
      }
    } else {
      var r := StripChars(s, cs);
      assert r[0] in s && r[0] !in cs;
    }
  }

  /** Squashing keeps the last character when it is not whitespace. */
  lemma {:induction false} SquashKeepsLast(s: seq<char>, single: bool)
    requires s != [] && !IsSpace(s[|s| - 1])
    ensures var r := SquashSpaceRuns(s, single); r[|r| - 1] == s[|s| - 1]
    decreases |s|
  {
    var r := SquashSpaceRuns(s, single);
    if |s| >= 2 && IsSpace(s[0]) && IsSpace(s[1]) {
      var u := [' '] + s[2..];
      assert r == SquashSpaceRuns(u, single);
      assert u[|u| - 1] == s[|s| - 1];
      SquashKeepsLast(u, single);
    } else if |s| >= 2 {
      var t := SquashSpaceRuns(s[1..], single);
      assert r == [r[0]] + t;
      assert s[1..][|s| - 2] == s[|s| - 1];
      SquashKeepsLast(s[1..], single);
    }
  }

  /** A string without the separator splits into itself alone. */
  lemma SplitWithoutSeparator(s: seq<char>, sep: seq<char>)
    requires |sep| > 0 && !Occurs(sep, s)
    ensures SplitOn(s, sep) == [s]
  {
  }
}

/**
 * The parts of Python's `str` that the shell-text bridge relies on, over ASCII:
 * `in`, `startswith`, `endswith`, `strip`, `split()`, `split(sep)`, `join`,
 * `replace`, `lower`, `upper`, `title`, `isdigit`, `int(...)` and `str(int)`.
 * Whitespace is the six ASCII whitespace characters; no Unicode case folding.
 */
module Text {
  import opened Wrappers

  // ---------------------------------------------------------------- characters

  predicate IsSpace(c: char) {
    c == ' ' || c == '\t' || c == '\n' || c == '\r' || c == '\U{000B}' || c == '\U{000C}'
  }

  predicate IsDigit(c: char) { '0' <= c <= '9' }

  predicate IsUpperChar(c: char) { 'A' <= c <= 'Z' }

  predicate IsLowerChar(c: char) { 'a' <= c <= 'z' }

  function LowerChar(c: char): (r: char)
    ensures !IsUpperChar(r)
    ensures IsUpperChar(c) || r == c
  {
    if IsUpperChar(c) then (c as int + 32) as char else c
  }

  function UpperChar(c: char): (r: char)
    ensures !IsLowerChar(r)
    ensures IsLowerChar(c) || r == c
  {
    if IsLowerChar(c) then (c as int - 32) as char else c
  }

  /** Python `s.isdigit()` over ASCII: non-empty and only digits. */
  predicate IsDigits(s: string) {
    |s| > 0 && forall i :: 0 <= i < |s| ==> IsDigit(s[i])
  }

  predicate NoSpace(s: string) {
    forall i :: 0 <= i < |s| ==> !IsSpace(s[i])
  }

  // ----------------------------------------------------------- prefix, search

  /** `s.rstrip(c)` for one character. */
  function RStripChar(s: string, c: char): (r: string)
    ensures StartsWith(s, r) && (r == [] || r[|r| - 1] != c)
    ensures forall i :: |r| <= i < |s| ==> s[i] == c
  {
    if s == [] || s[|s| - 1] != c then s else RStripChar(s[..|s| - 1], c)
  }

  /** Python `s.startswith(p)`. */
  predicate StartsWith(s: string, p: string) {
    |p| <= |s| && s[..|p|] == p
  }

  /** Python `s.endswith(p)`. */
  predicate EndsWith(s: string, p: string) {
    |p| <= |s| && s[|s| - |p|..] == p
  }

  /** Python `sub in s`. */
  predicate Contains(s: string, sub: string)
    decreases |s|
  {
    StartsWith(s, sub) || (s != [] && Contains(s[1..], sub))
  }

  /** A text containing `sub` contains its first character. */
  lemma {:induction false} ContainsFirst(s: string, sub: string)
    requires |sub| > 0 && Contains(s, sub)
    ensures sub[0] in s
    decreases |s|
  {
    if !StartsWith(s, sub) {
      ContainsFirst(s[1..], sub);
      assert s[1..][..] == s[1..];
    }
  }

  /** Python `s.find(sub)`, as an option: the first index at which `sub` occurs. */
  function Find(s: string, sub: string): (r: Option<nat>)
    decreases |s|
    ensures r.Some? <==> Contains(s, sub)
    ensures r.Some? ==> r.value + |sub| <= |s| && s[r.value..r.value + |sub|] == sub
  {
    if StartsWith(s, sub) then Some(0)
    else if s == [] then None
    else match Find(s[1..], sub)
      case None => None
      case Some(i) =>
        assert s[i + 1..i + 1 + |sub|] == s[1..][i..i + |sub|];
        Some(i + 1)
  }

  /** No occurrence of `sub` starts before the index `find` returns. */
  lemma {:induction false} FindFirst(s: string, sub: string)
    ensures Find(s, sub).Some? ==> forall j :: 0 <= j < Find(s, sub).value ==> !StartsWith(s[j..], sub)
    decreases |s|
  {
    if !StartsWith(s, sub) && s != [] {
      FindFirst(s[1..], sub);
      if Find(s, sub).Some? {
        assert forall j :: 1 <= j < Find(s, sub).value ==> s[j..] == s[1..][j - 1..];
      }
    }
  }

  lemma {:induction false} ContainsAt(s: string, sub: string, i: nat)
    requires i + |sub| <= |s| && s[i..i + |sub|] == sub
    ensures Contains(s, sub)
    decreases i
  {
    if i == 0 {
      assert s[..|sub|] == sub;
    } else {
      assert s[1..][i - 1..i - 1 + |sub|] == s[i..i + |sub|];
      ContainsAt(s[1..], sub, i - 1);
    }
  }

  lemma {:induction false} ContainsChar(s: string, c: char)
    ensures Contains(s, [c]) <==> c in s
    decreases |s|
  {
    if s != [] {
      ContainsChar(s[1..], c);
      assert s == [s[0]] + s[1..];
    }
  }

  /** `sub` occurs in `a + b` when it occurs in `a`. */
  lemma {:induction false} ContainsPrefix(a: string, b: string, sub: string)
    requires Contains(a, sub)
    ensures Contains(a + b, sub)
  {
    var i := Find(a, sub).value;
    assert (a + b)[i..i + |sub|] == a[i..i + |sub|];
    ContainsAt(a + b, sub, i);
  }

  /** `sub` occurs in `a + b` when it occurs in `b`. */
  lemma {:induction false} ContainsSuffix(a: string, b: string, sub: string)
    requires Contains(b, sub)
    ensures Contains(a + b, sub)
  {
    var i := Find(b, sub).value;
    assert (a + b)[|a| + i..|a| + i + |sub|] == b[i..i + |sub|];
    ContainsAt(a + b, sub, |a| + i);
  }

  // ------------------------------------------------------------------- strip

  /** Python `s.rstrip()`: the text without its trailing whitespace. */
  function RStrip(s: string): (r: string)
    decreases |s|
    ensures |r| <= |s| && r == s[..|r|]
    ensures r == [] || !IsSpace(r[|r| - 1])
  {
    if s != [] && IsSpace(s[|s| - 1]) then RStrip(s[..|s| - 1]) else s
  }

  /** Python `s.strip()`: the leading whitespace is dropped, then `rstrip` drops the trailing. */
  function Strip(s: string): (r: string)
    decreases |s|
    ensures r == [] || (!IsSpace(r[0]) && !IsSpace(r[|r| - 1]))
    ensures |r| <= |s|
  {
    if s != [] && IsSpace(s[0]) then Strip(s[1..]) else RStrip(s)
  }

  /** Stripping changes nothing when neither end is whitespace. */
  lemma {:induction false} StripNoOp(s: string)
    requires s == [] || (!IsSpace(s[0]) && !IsSpace(s[|s| - 1]))
    ensures Strip(s) == s
  {
  }

  lemma {:induction false} StripAllSpace(s: string)
    requires forall i :: 0 <= i < |s| ==> IsSpace(s[i])
    ensures Strip(s) == []
    decreases |s|
  {
    if s != [] {
      StripAllSpace(s[1..]);
    }
  }

  /** Whatever `rstrip` leaves of a text that starts with a non-space is non-empty. */
  lemma {:induction false} RStripKeepsHead(s: string)
    requires s != [] && !IsSpace(s[0])
    ensures RStrip(s) != []
    decreases |s|
  {
    if |s| > 1 && IsSpace(s[|s| - 1]) {
      RStripKeepsHead(s[..|s| - 1]);
    }
  }

  /** A text strips to nothing exactly when it is all whitespace. */
  lemma {:induction false} StripEmpty(s: string)
    ensures Strip(s) == [] <==> forall i :: 0 <= i < |s| ==> IsSpace(s[i])
    decreases |s|
  {
    if s != [] {
      if IsSpace(s[0]) {
        StripEmpty(s[1..]);
        assert forall i :: 1 <= i < |s| ==> s[i] == s[1..][i - 1];
      } else {
        RStripKeepsHead(s);
      }
    } else {
      StripAllSpace(s);
    }
  }

  lemma {:induction false} RStripSuffixSpace(a: string, b: string)
    requires forall i :: 0 <= i < |b| ==> IsSpace(b[i])
    ensures RStrip(a + b) == RStrip(a)
    decreases |b|
  {
    if b != [] {
      assert (a + b)[|a + b| - 1] == b[|b| - 1] && IsSpace(b[|b| - 1]);
      assert (a + b)[..|a + b| - 1] == a + b[..|b| - 1];
      RStripSuffixSpace(a, b[..|b| - 1]);
      assert RStrip(a + b) == RStrip((a + b)[..|a + b| - 1]);
    } else {
      assert a + b == a;
    }
  }

  /** Stripping discards whitespace padding on either side. */
  lemma {:induction false} StripPadded(pre: string, s: string, post: string)
    requires forall i :: 0 <= i < |pre| ==> IsSpace(pre[i])
    requires forall i :: 0 <= i < |post| ==> IsSpace(post[i])
    requires s == [] || (!IsSpace(s[0]) && !IsSpace(s[|s| - 1]))
    ensures Strip(pre + s + post) == s
    decreases |pre|
  {
    if pre == [] {
      assert pre + s + post == s + post;
      StripTrailingSpace(s, post);
    } else {
      var x := pre + s + post;
      assert x[0] == pre[0];
      assert x[1..] == pre[1..] + s + post;
      StripPadded(pre[1..], s, post);
    }
  }

  /** Stripping discards trailing whitespace after a text with no space at either end. */
  lemma {:induction false} StripTrailingSpace(s: string, post: string)
    requires forall i :: 0 <= i < |post| ==> IsSpace(post[i])
    requires s == [] || (!IsSpace(s[0]) && !IsSpace(s[|s| - 1]))
    ensures Strip(s + post) == s
  {
    if s == [] {
      assert s + post == post;
      StripAllSpace(post);
    } else {
      assert (s + post)[0] == s[0];
      RStripSuffixSpace(s, post);
    }
  }

  // ---------------------------------------------------------- split() / join

  /** Length of the leading run of non-whitespace characters. */
  function WordLen(s: string): (n: nat)
    decreases |s|
    ensures n <= |s|
    ensures n == |s| || IsSpace(s[n])
  {
    if s == [] || IsSpace(s[0]) then 0 else 1 + WordLen(s[1..])
  }

  /** The leading run holds no whitespace. */
  lemma {:induction false} WordLenNoSpace(s: string)
    ensures NoSpace(s[..WordLen(s)])
    decreases |s|
  {
    if s != [] && !IsSpace(s[0]) {
      WordLenNoSpace(s[1..]);
      var n := WordLen(s);
      assert s[..n] == [s[0]] + s[1..][..n - 1];
    }
  }

  /** Python `s.split()`: the maximal runs of non-whitespace, in order. */
  function Words(s: string): (r: seq<string>)
    decreases |s|
    ensures forall i :: 0 <= i < |r| ==> r[i] != [] && NoSpace(r[i])
  {
    if s == [] then []
    else if IsSpace(s[0]) then Words(s[1..])
    else
      var n := WordLen(s);
      WordLenNoSpace(s);
      [s[..n]] + Words(s[n..])
  }

  lemma {:induction false} WordLenOf(w: string, rest: string)
    requires NoSpace(w)
    requires rest == [] || IsSpace(rest[0])
    ensures WordLen(w + rest) == |w|
    decreases |w|
  {
    if w != [] {
      assert (w + rest)[1..] == w[1..] + rest;
      WordLenOf(w[1..], rest);
    }
  }

  /** A word followed by whitespace (or nothing) is the first token. */
  lemma {:induction false} WordsCons(w: string, rest: string)
    requires w != [] && NoSpace(w)
    requires rest == [] || IsSpace(rest[0])
    ensures Words(w + rest) == [w] + Words(rest)
  {
    WordLenOf(w, rest);
    assert (w + rest)[..|w|] == w;
    assert (w + rest)[|w|..] == rest;
  }

  /** Leading whitespace is skipped by `split()`. */
  lemma {:induction false} WordsSkipSpace(pre: string, rest: string)
    requires forall i :: 0 <= i < |pre| ==> IsSpace(pre[i])
    ensures Words(pre + rest) == Words(rest)
    decreases |pre|
  {
    if pre != [] {
      assert (pre + rest)[0] == pre[0] && IsSpace(pre[0]);
      assert (pre + rest)[1..] == pre[1..] + rest;
      WordsSkipSpace(pre[1..], rest);
      assert Words(pre + rest) == Words((pre + rest)[1..]);
    } else {
      assert pre + rest == rest;
    }
  }

  /** Python `' '.join(ws)`. */
  function JoinSpace(ws: seq<string>): (r: string)
    ensures ws == [] ==> r == []
    ensures |ws| == 1 ==> r == ws[0]
  {
    if ws == [] then [] else if |ws| == 1 then ws[0] else ws[0] + " " + JoinSpace(ws[1..])
  }

  /** `split()` undoes `' '.join` of whitespace-free, non-empty words. */
  lemma {:induction false} WordsJoinSpace(ws: seq<string>)
    requires forall i :: 0 <= i < |ws| ==> ws[i] != [] && NoSpace(ws[i])
    ensures Words(JoinSpace(ws)) == ws
    decreases |ws|
  {
    if |ws| == 1 {
      WordsCons(ws[0], []);
      assert ws[0] + [] == ws[0];
    } else if |ws| > 1 {
      var w := ws[0];
      var tail := JoinSpace(ws[1..]);
      var rest := " " + tail;
      assert JoinSpace(ws) == w + rest;
      WordsCons(w, rest);
      assert rest[1..] == tail;
      assert Words(rest) == Words(tail);
      forall i | 0 <= i < |ws| - 1 ensures ws[1..][i] == ws[i + 1] {}
      WordsJoinSpace(ws[1..]);
      assert ws == [w] + ws[1..];
    }
  }

  // -------------------------------------------------------------- split(sep)

  /** Python `s.split(sep)` for a non-empty separator. */
  function Split(s: string, sep: string): (r: seq<string>)
    requires |sep| > 0
    decreases |s|
    ensures |r| >= 1
    ensures !Contains(s, sep) ==> r == [s]
  {
    match Find(s, sep)
    case None => [s]
    case Some(i) => [s[..i]] + Split(s[i + |sep|..], sep)
  }

  /** Python `sep.join(parts)`. */
  function Join(parts: seq<string>, sep: string): string {
    if parts == [] then [] else if |parts| == 1 then parts[0] else parts[0] + sep + Join(parts[1..], sep)
  }

  lemma {:induction false} JoinCons(x: string, tail: seq<string>, sep: string)
    requires tail != []
    ensures Join([x] + tail, sep) == x + sep + Join(tail, sep)
  {
    assert ([x] + tail)[1..] == tail;
  }

  /** One step of `split(sep)`: the text before the first separator, then the split of the rest. */
  lemma {:induction false} SplitStep(s: string, sep: string)
    requires |sep| > 0 && Contains(s, sep)
    ensures var i := Find(s, sep).value;
      Split(s, sep) == [s[..i]] + Split(s[i + |sep|..], sep) && s == s[..i] + sep + s[i + |sep|..]
  {
    var i := Find(s, sep).value;
    SliceThree(s, i, |sep|);
  }

  lemma {:induction false} SliceThree(s: string, i: nat, n: nat)
    requires i + n <= |s|
    ensures s == s[..i] + s[i..i + n] + s[i + n..]
  {
    assert s == s[..i] + s[i..];
    assert s[i..] == s[i..i + n] + s[i + n..];
  }

  /** Joining the pieces of a split with the same separator gives the text back. */
  lemma {:induction false} JoinSplit(s: string, sep: string)
    requires |sep| > 0
    ensures Join(Split(s, sep), sep) == s
    decreases |s|
  {
    if Contains(s, sep) {
      var i := Find(s, sep).value;
      var rest := s[i + |sep|..];
      SplitStep(s, sep);
      JoinSplit(rest, sep);
      JoinCons(s[..i], Split(rest, sep), sep);
    }
  }

  /** The text before the first `sep` (all of `s` when there is none): `s.split(sep)[0]`. */
  lemma {:induction false} SplitHead(s: string, sep: string)
    requires |sep| > 0
    ensures Contains(s, sep) ==> Split(s, sep)[0] == s[..Find(s, sep).value]
    ensures Split(s, sep)[0] == s <==> !Contains(s, sep)
  {
  }

  /** When the first character of `sep` does not occur in `pre`, the first piece of `pre + sep + post` is `pre`. */
  lemma {:induction false} SplitHeadPrefix(pre: string, sep: string, post: string)
    requires |sep| > 0 && sep[0] !in pre
    ensures Contains(pre + sep + post, sep)
    ensures Find(pre + sep + post, sep) == Some(|pre|)
    ensures Split(pre + sep + post, sep)[0] == pre
  {
    var s := pre + sep + post;
    FindFirst(s, sep);
    assert s[|pre|..|pre| + |sep|] == sep;
    ContainsAt(s, sep, |pre|);
    forall j | 0 <= j < |pre| ensures !StartsWith(s[j..], sep) {
      assert s[j..][0] == pre[j];
    }
    assert StartsWith(s[|pre|..], sep) by { assert s[|pre|..][..|sep|] == sep; }
    var i := Find(s, sep).value;
    assert StartsWith(s[i..], sep) by { assert s[i..][..|sep|] == s[i..i + |sep|]; }
    assert s[..|pre|] == pre;
  }

  /** The text after the first occurrence of `sep`. */
  function After(s: string, sep: string): (r: string)
    requires |sep| > 0 && Contains(s, sep)
    ensures |r| < |s|
  {
    s[Find(s, sep).value + |sep|..]
  }

  /** `s.split(sep)[1]` is the text between the first and the second separator. */
  lemma {:induction false} SplitSecond(s: string, sep: string)
    requires |sep| > 0 && Contains(s, sep)
    ensures |Split(s, sep)| >= 2
    ensures Split(s, sep)[1] == Split(After(s, sep), sep)[0]
  {
  }

  /** `(pre + sep + post).split(sep)[1]` is `post` when `sep` starts after all of `pre` and does not recur. */
  lemma {:induction false} SplitSecondOf(pre: string, sep: string, post: string)
    requires |sep| > 0 && sep[0] !in pre && !Contains(post, sep)
    ensures Contains(pre + sep + post, sep)
    ensures After(pre + sep + post, sep) == post
    ensures |Split(pre + sep + post, sep)| == 2 && Split(pre + sep + post, sep)[1] == post
  {
    var s := pre + sep + post;
    SplitHeadPrefix(pre, sep, post);
    assert s[|pre| + |sep|..] == post;
    SplitSecond(s, sep);
  }

  /** The first piece of a split holds no separator character when the separator is one character. */
  lemma {:induction false} SplitHeadChar(s: string, c: char)
    requires c in s
    ensures c !in Split(s, [c])[0]
    ensures StartsWith(s, Split(s, [c])[0] + [c])
  {
    ContainsChar(s, c);
    var i := Find(s, [c]).value;
    FindFirst(s, [c]);
    SplitHead(s, [c]);
    forall j | 0 <= j < i ensures s[j] != c {
      assert !StartsWith(s[j..], [c]);
      assert s[j..][..1] == [s[j]];
    }
    assert s[..i + 1] == s[..i] + [c];
  }

  /** `s.split(sep)` has exactly two pieces iff `sep` occurs exactly once. */
  lemma {:induction false} SplitTwo(s: string, sep: string)
    requires |sep| > 0
    ensures |Split(s, sep)| == 2 <==> Contains(s, sep) && !Contains(After(s, sep), sep)
  {
    if Contains(s, sep) {
      var rest := After(s, sep);
      if Contains(rest, sep) {
        assert |Split(rest, sep)| >= 2;
      }
    }
  }

  lemma {:induction false} EndsWithAppend(a: string, b: string, p: string)
    requires EndsWith(b, p) || b == p
    ensures EndsWith(a + b, p)
  {
    assert (a + b)[|a + b| - |p|..] == b[|b| - |p|..];
  }

  lemma {:induction false} LastCons(x: string, tail: seq<string>)
    requires tail != []
    ensures Last([x] + tail) == Last(tail)
  {
  }

  /** `parts[-1]`. */
  function Last(parts: seq<string>): string
    requires parts != []
  {
    parts[|parts| - 1]
  }

  /** The last piece of a split contains no separator. */
  lemma {:induction false} SplitLastNoSep(s: string, sep: string)
    requires |sep| > 0
    ensures !Contains(Last(Split(s, sep)), sep)
    decreases |s|
  {
    if Contains(s, sep) {
      SplitLastAfter(s, sep);
      SplitLastNoSep(After(s, sep), sep);
    }
  }

  /** When the separator occurs, the text ends with it followed by the last piece. */
  lemma {:induction false} SplitLastSuffix(s: string, sep: string)
    requires |sep| > 0 && Contains(s, sep)
    ensures EndsWith(s, sep + Last(Split(s, sep)))
    decreases |s|
  {
    var rest := After(s, sep);
    SplitLastAfter(s, sep);
    AfterSuffix(s, sep);
    if Contains(rest, sep) {
      SplitLastSuffix(rest, sep);
    } else {
      assert Last(Split(rest, sep)) == rest;
    }
    SuffixThrough(s, sep, rest, Last(Split(rest, sep)));
  }

  /** The last piece of a split is the last piece of the split of what follows the first separator. */
  lemma {:induction false} SplitLastAfter(s: string, sep: string)
    requires |sep| > 0 && Contains(s, sep)
    ensures Last(Split(s, sep)) == Last(Split(After(s, sep), sep))
  {
    var i := Find(s, sep).value;
    var rest := s[i + |sep|..];
    var parts := Split(s, sep);
    var tail := Split(rest, sep);
    assert rest == After(s, sep);
    assert parts == [s[..i]] + tail;
    assert parts[|parts| - 1] == tail[|tail| - 1];
  }

  /** The text ends with the first separator followed by everything after it. */
  lemma {:induction false} AfterSuffix(s: string, sep: string)
    requires |sep| > 0 && Contains(s, sep)
    ensures EndsWith(s, sep + After(s, sep))
  {
    var i := Find(s, sep).value;
    var rest := s[i + |sep|..];
    assert rest == After(s, sep);
    assert s[i..i + |sep|] == sep;
    assert s[i..] == sep + rest;
    assert |s| - |sep + rest| == i;
  }

  lemma {:induction false} SuffixThrough(s: string, sep: string, rest: string, last: string)
    requires EndsWith(s, sep + rest)
    requires EndsWith(rest, sep + last) || rest == last
    ensures EndsWith(s, sep + last)
  {
    if rest != last {
      EndsWithAppend(sep, rest, sep + last);
      EndsWithTrans(s, sep + rest, sep + last);
    }
  }

  lemma {:induction false} EndsWithTrans(a: string, b: string, c: string)
    requires EndsWith(a, b) && EndsWith(b, c)
    ensures EndsWith(a, c)
  {
    assert a[|a| - |c|..] == b[|b| - |c|..];
  }

  // ----------------------------------------------------------------- replace

  /** Python `s.replace(old, new)` for a non-empty `pat`: `rep.join(s.split(pat))`. */
  function Replace(s: string, pat: string, rep: string): string
    requires |pat| > 0
  {
    Join(Split(s, pat), rep)
  }

  lemma {:induction false} ReplaceAbsent(s: string, pat: string, rep: string)
    requires |pat| > 0 && !Contains(s, pat)
    ensures Replace(s, pat, rep) == s
  {
  }

  /** A text that starts with `pat` and has no other occurrence of it: replacing `pat` swaps that prefix. */
  lemma {:induction false} ReplaceLeading(pat: string, s: string, rep: string)
    requires |pat| > 0 && !Contains(s, pat)
    ensures Replace(pat + s, pat, rep) == rep + s
  {
    var line := pat + s;
    assert StartsWith(line, pat) by { assert line[..|pat|] == pat; }
    assert Find(line, pat) == Some(0);
    assert line[|pat|..] == s;
    assert Split(line, pat) == [[], s];
    JoinCons([], [s], rep);
    assert [] + rep == rep;
  }

  /** Replacing a single character is a character-by-character substitution. */
  function SubstChar(s: string, a: char, r: string): string
    decreases |s|
  {
    if s == [] then [] else (if s[0] == a then r else [s[0]]) + SubstChar(s[1..], a, r)
  }

  lemma {:induction false} SubstCharAppend(x: string, y: string, a: char, r: string)
    ensures SubstChar(x + y, a, r) == SubstChar(x, a, r) + SubstChar(y, a, r)
    decreases |x|
  {
    if x != [] {
      assert (x + y)[0] == x[0];
      assert (x + y)[1..] == x[1..] + y;
      SubstCharAppend(x[1..], y, a, r);
    } else {
      assert x + y == y;
    }
  }

  lemma {:induction false} SubstCharAbsent(s: string, a: char, r: string)
    requires a !in s
    ensures SubstChar(s, a, r) == s
    decreases |s|
  {
    if s != [] {
      SubstCharAbsent(s[1..], a, r);
      assert s == [s[0]] + s[1..];
    }
  }

  /** Nothing before the first occurrence of a character is that character. */
  lemma {:induction false} FindCharFirst(s: string, a: char)
    requires Contains(s, [a])
    ensures a !in s[..Find(s, [a]).value]
  {
    var i := Find(s, [a]).value;
    FindFirst(s, [a]);
    forall j | 0 <= j < i ensures s[j] != a {
      assert !StartsWith(s[j..], [a]);
      assert s[j..][..1] == [s[j]];
    }
  }

  lemma {:induction false} ReplaceCharIsSubst(s: string, a: char, r: string)
    ensures Replace(s, [a], r) == SubstChar(s, a, r)
    decreases |s|
  {
    ContainsChar(s, a);
    if a !in s {
      SubstCharAbsent(s, a, r);
    } else {
      var i := Find(s, [a]).value;
      var pre, rest := s[..i], s[i + 1..];
      assert Replace(s, [a], r) == pre + r + Replace(rest, [a], r) by {
        SplitStep(s, [a]);
        JoinCons(pre, Split(rest, [a]), r);
      }
      ReplaceCharIsSubst(rest, a, r);
      assert SubstChar(s, a, r) == pre + r + SubstChar(rest, a, r) by {
        SplitStep(s, [a]);
        FindCharFirst(s, a);
        SubstCharSplit(pre, rest, a, r);
      }
    }
  }

  lemma {:induction false} SubstCharSplit(pre: string, rest: string, a: char, r: string)
    requires a !in pre
    ensures SubstChar(pre + [a] + rest, a, r) == pre + r + SubstChar(rest, a, r)
  {
    SubstCharAbsent(pre, a, r);
    SubstCharAppend(pre, [a] + rest, a, r);
    assert ([a] + rest)[1..] == rest;
    assert pre + [a] + rest == pre + ([a] + rest);
  }

  /** After a single-character substitution the character is gone, unless its replacement contains it. */
  lemma {:induction false} SubstCharRemoves(s: string, a: char, r: string)
    requires a !in r
    ensures a !in SubstChar(s, a, r)
    decreases |s|
  {
    if s != [] {
      SubstCharRemoves(s[1..], a, r);
    }
  }

  // -------------------------------------------------------------------- case

  /** Python `s.lower()` over ASCII. */
  function Lower(s: string): (r: string)
    ensures |r| == |s|
    ensures forall i :: 0 <= i < |s| ==> r[i] == LowerChar(s[i])
  {
    seq(|s|, i requires 0 <= i < |s| => LowerChar(s[i]))
  }

  /** Python `s.upper()` over ASCII. */
  function Upper(s: string): (r: string)
    ensures |r| == |s|
    ensures forall i :: 0 <= i < |s| ==> r[i] == UpperChar(s[i])
  {
    seq(|s|, i requires 0 <= i < |s| => UpperChar(s[i]))
  }

  predicate IsLetter(c: char) { IsUpperChar(c) || IsLowerChar(c) }

  /** Python `s.title()` over ASCII: a letter is upper-cased when the previous character is not a letter, lower-cased otherwise. */
  function Title(s: string): (r: string)
    ensures |r| == |s|
    ensures forall i :: 0 <= i < |s| ==>
      r[i] == (if i > 0 && IsLetter(s[i - 1]) then LowerChar(s[i]) else UpperChar(s[i]))
  {
    seq(|s|, i requires 0 <= i < |s| =>
      if i > 0 && IsLetter(s[i - 1]) then LowerChar(s[i]) else UpperChar(s[i]))
  }

  // ----------------------------------------------------------------- numbers

  function DigitChar(d: nat): (c: char)
    requires d < 10
    ensures IsDigit(c)
  {
    ('0' as int + d) as char
  }

  function DigitValue(c: char): (d: nat)
    requires IsDigit(c)
    ensures d < 10 && DigitChar(d) == c
  {
    c as int - '0' as int
  }

  /** The decimal value of a string of digits. */
  function DigitsValue(s: string): nat
    requires forall i :: 0 <= i < |s| ==> IsDigit(s[i])
  {
    if s == [] then 0 else 10 * DigitsValue(s[..|s| - 1]) + DigitValue(s[|s| - 1])
  }

  /** Python `str(n)` for a natural number. */
  function NatToString(n: nat): (r: string)
    ensures IsDigits(r)
  {
    if n < 10 then [DigitChar(n)] else NatToString(n / 10) + [DigitChar(n % 10)]
  }

  /** Python `str(i)` for an integer. */
  function IntToString(i: int): (r: string)
    ensures r != [] && NoSpace(r)
  {
    if i < 0 then "-" + NatToString(-i) else NatToString(i)
  }

  /** Python `int(s)` on a string: surrounding whitespace, an optional sign, then decimal digits. */
  function ParseInt(s: string): (r: Option<int>)
  {
    var t := Strip(s);
    if t != [] && (t[0] == '-' || t[0] == '+') then
      (if IsDigits(t[1..]) then
         var v: int := DigitsValue(t[1..]);
         Some(if t[0] == '-' then -v else v)
       else None)
    else if IsDigits(t) then Some(DigitsValue(t))
    else None
  }

  lemma {:induction false} DigitsValueOfNat(n: nat)
    ensures DigitsValue(NatToString(n)) == n
  {
    if n >= 10 {
      var s := NatToString(n);
      assert s[..|s| - 1] == NatToString(n / 10);
      DigitsValueOfNat(n / 10);
    }
  }

  /** `int(str(n)) == n` for a natural number. */
  lemma {:induction false} ParseNatToString(n: nat)
    ensures ParseInt(NatToString(n)) == Some(n)
  {
    var s := NatToString(n);
    StripNoOp(s);
    DigitsValueOfNat(n);
  }

  /** `int(str(i)) == i`: printing an integer and parsing it back is the identity. */
  lemma {:induction false} ParseIntToString(i: int)
    ensures ParseInt(IntToString(i)) == Some(i)
  {
    var s := IntToString(i);
    StripNoOp(s);
    if i < 0 {
      assert s[1..] == NatToString(-i);
      DigitsValueOfNat(-i);
    } else {
      DigitsValueOfNat(i);
    }
  }

  /** `int(s)` of a digit string is the value of its digits. */
  lemma {:induction false} DigitsParse(s: string)
    requires IsDigits(s)
    ensures ParseInt(s) == Some(DigitsValue(s))
  {
    StripNoOp(s);
  }

  /** `int(s) if s.isdigit() else 0`. */
  function DigitsOrZero(s: string): (n: int)
    ensures n >= 0
    ensures IsDigits(s) ==> ParseInt(s) == Some(n)
    ensures !IsDigits(s) ==> n == 0
  {
    if IsDigits(s) then
      DigitsParse(s);
      DigitsValue(s)
    else 0
  }

  /** `str` is injective on integers. */
  lemma {:induction false} IntToStringInjective(i: int, j: int)
    requires IntToString(i) == IntToString(j)
    ensures i == j
  {
    ParseIntToString(i);
    ParseIntToString(j);
  }

  // ------------------------------------------------- lexicographic ordering

  /** Python's `<=` on strings: lexicographic by code point. */
  predicate LexLeq(a: string, b: string)
    decreases |a|
  {
    a == [] || (b != [] && (a[0] < b[0] || (a[0] == b[0] && LexLeq(a[1..], b[1..]))))
  }

  lemma {:induction false} LexLeqTotal(a: string, b: string)
    ensures LexLeq(a, b) || LexLeq(b, a)
    decreases |a|
  {
    if a != [] && b != [] && a[0] == b[0] {
      LexLeqTotal(a[1..], b[1..]);
    }
  }

  lemma {:induction false} LexLeqTrans(a: string, b: string, c: string)
    requires LexLeq(a, b) && LexLeq(b, c)
    ensures LexLeq(a, c)
    decreases |a|
  {
    if a != [] && b != [] && c != [] && a[0] == b[0] && b[0] == c[0] {
      LexLeqTrans(a[1..], b[1..], c[1..]);
    }
  }

  lemma {:induction false} LexLeqAntisym(a: string, b: string)
    requires LexLeq(a, b) && LexLeq(b, a)
    ensures a == b
    decreases |a|
  {
    if a != [] && b != [] {
      LexLeqAntisym(a[1..], b[1..]);
      assert a == [a[0]] + a[1..];
      assert b == [b[0]] + b[1..];
    }
  }
}

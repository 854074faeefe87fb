/** Python string and path semantics used by every script of the pipeline:
    `startswith`/`endswith`/`in`, `str.split`, `str.replace`, `str.strip`,
    `str.splitlines`, file iteration in universal-newline mode, `os.path.join`,
    `os.path.dirname`/`basename`, and decimal digits. */
module Text {

  datatype Option<T> = None | Some(value: T)

  datatype Result<T> = Ok(value: T) | Err(msg: string)

  // ---------------------------------------------------------------------------
  // Prefixes, suffixes, occurrences
  // ---------------------------------------------------------------------------

  /** `s.startswith(p)` */
  predicate StartsWith(s: string, p: string) {
    |p| <= |s| && s[..|p|] == p
  }

  /** `s.endswith(p)` */
  predicate EndsWith(s: string, p: string) {
    |p| <= |s| && s[|s| - |p|..] == p
  }

  /** `pat` occurs in `s` starting at index `i`. */
  predicate OccursAt(s: string, pat: string, i: int) {
    0 <= i && i + |pat| <= |s| && s[i..i + |pat|] == pat
  }

  /** `pat in s` */
  predicate Contains(s: string, pat: string) {
    exists i :: 0 <= i <= |s| - |pat| && OccursAt(s, pat, i)
  }

  /** The first occurrence of `pat` in `s` at or after `i` (`s.find(pat, i)`). */
  function FindFrom(s: string, pat: string, i: nat): (r: Option<nat>)
    requires i <= |s|
    ensures r.Some? ==> i <= r.value && OccursAt(s, pat, r.value)
    ensures r.Some? ==> forall j :: i <= j < r.value ==> !OccursAt(s, pat, j)
    ensures r.None? ==> forall j :: i <= j ==> !OccursAt(s, pat, j)
    decreases |s| - i
  {
    if i + |pat| > |s| then None
    else if s[i..i + |pat|] == pat then Some(i)
    else FindFrom(s, pat, i + 1)
  }

  /** `s.find(pat)` agrees with `pat in s`. */
  lemma FindAgreesWithContains(s: string, pat: string)
    ensures FindFrom(s, pat, 0).Some? <==> Contains(s, pat)
  {
    if FindFrom(s, pat, 0).Some? {
      assert OccursAt(s, pat, FindFrom(s, pat, 0).value);
    }
  }

  /** An occurrence inside a prefix of `s` is an occurrence in `s`. */
  lemma OccursInPrefix(s: string, pat: string, n: nat, j: int)
    requires n <= |s|
    requires OccursAt(s[..n], pat, j)
    ensures OccursAt(s, pat, j)
  {
    assert s[..n][j..j + |pat|] == s[j..j + |pat|];
  }

  /** An occurrence inside a suffix of `s` is an occurrence in `s`. */
  lemma OccursInSuffix(s: string, pat: string, n: nat, j: int)
    requires n <= |s|
    requires OccursAt(s[n..], pat, j)
    ensures OccursAt(s, pat, n + j)
  {
    assert s[n..][j..j + |pat|] == s[n + j..n + j + |pat|];
  }

  // ---------------------------------------------------------------------------
  // str.split / sep.join / str.replace
  // ---------------------------------------------------------------------------

  /** `sep.join(parts)` */
  function JoinWith(parts: seq<string>, sep: string): string
  {
    if |parts| == 0 then ""
    else if |parts| == 1 then parts[0]
    else parts[0] + sep + JoinWith(parts[1..], sep)
  }

  /** `s.split(sep)` for a non-empty separator: the pieces between the
      non-overlapping occurrences of `sep`, scanned left to right. */
  function Split(s: string, sep: string): (r: seq<string>)
    requires sep != []
    ensures |r| >= 1
    ensures forall k :: 0 <= k < |r| ==> !Contains(r[k], sep)
    decreases |s|
  {
    match FindFrom(s, sep, 0)
    case None =>
      FindAgreesWithContains(s, sep);
      [s]
    case Some(i) =>
      assert !Contains(s[..i], sep) by {
        forall j | 0 <= j <= |s[..i]| - |sep| && OccursAt(s[..i], sep, j)
          ensures false
        {
          OccursInPrefix(s, sep, i, j);
        }
      }
      [s[..i]] + Split(s[i + |sep|..], sep)
  }

  /** Splitting and re-joining with the same separator gives back the string. */
  lemma {:induction false} JoinSplit(s: string, sep: string)
    requires sep != []
    ensures JoinWith(Split(s, sep), sep) == s
    decreases |s|
  {
    var f := FindFrom(s, sep, 0);
    if f.Some? {
      var i := f.value;
      var rest := s[i + |sep|..];
      var tail := Split(rest, sep);
      JoinSplit(rest, sep);
      assert Split(s, sep) == [s[..i]] + tail;
      JoinAround(s, sep, i, tail);
    }
  }

  /** Joining the piece before an occurrence of `sep` onto pieces that join
      to the text after it gives back `s`. */
  lemma JoinAround(s: string, sep: string, i: nat, tail: seq<string>)
    requires OccursAt(s, sep, i) && tail != []
    requires JoinWith(tail, sep) == s[i + |sep|..]
    ensures JoinWith([s[..i]] + tail, sep) == s
  {
    assert ([s[..i]] + tail)[1..] == tail;
    assert s[i..i + |sep|] == sep;
    assert s == s[..i] + s[i..i + |sep|] + s[i + |sep|..];
  }

  /** The index of the first `c` in `s`, or `|s|`. */
  function IndexOfChar(s: string, c: char): (i: nat)
    ensures i <= |s|
    ensures forall k :: 0 <= k < i ==> s[k] != c
    ensures i < |s| ==> s[i] == c
  {
    if s == [] then 0
    else if s[0] == c then 0
    else 1 + IndexOfChar(s[1..], c)
  }

  /** `s.split(sep)[0]`: the text before the first `sep`, or all of `s`. */
  function Before(s: string, sep: string): (r: string)
    requires sep != []
    ensures StartsWith(s, r) && !Contains(r, sep)
    ensures r == s || OccursAt(s, sep, |r|)
  {
    match FindFrom(s, sep, 0)
    case None =>
      FindAgreesWithContains(s, sep);
      s
    case Some(i) =>
      assert Split(s, sep)[0] == s[..i];
      s[..i]
  }

  /** `s.split(sep)[1]`, or None where Python raises IndexError: the text
      between the first and the second `sep`. */
  function SecondPiece(s: string, sep: string): (r: Option<string>)
    requires sep != []
    ensures r.None? <==> !Contains(s, sep)
    ensures r.Some? ==> !Contains(r.value, sep)
  {
    FindAgreesWithContains(s, sep);
    match FindFrom(s, sep, 0)
    case None => None
    case Some(i) => Some(Before(s[i + |sep|..], sep))
  }

  /** `s.split(sep)[-1]`: the text after the last piece boundary. */
  function LastPiece(s: string, sep: string): string
    requires sep != []
    decreases |s|
  {
    match FindFrom(s, sep, 0)
    case None => s
    case Some(i) => LastPiece(s[i + |sep|..], sep)
  }

  /** A one-character pattern occurs exactly where that character is. */
  lemma OccursChar(s: string, c: char)
    ensures forall j :: OccursAt(s, [c], j) <==> 0 <= j < |s| && s[j] == c
  {
    forall j | 0 <= j < |s| ensures OccursAt(s, [c], j) <==> s[j] == c {
      assert s[j..j + 1] == [s[j]];
    }
  }

  /** `s.find(c)` is the index of the first `c`. */
  lemma FindChar(s: string, c: char, i: nat)
    requires i < |s| && s[i] == c && c !in s[..i]
    ensures FindFrom(s, [c], 0) == Some(i)
  {
    OccursChar(s, c);
    forall j | 0 <= j < i ensures s[j] != c {
      assert s[j] == s[..i][j];
    }
  }

  /** `s.split(c)[0]` is the text before the first `c`. */
  lemma BeforeChar(s: string, c: char, i: nat)
    requires i < |s| && s[i] == c && c !in s[..i]
    ensures Before(s, [c]) == s[..i]
  {
    FindChar(s, c, i);
  }

  /** Splitting a join on a one-character separator that no part holds gives
      back the parts. */
  lemma {:induction false} SplitJoinChar(parts: seq<string>, c: char)
    requires |parts| >= 1 && forall k :: 0 <= k < |parts| ==> c !in parts[k]
    ensures Split(JoinWith(parts, [c]), [c]) == parts
    decreases |parts|
  {
    var s := JoinWith(parts, [c]);
    OccursChar(s, c);
    if |parts| == 1 {
      assert FindFrom(s, [c], 0).None?;
    } else {
      var h := parts[0];
      var rest := JoinWith(parts[1..], [c]);
      assert s == h + [c] + rest;
      assert s[..|h|] == h;
      FindChar(s, c, |h|);
      assert s[|h| + 1..] == rest;
      SplitJoinChar(parts[1..], c);
      assert parts == [h] + parts[1..];
    }
  }

  /** `(p + sep + t).split(sep)[-1]` is `t` when `t` holds no `sep` and `sep`
      cannot overlap itself (its first character does not recur in it). */
  lemma LastPieceAfter(p: string, sep: string, t: string)
    requires sep != [] && sep[0] !in sep[1..] && !Contains(t, sep)
    ensures LastPiece(p + sep + t, sep) == t
  {
    var s := p + sep + t;
    assert s[|p|..|p| + |sep|] == sep;
    assert s[|p| + |sep|..] == t;
    LastPieceFrom(s, sep, |p|);
  }

  /** `s.split(sep)[-1]` is what follows an occurrence of `sep` after which
      no `sep` occurs. */
  lemma {:induction false} LastPieceFrom(s: string, sep: string, j: nat)
    requires sep != [] && sep[0] !in sep[1..]
    requires OccursAt(s, sep, j) && !Contains(s[j + |sep|..], sep)
    ensures LastPiece(s, sep) == s[j + |sep|..]
    decreases j
  {
    var i := FindFrom(s, sep, 0).value;
    LastPieceUnfold(s, sep, i);
    if i == j {
      FindAgreesWithContains(s[j + |sep|..], sep);
    } else {
      var j' := SkipFirstSep(s, sep, i, j);
      LastPieceFrom(s[i + |sep|..], sep, j');
    }
  }

  lemma LastPieceUnfold(s: string, sep: string, i: nat)
    requires sep != [] && FindFrom(s, sep, 0) == Some(i)
    ensures LastPiece(s, sep) == LastPiece(s[i + |sep|..], sep)
  {
  }

  /** Past a first `sep` that precedes the one at `j`, the one at `j` is
      still there. */
  lemma SkipFirstSep(s: string, sep: string, i: nat, j: nat) returns (j': nat)
    requires sep != [] && sep[0] !in sep[1..] && OccursAt(s, sep, j)
    requires FindFrom(s, sep, 0) == Some(i) && i != j
    ensures j' < j && i + |sep| + j' == j
    ensures OccursAt(s[i + |sep|..], sep, j') && s[i + |sep|..][j' + |sep|..] == s[j + |sep|..]
  {
    NoOverlap(s, sep, i, j);
    j' := j - i - |sep|;
    DropSlice(s, i + |sep|, j', j' + |sep|);
    DropDrop(s, i + |sep|, j' + |sep|);
  }

  lemma DropSlice(s: string, k: nat, x: nat, y: nat)
    requires x <= y && k + y <= |s|
    ensures s[k..][x..y] == s[k + x..k + y]
  {
  }

  lemma DropDrop(s: string, k: nat, x: nat)
    requires k + x <= |s|
    ensures s[k..][x..] == s[k + x..]
  {
  }

  /** Two occurrences of a separator that cannot overlap itself do not
      overlap. */
  lemma NoOverlap(s: string, sep: string, i: nat, j: nat)
    requires sep != [] && sep[0] !in sep[1..]
    requires i < j && OccursAt(s, sep, i) && OccursAt(s, sep, j)
    ensures i + |sep| <= j
  {
    assert s[j] == s[j..j + |sep|][0];
    forall m | 0 < m < |sep| ensures sep[m] != sep[0] {
      assert sep[m] == sep[1..][m - 1];
    }
    forall m | i <= m < i + |sep| ensures s[m] == sep[m - i] {
      assert s[m] == s[i..i + |sep|][m - i];
    }
  }

  /** The characters of a join come from the parts or the separator: a
      property all of those have, every character of the join has. */
  lemma {:induction false} JoinWithChars(parts: seq<string>, sep: string, p: char -> bool)
    requires forall j :: 0 <= j < |sep| ==> p(sep[j])
    requires forall k, j :: 0 <= k < |parts| && 0 <= j < |parts[k]| ==> p(parts[k][j])
    ensures forall j :: 0 <= j < |JoinWith(parts, sep)| ==> p(JoinWith(parts, sep)[j])
    decreases |parts|
  {
    if |parts| > 1 {
      JoinWithChars(parts[1..], sep, p);
      var h, t := parts[0] + sep, JoinWith(parts[1..], sep);
      assert JoinWith(parts, sep) == h + t;
      assert forall j :: 0 <= j < |h| ==> p(h[j]) by {
        assert forall j :: 0 <= j < |parts[0]| ==> p(parts[0][j]);
      }
    }
  }

  /** `s.replace(pat, repl)` for a non-empty `pat`. */
  function ReplaceAll(s: string, pat: string, repl: string): (r: string)
    requires pat != []
  {
    JoinWith(Split(s, pat), repl)
  }

  /** Replacing a pattern that does not occur leaves the string alone. */
  lemma ReplaceAbsent(s: string, pat: string, repl: string)
    requires pat != [] && !Contains(s, pat)
    ensures ReplaceAll(s, pat, repl) == s
  {
    FindAgreesWithContains(s, pat);
  }

  /** Replacing a suffix that is the only occurrence of the pattern swaps that
      suffix and nothing else. */
  lemma ReplaceOnlySuffix(stem: string, pat: string, repl: string)
    requires pat != []
    requires forall j :: 0 <= j < |stem| ==> !OccursAt(stem + pat, pat, j)
    ensures ReplaceAll(stem + pat, pat, repl) == stem + repl
  {
    var s := stem + pat;
    assert OccursAt(s, pat, |stem|);
    var f := FindFrom(s, pat, 0);
    assert f == Some(|stem|);
    assert s[|stem| + |pat|..] == [];
    assert Split(s, pat) == [stem] + Split([], pat);
    assert Split([], pat) == [[]];
    assert s[..|stem|] == stem;
    assert JoinWith([stem, []], repl) == stem + repl + JoinWith([[]], repl);
  }

  // ---------------------------------------------------------------------------
  // Whitespace and lines
  // ---------------------------------------------------------------------------

  /** `c.isspace()`: the characters Python's `str.strip()` removes. */
  predicate IsSpace(c: char) {
    c == ' ' || '\t' <= c <= '\r' || '\U{1C}' <= c <= '\U{1F}' || c == '\U{85}' || c == '\U{A0}' ||
    c == '\U{1680}' || '\U{2000}' <= c <= '\U{200A}' || c == '\U{2028}' || c == '\U{2029}' ||
    c == '\U{202F}' || c == '\U{205F}' || c == '\U{3000}'
  }

  predicate AllSpace(s: string) {
    forall k :: 0 <= k < |s| ==> IsSpace(s[k])
  }

  /** The end of the run of whitespace that starts at `i`. */
  function SpaceEnd(s: string, i: nat): (n: nat)
    requires i <= |s|
    ensures i <= n <= |s| && forall k :: i <= k < n ==> IsSpace(s[k])
    ensures n < |s| ==> !IsSpace(s[n])
    decreases |s| - i
  {
    if i < |s| && IsSpace(s[i]) then SpaceEnd(s, i + 1) else i
  }

  /** The start of the run of whitespace that ends at `j`, going no further
      back than `lo`. */
  function SpaceStart(s: string, lo: nat, j: nat): (n: nat)
    requires lo <= j <= |s|
    ensures lo <= n <= j && forall k :: n <= k < j ==> IsSpace(s[k])
    ensures n > lo ==> !IsSpace(s[n - 1])
    decreases j
  {
    if j > lo && IsSpace(s[j - 1]) then SpaceStart(s, lo, j - 1) else j
  }

  /** `s.strip()`: `s` without its leading and trailing whitespace. */
  function Strip(s: string): (r: string)
    ensures r == [] || (!IsSpace(r[0]) && !IsSpace(r[|r| - 1]))
  {
    var a := SpaceEnd(s, 0);
    var e := SpaceStart(s, a, |s|);
    s[a..e]
  }

  /** The strip is the slice of `s` after its leading whitespace, with only
      whitespace after it, and is empty exactly when `s` is blank. */
  lemma StripSlice(s: string)
    ensures var a, r := SpaceEnd(s, 0), Strip(s);
            a + |r| <= |s| && s[a..a + |r|] == r && forall k :: a + |r| <= k < |s| ==> IsSpace(s[k])
    ensures Strip(s) == [] <==> AllSpace(s)
  {
    var a := SpaceEnd(s, 0);
    var e := SpaceStart(s, a, |s|);
    assert Strip(s) == s[a..e];
    if a == e {
      assert forall k :: 0 <= k < |s| ==> IsSpace(s[k]);
    }
    if AllSpace(s) {
      assert a == |s|;
    }
  }

  /** A token without surrounding whitespace is its own strip. */
  lemma StripClean(s: string)
    requires s == [] || (!IsSpace(s[0]) && !IsSpace(s[|s| - 1]))
    ensures Strip(s) == s
  {
    if s != [] {
      assert SpaceEnd(s, 0) == 0;
      assert SpaceStart(s, 0, |s|) == |s|;
    }
    assert s[0..|s|] == s;
  }

  /** Line terminators. In universal-newline file reading (`for ln in f`) only
      `\n`, `\r` and `\r\n` end a line; `str.splitlines()` also breaks on the
      other separators Python lists. */
  predicate IsLineBreak(c: char, universal: bool) {
    c == '\n' || c == '\r' ||
    (!universal && c in {'\U{B}', '\U{C}', '\U{1C}', '\U{1D}', '\U{1E}', '\U{85}', '\U{2028}', '\U{2029}'})
  }

  function FirstBreak(s: string, universal: bool, i: nat): (k: nat)
    requires i <= |s|
    ensures i <= k <= |s|
    ensures k < |s| ==> IsLineBreak(s[k], universal)
    ensures forall j :: i <= j < k ==> !IsLineBreak(s[j], universal)
    decreases |s| - i
  {
    if i == |s| || IsLineBreak(s[i], universal) then i else FirstBreak(s, universal, i + 1)
  }

  /** The lines of `s` without their terminators, `\r\n` counting as one
      terminator and no empty line after a final terminator
      (`str.splitlines()`, or the stripped lines of a text-mode file). */
  function Lines(s: string, universal: bool): (r: seq<string>)
    ensures forall k :: 0 <= k < |r| ==> forall j :: 0 <= j < |r[k]| ==> !IsLineBreak(r[k][j], universal)
    decreases |s|
  {
    if s == [] then []
    else
      var i := FirstBreak(s, universal, 0);
      if i == |s| then [s]
      else
        var w := if s[i] == '\r' && i + 1 < |s| && s[i + 1] == '\n' then 2 else 1;
        [s[..i]] + Lines(s[i + w..], universal)
  }

  /** Writing each line followed by `\n` and reading the text back gives the
      same lines, when no line holds a line break. */
  lemma {:induction false} LinesOfNewlineJoined(ls: seq<string>, universal: bool)
    requires forall k :: 0 <= k < |ls| ==> forall j :: 0 <= j < |ls[k]| ==> !IsLineBreak(ls[k][j], universal)
    ensures Lines(NewlineTerminated(ls), universal) == ls
  {
    if ls != [] {
      var rest := NewlineTerminated(ls[1..]);
      FirstLine(ls[0], rest, universal);
      LinesOfNewlineJoined(ls[1..], universal);
      assert ls == [ls[0]] + ls[1..];
    }
  }

  /** The first line of `h + "\n" + t` is `h` when `h` holds no break. */
  lemma FirstLine(h: string, t: string, universal: bool)
    requires forall j :: 0 <= j < |h| ==> !IsLineBreak(h[j], universal)
    ensures var s := h + "\n" + t;
            FirstBreak(s, universal, 0) == |h| && s[|h|] == '\n' && s[..|h|] == h && s[|h| + 1..] == t
  {
    var s := h + "\n" + t;
    assert s[|h|] == '\n';
    forall j | 0 <= j < |h| ensures !IsLineBreak(s[j], universal) { assert s[j] == h[j]; }
    FirstBreakAt(s, universal, 0, |h|);
    assert s[..|h|] == h;
    assert s[|h| + 1..] == t;
  }

  /** The first break from `i` is at `k` when `k` is a break and none comes before. */
  lemma {:induction false} FirstBreakAt(s: string, universal: bool, i: nat, k: nat)
    requires i <= k < |s| && IsLineBreak(s[k], universal)
    requires forall j :: i <= j < k ==> !IsLineBreak(s[j], universal)
    ensures FirstBreak(s, universal, i) == k
    decreases k - i
  {
    if i < k {
      FirstBreakAt(s, universal, i + 1, k);
    }
  }

  /** The text written by `for x in xs: f.write(f"{x}\n")`. */
  function NewlineTerminated(ls: seq<string>): (r: string)
    ensures |r| >= |ls|
  {
    if ls == [] then "" else ls[0] + "\n" + NewlineTerminated(ls[1..])
  }

  // ---------------------------------------------------------------------------
  // Digits
  // ---------------------------------------------------------------------------

  predicate IsDigit(c: char) { '0' <= c <= '9' }

  predicate IsAlnum(c: char) { IsDigit(c) || 'a' <= c <= 'z' || 'A' <= c <= 'Z' }

  /** `s.isdigit()` over ASCII digits: non-empty and digits only. */
  predicate AllDigits(s: string) {
    |s| > 0 && forall k :: 0 <= k < |s| ==> IsDigit(s[k])
  }

  /** `int(s)` for a string of decimal digits. */
  function DigitsValue(s: string): nat
    requires forall k :: 0 <= k < |s| ==> IsDigit(s[k])
  {
    if s == [] then 0
    else
      assert IsDigit(s[|s| - 1]);
      DigitsValue(s[..|s| - 1]) * 10 + (s[|s| - 1] as int - '0' as int)
  }

  function DigitChar(d: nat): (c: char)
    requires d < 10
    ensures IsDigit(c) && c as int - '0' as int == d
  {
    ('0' as int + d) as char
  }

  /** `str(n)` for a natural number. */
  function NatToString(n: nat): (r: string)
    ensures AllDigits(r)
    ensures |r| > 1 ==> r[0] != '0'
  {
    if n < 10 then [DigitChar(n)] else NatToString(n / 10) + [DigitChar(n % 10)]
  }

  /** `int(str(n)) == n` */
  lemma {:induction false} NatToStringValue(n: nat)
    ensures DigitsValue(NatToString(n)) == n
  {
    if n >= 10 {
      var s := NatToString(n);
      assert s[..|s| - 1] == NatToString(n / 10);
      NatToStringValue(n / 10);
    }
  }

  /** Distinct numbers have distinct decimal forms. */
  lemma NatToStringInjective(a: nat, b: nat)
    requires NatToString(a) == NatToString(b)
    ensures a == b
  {
    NatToStringValue(a);
    NatToStringValue(b);
  }

  /** `int(s)` over ASCII digits: surrounding whitespace, an optional sign,
      then decimal digits; None where Python raises ValueError. */
  function ParseInt(s: string): (r: Option<int>)
    ensures r.Some? ==> Strip(s) != []
    ensures AllDigits(Strip(s)) ==> r.Some? && r.value >= 0
  {
    var t := Strip(s);
    if t == [] then None
    else if t[0] == '-' && AllDigits(t[1..]) then Some(-(DigitsValue(t[1..]) as int))
    else if t[0] == '+' && AllDigits(t[1..]) then Some(DigitsValue(t[1..]))
    else if AllDigits(t) then Some(DigitsValue(t))
    else None
  }

  /** `int(d)` for a string of digits is its decimal value. */
  lemma ParseDigits(d: string)
    requires AllDigits(d)
    ensures ParseInt(d) == Some(DigitsValue(d) as int)
  {
    assert IsDigit(d[0]) && IsDigit(d[|d| - 1]);
    StripClean(d);
  }

  /** `int(str(n)) == n` */
  lemma ParseNat(n: nat)
    ensures ParseInt(NatToString(n)) == Some(n as int)
  {
    ParseDigits(NatToString(n));
    NatToStringValue(n);
  }

  // ---------------------------------------------------------------------------
  // os.path
  // ---------------------------------------------------------------------------

  /** `os.path.join(a, b)` on POSIX. */
  function PathJoin(a: string, b: string): string
  {
    if StartsWith(b, "/") then b
    else if a == [] || a[|a| - 1] == '/' then a + b
    else a + "/" + b
  }

  /** The index just after the last `/` in `s`, or 0. */
  function AfterLastSlash(s: string): (i: nat)
    ensures i <= |s|
    ensures i > 0 ==> s[i - 1] == '/'
    ensures forall k :: i <= k < |s| ==> s[k] != '/'
  {
    if s == [] then 0
    else if s[|s| - 1] == '/' then |s|
    else AfterLastSlash(s[..|s| - 1])
  }

  function RStripSlashes(s: string): (r: string)
    ensures StartsWith(s, r)
    ensures r == [] || r[|r| - 1] != '/'
  {
    if s != [] && s[|s| - 1] == '/' then RStripSlashes(s[..|s| - 1]) else s
  }

  predicate AllSlashes(s: string) {
    forall k :: 0 <= k < |s| ==> s[k] == '/'
  }

  /** `os.path.basename(p)` */
  function Basename(p: string): (r: string)
    ensures EndsWith(p, r) && forall k :: 0 <= k < |r| ==> r[k] != '/'
  {
    var i := AfterLastSlash(p);
    assert p[|p| - |p[i..]|..] == p[i..];
    p[i..]
  }

  /** `os.path.dirname(p)` */
  function Dirname(p: string): (r: string)
    ensures StartsWith(p, r)
  {
    var head := p[..AfterLastSlash(p)];
    if head != [] && !AllSlashes(head) then RStripSlashes(head) else head
  }

  /** `os.path.dirname(os.path.join(d, name))` is `d` for a plain file name
      and a directory without trailing slash. */
  lemma DirnameOfJoin(d: string, name: string)
    requires d != [] && d[|d| - 1] != '/' && !AllSlashes(d)
    requires name != [] && forall k :: 0 <= k < |name| ==> name[k] != '/'
    ensures Dirname(PathJoin(d, name)) == d
  {
    var head := d + "/";
    var p := head + name;
    assert !StartsWith(name, "/") by { assert name[..1][0] == name[0]; }
    assert PathJoin(d, name) == p;
    AfterLastSlashOfPlain(head, name);
    assert p[..|head|] == head;
    assert !AllSlashes(head) by {
      var k :| 0 <= k < |d| && d[k] != '/';
      assert head[k] == d[k];
    }
    assert head[..|head| - 1] == d;
    assert RStripSlashes(head) == RStripSlashes(d) == d;
  }

  lemma {:induction false} AfterLastSlashOfPlain(a: string, name: string)
    requires a != [] && a[|a| - 1] == '/'
    requires forall k :: 0 <= k < |name| ==> name[k] != '/'
    ensures AfterLastSlash(a + name) == |a|
    decreases |name|
  {
    if name == [] {
      assert a + name == a;
    } else {
      assert (a + name)[..|a + name| - 1] == a + name[..|name| - 1];
      AfterLastSlashOfPlain(a, name[..|name| - 1]);
    }
  }
}

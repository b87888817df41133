/**
 * The JavaScript string primitives the server relies on, over strings modelled
 * as sequences of characters: `trim`, `toLowerCase` (ASCII letters only),
 * `startsWith`, `endsWith`, `includes`/`indexOf`, `replace` with a string
 * pattern, `split("\n")`, `join`, number-to-string and code-point ordering.
 */
module JsStrings {
  import opened Options

  /** ECMAScript WhiteSpace and LineTerminator code points: what `trim()` strips and `\s` matches. */
  predicate IsSpace(c: char) {
    || c == '\t' || c == '\n' || c == '\U{B}' || c == '\U{C}' || c == '\r' || c == ' '
    || c == '\U{A0}' || c == '\U{1680}' || ('\U{2000}' <= c <= '\U{200A}')
    || c == '\U{2028}' || c == '\U{2029}' || c == '\U{202F}' || c == '\U{205F}'
    || c == '\U{3000}' || c == '\U{FEFF}'
  }

  /** A string made of whitespace only (JavaScript: `s.trim() === ""`). */
  predicate IsBlank(s: string) {
    forall i :: 0 <= i < |s| ==> IsSpace(s[i])
  }

  /** The end of a run of whitespace (`\s*`) starting at `k`: the first non-whitespace index, or `|s|`. */
  function SkipSpaces(s: string, k: nat): (n: nat)
    requires k <= |s|
    decreases |s| - k
    ensures k <= n <= |s| && (n == |s| || !IsSpace(s[n]))
    ensures forall i :: k <= i < n ==> IsSpace(s[i])
  {
    if k < |s| && IsSpace(s[k]) then SkipSpaces(s, k + 1) else k
  }

  /** The index just after the last non-whitespace character before `k` (0 if there is none). */
  function BackSpaces(s: string, k: nat): (n: nat)
    requires k <= |s|
    ensures n <= k && (n == 0 || !IsSpace(s[n - 1]))
    ensures forall i :: n <= i < k ==> IsSpace(s[i])
  {
    if k > 0 && IsSpace(s[k - 1]) then BackSpaces(s, k - 1) else k
  }

  function TrimStart(s: string): (r: string)
    ensures |r| <= |s| && r == s[|s| - |r|..]
    ensures r == [] || !IsSpace(r[0])
    ensures forall i :: 0 <= i < |s| - |r| ==> IsSpace(s[i])
  {
    s[SkipSpaces(s, 0)..]
  }

  function TrimEnd(s: string): (r: string)
    ensures |r| <= |s| && r == s[..|r|]
    ensures r == [] || !IsSpace(r[|r| - 1])
    ensures forall i :: |r| <= i < |s| ==> IsSpace(s[i])
  {
    s[..BackSpaces(s, |s|)]
  }

  /** `String.prototype.trim`: the slice left after removing leading and trailing whitespace. */
  function Trim(s: string): (r: string)
    ensures |r| <= |TrimEnd(s)| <= |s|
    ensures r == s[|TrimEnd(s)| - |r|..|TrimEnd(s)|]
    ensures r == [] || (!IsSpace(r[0]) && !IsSpace(r[|r| - 1]))
    ensures r == [] <==> IsBlank(s)
    ensures s == [] || (!IsSpace(s[0]) && !IsSpace(s[|s| - 1])) ==> r == s
    ensures IsBlank(s[..|TrimEnd(s)| - |r|]) && IsBlank(s[|TrimEnd(s)|..])
  {
    TrimSlices(s);
    TrimStart(TrimEnd(s))
  }

  lemma TrimSlices(s: string)
    ensures |TrimStart(TrimEnd(s))| <= |TrimEnd(s)| <= |s|
    ensures TrimStart(TrimEnd(s)) == s[|TrimEnd(s)| - |TrimStart(TrimEnd(s))|..|TrimEnd(s)|]
    ensures TrimStart(TrimEnd(s)) == [] || (!IsSpace(TrimStart(TrimEnd(s))[0]) && !IsSpace(TrimStart(TrimEnd(s))[|TrimStart(TrimEnd(s))| - 1]))
    ensures TrimStart(TrimEnd(s)) == [] <==> IsBlank(s)
    ensures s == [] || (!IsSpace(s[0]) && !IsSpace(s[|s| - 1])) ==> TrimStart(TrimEnd(s)) == s
    ensures IsBlank(s[..|TrimEnd(s)| - |TrimStart(TrimEnd(s))|]) && IsBlank(s[|TrimEnd(s)|..])
  {
    var e := TrimEnd(s);
    var r := TrimStart(e);
    assert forall i :: 0 <= i < |e| - |r| ==> s[i] == e[i];
    assert r == s[|e| - |r|..|e|] by {
      assert s[..|e|][|e| - |r|..] == s[|e| - |r|..|e|];
    }
    assert r == [] || !IsSpace(r[|r| - 1]) by {
      if r != [] {
        assert r[|r| - 1] == e[|e| - 1];
      }
    }
    TrimBlank(s);
  }

  lemma TrimBlank(s: string)
    ensures TrimStart(TrimEnd(s)) == [] <==> IsBlank(s)
  {
    var e := TrimEnd(s);
    var r := TrimStart(e);
    if r != [] {
      assert r[0] == e[|e| - |r|] == s[|e| - |r|];
    }
  }

  function LowerChar(c: char): char {
    if 'A' <= c <= 'Z' then (c as int + 32) as char else c
  }

  /** `toLowerCase`, restricted to the ASCII letters. */
  function Lower(s: string): string {
    seq(|s|, i requires 0 <= i < |s| => LowerChar(s[i]))
  }

  predicate StartsWith(s: string, p: string) {
    |p| <= |s| && s[..|p|] == p
  }

  predicate EndsWith(s: string, p: string) {
    |p| <= |s| && s[|s| - |p|..] == p
  }

  /** `p` occurs in `s` starting at index `i`. */
  predicate OccursAt(s: string, p: string, i: nat) {
    i + |p| <= |s| && s[i..i + |p|] == p
  }

  /** `s.indexOf(p, from)`: the first occurrence of `p` at or after `from`, if any. */
  function IndexOfFrom(s: string, p: string, from: nat): (r: Option<nat>)
    decreases |s| - from
    ensures r.Some? ==> from <= r.value && OccursAt(s, p, r.value)
    ensures r.Some? ==> forall j :: from <= j < r.value ==> !OccursAt(s, p, j)
    ensures r.None? ==> forall j :: from <= j ==> !OccursAt(s, p, j)
  {
    if from + |p| > |s| then None
    else if OccursAt(s, p, from) then Some(from)
    else IndexOfFrom(s, p, from + 1)
  }

  function IndexOf(s: string, p: string): Option<nat> {
    IndexOfFrom(s, p, 0)
  }

  /** `s.includes(p)`. */
  predicate Contains(s: string, p: string) {
    IndexOf(s, p).Some?
  }

  /** `s.replace(p, "")` with a string pattern: removes the FIRST occurrence of `p` only. */
  function ReplaceFirst(s: string, p: string): string {
    match IndexOf(s, p)
    case None => s
    case Some(k) => s[..k] + s[k + |p|..]
  }

  /** `s.split("\n")`: the pieces between newlines, always at least one. */
  function Lines(s: string): (r: seq<string>)
    ensures |r| >= 1
    ensures forall k :: 0 <= k < |r| ==> '\n' !in r[k]
  {
    if s == [] then [""]
    else
      var rest := Lines(s[1..]);
      if s[0] == '\n' then [""] + rest else [[s[0]] + rest[0]] + rest[1..]
  }

  /** `xs.join(sep)`. */
  function Join(xs: seq<string>, sep: string): string {
    if |xs| == 0 then "" else if |xs| == 1 then xs[0] else xs[0] + sep + Join(xs[1..], sep)
  }

  function DigitChar(d: nat): char
    requires d < 10
  {
    ('0' as int + d) as char
  }

  /** `String(n)` for a non-negative integer: its decimal digits. */
  function NatToString(n: nat): (r: string)
    ensures |r| >= 1 && forall i :: 0 <= i < |r| ==> '0' <= r[i] <= '9'
    ensures |r| == 1 || r[0] != '0'
  {
    if n < 10 then [DigitChar(n)] else NatToString(n / 10) + [DigitChar(n % 10)]
  }

  /** The number a string of decimal digits denotes. */
  function DecimalValue(s: string): nat
    requires forall i :: 0 <= i < |s| ==> '0' <= s[i] <= '9'
  {
    if s == [] then 0 else DecimalValue(s[..|s| - 1]) * 10 + (s[|s| - 1] as int - '0' as int)
  }

  /** Strict lexicographic order by code point: the default string comparison of `sort()`. */
  predicate LexLess(a: string, b: string) {
    if a == [] then b != []
    else if b == [] then false
    else if a[0] != b[0] then a[0] < b[0]
    else LexLess(a[1..], b[1..])
  }

  // ---------------------------------------------------------------------------
  // Lemmas

  /** Joining the pieces of `split("\n")` with newlines gives the string back. */
  lemma {:induction false} JoinLines(s: string)
    ensures Join(Lines(s), "\n") == s
  {
    if s != [] {
      var rest := Lines(s[1..]);
      JoinLines(s[1..]);
      if s[0] != '\n' {
        if |rest| > 1 {
          assert [[s[0]] + rest[0]] + rest[1..] == [[s[0]] + rest[0]] + rest[1..];
          calc {
            Join([[s[0]] + rest[0]] + rest[1..], "\n");
            [s[0]] + rest[0] + "\n" + Join(rest[1..], "\n");
            [s[0]] + Join(rest, "\n");
          }
        }
      } else {
        assert Join([""] + rest, "\n") == "" + "\n" + Join(rest, "\n");
      }
    }
  }

  /** Reading the decimal digits of `NatToString(n)` back gives `n`. */
  lemma {:induction false} DecimalRoundTrip(n: nat)
    ensures DecimalValue(NatToString(n)) == n
  {
    if n >= 10 {
      DecimalRoundTrip(n / 10);
      var r := NatToString(n);
      assert r[..|r| - 1] == NatToString(n / 10);
    }
  }

  /** The empty pattern is found in every string (`s.includes("")` is true). */
  lemma ContainsEmpty(s: string)
    ensures Contains(s, "")
  {
    assert OccursAt(s, "", 0);
  }

  /** `replace` removed one occurrence of `p` exactly where `indexOf` found it: putting `p` back there restores `s`. */
  lemma ReplaceFirstRestores(s: string, p: string)
    requires Contains(s, p)
    ensures var k := IndexOf(s, p).value; var r := ReplaceFirst(s, p);
      |r| == |s| - |p| && k <= |r| && s == r[..k] + p + r[k..]
  {
    var k := IndexOf(s, p).value;
    var r := ReplaceFirst(s, p);
    assert r[..k] == s[..k];
    assert r[k..] == s[k + |p|..];
  }

  /** A pattern that starts the string is the one `replace` removes. */
  lemma ReplaceFirstLeading(p: string, s: string)
    ensures ReplaceFirst(p + s, p) == s
  {
    assert OccursAt(p + s, p, 0);
    assert (p + s)[|p|..] == s;
  }

  /** In `s + ".md" + rest` the first ".md" is the one after `s` when `s` has none of its own (".md" cannot straddle). */
  lemma ReplaceFirstMdAfter(s: string, rest: string)
    requires !Contains(s, ".md")
    ensures ReplaceFirst(s + ".md" + rest, ".md") == s + rest
  {
    var t := s + ".md" + rest;
    forall j | 0 <= j < |s|
      ensures !OccursAt(t, ".md", j)
    {
      if j + 3 <= |s| {
        assert t[j..j + 3] == s[j..j + 3];
        assert !OccursAt(s, ".md", j);
      } else if j + 2 == |s| {
        assert t[j + 2] == '.' != ".md"[2];
        assert t[j..j + 3][2] == t[j + 2];
      } else {
        assert t[j + 1] == '.' != ".md"[1];
        assert t[j..j + 3][1] == t[j + 1];
      }
    }
    assert t[|s|..|s| + 3] == ".md";
    assert OccursAt(t, ".md", |s|);
    var k := IndexOf(t, ".md").value;
    assert k == |s|;
    assert t[..|s|] == s;
    assert t[|s| + 3..] == rest;
  }

  /** In `s + ".md"` the first ".md" is the final one when `s` has none of its own. */
  lemma ReplaceFirstTrailingMd(s: string)
    requires !Contains(s, ".md")
    ensures ReplaceFirst(s + ".md", ".md") == s
  {
    ReplaceFirstMdAfter(s, "");
    assert s + ".md" + "" == s + ".md";
  }

  lemma {:induction false} LexLessIrreflexive(a: string)
    ensures !LexLess(a, a)
  {
    if a != [] {
      LexLessIrreflexive(a[1..]);
    }
  }

  lemma {:induction false} LexLessTransitive(a: string, b: string, c: string)
    requires LexLess(a, b) && LexLess(b, c)
    ensures LexLess(a, c)
  {
    if a != [] && b != [] && c != [] && a[0] == b[0] && b[0] == c[0] {
      LexLessTransitive(a[1..], b[1..], c[1..]);
    }
  }

  /** Any two distinct strings are ordered one way or the other. */
  lemma {:induction false} LexLessTotal(a: string, b: string)
    ensures a == b || LexLess(a, b) || LexLess(b, a)
  {
    if a != [] && b != [] && a[0] == b[0] {
      LexLessTotal(a[1..], b[1..]);
      if a[1..] == b[1..] {
        assert a == [a[0]] + a[1..] && b == [b[0]] + b[1..];
      }
    }
  }

  lemma PrefixStartsWith(p: string, rest: string)
    ensures StartsWith(p + rest, p)
  {
    assert (p + rest)[..|p|] == p;
  }

  /** A string does not start with a pattern whose first character differs from its own. */
  lemma FirstCharDiffers(lead: string, rest: string, p: string)
    requires lead != [] && p != [] && lead[0] != p[0]
    ensures !StartsWith(lead + rest, p)
  {
    var s := lead + rest;
    assert s[0] == lead[0];
    if |p| <= |s| {
      assert s[..|p|][0] == s[0];
    }
  }

  /** What a string contains, it still contains with anything put in front. */
  lemma ContainsAfter(lead: string, s: string, p: string)
    requires Contains(s, p)
    ensures Contains(lead + s, p)
  {
    var k := IndexOf(s, p).value;
    assert (lead + s)[|lead| + k..|lead| + k + |p|] == s[k..k + |p|];
    assert OccursAt(lead + s, p, |lead| + k);
  }

  /** A string contains each piece it is built from. */
  lemma ContainsInfix(a: string, b: string, c: string)
    ensures Contains(a + b + c, b)
  {
    assert (a + b + c)[|a|..|a| + |b|] == b;
    assert OccursAt(a + b + c, b, |a|);
  }

  lemma StartsWithExtend(s: string, t: string, p: string)
    requires StartsWith(s, p)
    ensures StartsWith(s + t, p)
  {
    assert (s + t)[..|p|] == s[..|p|];
  }

  lemma AppendAssociates(a: string, b: string, c: string)
    ensures a + b + c == a + (b + c)
  {
  }

  /**
   * `split("\n")` is the only way to cut a string into newline-free pieces
   * that join back to it.
   */
  lemma {:induction false} LinesUnique(parts: seq<string>, s: string)
    requires |parts| >= 1 && forall k :: 0 <= k < |parts| ==> '\n' !in parts[k]
    requires Join(parts, "\n") == s
    ensures parts == Lines(s)
    decreases |s|
  {
    var tail := Join(parts[1..], "\n");
    assert |parts| > 1 ==> s == parts[0] + "\n" + tail;
    if parts[0] == [] {
      if |parts| > 1 {
        assert s[0] == '\n' && s[1..] == tail;
        LinesUnique(parts[1..], s[1..]);
        assert parts == [""] + parts[1..];
      }
    } else {
      var first := parts[0][1..];
      var shorter := [first] + parts[1..];
      assert parts[0] == [s[0]] + first;
      assert s[0] != '\n' by {
        assert s[0] == parts[0][0] && parts[0][0] in parts[0];
      }
      assert shorter[1..] == parts[1..];
      assert Join(shorter, "\n") == s[1..] by {
        if |parts| > 1 {
          assert Join(shorter, "\n") == first + "\n" + tail;
        }
      }
      forall k | 0 <= k < |shorter| ensures '\n' !in shorter[k] {
        if k == 0 {
          assert forall c :: c in first ==> c in parts[0];
        } else {
          assert shorter[k] == parts[k];
        }
      }
      LinesUnique(shorter, s[1..]);
      assert parts == [[s[0]] + first] + parts[1..];
    }
  }

  /** Lowering commutes with slicing. */
  lemma LowerSlice(s: string, i: nat, j: nat)
    requires i <= j <= |s|
    ensures Lower(s[i..j]) == Lower(s)[i..j]
  {
  }
}

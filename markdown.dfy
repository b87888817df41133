/**
 * The line heuristics the server applies to the semi-structured markdown it
 * serves: the first "summary" line of a document, the description of a design
 * rule, the attribute-definition block, and the `Category:` label. The two
 * regular expressions of the source, `/Category:\s*([^\n]+)/i` and
 * `/^-\s+\*\*`/`, are written out as predicates and functions, including the
 * backtracking of `\s*` at the end of the text.
 */
module Markdown {
  import opened Options
  import opened JsStrings

  /** The line filters of the server's scans. */
  datatype LineTest =
    | ComponentSummary                  // searchComponents: non-blank, not "#…", not "Tag:…"
    | RuleSummary                       // searchDesignRules: non-blank, not "#…", not "---…"
    | CategoryDescription               // listDesignCategories: as RuleSummary, and longer than 10
    | AttributeDefinition(attr: string) // findByAttribute: "`attr`" (attr lowered) on a "-" or "•" line

  predicate Passes(t: LineTest, line: string) {
    match t
    case ComponentSummary =>
      !IsBlank(line) && !StartsWith(line, "#") && !StartsWith(line, "Tag:")
    case RuleSummary =>
      !IsBlank(line) && !StartsWith(line, "#") && !StartsWith(line, "---")
    case CategoryDescription =>
      !IsBlank(line) && !StartsWith(line, "#") && !StartsWith(line, "---") && |line| > 10
    case AttributeDefinition(a) =>
      Contains(Lower(line), "`" + a + "`") && (StartsWith(line, "-") || StartsWith(line, "•"))
  }

  /** The index of the first line at or after `from` that passes `t`. */
  function FirstPassing(t: LineTest, lines: seq<string>, from: nat): (r: Option<nat>)
    decreases |lines| - from
    ensures r.Some? ==> from <= r.value < |lines| && Passes(t, lines[r.value])
    ensures r.Some? ==> forall j :: from <= j < r.value ==> !Passes(t, lines[j])
    ensures r.None? ==> forall j :: from <= j < |lines| ==> !Passes(t, lines[j])
  {
    if from >= |lines| then None
    else if Passes(t, lines[from]) then Some(from)
    else FirstPassing(t, lines, from + 1)
  }

  /** The scan `for (const line of lines) { if (…) { …; break; } }`. */
  method FindFirstLine(t: LineTest, lines: seq<string>) returns (r: Option<nat>)
    ensures r == FirstPassing(t, lines, 0)
    ensures r.Some? ==> r.value < |lines| && Passes(t, lines[r.value])
  {
    for i := 0 to |lines|
      invariant forall j :: 0 <= j < i ==> !Passes(t, lines[j])
    {
      if Passes(t, lines[i]) {
        return Some(i);
      }
    }
    return None;
  }

  /** The search snippet: `description || fallback`, the description being the trimmed first passing line. */
  function Relevance(t: LineTest, content: string, fallback: string): string {
    var lines := Lines(content);
    var description := match FirstPassing(t, lines, 0)
      case None => ""
      case Some(i) => Trim(lines[i]);
    if description != "" then description else fallback
  }

  function Min(a: nat, b: nat): nat {
    if a <= b then a else b
  }

  /** A rule's description line cut to 100 characters: `line.trim().substring(0, 100)` plus "..." when the raw line is longer than 100. */
  function Excerpt(line: string): string {
    var t := Trim(line);
    t[..Min(100, |t|)] + (if |line| > 100 then "..." else "")
  }

  const DefaultDescription := "Design guidelines and specifications"

  /** The description `listDesignCategories` prints for a rule. */
  function Describe(content: string): string {
    var lines := Lines(content);
    match FirstPassing(CategoryDescription, lines, 0)
    case None => DefaultDescription
    case Some(i) => Excerpt(lines[i])
  }

  // ---------------------------------------------------------------------------
  // Attribute definitions and their context block

  /** `/^-\s+\*\*`/`: the line opens another attribute definition. */
  predicate IsAttributeHeading(line: string) {
    |line| >= 1 && line[0] == '-' && var q := SkipSpaces(line, 1); q > 1 && StartsWith(line[q..], "**`")
  }

  /**
   * Where the context block that starts at line `i` ends (exclusive), scanning
   * from line `e`: at the first blank line or attribute heading, at the end of
   * the text, or after ten lines, whichever comes first.
   */
  function ContextEnd(lines: seq<string>, i: nat, e: nat): (r: nat)
    requires i < e <= |lines| && e <= i + 10
    decreases |lines| - e
    ensures e <= r <= |lines| && r <= i + 10
    ensures forall k :: e <= k < r ==> !IsBlank(lines[k]) && !IsAttributeHeading(lines[k])
    ensures r == |lines| || r == i + 10 || IsBlank(lines[r]) || IsAttributeHeading(lines[r])
  {
    if e < |lines| && !IsAttributeHeading(lines[e]) && e < i + 10 && !IsBlank(lines[e])
    then ContextEnd(lines, i, e + 1)
    else e
  }

  /** The trimmed block of lines that starts at line `i`. */
  function BlockAt(lines: seq<string>, i: nat): string
    requires i < |lines|
  {
    Trim(Join(lines[i..ContextEnd(lines, i, i + 1)], "\n"))
  }

  /** Some line of `lines` defines attribute `a` (already lowered). */
  predicate Defines(lines: seq<string>, a: string) {
    exists l :: 0 <= l < |lines| && Passes(AttributeDefinition(a), lines[l])
  }

  /** The block around the first definition of attribute `a` (already lowered), if any. */
  function Context(lines: seq<string>, a: string): (r: Option<string>)
    ensures r.Some? <==> Defines(lines, a)
  {
    match FirstPassing(AttributeDefinition(a), lines, 0)
    case None => None
    case Some(i) => Some(BlockAt(lines, i))
  }

  /** One document's part of `findByAttribute`: the first definition line, then the `while` that advances `contextEnd`. */
  method AttributeContext(lines: seq<string>, a: string) returns (ctx: Option<string>)
    ensures ctx == Context(lines, a)
  {
    var found := FindFirstLine(AttributeDefinition(a), lines);
    if found.None? {
      return None;
    }
    var i := found.value;
    var e := i + 1;
    while e < |lines| && !IsAttributeHeading(lines[e]) && e < i + 10
      invariant i < e <= |lines| && e <= i + 10
      invariant ContextEnd(lines, i, e) == ContextEnd(lines, i, i + 1)
    {
      if IsBlank(lines[e]) {
        break;
      }
      e := e + 1;
    }
    return Some(Trim(Join(lines[i..e], "\n")));
  }

  // ---------------------------------------------------------------------------
  // The `Category:` label

  /** "Category:" in any letter case starts at index `i`. */
  predicate CategoryLabelAt(s: string, i: nat) {
    i + 9 <= |s| && Lower(s[i..i + 9]) == "category:"
  }

  /** The end of the line containing index `p`: the next '\n' or the end of the text. */
  function LineEnd(s: string, p: nat): (r: nat)
    requires p <= |s|
    decreases |s| - p
    ensures p <= r <= |s|
    ensures forall k :: p <= k < r ==> s[k] != '\n'
    ensures r == |s| || s[r] == '\n'
  {
    if p < |s| && s[p] != '\n' then LineEnd(s, p + 1) else p
  }

  /** The last index in `[lo, hi)` that is not a newline. */
  function LastNonNewline(s: string, lo: nat, hi: nat): (r: Option<nat>)
    requires lo <= hi <= |s|
    decreases hi - lo
    ensures r.Some? ==> lo <= r.value < hi && s[r.value] != '\n'
    ensures r.Some? ==> forall k :: r.value < k < hi ==> s[k] == '\n'
    ensures r.None? ==> forall k :: lo <= k < hi ==> s[k] == '\n'
  {
    if lo == hi then None
    else if s[hi - 1] != '\n' then Some(hi - 1)
    else LastNonNewline(s, lo, hi - 1)
  }

  /**
   * `\s*([^\n]+)` can match after a label at `i` with the capture starting at
   * `p`: everything between the label and `p` is whitespace, and `s[p]` is not
   * a newline.
   */
  predicate CanCapture(s: string, i: nat, p: nat) {
    i + 9 <= p < |s| && s[p] != '\n' && forall k :: i + 9 <= k < p ==> IsSpace(s[k])
  }

  /**
   * Where the capture `([^\n]+)` starts for a label at `i`: after the longest
   * run of `\s`; when that run reaches the end of the text, `\s*` gives back
   * characters until one that is not a newline is left for `[^\n]+`. Greedy
   * `\s*` with backtracking picks the largest possible start.
   */
  function CaptureStart(s: string, i: nat): (r: Option<nat>)
    requires i + 9 <= |s|
    ensures r.Some? ==> CanCapture(s, i, r.value)
    ensures r.Some? ==> forall p :: r.value < p ==> !CanCapture(s, i, p)
    ensures r.None? ==> forall p :: !CanCapture(s, i, p)
  {
    var q := SkipSpaces(s, i + 9);
    if q < |s| then
      assert forall p :: q < p ==> !CanCapture(s, i, p) by {
        forall p | q < p ensures !CanCapture(s, i, p) {
          assert !IsSpace(s[q]);
        }
      }
      Some(q)
    else
      LastNonNewline(s, i + 9, |s|)
  }

  predicate CategoryMatchAt(s: string, i: nat) {
    CategoryLabelAt(s, i) && CaptureStart(s, i).Some?
  }

  /** The leftmost index at or after `from` where the whole pattern matches. */
  function CategoryMatchFrom(s: string, from: nat): (r: Option<nat>)
    decreases |s| - from
    ensures r.Some? ==> from <= r.value && CategoryMatchAt(s, r.value)
    ensures r.Some? ==> forall j :: from <= j < r.value ==> !CategoryMatchAt(s, j)
    ensures r.None? ==> forall j :: from <= j ==> !CategoryMatchAt(s, j)
  {
    if from + 9 > |s| then None
    else if CategoryMatchAt(s, from) then Some(from)
    else CategoryMatchFrom(s, from + 1)
  }

  /** `match?.[1].trim()`, or "Other" when the pattern does not match. */
  function CategoryOf(content: string): string {
    match CategoryMatchFrom(content, 0)
    case None => "Other"
    case Some(i) =>
      var p := CaptureStart(content, i).value;
      Trim(content[p..LineEnd(content, p)])
  }

  // ---------------------------------------------------------------------------
  // Lemmas

  /**
   * A search snippet is the trimmed first accepted line, which is never empty,
   * so the fallback text is used exactly when no line is accepted.
   */
  lemma RelevanceIsFirstAcceptedLine(t: LineTest, content: string, fallback: string)
    requires t == ComponentSummary || t == RuleSummary
    ensures var lines := Lines(content); var r := Relevance(t, content, fallback);
      match FirstPassing(t, lines, 0)
      case Some(i) => r == Trim(lines[i]) && r != [] && !IsSpace(r[0])
      case None => r == fallback
  {
  }

  /**
   * The description is a prefix of the trimmed line, all of it when that is at
   * most 100 characters and exactly 100 otherwise; "..." follows exactly when the
   * RAW line is longer than 100, so a line padded past 100 by whitespace gets
   * "..." although nothing was cut.
   */
  lemma ExcerptCutsAtHundred(line: string)
    ensures var t := Trim(line); var x := Excerpt(line);
      && (|line| > 100 <==> |x| >= 3 && x[|x| - 3..] == "..." && x[..|x| - 3] == t[..Min(100, |t|)])
      && (|line| <= 100 ==> x == t)
      && (|t| > 100 ==> x == t[..100] + "...")
      && (|t| <= 100 < |line| ==> x == t + "...")
      && |x| <= 103
  {
    var t := Trim(line);
    var x := Excerpt(line);
    if |line| <= 100 {
      assert |t| <= 100;
      assert t[..|t|] == t;
      if |x| >= 3 {
        assert x[|x| - 3..] == t[|t| - 3..];
        assert !IsSpace(t[|t| - 1]);
      }
    } else {
      assert x[|x| - 3..] == "...";
    }
  }

  /** Every rule gets a non-empty description of at most 103 characters. */
  lemma DescriptionBounded(content: string)
    ensures var d := Describe(content); d != [] && |d| <= 103
  {
    var lines := Lines(content);
    match FirstPassing(CategoryDescription, lines, 0)
    case None =>
    case Some(i) =>
      ExcerptCutsAtHundred(lines[i]);
      assert Trim(lines[i]) != [];
  }

  /**
   * The context block is the trimmed join of the definition line and at most
   * nine more lines: it stops before the first blank line or attribute heading,
   * at the end of the text, or after ten lines.
   */
  lemma BlockSpan(lines: seq<string>, i: nat)
    requires i < |lines|
    ensures exists e :: (i < e <= |lines| && e <= i + 10
      && BlockAt(lines, i) == Trim(Join(lines[i..e], "\n"))
      && (forall k :: i < k < e ==> !IsBlank(lines[k]) && !IsAttributeHeading(lines[k]))
      && (e == |lines| || e == i + 10 || IsBlank(lines[e]) || IsAttributeHeading(lines[e])))
  {
    var e := ContextEnd(lines, i, i + 1);
    assert BlockAt(lines, i) == Trim(Join(lines[i..e], "\n"));
  }

  /** A definition line followed by a blank line (or by nothing) is a block on its own, trimmed. */
  lemma BlockBeforeBlank(lines: seq<string>, i: nat)
    requires i < |lines|
    requires i + 1 == |lines| || IsBlank(lines[i + 1])
    ensures BlockAt(lines, i) == Trim(lines[i])
  {
    assert ContextEnd(lines, i, i + 1) == i + 1;
    assert lines[i..i + 1] == [lines[i]];
  }

  lemma LowerCategoryLabel()
    ensures Lower("Category:") == "category:"
  {
    var l := Lower("Category:");
    assert l[0] == LowerChar('C') == 'c';
  }

  /** A document whose first label is the line "Category: v" is filed under `v`, trimmed. */
  lemma CategoryFromLabelLine(pre: string, v: string, post: string)
    requires forall j :: 0 <= j < |pre| ==> !CategoryLabelAt(pre + "Category: " + v + "\n" + post, j)
    requires v != [] && !IsSpace(v[0]) && '\n' !in v
    ensures CategoryOf(pre + "Category: " + v + "\n" + post) == Trim(v)
  {
    var s := pre + "Category: " + v + "\n" + post;
    var i := |pre|;
    var e := i + 10 + |v|;
    assert s[i..i + 9] == "Category:";
    assert s[i + 9] == ' ' && s[i + 10] == v[0];
    assert s[i + 10..e] == v;
    assert s[e] == '\n';
    CategoryFromLabelAt(s, i, e);
  }

  /**
   * The same, for a label at a known index of the text: the category is the
   * trimmed rest of the label's line.
   */
  lemma CategoryFromLabelAt(s: string, i: nat, e: nat)
    requires i + 10 < e < |s| && s[e] == '\n'
    requires s[i..i + 9] == "Category:" && s[i + 9] == ' ' && !IsSpace(s[i + 10])
    requires forall k :: i + 10 <= k < e ==> s[k] != '\n'
    requires forall j :: 0 <= j < i ==> !CategoryLabelAt(s, j)
    ensures CategoryOf(s) == Trim(s[i + 10..e])
  {
    var p := i + 10;
    assert CategoryMatchAt(s, i) && CaptureStart(s, i) == Some(p) by {
      LowerCategoryLabel();
      assert SkipSpaces(s, i + 9) == p;
    }
    assert CategoryMatchFrom(s, 0) == Some(i);
    assert LineEnd(s, p) == e;
    CategoryOfFirstMatch(s, i, p, e);
  }

  /** Unfolds CategoryOf at a known leftmost label, capture start and line end. */
  lemma CategoryOfFirstMatch(s: string, i: nat, p: nat, e: nat)
    requires CategoryMatchFrom(s, 0) == Some(i)
    requires i + 9 <= |s| && CaptureStart(s, i) == Some(p)
    requires p <= e <= |s| && LineEnd(s, p) == e
    ensures CategoryOf(s) == Trim(s[p..e])
  {
  }

  /** A document with no "category:" anywhere (in any letter case) is filed under "Other". */
  lemma CategoryOtherWithoutLabel(content: string)
    requires !Contains(Lower(content), "category:")
    ensures CategoryOf(content) == "Other"
  {
    forall k | 0 <= k
      ensures !CategoryLabelAt(content, k)
    {
      if k + 9 <= |content| {
        LowerSlice(content, k, k + 9);
        assert !OccursAt(Lower(content), "category:", k);
      }
    }
  }
}

/**
 * The query engine: what each tool computes from the three collections.
 * Scans that the server writes as loops (the two searches, the attribute
 * search, the component listing) are methods proved equal to a specification
 * function; the single-`find` lookups are functions.
 */
module Queries {
  import opened Options
  import opened JsStrings
  import opened Sequences
  import opened Store
  import opened Markdown

  /** The outcome of a query: the reply text, or the message of the error it throws. */
  datatype Outcome = Text(text: string) | Thrown(message: string)

  function Quote(s: string): string {
    "\"" + s + "\""
  }

  // ---------------------------------------------------------------------------
  // searchComponents and searchDesignRules

  /** Which of the two searches: over component docs or over design rules. */
  datatype Searchable = ComponentSearch | RuleSearch

  function SummaryTest(s: Searchable): LineTest {
    match s
    case ComponentSearch => ComponentSummary
    case RuleSearch => RuleSummary
  }

  function Fallback(s: Searchable): string {
    match s
    case ComponentSearch => "Modus Web Component"
    case RuleSearch => "Design rule documentation"
  }

  /** One search result: the record's key and file name, and its snippet. */
  datatype Hit = Hit(key: string, filename: string, relevance: string)

  /** The lowered key or the lowered content contains the (already lowered) query. */
  predicate MatchesQuery(d: Doc, q: string) {
    Contains(Lower(d.key), q) || Contains(Lower(d.content), q)
  }

  function HitFor(s: Searchable, d: Doc): Hit {
    Hit(d.key, d.filename, Relevance(SummaryTest(s), d.content, Fallback(s)))
  }

  function SearchStep(s: Searchable, q: string, d: Doc): Option<Hit> {
    if MatchesQuery(d, q) then Some(HitFor(s, d)) else None
  }

  function Searcher(s: Searchable, q: string): Doc -> Option<Hit> {
    d => SearchStep(s, q, d)
  }

  /** The results of a search for the lowered query `q`, in store order. */
  function SearchHits(s: Searchable, docs: seq<Doc>, q: string): seq<Hit> {
    FilterMap(docs, Searcher(s, q))
  }

  /** The loop of `searchComponents` / `searchDesignRules` that pushes one result per matching record. */
  method Search(s: Searchable, docs: seq<Doc>, query: string) returns (hits: seq<Hit>)
    ensures hits == SearchHits(s, docs, Lower(query))
  {
    var q := Lower(query);
    hits := [];
    for k := 0 to |docs|
      invariant hits == SearchHits(s, docs[..k], q)
    {
      var d := docs[k];
      assert docs[..k + 1][..k] == docs[..k];
      if Contains(Lower(d.key), q) || Contains(Lower(d.content), q) {
        var lines := Lines(d.content);
        var found := FindFirstLine(SummaryTest(s), lines);
        var description := if found.Some? then Trim(lines[found.value]) else "";
        hits := hits + [Hit(d.key, d.filename, if description != "" then description else Fallback(s))];
      }
    }
    assert docs[..|docs|] == docs;
  }

  function HitEntries(hits: seq<Hit>): (r: seq<string>)
    ensures |r| == |hits|
  {
    seq(|hits|, k requires 0 <= k < |hits| => "**" + hits[k].key + "**\n" + hits[k].relevance + "\n")
  }

  /** What the reply says was not found when a search finds nothing. */
  function NoHitsWhat(s: Searchable): string {
    match s
    case ComponentSearch => "components found matching "
    case RuleSearch => "design rules found matching "
  }

  /** The suggestion that closes the reply when a search finds nothing. */
  function NoHitsHint(s: Searchable): string {
    match s
    case ComponentSearch => ". Try searching for common UI elements like \"button\", \"input\", \"modal\", \"card\", etc."
    case RuleSearch => ". Try searching for terms like \"color\", \"icon\", \"spacing\", \"typography\", etc."
  }

  function NoHitsBody(s: Searchable, query: string): string {
    NoHitsWhat(s) + Quote(query) + NoHitsHint(s)
  }

  /** The reply text of a search for `query` that produced `hits`. */
  function SearchReply(s: Searchable, query: string, hits: seq<Hit>): string {
    if hits == [] then "No " + NoHitsBody(s, query)
    else "Found " + NatToString(|hits|) + " " + FoundTail(s, query, hits)
  }

  /** What follows the count in a reply with results: the noun, the query and one entry per result. */
  function FoundTail(s: Searchable, query: string, hits: seq<Hit>): string {
    var noun := match s case ComponentSearch => "component(s)" case RuleSearch => "design rule(s)";
    noun + " matching " + Quote(query) + ":\n\n" + Join(HitEntries(hits), "\n")
  }

  // ---------------------------------------------------------------------------
  // Single-record lookups

  /** The `find` predicates of the lookups; queries are already lowered where the source lowers them. */
  datatype Selector =
    | KeyIs(q: string)             // getComponentDocs: lowered key equals the query
    | KeyOrFilenameHas(q: string)  // getDesignRules, getSetupGuide: or the lowered file name contains it
    | GuideNamed(word: string)     // getThemeUsage, getDevelopmentRules: case-sensitive

  predicate Selects(sel: Selector, d: Doc) {
    match sel
    case KeyIs(q) => Lower(d.key) == q
    case KeyOrFilenameHas(q) => Lower(d.key) == q || Contains(Lower(d.filename), q)
    case GuideNamed(w) => d.key == w || Contains(d.filename, w)
  }

  /** `Array.prototype.find` from index `from`: the first selected record. */
  function FirstSelected(sel: Selector, docs: seq<Doc>, from: nat): (r: Option<nat>)
    decreases |docs| - from
    ensures r.Some? ==> from <= r.value < |docs| && Selects(sel, docs[r.value])
    ensures r.Some? ==> forall j :: from <= j < r.value ==> !Selects(sel, docs[j])
    ensures r.None? ==> forall j :: from <= j < |docs| ==> !Selects(sel, docs[j])
  {
    if from >= |docs| then None
    else if Selects(sel, docs[from]) then Some(from)
    else FirstSelected(sel, docs, from + 1)
  }

  /** The content of the first selected record, or the not-found text `miss`. */
  function LookupReply(docs: seq<Doc>, sel: Selector, miss: string): string {
    match FirstSelected(sel, docs, 0)
    case None => miss
    case Some(i) => docs[i].content
  }

  function ComponentDocs(docs: seq<Doc>, component: string): string {
    LookupReply(docs, KeyIs(ReplaceFirst(Lower(component), "modus-wc-")),
      "Component " + Quote(component) + " not found.\n\nAvailable components: " + Join(Keys(docs), ", "))
  }

  function DesignRule(rules: seq<Doc>, category: string): string {
    LookupReply(rules, KeyOrFilenameHas(Lower(category)),
      "Design rule category " + Quote(category) + " not found.\n\nAvailable categories: " + Join(Keys(rules), ", "))
  }

  function SetupGuide(setup: seq<Doc>, setupType: string): string {
    LookupReply(setup, KeyOrFilenameHas(Lower(setupType)),
      "Setup guide type " + Quote(setupType) + " not found.\n\nAvailable types: " + Join(Keys(setup), ", "))
  }

  const ThemeMissing := "Theme usage guide not found. Please run: node download-docs.js"
  const UniversalMissing := "Universal development rules not found. Please run: node download-docs.js"

  function ThemeUsage(setup: seq<Doc>): string {
    LookupReply(setup, GuideNamed("theme"), ThemeMissing)
  }

  function DevelopmentRules(setup: seq<Doc>): string {
    LookupReply(setup, GuideNamed("universal"), UniversalMissing)
  }

  // ---------------------------------------------------------------------------
  // findByAttribute

  datatype AttributeHit = AttributeHit(key: string, context: string)

  function AttributeStep(a: string, d: Doc): Option<AttributeHit> {
    match Context(Lines(d.content), a)
    case None => None
    case Some(c) => Some(AttributeHit(d.key, c))
  }

  function AttributeFinder(a: string): Doc -> Option<AttributeHit> {
    d => AttributeStep(a, d)
  }

  /** The results of an attribute search for the lowered attribute `a`, in store order. */
  function AttributeHits(docs: seq<Doc>, a: string): seq<AttributeHit> {
    FilterMap(docs, AttributeFinder(a))
  }

  /** The outer loop of `findByAttribute`: at most one result per record. */
  method FindByAttribute(docs: seq<Doc>, attribute: string) returns (hits: seq<AttributeHit>)
    ensures hits == AttributeHits(docs, Lower(attribute))
  {
    var a := Lower(attribute);
    hits := [];
    for k := 0 to |docs|
      invariant hits == AttributeHits(docs[..k], a)
    {
      var d := docs[k];
      assert docs[..k + 1][..k] == docs[..k];
      var context := AttributeContext(Lines(d.content), a);
      if context.Some? {
        hits := hits + [AttributeHit(d.key, context.value)];
      }
    }
    assert docs[..|docs|] == docs;
  }

  function AttributeEntries(hits: seq<AttributeHit>): (r: seq<string>)
    ensures |r| == |hits|
  {
    seq(|hits|, k requires 0 <= k < |hits| => "**" + hits[k].key + "**\n```\n" + hits[k].context + "\n```\n")
  }

  function AttributeReply(attribute: string, hits: seq<AttributeHit>): string {
    if hits == [] then "No components found with attribute " + Quote(attribute) + "."
    else
      "Found " + NatToString(|hits|) + " component(s) with attribute " + Quote(attribute) + ":\n\n"
      + Join(AttributeEntries(hits), "\n")
  }

  // ---------------------------------------------------------------------------
  // listAllComponents

  /**
   * The names an empty object literal inherits from `Object.prototype`. For
   * these `componentsByCategory[category]` is already truthy (a function, or
   * the prototype itself for "__proto__"), so no bucket is created and the
   * following `push` throws a TypeError.
   */
  const InheritedNames: seq<string> := [
    "constructor", "__defineGetter__", "__defineSetter__", "hasOwnProperty",
    "__lookupGetter__", "__lookupSetter__", "isPrototypeOf", "propertyIsEnumerable",
    "toString", "valueOf", "__proto__", "toLocaleString"]

  /** Whether `c` is one of `names`, checked one name at a time. */
  predicate Listed(c: string, names: seq<string>) {
    names != [] && (names[0] == c || Listed(c, names[1..]))
  }

  predicate Inherited(c: string) {
    Listed(c, InheritedNames)
  }

  const PushError := "componentsByCategory[category].push is not a function"

  /** A record as `listAllComponents` files it: its category and its key. */
  datatype Filing = Filing(category: string, key: string)

  function Filings(docs: seq<Doc>): (r: seq<Filing>)
    ensures |r| == |docs|
  {
    if docs == [] then []
    else
      var d := docs[|docs| - 1];
      Filings(docs[..|docs| - 1]) + [Filing(CategoryOf(d.content), d.key)]
  }

  function CategoryList(fs: seq<Filing>): (r: seq<string>)
    ensures |r| == |fs| && forall j :: 0 <= j < |fs| ==> r[j] == fs[j].category
  {
    seq(|fs|, j requires 0 <= j < |fs| => fs[j].category)
  }

  /** The distinct categories in order of first appearance: the insertion order of `componentsByCategory`. */
  function CategoriesInOrder(docs: seq<Doc>): seq<string> {
    FirstAppearances(CategoryList(Filings(docs)))
  }

  function MemberStep(c: string, f: Filing): Option<string> {
    if f.category == c then Some(f.key) else None
  }

  function KeyIn(c: string): Filing -> Option<string> {
    f => MemberStep(c, f)
  }

  /** The keys of the records filed under category `c`, in store order: the bucket `componentsByCategory[c]`. */
  function Members(docs: seq<Doc>, c: string): seq<string> {
    FilterMap(Filings(docs), KeyIn(c))
  }

  /** One entry of `Object.entries(componentsByCategory)`. */
  datatype Group = Group(category: string, members: seq<string>)

  function Groups(docs: seq<Doc>): (r: seq<Group>)
    ensures |r| == |CategoriesInOrder(docs)|
  {
    var cs := CategoriesInOrder(docs);
    seq(|cs|, g requires 0 <= g < |cs| => Group(cs[g], Members(docs, cs[g])))
  }

  /** `String([category, members])`, the form by which `sort()` orders the entries. */
  function EntryString(g: Group): string {
    g.category + "," + Join(g.members, ",")
  }

  function Identity(s: string): string {
    s
  }

  function Bullets(members: seq<string>): (r: seq<string>)
    ensures |r| == |members|
  {
    seq(|members|, k requires 0 <= k < |members| => "- " + members[k])
  }

  /** The three `+=` of one category: its heading, its keys sorted one bullet each, a blank line. */
  function GroupSection(g: Group): string {
    "## " + g.category + "\n" + Join(Bullets(SortByKey(g.members, Identity)), "\n") + "\n\n"
  }

  function Sections(gs: seq<Group>): string {
    if gs == [] then "" else Sections(gs[..|gs| - 1]) + GroupSection(gs[|gs| - 1])
  }

  predicate HasInheritedCategory(docs: seq<Doc>) {
    exists j :: 0 <= j < |docs| && Inherited(CategoryOf(docs[j].content))
  }

  function ComponentsHeader(n: nat): string {
    "# Modus Web Components (" + NatToString(n) + " components)\n\n"
  }

  /** What `listAllComponents` returns or throws. */
  function ComponentListing(docs: seq<Doc>): Outcome {
    if HasInheritedCategory(docs) then Thrown(PushError)
    else Text(ComponentsHeader(|docs|) + Sections(SortByKey(Groups(docs), EntryString)))
  }

  /**
   * The first loop of `listAllComponents`: file every record in the bucket of
   * its category, creating buckets in order of first appearance; `thrown`
   * when a category is an inherited name.
   */
  method FileComponents(docs: seq<Doc>) returns (thrown: bool, groups: seq<Group>)
    ensures thrown == HasInheritedCategory(docs)
    ensures !thrown ==> groups == Groups(docs)
  {
    ghost var fs: seq<Filing> := [];
    var buckets: map<string, seq<string>> := map[];
    var order: seq<string> := [];
    for k := 0 to |docs|
      invariant fs == Filings(docs[..k])
      invariant Filed(fs, order, buckets)
      invariant NoneInherited(fs)
    {
      var d := docs[k];
      var category := CategoryOf(d.content);
      if Inherited(category) {
        assert Inherited(CategoryOf(docs[k].content));
        return true, [];
      }
      var f := Filing(category, d.key);
      FilingsStep(docs, k);
      var bucket := if category in buckets then buckets[category] else [];
      ghost var (order0, buckets0) := (order, buckets);
      if category !in buckets {
        order := order + [category];
      }
      buckets := buckets[category := bucket + [d.key]];
      FileOne(fs, f, order0, buckets0, order, buckets);
      NoneInheritedPush(fs, f);
      fs := fs + [f];
    }
    assert docs[..|docs|] == docs;
    NoInheritedCategory(docs);
    GroupsOfBuckets(docs, fs, order, buckets);
    return false, EntriesOf(order, buckets);
  }

  /**
   * The state of the filing loop after the filings `fs`: the categories in order
   * of first appearance, and for each of them its bucket.
   */
  ghost predicate Filed(fs: seq<Filing>, order: seq<string>, buckets: map<string, seq<string>>) {
    && order == FirstAppearances(CategoryList(fs))
    && (forall c :: c in buckets <==> c in order)
    && (forall c :: c in buckets ==> buckets[c] == FilterMap(fs, KeyIn(c)))
  }

  /** Filing one more record keeps the loop state. */
  lemma FileOne(fs: seq<Filing>, f: Filing, order: seq<string>, buckets: map<string, seq<string>>,
                order': seq<string>, buckets': map<string, seq<string>>)
    requires Filed(fs, order, buckets)
    requires order' == if f.category in buckets then order else order + [f.category]
    requires buckets' == buckets[f.category := (if f.category in buckets then buckets[f.category] else []) + [f.key]]
    ensures Filed(fs + [f], order', buckets')
  {
    OrderExtend(fs, f);
    assert order' == FirstAppearances(CategoryList(fs + [f]));
    BucketsExtend(fs, f, buckets);
    assert forall c :: c in buckets' <==> c in order';
  }

  /** No filing so far names an inherited category. */
  predicate NoneInherited(fs: seq<Filing>) {
    forall j :: 0 <= j < |fs| ==> !Inherited(fs[j].category)
  }

  lemma NoneInheritedPush(fs: seq<Filing>, f: Filing)
    requires NoneInherited(fs) && !Inherited(f.category)
    ensures NoneInherited(fs + [f])
  {
  }

  lemma NoInheritedCategory(docs: seq<Doc>)
    requires NoneInherited(Filings(docs))
    ensures !HasInheritedCategory(docs)
  {
    forall j | 0 <= j < |docs| ensures !Inherited(CategoryOf(docs[j].content)) {
      FilingAt(docs, j);
    }
  }

  /** `Object.entries` of the dictionary: each category with its bucket, in insertion order. */
  function EntriesOf(order: seq<string>, buckets: map<string, seq<string>>): seq<Group>
    requires forall c :: c in order ==> c in buckets
  {
    seq(|order|, g requires 0 <= g < |order| => Group(order[g], buckets[order[g]]))
  }

  /** The buckets, listed in the order their categories first appeared, are the groups of the records. */
  lemma GroupsOfBuckets(docs: seq<Doc>, fs: seq<Filing>, order: seq<string>, buckets: map<string, seq<string>>)
    requires fs == Filings(docs) && Filed(fs, order, buckets)
    ensures EntriesOf(order, buckets) == Groups(docs)
  {
  }

  /** Filing the records up to `k` inclusive adds record `k` to the filings before it. */
  lemma FilingsStep(docs: seq<Doc>, k: nat)
    requires k < |docs|
    ensures Filings(docs[..k + 1]) == Filings(docs[..k]) + [Filing(CategoryOf(docs[k].content), docs[k].key)]
  {
    assert docs[..k + 1][..k] == docs[..k];
  }

  /** The filing of record `j` holds its category and key. */
  lemma {:induction false} FilingAt(docs: seq<Doc>, j: nat)
    requires j < |docs|
    ensures Filings(docs)[j] == Filing(CategoryOf(docs[j].content), docs[j].key)
  {
    if j < |docs| - 1 {
      FilingAt(docs[..|docs| - 1], j);
    }
  }

  /** Filing one more record appends its category to the order when it is new. */
  lemma OrderExtend(fs: seq<Filing>, f: Filing)
    ensures FirstAppearances(CategoryList(fs + [f])) ==
      FirstAppearances(CategoryList(fs)) + (if f.category in FirstAppearances(CategoryList(fs)) then [] else [f.category])
  {
    assert CategoryList(fs + [f])[..|fs|] == CategoryList(fs);
  }

  /** Filing one more record appends its key to its category's bucket, which is created empty when new. */
  lemma BucketsExtend(fs: seq<Filing>, f: Filing, before: map<string, seq<string>>)
    requires forall c :: c in before <==> c in FirstAppearances(CategoryList(fs))
    requires forall c :: c in before ==> before[c] == FilterMap(fs, KeyIn(c))
    ensures var after := before[f.category := (if f.category in before then before[f.category] else []) + [f.key]];
      forall c :: c in after ==> after[c] == FilterMap(fs + [f], KeyIn(c))
  {
    var after := before[f.category := (if f.category in before then before[f.category] else []) + [f.key]];
    if f.category !in before {
      forall j | 0 <= j < |fs| ensures fs[j].category != f.category {
        assert CategoryList(fs)[j] == fs[j].category;
      }
      NoMembers(fs, f.category);
    }
    forall c | c in after
      ensures after[c] == FilterMap(fs + [f], KeyIn(c))
    {
      BucketStep(fs, f, c);
    }
  }

  /** A category no record is filed under has an empty bucket. */
  lemma {:induction false} NoMembers(fs: seq<Filing>, c: string)
    requires forall j :: 0 <= j < |fs| ==> fs[j].category != c
    ensures FilterMap(fs, KeyIn(c)) == []
  {
    if fs != [] {
      NoMembers(fs[..|fs| - 1], c);
    }
  }

  /** One more filing joins the bucket of its own category and no other. */
  lemma BucketStep(fs: seq<Filing>, f: Filing, c: string)
    ensures FilterMap(fs + [f], KeyIn(c)) == FilterMap(fs, KeyIn(c)) + (if f.category == c then [f.key] else [])
  {
    assert (fs + [f])[..|fs|] == fs;
  }

  /** `listAllComponents`: file the records, then print the entries sorted by their string form. */
  method ListAllComponents(docs: seq<Doc>) returns (out: Outcome)
    ensures out == ComponentListing(docs)
  {
    var thrown, groups := FileComponents(docs);
    if thrown {
      return Thrown(PushError);
    }
    var sorted := SortByKey(groups, EntryString);
    var text := ComponentsHeader(|docs|);
    assert Sections(sorted[..0]) == [];
    for g := 0 to |sorted|
      invariant text == ComponentsHeader(|docs|) + Sections(sorted[..g])
    {
      assert sorted[..g + 1][..g] == sorted[..g];
      assert Sections(sorted[..g + 1]) == Sections(sorted[..g]) + GroupSection(sorted[g]);
      AppendAssociates(ComponentsHeader(|docs|), Sections(sorted[..g]), GroupSection(sorted[g]));
      text := text + GroupSection(sorted[g]);
    }
    assert sorted[..|sorted|] == sorted;
    return Text(text);
  }

  // ---------------------------------------------------------------------------
  // listDesignCategories

  function CategorySection(r: Doc): string {
    "## " + r.key + "\n" + Describe(r.content) + "\n\n"
  }

  /** The body of the `for` loop of `listDesignCategories`: one rule's section. */
  method WriteSection(rule: Doc) returns (section: string)
    ensures section == CategorySection(rule)
  {
    var lines := Lines(rule.content);
    var description := DefaultDescription;
    var first := FindFirstLine(CategoryDescription, lines);
    if first.Some? {
      description := Excerpt(lines[first.value]);
    }
    section := "## " + rule.key + "\n" + description + "\n\n";
  }

  function CategorySections(rules: seq<Doc>): string {
    if rules == [] then "" else CategorySections(rules[..|rules| - 1]) + CategorySection(rules[|rules| - 1])
  }

  function RulesHeader(n: nat): string {
    "# Modus Design Rules (" + NatToString(n) + " categories)\n\n"
  }

  /** The text `listDesignCategories` prints for rules already sorted by category. */
  function CategoryListing(sorted: seq<Doc>): string {
    RulesHeader(|sorted|) + CategorySections(sorted)
  }

  // ---------------------------------------------------------------------------
  // Lemmas: searches

  /**
   * A search returns, in store order and once each, exactly the records whose
   * lowered key or lowered content contains the lowered query, each with its snippet.
   */
  lemma SearchFindsExactlyMatches(s: Searchable, docs: seq<Doc>, query: string)
    ensures var q := Lower(query); var hits := SearchHits(s, docs, q); var pos := KeptPositions(docs, Searcher(s, q));
      && |hits| == |pos|
      && (forall k, l :: 0 <= k < l < |pos| ==> pos[k] < pos[l])
      && (forall j :: 0 <= j < |docs| ==> (MatchesQuery(docs[j], q) <==> j in pos))
      && (forall k :: 0 <= k < |pos| ==> pos[k] < |docs| && hits[k] == HitFor(s, docs[pos[k]]))
  {
    FilterMapKeeps(docs, Searcher(s, Lower(query)));
  }

  /** The empty query matches every record: the search lists the whole collection. */
  lemma EmptyQueryMatchesAll(s: Searchable, docs: seq<Doc>)
    ensures var hits := SearchHits(s, docs, Lower(""));
      |hits| == |docs| && forall k :: 0 <= k < |docs| ==> hits[k] == HitFor(s, docs[k])
  {
    var q := Lower("");
    assert q == "";
    forall j | 0 <= j < |docs|
      ensures Searcher(s, q)(docs[j]) == Some(HitFor(s, docs[j]))
    {
      ContainsEmpty(Lower(docs[j].key));
    }
    FilterMapAll(docs, Searcher(s, q));
  }

  /** A non-empty result list is announced as "Found N ...", N being the number of results written in decimal. */
  lemma SearchReplyCounts(s: Searchable, query: string, hits: seq<Hit>)
    requires hits != []
    ensures var n := NatToString(|hits|);
      StartsWith(SearchReply(s, query, hits), "Found " + n + " ") && DecimalValue(n) == |hits|
  {
    var n := NatToString(|hits|);
    assert DecimalValue(n) == |hits| by {
      DecimalRoundTrip(|hits|);
    }
    PrefixStartsWith("Found " + n + " ", FoundTail(s, query, hits));
  }

  /** No result is reported as such, and the reply quotes the query. */
  lemma SearchReplyWithoutHits(s: Searchable, query: string)
    ensures !StartsWith(SearchReply(s, query, []), "Found ")
    ensures Contains(SearchReply(s, query, []), Quote(query))
  {
    NoHitsShape(NoHitsWhat(s), Quote(query), NoHitsHint(s));
  }

  lemma NoHitsShape(what: string, quoted: string, hint: string)
    ensures !StartsWith("No " + (what + quoted + hint), "Found ")
    ensures Contains("No " + (what + quoted + hint), quoted)
  {
    FirstCharDiffers("No ", what + quoted + hint, "Found ");
    ContainsInfix(what, quoted, hint);
    ContainsAfter("No ", what + quoted + hint, quoted);
  }

  // ---------------------------------------------------------------------------
  // Lemmas: lookups

  /**
   * A lookup never fails: it returns the content of the first selected record,
   * verbatim, or the not-found text exactly when no record is selected.
   */
  lemma LookupReplyMeaning(docs: seq<Doc>, sel: Selector, miss: string)
    ensures var r := LookupReply(docs, sel, miss);
      && ((exists j :: 0 <= j < |docs| && Selects(sel, docs[j])) ==>
            exists i :: 0 <= i < |docs| && Selects(sel, docs[i]) && r == docs[i].content
              && forall j :: 0 <= j < i ==> !Selects(sel, docs[j]))
      && ((forall j :: 0 <= j < |docs| ==> !Selects(sel, docs[j])) ==> r == miss)
  {
    match FirstSelected(sel, docs, 0)
    case None =>
    case Some(i) =>
      assert Selects(sel, docs[i]);
  }

  /**
   * Looking up a component by its own key, in any letter case and with or
   * without the "modus-wc-" prefix, returns that component's documentation
   * when no earlier component has the same lowered key.
   */
  lemma ComponentDocsOfOwnKey(docs: seq<Doc>, i: nat, query: string)
    requires i < |docs| && !Contains(Lower(docs[i].key), "modus-wc-")
    requires Lower(query) == Lower(docs[i].key) || Lower(query) == "modus-wc-" + Lower(docs[i].key)
    requires forall j :: 0 <= j < i ==> Lower(docs[j].key) != Lower(docs[i].key)
    ensures ComponentDocs(docs, query) == docs[i].content
  {
    var key := Lower(docs[i].key);
    if Lower(query) != key {
      ReplaceFirstLeading("modus-wc-", key);
    }
    assert ReplaceFirst(Lower(query), "modus-wc-") == key;
    var r := FirstSelected(KeyIs(key), docs, 0);
    assert r.Some? && r.value == i by {
      assert Selects(KeyIs(key), docs[i]);
    }
  }

  /** The not-found text of a component lookup lists every key, in store order. */
  lemma ComponentDocsMissListsKeys(docs: seq<Doc>, component: string)
    requires forall j :: 0 <= j < |docs| ==> Lower(docs[j].key) != ReplaceFirst(Lower(component), "modus-wc-")
    ensures ComponentDocs(docs, component) ==
      "Component " + Quote(component) + " not found.\n\nAvailable components: " + Join(Keys(docs), ", ")
  {
    assert FirstSelected(KeyIs(ReplaceFirst(Lower(component), "modus-wc-")), docs, 0).None?;
  }

  /** An empty category or setup type selects the first record of a non-empty collection (every name contains ""). */
  lemma EmptyQuerySelectsFirst(docs: seq<Doc>, miss: string)
    requires docs != []
    ensures LookupReply(docs, KeyOrFilenameHas(Lower("")), miss) == docs[0].content
    ensures DesignRule(docs, "") == docs[0].content && SetupGuide(docs, "") == docs[0].content
  {
    assert Lower("") == "";
    ContainsEmpty(Lower(docs[0].filename));
    assert Selects(KeyOrFilenameHas(""), docs[0]);
  }

  /**
   * The guides downloaded as "setup_theme_usage.md" and "setup_universal_rules.md"
   * get the keys "theme" and "universal", so the theme-usage and development-rules
   * tools return them unless an earlier guide's key or file name already matches.
   */
  lemma NamedGuidesOfLoadedFiles(setup: seq<Doc>, t: nat, u: nat, theme: string, universal: string)
    requires t < |setup| && setup[t] == RecordFor(Setup, FileEntry("setup_" + "theme_usage" + ".md", theme))
    requires u < |setup| && setup[u] == RecordFor(Setup, FileEntry("setup_" + "universal_rules" + ".md", universal))
    requires forall j :: 0 <= j < t ==> !Selects(GuideNamed("theme"), setup[j])
    requires forall j :: 0 <= j < u ==> !Selects(GuideNamed("universal"), setup[j])
    ensures ThemeUsage(setup) == theme && DevelopmentRules(setup) == universal
  {
    SetupKeyOfRenamedGuide("theme_usage");
    SetupKeyOfRenamedGuide("universal_rules");
    FirstGuide(setup, t, "theme", ThemeMissing);
    FirstGuide(setup, u, "universal", UniversalMissing);
  }

  lemma FirstGuide(setup: seq<Doc>, i: nat, w: string, miss: string)
    requires i < |setup| && setup[i].key == w
    requires forall j :: 0 <= j < i ==> !Selects(GuideNamed(w), setup[j])
    ensures LookupReply(setup, GuideNamed(w), miss) == setup[i].content
  {
    assert Selects(GuideNamed(w), setup[i]);
  }

  // ---------------------------------------------------------------------------
  // Lemmas: findByAttribute

  /**
   * An attribute search yields at most one result per record, in store order:
   * a record is reported exactly when one of its lines defines the attribute,
   * and its context is the block at its first such line.
   */
  lemma AttributeHitsExactly(docs: seq<Doc>, attribute: string)
    ensures var a := Lower(attribute); var hits := AttributeHits(docs, a); var pos := KeptPositions(docs, AttributeFinder(a));
      && |hits| == |pos|
      && (forall k, l :: 0 <= k < l < |pos| ==> pos[k] < pos[l])
      && (forall j :: 0 <= j < |docs| ==> (Defines(Lines(docs[j].content), a) <==> j in pos))
      && (forall k :: 0 <= k < |pos| ==> pos[k] < |docs| && Some(hits[k]) == AttributeStep(a, docs[pos[k]]))
  {
    FilterMapKeeps(docs, AttributeFinder(Lower(attribute)));
  }

  // ---------------------------------------------------------------------------
  // Lemmas: listAllComponents

  /**
   * The bucket of category `c` holds the key of every record whose category is
   * `c`, and nothing else, in store order.
   */
  lemma BucketExactly(docs: seq<Doc>, c: string)
    ensures var ms := Members(docs, c); var pos := KeptPositions(Filings(docs), KeyIn(c));
      && |ms| == |pos|
      && (forall k, l :: 0 <= k < l < |pos| ==> pos[k] < pos[l])
      && (forall j :: 0 <= j < |docs| ==> (CategoryOf(docs[j].content) == c <==> j in pos))
      && (forall k :: 0 <= k < |pos| ==> pos[k] < |docs| && ms[k] == docs[pos[k]].key)
  {
    var fs := Filings(docs);
    FilterMapKeeps(fs, KeyIn(c));
    forall j | 0 <= j < |docs|
      ensures (CategoryOf(docs[j].content) == c <==> KeyIn(c)(fs[j]).Some?)
      ensures KeyIn(c)(fs[j]).Some? ==> KeyIn(c)(fs[j]).value == docs[j].key
    {
      KeptUnder(docs, c, j);
    }
  }

  /** Record `j` goes to the bucket of `c` exactly when `c` is its category, and it goes there as its key. */
  lemma KeptUnder(docs: seq<Doc>, c: string, j: nat)
    requires j < |docs|
    ensures CategoryOf(docs[j].content) == c <==> KeyIn(c)(Filings(docs)[j]).Some?
    ensures KeyIn(c)(Filings(docs)[j]).Some? ==> KeyIn(c)(Filings(docs)[j]).value == docs[j].key
  {
    FilingAt(docs, j);
  }

  /**
   * Every record is filed in exactly one bucket: the groups have distinct
   * categories, every record's category has a group, no group is empty, and each
   * group holds the bucket of its category.
   */
  lemma GroupsPartitionDocs(docs: seq<Doc>)
    ensures var gs := Groups(docs);
      && (forall g, h :: 0 <= g < h < |gs| ==> gs[g].category != gs[h].category)
      && (forall j :: 0 <= j < |docs| ==> exists g :: 0 <= g < |gs| && gs[g].category == CategoryOf(docs[j].content))
      && (forall g :: 0 <= g < |gs| ==> gs[g].members == Members(docs, gs[g].category) && gs[g].members != [])
  {
    forall j | 0 <= j < |docs|
      ensures exists g :: 0 <= g < |Groups(docs)| && Groups(docs)[g].category == CategoryOf(docs[j].content)
    {
      GroupOfRecord(docs, j);
    }
    forall g | 0 <= g < |Groups(docs)|
      ensures Groups(docs)[g].members != []
    {
      GroupNonEmpty(docs, g);
    }
  }

  lemma GroupOfRecord(docs: seq<Doc>, j: nat)
    requires j < |docs|
    ensures exists g :: 0 <= g < |Groups(docs)| && Groups(docs)[g].category == CategoryOf(docs[j].content)
  {
    var gs := Groups(docs);
    var cl := CategoryList(Filings(docs));
    var cs := CategoriesInOrder(docs);
    FilingAt(docs, j);
    assert cl[j] in cs;
    var g :| 0 <= g < |cs| && cs[g] == cl[j];
    assert gs[g].category == cs[g];
  }

  lemma GroupNonEmpty(docs: seq<Doc>, g: nat)
    requires g < |Groups(docs)|
    ensures Groups(docs)[g].members != []
  {
    var cl := CategoryList(Filings(docs));
    var cs := CategoriesInOrder(docs);
    assert cs[g] in cl;
    var j :| 0 <= j < |cl| && cl[j] == cs[g];
    FilingAt(docs, j);
    BucketExactly(docs, cs[g]);
  }

  /** Without an inherited category name the listing succeeds, and its header gives the number of records. */
  lemma ComponentListingCounts(docs: seq<Doc>)
    requires !HasInheritedCategory(docs)
    ensures ComponentListing(docs).Text?
    ensures var n := NatToString(|docs|); var lead := "# Modus Web Components (";
      && StartsWith(ComponentListing(docs).text, lead + n) && ComponentListing(docs).text[|lead + n|] == ' '
      && DecimalValue(n) == |docs|
  {
    DecimalRoundTrip(|docs|);
    CountedHeader("# Modus Web Components (", NatToString(|docs|), " components)\n\n", Sections(SortByKey(Groups(docs), EntryString)));
  }

  /** The listing prints every group once, in ascending order of its entry string. */
  lemma ComponentListingSorted(docs: seq<Doc>)
    ensures var sorted := SortByKey(Groups(docs), EntryString);
      && multiset(sorted) == multiset(Groups(docs)) && SortedBy(sorted, EntryString)
      && (!HasInheritedCategory(docs) ==> ComponentListing(docs) == Text(ComponentsHeader(|docs|) + Sections(sorted)))
  {
    SortByKeyPermutes(Groups(docs), EntryString);
  }

  /** A text "<lead><count><tail>..." starts with its lead and its count, followed by the first character of its tail. */
  lemma CountedHeader(lead: string, n: string, tail: string, rest: string)
    requires tail != []
    ensures var t := lead + n + tail + rest; StartsWith(t, lead + n) && t[|lead + n|] == tail[0]
  {
    PrefixStartsWith(lead + n, tail);
    StartsWithExtend(lead + n + tail, rest, lead + n);
  }

  /** Each category lists all of its keys, once each, in ascending order. */
  lemma GroupSectionSortsKeys(g: Group)
    ensures var b := SortByKey(g.members, Identity);
      && multiset(b) == multiset(g.members)
      && (forall i, j :: 0 <= i < j < |b| ==> !LexLess(b[j], b[i]))
      && StartsWith(GroupSection(g), "## " + g.category + "\n" + Join(Bullets(b), "\n"))
  {
    var b := SortByKey(g.members, Identity);
    SortByKeyPermutes(g.members, Identity);
    PrefixStartsWith("## " + g.category + "\n" + Join(Bullets(b), "\n"), "\n\n");
  }

  /**
   * A component whose first label is the line "Category: <name>", for a name
   * inherited from `Object.prototype` such as `toString`, makes the whole
   * listing throw, whatever the other records are.
   */
  lemma InheritedCategoryThrows(docs: seq<Doc>, j: nat, pre: string, name: string, post: string)
    requires name != [] && Inherited(name) && !IsSpace(name[0]) && !IsSpace(name[|name| - 1]) && '\n' !in name
    requires j < |docs| && docs[j].content == pre + "Category: " + name + "\n" + post
    requires forall k :: 0 <= k < |pre| ==> !CategoryLabelAt(docs[j].content, k)
    ensures ComponentListing(docs) == Thrown(PushError)
  {
    CategoryFromLabelLine(pre, name, post);
    assert Inherited(CategoryOf(docs[j].content));
  }

  // ---------------------------------------------------------------------------
  // Lemmas: listDesignCategories

  /**
   * The categories are listed in ascending order of key, all of them once each,
   * rules with equal keys in their stored order; listing again leaves the order
   * as it is.
   */
  lemma CategoryListingOrder(rules: seq<Doc>)
    ensures var sorted := SortByKey(rules, KeyOf);
      && multiset(sorted) == multiset(rules)
      && SortedBy(sorted, KeyOf)
      && (forall k :: WithKey(sorted, KeyOf, k) == WithKey(rules, KeyOf, k))
      && SortByKey(sorted, KeyOf) == sorted
  {
    var sorted := SortByKey(rules, KeyOf);
    SortByKeyPermutes(rules, KeyOf);
    forall k
      ensures WithKey(sorted, KeyOf, k) == WithKey(rules, KeyOf, k)
    {
      SortByKeyStable(rules, KeyOf, k);
    }
    SortByKeyIdempotent(sorted, KeyOf);
  }

  /** The header of the category listing gives the number of rules. */
  lemma CategoryListingCounts(rules: seq<Doc>)
    ensures var n := NatToString(|rules|); var text := CategoryListing(SortByKey(rules, KeyOf)); var lead := "# Modus Design Rules (";
      && StartsWith(text, lead + n) && |text| > |lead + n| && text[|lead + n|] == ' '
      && DecimalValue(n) == |rules|
  {
    var sorted := SortByKey(rules, KeyOf);
    SortByKeyPermutes(rules, KeyOf);
    assert |sorted| == |rules| by {
      assert |multiset(sorted)| == |multiset(rules)|;
    }
    DecimalRoundTrip(|rules|);
    CountedHeader("# Modus Design Rules (", NatToString(|rules|), " categories)\n\n", CategorySections(sorted));
  }

  /**
   * After the categories have been listed, an empty category query returns a
   * rule with the least key.
   */
  lemma EmptyQueryAfterSort(rules: seq<Doc>)
    requires rules != []
    ensures exists i :: (0 <= i < |rules| && DesignRule(SortByKey(rules, KeyOf), "") == rules[i].content
      && forall j :: 0 <= j < |rules| ==> !LexLess(rules[j].key, rules[i].key))
  {
    var sorted := SortByKey(rules, KeyOf);
    SortByKeyHead(rules, KeyOf);
    EmptyQuerySelectsFirst(sorted, "");
    var i :| 0 <= i < |rules| && rules[i] == sorted[0];
  }

  /** Every listed category carries a non-empty description of at most 103 characters. */
  lemma CategorySectionDescribes(r: Doc)
    ensures var d := Describe(r.content);
      d != [] && |d| <= 103 && StartsWith(CategorySection(r), "## " + r.key + "\n" + d)
  {
    DescriptionBounded(r.content);
    PrefixStartsWith("## " + r.key + "\n" + Describe(r.content), "\n\n");
  }
}

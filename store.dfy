/**
 * The document store: the three collections of markdown records (component
 * docs, design rules, setup guides) and how a directory listing becomes a
 * collection. A directory is given as its listing of `(name, content)`
 * entries in the order the listing returns them, or `None` when the
 * directory does not exist.
 */
module Store {
  import opened Options
  import opened JsStrings
  import opened Sequences

  datatype FileEntry = FileEntry(name: string, content: string)

  /**
   * A loaded record. `key` is the field the source calls `component` for
   * component docs, `category` for design rules and `setupType` for setup guides.
   */
  datatype Doc = Doc(filename: string, key: string, content: string)

  datatype Kind = Components | Rules | Setup

  function KeyOf(d: Doc): string {
    d.key
  }

  function Keys(docs: seq<Doc>): (r: seq<string>)
    ensures |r| == |docs| && forall i :: 0 <= i < |docs| ==> r[i] == docs[i].key
  {
    seq(|docs|, i requires 0 <= i < |docs| => docs[i].key)
  }

  /** Component key: drop the first "modus-wc-", then the first ".md", wherever they occur. */
  function ComponentKey(filename: string): string {
    ReplaceFirst(ReplaceFirst(filename, "modus-wc-"), ".md")
  }

  /** Rule key: drop the first ".md", then the first "modus_". */
  function RuleKey(filename: string): string {
    ReplaceFirst(ReplaceFirst(filename, ".md"), "modus_")
  }

  /** Setup key: drop the first ".md", then the first "setup_", then rename two guides. */
  function SetupKey(filename: string): string {
    var t := ReplaceFirst(ReplaceFirst(filename, ".md"), "setup_");
    if t == "universal_rules" then "universal"
    else if t == "theme_usage" then "theme"
    else t
  }

  function DeriveKey(kind: Kind, filename: string): string {
    match kind
    case Components => ComponentKey(filename)
    case Rules => RuleKey(filename)
    case Setup => SetupKey(filename)
  }

  /** The listing filter `f.endsWith(".md")`. */
  function MarkdownOnly(f: FileEntry): Option<FileEntry> {
    if EndsWith(f.name, ".md") then Some(f) else None
  }

  function MarkdownFiles(files: seq<FileEntry>): seq<FileEntry> {
    FilterMap(files, MarkdownOnly)
  }

  function RecordFor(kind: Kind, f: FileEntry): Doc {
    Doc(f.name, DeriveKey(kind, f.name), f.content)
  }

  /** The records a loader pushes for a directory listing: one per markdown file, in listing order. */
  function Loaded(kind: Kind, files: seq<FileEntry>): seq<Doc> {
    var md := MarkdownFiles(files);
    seq(|md|, k requires 0 <= k < |md| => RecordFor(kind, md[k]))
  }

  /** A missing directory leaves the collection empty. */
  function LoadedFrom(kind: Kind, dir: Option<seq<FileEntry>>): seq<Doc> {
    match dir
    case None => []
    case Some(files) => Loaded(kind, files)
  }

  // ---------------------------------------------------------------------------
  // Lemmas

  /**
   * Loading keeps exactly the ".md" entries, in listing order, and turns each
   * into exactly one record carrying its file name, derived key and content.
   */
  lemma LoadedExactly(kind: Kind, files: seq<FileEntry>)
    ensures var recs := Loaded(kind, files); var pos := KeptPositions(files, MarkdownOnly);
      && |recs| == |pos|
      && (forall k, l :: 0 <= k < l < |pos| ==> pos[k] < pos[l])
      && (forall j :: 0 <= j < |files| ==> (EndsWith(files[j].name, ".md") <==> j in pos))
      && (forall k :: 0 <= k < |pos| ==> pos[k] < |files| && recs[k] == RecordFor(kind, files[pos[k]]))
  {
    FilterMapKeeps(files, MarkdownOnly);
  }

  /** The k-th record is made from the k-th markdown file. */
  lemma LoadedAt(kind: Kind, files: seq<FileEntry>, k: nat)
    requires k < |MarkdownFiles(files)|
    ensures |Loaded(kind, files)| == |MarkdownFiles(files)|
    ensures Loaded(kind, files)[k] == RecordFor(kind, MarkdownFiles(files)[k])
  {
  }

  /** Appending listing entries appends their records: loading is a left-to-right scan. */
  lemma LoadedAppend(kind: Kind, files: seq<FileEntry>, f: FileEntry)
    ensures Loaded(kind, files + [f]) == Loaded(kind, files) + (if EndsWith(f.name, ".md") then [RecordFor(kind, f)] else [])
  {
    assert (files + [f])[..|files + [f]| - 1] == files;
  }

  /** "modus-wc-button.md" has key "button": for a conventional name the two removals undo the naming. */
  lemma ComponentKeyOfConventionalName(name: string)
    requires !Contains(name, ".md")
    ensures ComponentKey("modus-wc-" + name + ".md") == name
  {
    assert "modus-wc-" + name + ".md" == "modus-wc-" + (name + ".md");
    ReplaceFirstLeading("modus-wc-", name + ".md");
    ReplaceFirstTrailingMd(name);
  }

  /**
   * `replace` is not a suffix strip: in "modus-wc-button.md.bak.md" the ".md"
   * removed is the first one, giving the key "button.bak.md".
   */
  lemma ComponentKeyRemovesFirstMd(name: string, rest: string)
    requires !Contains(name, ".md")
    ensures ComponentKey("modus-wc-" + name + ".md" + rest) == name + rest
  {
    assert "modus-wc-" + name + ".md" + rest == "modus-wc-" + (name + ".md" + rest);
    ReplaceFirstLeading("modus-wc-", name + ".md" + rest);
    ReplaceFirstMdAfter(name, rest);
  }

  /** A prefix made of characters other than '.' cannot hide an earlier ".md". */
  lemma NoMdAfterDotlessPrefix(pre: string, name: string)
    requires '.' !in pre && !Contains(name, ".md")
    ensures !Contains(pre + name, ".md")
  {
    var t := pre + name;
    forall j | 0 <= j
      ensures !OccursAt(t, ".md", j)
    {
      if j < |pre| {
        assert t[j] == pre[j] != '.';
        assert j + 3 <= |t| ==> t[j..j + 3][0] == t[j];
      } else if j + 3 <= |t| {
        assert t[j..j + 3] == name[j - |pre|..j - |pre| + 3];
        assert !OccursAt(name, ".md", j - |pre|);
      }
    }
  }

  /** "modus_colors.md" has key "colors". */
  lemma RuleKeyOfConventionalName(name: string)
    requires !Contains(name, ".md")
    ensures RuleKey("modus_" + name + ".md") == name
  {
    NoMdAfterDotlessPrefix("modus_", name);
    ReplaceFirstTrailingMd("modus_" + name);
    ReplaceFirstLeading("modus_", name);
  }

  /** "setup_html.md" has key "html"; the universal-rules and theme-usage guides get their short names. */
  lemma SetupKeyOfConventionalName(name: string)
    requires !Contains(name, ".md")
    ensures SetupKey("setup_" + name + ".md") ==
      if name == "universal_rules" then "universal" else if name == "theme_usage" then "theme" else name
  {
    NoMdAfterDotlessPrefix("setup_", name);
    ReplaceFirstTrailingMd("setup_" + name);
    ReplaceFirstLeading("setup_", name);
  }

  /** The two guides the server renames: "setup_theme_usage.md" gets the key "theme", "setup_universal_rules.md" the key "universal". */
  lemma SetupKeyOfRenamedGuide(name: string)
    requires name == "theme_usage" || name == "universal_rules"
    ensures SetupKey("setup_" + name + ".md") == if name == "theme_usage" then "theme" else "universal"
  {
    DotlessHasNoMd(name);
    SetupKeyOfConventionalName(name);
  }

  lemma DotlessHasNoMd(name: string)
    requires '.' !in name
    ensures !Contains(name, ".md")
  {
    NoMdAfterDotlessPrefix(name, "");
    assert name + "" == name;
  }
}

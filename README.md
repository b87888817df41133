# Modus documentation server, modelled in Dafny

This project models the core of the Modus Web Components documentation
server. That server answers Model Context Protocol tool calls from three
in-memory collections of markdown documents:
- component docs;
- design rules;
- setup guides.

The model covers four parts:

- **Loading.** Each loader keeps the `.md` entries of a directory listing, in
  listing order, and pushes one record per file. A record holds the file name,
  a derived key and the content. Keys come from JavaScript `replace`, which
  removes only the *first* occurrence of its pattern:
  - component key: drop `"modus-wc-"`, then `".md"`;
  - rule key: drop `".md"`, then `"modus_"`;
  - setup key: drop `".md"`, then `"setup_"`, then rename `universal_rules` to
    `universal` and `theme_usage` to `theme`.
  A missing directory leaves its collection empty.
- **Queries.**
  - Case-insensitive substring search over keys and contents, with a snippet
    taken from the first suitable line.
  - Single-record lookups (`find`) with their not-found texts.
  - The component listing, grouped by a `Category:` label.
  - The attribute search, with a bounded context block.
  - The design-category listing, with descriptions cut to 100 characters.
- **Dispatcher.** `Decode` says what the `switch (name)` decides before a
  handler runs: an unknown name, a rejected argument, or a tool to run on its
  argument after the source's `(args?.x as string) || ""` coercion. `Answer`
  then gives the handler's text or the error it throws, and `Respond` turns a
  thrown error into an error reply for that call only.
- **State.** `listDesignCategories` sorts the rules in place, and later lookups
  and searches see the new order.

Files:
- `js_strings.dfy`: the JavaScript string primitives, written out (`trim`,
  `toLowerCase`, `includes`, `startsWith`, `replace`, `split`, `join`, number
  formatting) and the string order used by the sorts.
- `sequences.dfy`: filter-map scans, first appearances, and a stable sort by key
  with its permutation, ordering, stability and idempotence lemmas.
- `store.dfy`: records, key derivation and loading.
- `markdown.dfy`: the line heuristics and the two regular expressions
  `/Category:\s*([^\n]+)/i` and `/^-\s+\*\*`/`, written as functions.
- `queries.dfy`: the query operations. Loops become methods proved equal to a
  specification function.
- `server.dfy`: the `DocsServer` class, with its three collections as `seq`
  fields, its loaders, `ListDesignCategories` and the `CallTool` dispatcher.

Behaviour the source shows that a reader may not expect:
- **Inherited category names throw.** `listAllComponents` files components in a
  plain object literal. A category equal to a name inherited from
  `Object.prototype` (such as `toString` or `constructor`) finds an existing
  non-array value. Its `push` then throws a TypeError, and the whole call
  answers with an error. The model does this (`Queries.InheritedCategoryThrows`).
- **Groups are ordered by their printed form.** `Object.entries(...).sort()`
  orders the groups by the string form of each `[category, members]` pair,
  which is `category + "," + members.join(",")`. The model sorts by exactly
  that string (`Queries.EntryString`), not by the category alone.
- **A truthy non-string argument throws.** Such an argument (a number, a
  boolean `true`, an object) reaches the handler's `.toLowerCase()` and throws
  a TypeError. The call answers `Error: <param>.toLowerCase is not a function`,
  flagged as an error.
- **`"..."` depends on the raw line.** A description gets `"..."` when the
  *raw* line is longer than 100 characters. So a line padded past 100 by
  whitespace gets `"..."` although nothing was cut
  (`Markdown.ExcerptCutsAtHundred`).

## Model

| member | source | states |
|---|---|---|
| Store.LoadedExactly | src/index.ts:96-106 | Loading keeps exactly the entries whose name ends in ".md", in listing order. Each becomes exactly one record with its file name, derived key and content. |
| Store.LoadedAppend | src/index.ts:98-106 | Loading is a left-to-right scan: one more listing entry adds its record at the end if it is markdown, and nothing otherwise. |
| Store.ComponentKeyOfConventionalName | src/index.ts:100 | "modus-wc-" + name + ".md" has key name, when name contains no ".md". |
| Store.ComponentKeyRemovesFirstMd | src/index.ts:100 | The ".md" removed is the first one, not the suffix: "modus-wc-" + name + ".md" + rest has key name + rest. |
| Store.RuleKeyOfConventionalName | src/index.ts:123 | "modus_" + name + ".md" has key name, when name contains no ".md". |
| Store.SetupKeyOfConventionalName | src/index.ts:146-150 | "setup_" + name + ".md" has key name, except that "universal_rules" becomes "universal" and "theme_usage" becomes "theme". |
| Store.SetupKeyOfRenamedGuide | src/index.ts:146-150 | The files setup_theme_usage.md and setup_universal_rules.md get the keys "theme" and "universal". |
| JsStrings.Trim | src/index.ts:378 | `trim` returns the middle of the string: what it strips from the front and from the back is all whitespace, and the result neither starts nor ends with whitespace. The result is empty exactly when the string is blank, and an unpadded string is returned unchanged. |
| JsStrings.ReplaceFirstRestores | src/index.ts:100 | `replace` removes one occurrence of the pattern, at the first index where it occurs. Putting the pattern back there restores the string. |
| JsStrings.ReplaceFirstLeading | src/index.ts:100 | A pattern that starts the string is the one `replace` removes. |
| JsStrings.ReplaceFirstMdAfter | src/index.ts:123 | In s + ".md" + rest, with no ".md" in s, `replace(".md", "")` gives s + rest. |
| JsStrings.NatToString | src/index.ts:410 | A count is printed as a non-empty string of decimal digits with no leading zero (only 0 itself prints as "0"). |
| JsStrings.Lines | src/index.ts:369 | `split("\n")` returns at least one piece, and no piece contains a newline. |
| JsStrings.JoinLines | src/index.ts:369 | Joining the pieces of `split("\n")` with newlines gives the string back. |
| JsStrings.LinesUnique | src/index.ts:369 | Any cut of a string into newline-free pieces that join back to it with newlines is exactly `split("\n")`, so the pieces are the text between newlines. |
| JsStrings.DecimalRoundTrip | src/index.ts:410 | Reading the printed count back as a decimal number gives the count. |
| JsStrings.LexLessIrreflexive | src/index.ts:644-646 | The string order used for sorting is irreflexive. |
| JsStrings.LexLessTransitive | src/index.ts:644-646 | The string order used for sorting is transitive. |
| JsStrings.LexLessTotal | src/index.ts:644-646 | Any two different strings are ordered one way or the other. |
| Sequences.FilterMapKeeps | src/index.ts:360-389 | A scan that pushes results keeps exactly the accepted elements, once each, in their original order. The k-th result comes from the k-th accepted position. |
| Sequences.FilterMapAppend | src/index.ts:360-389 | Scanning a concatenation gives the results of the first part followed by those of the second. |
| Sequences.FirstAppearances | src/index.ts:454-456 | The distinct values in order of first appearance: no repeats, every input value present, nothing else, and each value first occurs before any occurrence of a later one. |
| Sequences.SortByKeyPermutes | src/index.ts:644-646 | The sort returns a permutation of its input, ordered by key. |
| Sequences.SortByKeyStable | src/index.ts:644-646 | The sort is stable: elements with equal keys keep their relative order. |
| Sequences.SortByKeyIdempotent | src/index.ts:644-646 | Sorting an already sorted sequence leaves it unchanged. |
| Markdown.FirstPassing | src/index.ts:372-381 | Finds the first line at or after a position that passes a line test. Every earlier line fails, and None means no line passes. |
| Markdown.FindFirstLine | src/index.ts:372-381 | The `for … break` scan returns the first passing line. |
| Markdown.RelevanceIsFirstAcceptedLine | src/index.ts:369-386 | The snippet is the trimmed first line that is not blank and does not start with "#" or "Tag:" (for rules: "#" or "---"). It is never empty. The fallback text is used exactly when no line qualifies. |
| Markdown.ExcerptCutsAtHundred | src/index.ts:658-659 | The description is the trimmed line cut to 100 characters. "..." is appended exactly when the raw line is longer than 100. It is at most 103 characters long. |
| Markdown.DescriptionBounded | src/index.ts:649-662 | Every rule gets a non-empty description of at most 103 characters. |
| JsStrings.SkipSpaces | src/index.ts:506 | The `\s*` run starting at a position is maximal: it ends at the end of the text or at a non-space. |
| Markdown.ContextEnd | src/index.ts:500-513 | The context block ends at the first blank line or attribute heading, at the end of the text, or after ten lines, whichever comes first. |
| Markdown.Context | src/index.ts:490-498 | A document has a context block exactly when one of its lines defines the attribute. |
| Markdown.AttributeContext | src/index.ts:488-515 | The per-document scan and its `while` loop compute the block at the first defining line. |
| Markdown.BlockSpan | src/index.ts:500-519 | The block is the trimmed join of the defining line and at most nine following lines, none of them blank or a heading, and it stops where the scan stops. |
| Markdown.BlockBeforeBlank | src/index.ts:504-513 | A defining line followed by a blank line, or by nothing, is a block on its own, trimmed. |
| Markdown.LineEnd | src/index.ts:451 | `[^\n]+` extends to the next newline or to the end of the text. |
| Markdown.CaptureStart | src/index.ts:451 | The capture of `Category:\s*([^\n]+)` starts at the largest position after the label such that everything before it is whitespace and it is not a newline, as greedy `\s*` with backtracking gives. None exactly when no such position exists. |
| Markdown.CategoryMatchFrom | src/index.ts:451 | The regular expression matches at the first position where it can match. |
| Markdown.CategoryFromLabelLine | src/index.ts:451-452 | A first label "Category: v" on its own line files the document under the trimmed value v. |
| Markdown.CategoryOtherWithoutLabel | src/index.ts:451-452 | A document without "category:" in any letter case is filed under "Other". |
| Queries.Search | src/index.ts:360-389 | The search loop of `searchComponents` and `searchDesignRules` returns the filter-map of the collection by the lowered query. |
| Queries.SearchFindsExactlyMatches | src/index.ts:360-389 | A search returns, in store order and once each, exactly the records whose lowered key or lowered content contains the lowered query, each with its snippet. |
| Queries.EmptyQueryMatchesAll | src/index.ts:364-367 | The empty query returns one result per record, the k-th for the k-th record, with its snippet. |
| Queries.SearchReplyCounts | src/index.ts:402-410 | A non-empty result is announced as "Found N ", where N is the number of results. |
| Queries.SearchReplyWithoutHits | src/index.ts:391-400 | An empty result is not announced as found, and the reply quotes the query. |
| Queries.FirstSelected | src/index.ts:420-422 | `find` returns the first selected record. All earlier records are not selected, and None means no record is. |
| Queries.LookupReplyMeaning | src/index.ts:553-578 | A lookup returns the content of the first selected record verbatim, or the not-found text exactly when no record is selected. It never throws. |
| Queries.ComponentDocsOfOwnKey | src/index.ts:416-443 | Looking up a component by its own key returns its content when the lowered key does not itself contain "modus-wc-" and no earlier key is equal after lowering. The query may be the key in any letter case, with or without "modus-wc-" in front. |
| Queries.ComponentDocsMissListsKeys | src/index.ts:424-433 | A component miss returns the text listing every key, joined by ", ", in store order. |
| Queries.EmptyQuerySelectsFirst | src/index.ts:551-557 | An empty category or setup type returns the first record of a non-empty collection. |
| Queries.NamedGuidesOfLoadedFiles | src/index.ts:707-757 | The guides loaded from setup_theme_usage.md and setup_universal_rules.md answer get_theme_usage and get_development_rules, unless an earlier guide already matches. |
| Queries.FindByAttribute | src/index.ts:487-524 | The attribute loop returns the filter-map of the collection by the lowered attribute. |
| Queries.AttributeHitsExactly | src/index.ts:487-524 | At most one result per document, in store order. A document is reported exactly when one of its lines defines the attribute, with the block at its first such line. |
| Queries.FileComponents | src/index.ts:447-458 | The filing loop throws exactly when some category is an inherited name. Otherwise it builds one bucket per category, in order of first appearance, holding that category's keys in store order. |
| Queries.BucketExactly | src/index.ts:449-458 | The bucket of a category holds the key of every document with that category, and nothing else, in store order. |
| Queries.GroupsPartitionDocs | src/index.ts:449-458 | Every document is filed in exactly one bucket. The categories are distinct, each document's category has a bucket, and no bucket is empty. |
| Queries.InheritedCategoryThrows | src/index.ts:451-457 | A component whose first label is the line "Category: <name>", with any label-free text before it, for a name inherited from `Object.prototype` (such as `toString`), makes the whole listing throw the push TypeError, whatever the other documents are. |
| Queries.ListAllComponents | src/index.ts:446-481 | The listing method returns the specified listing or the thrown TypeError. |
| Queries.ComponentListingCounts | src/index.ts:460 | Without an inherited category the listing succeeds, and its header gives the number of documents in decimal. |
| Queries.ComponentListingSorted | src/index.ts:462-464 | The printed groups are a permutation of the buckets, ordered by their entry string. |
| Queries.GroupSectionSortsKeys | src/index.ts:465-470 | Each category prints all of its keys, once each, in ascending order, as bullets under its heading. |
| Queries.CategoryListingOrder | src/index.ts:644-646 | The rules are listed by ascending key. All of them appear once each, rules with equal keys keep their stored order, and sorting again changes nothing. |
| Queries.CategoryListingCounts | src/index.ts:642 | The header of the category listing gives the number of rules in decimal. |
| Queries.EmptyQueryAfterSort | src/index.ts:551-557 | After the in-place sort, `get_design_rules` without a category returns the content of a rule whose key no other rule's key precedes. |
| Queries.CategorySectionDescribes | src/index.ts:664 | Each category section has its key as a heading, followed by a non-empty description of at most 103 characters. |
| Server.DocsServer.constructor | src/index.ts:84-86 | A new server holds the records loaded from the three directories. |
| Server.DocsServer.LoadDocs | src/index.ts:89-110 | Appends the records of the component directory (none when it is missing) and changes nothing else. |
| Server.DocsServer.LoadRules | src/index.ts:112-133 | Appends the records of the rules directory (none when it is missing) and changes nothing else. |
| Server.DocsServer.LoadSetup | src/index.ts:135-160 | Appends the records of the setup directory (none when it is missing) and changes nothing else. |
| Server.DocsServer.ListDesignCategories | src/index.ts:641-675 | Sorts the rules in place by key and returns the listing of the sorted rules. The components and setup guides are unchanged. |
| Server.DocsServer.CallTool | src/index.ts:299-349 | Answers a call from the store before the call, as `Decode` and the handlers specify, with any thrown error caught as an error reply. Only a decoded list_design_categories call changes the store, and it only sorts the rules. |
| Server.DocsServer.Dispatch | src/index.ts:303-337 | Each case of the switch runs its handler on the coerced argument. Only the category listing changes the store. |
| Server.DocsServer.ComponentTool | src/index.ts:304-318 | The component cases run their query loops and answer what the component handlers specify, a thrown listing error included. |
| Server.DocsServer.RuleTool | src/index.ts:320-327 | The design-rule cases answer what the rule handlers specify; the category listing also sorts the rules in place. |
| Server.DocsServer.SetupTool | src/index.ts:329-336 | The setup cases answer what the setup handlers specify, reading nothing but the setup guides. |
| Server.ToolNamesDistinct | src/index.ts:303-337 | No two tools share a name, so the order of the cases does not matter. |
| Server.ToolNamedExactly | src/index.ts:303-337 | A name selects a tool exactly when it is that tool's name. |
| Server.UnknownToolIsError | src/index.ts:338-347 | A name that is no tool's name decodes as unknown and is answered "Error: Unknown tool: <name>" with isError set. The rules are unchanged. |
| Server.UnknownAnswer | src/index.ts:338-347 | A call decoded as unknown is answered "Error: Unknown tool: <name>" with isError set. |
| Server.MissingArgumentIsEmpty | src/index.ts:303-330 | A missing argument decodes as "", and adding it as "" or as a falsy non-string does not change how the call decodes. |
| Server.BadArgumentExactly | src/index.ts:303-330 | An argument is rejected exactly when the selected tool reads it and it is a truthy non-string. The message is "<param>.toLowerCase is not a function". |
| Server.HandleThrowsExactly | src/index.ts:446-458 | Of all handlers, only the component listing throws, and only when some component has an inherited category name. |
| Server.ErrorsExactly | src/index.ts:341-347 | A call is an error exactly when the name is unknown, the argument is rejected, or the component listing meets an inherited category name. An error reply starts with "Error: " and leaves the rules as they were. |

## Left out

- MCP SDK plumbing is not modelled: server construction, the stdio transport, `run()` and the tool-schema list (src/index.ts:45-82, 163-297, 759-767). It has no behaviour of its own.
- Filesystem access and path probing are not modelled (`existsSync`, `readdirSync`, `readFileSync`, the candidate directories). A directory is an optional listing of `(name, content)` pairs in the order the listing returns them, and `None` stands for a missing directory.
- `console.error` logging is output only, so it is not modelled.
- download-docs.js (network fetch and file writes) and test-server.js (a process-driving smoke test) are not part of this model.
- Strings are sequences of Unicode code points, not UTF-16 code units. `toLowerCase` lowers ASCII letters only, because full Unicode case mapping is locale and table data.
- `localeCompare` and the default `sort()` comparison are both modelled as one lexicographic code-point order. Locale collation is not modelled.
- The order of `Object.entries` puts integer-like keys first. That order is not modelled, because it only matters when two groups have equal entry strings, such as category "a" with key "b,c" next to category "a,b" with key "c".
- Error messages of the JavaScript engine are modelled with V8's wording ("<param>.toLowerCase is not a function", "componentsByCategory[category].push is not a function"). Other engines word them differently.
- Argument values are reduced to what the `|| ""` coercion distinguishes: a string, or a non-string that is truthy or falsy. A `String` wrapper object, which would have `toLowerCase`, is not modelled.
- The `async` wrappers never suspend, so calls are modelled as sequential.

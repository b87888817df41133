/**
 * The server object and its tool dispatcher. `DocsServer` holds the three
 * collections, fills them with its loaders when it is constructed, and answers
 * one tool call at a time. The only call that changes the store is
 * `list_design_categories`, which sorts the design rules in place.
 *
 * A tool call's arguments are a bag of JSON values; each handler receives
 * `(args?.<param> as string) || ""`, so a missing or falsy argument becomes
 * "", a string passes through, and any other truthy value reaches the
 * handler's `.toLowerCase()` and throws a TypeError. Every thrown error is
 * caught and answered as an error result for that call only.
 */
module Server {
  import opened Options
  import opened JsStrings
  import opened Sequences
  import opened Store
  import opened Markdown
  import Queries

  /** A JSON argument value as far as the `|| ""` coercion can tell them apart. */
  datatype ArgValue =
    | Str(s: string)            // a string, "" included
    | NonString(truthy: bool)   // a number, boolean, null, object or array

  type Args = map<string, ArgValue>

  /** What a tool call returns to the client: one text block, flagged when it reports an error. */
  datatype Reply = Reply(text: string, isError: bool)

  /** `(args?.<param> as string) || ""`, as the handler's first `.toLowerCase()` sees it. */
  function Argument(args: Args, param: string): Queries.Outcome {
    if param !in args then Queries.Text("")
    else match args[param]
      case Str(s) => Queries.Text(s)
      case NonString(truthy) =>
        if truthy then Queries.Thrown(param + ".toLowerCase is not a function") else Queries.Text("")
  }

  /** The tools the dispatcher answers. */
  datatype Tool =
    | SearchComponents | GetComponentDocs | ListAllComponents | FindByAttribute
    | GetDesignRules | SearchDesignRules | ListDesignCategories
    | GetSetupGuide | GetThemeUsage | GetDevelopmentRules

  /** The name a client calls a tool by. */
  function ToolName(t: Tool): string {
    match t
    case SearchComponents => "search_components"
    case GetComponentDocs => "get_component_docs"
    case ListAllComponents => "list_all_components"
    case FindByAttribute => "find_by_attribute"
    case GetDesignRules => "get_design_rules"
    case SearchDesignRules => "search_design_rules"
    case ListDesignCategories => "list_design_categories"
    case GetSetupGuide => "get_setup_guide"
    case GetThemeUsage => "get_theme_usage"
    case GetDevelopmentRules => "get_development_rules"
  }

  /** The tools in the order of the `case`s of the `switch (name)`. */
  const Tools: seq<Tool> := [
    SearchComponents, GetComponentDocs, ListAllComponents, FindByAttribute, GetDesignRules,
    SearchDesignRules, ListDesignCategories, GetSetupGuide, GetThemeUsage, GetDevelopmentRules]

  /** The first of `tools` whose name is `name`, as a `switch` tries its `case`s in turn. */
  function FirstNamed(name: string, tools: seq<Tool>): (r: Option<Tool>)
    ensures r.Some? ==> r.value in tools && ToolName(r.value) == name
    ensures r.None? ==> forall i :: 0 <= i < |tools| ==> ToolName(tools[i]) != name
  {
    if tools == [] then None
    else if ToolName(tools[0]) == name then Some(tools[0])
    else FirstNamed(name, tools[1..])
  }

  /** The `case` of the `switch (name)` that a name selects, if any. */
  function ToolNamed(name: string): Option<Tool> {
    FirstNamed(name, Tools)
  }

  /** The argument a tool reads, if any. */
  function ParamOf(t: Tool): Option<string> {
    match t
    case SearchComponents => Some("query")
    case GetComponentDocs => Some("component")
    case FindByAttribute => Some("attribute")
    case GetDesignRules => Some("category")
    case SearchDesignRules => Some("query")
    case GetSetupGuide => Some("type")
    case _ => None
  }

  /** The tools whose handlers read the component docs. */
  predicate OnComponents(t: Tool) {
    t.SearchComponents? || t.GetComponentDocs? || t.ListAllComponents? || t.FindByAttribute?
  }

  /** The tools whose handlers read the design rules. */
  predicate OnRules(t: Tool) {
    t.GetDesignRules? || t.SearchDesignRules? || t.ListDesignCategories?
  }

  /** The component handlers, on the coerced argument `v`. */
  function ComponentHandler(t: Tool, v: string, docs: seq<Doc>): Queries.Outcome
    requires OnComponents(t)
  {
    if t.SearchComponents? then
      Queries.Text(Queries.SearchReply(Queries.ComponentSearch, v, Queries.SearchHits(Queries.ComponentSearch, docs, Lower(v))))
    else if t.GetComponentDocs? then Queries.Text(Queries.ComponentDocs(docs, v))
    else if t.ListAllComponents? then Queries.ComponentListing(docs)
    else Queries.Text(Queries.AttributeReply(v, Queries.AttributeHits(docs, Lower(v))))
  }

  /** The design-rule handlers; the category listing prints the rules sorted by key. */
  function RuleHandler(t: Tool, v: string, rules: seq<Doc>): Queries.Outcome
    requires OnRules(t)
  {
    if t.GetDesignRules? then Queries.Text(Queries.DesignRule(rules, v))
    else if t.SearchDesignRules? then
      Queries.Text(Queries.SearchReply(Queries.RuleSearch, v, Queries.SearchHits(Queries.RuleSearch, rules, Lower(v))))
    else Queries.Text(Queries.CategoryListing(SortByKey(rules, KeyOf)))
  }

  /** The setup-guide handlers. */
  function SetupHandler(t: Tool, v: string, setup: seq<Doc>): Queries.Outcome
    requires !OnComponents(t) && !OnRules(t)
  {
    if t.GetSetupGuide? then Queries.Text(Queries.SetupGuide(setup, v))
    else if t.GetThemeUsage? then Queries.Text(Queries.ThemeUsage(setup))
    else Queries.Text(Queries.DevelopmentRules(setup))
  }

  /** What a tool's handler returns or throws for the coerced argument `v` ("" for tools without one). */
  function Handle(t: Tool, v: string, docs: seq<Doc>, rules: seq<Doc>, setup: seq<Doc>): Queries.Outcome {
    if OnComponents(t) then ComponentHandler(t, v, docs)
    else if OnRules(t) then RuleHandler(t, v, rules)
    else SetupHandler(t, v, setup)
  }

  /** What the `switch (name)` decides before a handler runs. */
  datatype Call =
    | Unknown                       // no `case` matches the name
    | BadArgument(message: string)  // the argument's `.toLowerCase()` throws
    | Run(tool: Tool, arg: string)  // the tool's handler runs on the coerced argument

  /** The `case` a name selects and the argument its handler receives. */
  function Decode(name: string, args: Args): Call {
    match ToolNamed(name)
    case None => Unknown
    case Some(t) =>
      match ParamOf(t)
      case None => Run(t, "")
      case Some(p) =>
        match Argument(args, p)
        case Thrown(m) => BadArgument(m)
        case Text(v) => Run(t, v)
  }

  /** What the call handler returns or throws, given the store before the call. */
  function Answer(name: string, args: Args, docs: seq<Doc>, rules: seq<Doc>, setup: seq<Doc>): Queries.Outcome {
    match Decode(name, args)
    case Unknown => Queries.Thrown("Unknown tool: " + name)
    case BadArgument(m) => Queries.Thrown(m)
    case Run(t, v) => Handle(t, v, docs, rules, setup)
  }

  /** A call that runs a handler is answered by that handler. */
  lemma AnswerRuns(name: string, args: Args, t: Tool, v: string, docs: seq<Doc>, rules: seq<Doc>, setup: seq<Doc>)
    requires Decode(name, args) == Run(t, v)
    ensures Answer(name, args, docs, rules, setup) == Handle(t, v, docs, rules, setup)
  {
  }

  /** The `catch`: a thrown error becomes an error result carrying its message. */
  function Respond(o: Queries.Outcome): Reply {
    match o
    case Text(t) => Reply(t, false)
    case Thrown(m) => Reply("Error: " + m, true)
  }

  /** The design rules after a call: only a call that runs the category listing reorders them. */
  function RulesAfter(call: Call, rules: seq<Doc>): seq<Doc> {
    if call.Run? && call.tool == ListDesignCategories then SortByKey(rules, KeyOf) else rules
  }

  class DocsServer {
    var docs: seq<Doc>
    var rules: seq<Doc>
    var setup: seq<Doc>

    /** Loads the three directories, in the order docs, rules, setup. */
    constructor (docsDir: Option<seq<FileEntry>>, rulesDir: Option<seq<FileEntry>>, setupDir: Option<seq<FileEntry>>)
      ensures docs == LoadedFrom(Components, docsDir)
      ensures rules == LoadedFrom(Rules, rulesDir)
      ensures setup == LoadedFrom(Setup, setupDir)
    {
      docs := [];
      rules := [];
      setup := [];
      new;
      LoadDocs(docsDir);
      LoadRules(rulesDir);
      LoadSetup(setupDir);
      AfterEmpty(LoadedFrom(Components, docsDir));
      AfterEmpty(LoadedFrom(Rules, rulesDir));
      AfterEmpty(LoadedFrom(Setup, setupDir));
    }

    /** `loadDocs`: push one record per markdown file; a missing directory adds nothing. */
    method LoadDocs(dir: Option<seq<FileEntry>>)
      modifies this
      ensures docs == old(docs) + LoadedFrom(Components, dir)
      ensures rules == old(rules) && setup == old(setup)
    {
      if dir.None? {
        return;
      }
      var files := MarkdownFiles(dir.value);
      ghost var recs := Loaded(Components, dir.value);
      for k := 0 to |files|
        invariant docs == old(docs) + recs[..k]
        invariant rules == old(rules) && setup == old(setup)
      {
        LoadedAt(Components, dir.value, k);
        PushNext(old(docs), recs, k);
        docs := docs + [RecordFor(Components, files[k])];
      }
      assert recs[..|files|] == recs;
    }

    /** `loadRules`: as `loadDocs`, into the design rules. */
    method LoadRules(dir: Option<seq<FileEntry>>)
      modifies this
      ensures rules == old(rules) + LoadedFrom(Rules, dir)
      ensures docs == old(docs) && setup == old(setup)
    {
      if dir.None? {
        return;
      }
      var files := MarkdownFiles(dir.value);
      ghost var recs := Loaded(Rules, dir.value);
      for k := 0 to |files|
        invariant rules == old(rules) + recs[..k]
        invariant docs == old(docs) && setup == old(setup)
      {
        LoadedAt(Rules, dir.value, k);
        PushNext(old(rules), recs, k);
        rules := rules + [RecordFor(Rules, files[k])];
      }
      assert recs[..|files|] == recs;
    }

    /** `loadSetup`: as `loadDocs`, into the setup guides. */
    method LoadSetup(dir: Option<seq<FileEntry>>)
      modifies this
      ensures setup == old(setup) + LoadedFrom(Setup, dir)
      ensures docs == old(docs) && rules == old(rules)
    {
      if dir.None? {
        return;
      }
      var files := MarkdownFiles(dir.value);
      ghost var recs := Loaded(Setup, dir.value);
      for k := 0 to |files|
        invariant setup == old(setup) + recs[..k]
        invariant docs == old(docs) && rules == old(rules)
      {
        LoadedAt(Setup, dir.value, k);
        PushNext(old(setup), recs, k);
        setup := setup + [RecordFor(Setup, files[k])];
      }
      assert recs[..|files|] == recs;
    }

    /**
     * `listDesignCategories`: the header counts the rules, the rules are
     * sorted in place by key, and one section per rule follows in the new order.
     */
    method ListDesignCategories() returns (text: string)
      modifies this
      ensures rules == SortByKey(old(rules), KeyOf)
      ensures text == Queries.CategoryListing(rules)
      ensures docs == old(docs) && setup == old(setup)
    {
      var header := Queries.RulesHeader(|rules|);
      text := header;
      var sorted := SortByKey(rules, KeyOf);
      SortByKeyLength(rules, KeyOf);
      rules := sorted;
      for i := 0 to |sorted|
        invariant rules == sorted && docs == old(docs) && setup == old(setup)
        invariant text == header + Queries.CategorySections(sorted[..i])
      {
        var section := Queries.WriteSection(sorted[i]);
        assert sorted[..i + 1][..i] == sorted[..i];
        AppendAssociates(header, Queries.CategorySections(sorted[..i]), section);
        text := text + section;
      }
      assert sorted[..|sorted|] == sorted;
    }

    /**
     * The call handler: answers `name` with the arguments `args` from the
     * store as it was before the call; an error of any kind is answered as an
     * error result and leaves the store as it was.
     */
    method CallTool(name: string, args: Args) returns (reply: Reply)
      modifies this
      ensures reply == Respond(Answer(name, args, old(docs), old(rules), old(setup)))
      ensures rules == RulesAfter(Decode(name, args), old(rules))
      ensures docs == old(docs) && setup == old(setup)
    {
      var call := Decode(name, args);
      match call
      case Unknown =>
        reply := Reply("Error: " + ("Unknown tool: " + name), true);
      case BadArgument(m) =>
        reply := Reply("Error: " + m, true);
      case Run(t, v) =>
        AnswerRuns(name, args, t, v, docs, rules, setup);
        reply := Dispatch(t, v);
    }

    /** One `case` of the `switch`: runs the handler of `t` on the coerced argument `v`. */
    method Dispatch(t: Tool, v: string) returns (reply: Reply)
      modifies this
      ensures reply == Respond(Handle(t, v, old(docs), old(rules), old(setup)))
      ensures rules == (if t.ListDesignCategories? then SortByKey(old(rules), KeyOf) else old(rules))
      ensures docs == old(docs) && setup == old(setup)
    {
      if OnComponents(t) {
        reply := ComponentTool(t, v);
      } else if OnRules(t) {
        reply := RuleTool(t, v);
      } else {
        reply := SetupTool(t, v);
      }
    }

    /** The handlers that read the component docs. */
    method ComponentTool(t: Tool, v: string) returns (reply: Reply)
      requires OnComponents(t)
      ensures reply == Respond(ComponentHandler(t, v, docs))
    {
      match t
      case SearchComponents =>
        var hits := Queries.Search(Queries.ComponentSearch, docs, v);
        reply := Reply(Queries.SearchReply(Queries.ComponentSearch, v, hits), false);
      case GetComponentDocs =>
        reply := Reply(Queries.ComponentDocs(docs, v), false);
      case ListAllComponents =>
        var out := Queries.ListAllComponents(docs);
        reply := Respond(out);
      case FindByAttribute =>
        var hits := Queries.FindByAttribute(docs, v);
        reply := Reply(Queries.AttributeReply(v, hits), false);
    }

    /** The handlers that read the design rules; the category listing also sorts them. */
    method RuleTool(t: Tool, v: string) returns (reply: Reply)
      requires OnRules(t)
      modifies this
      ensures reply == Respond(RuleHandler(t, v, old(rules)))
      ensures rules == (if t.ListDesignCategories? then SortByKey(old(rules), KeyOf) else old(rules))
      ensures docs == old(docs) && setup == old(setup)
    {
      match t
      case GetDesignRules =>
        reply := Reply(Queries.DesignRule(rules, v), false);
      case SearchDesignRules =>
        var hits := Queries.Search(Queries.RuleSearch, rules, v);
        reply := Reply(Queries.SearchReply(Queries.RuleSearch, v, hits), false);
      case ListDesignCategories =>
        var text := ListDesignCategories();
        reply := Reply(text, false);
    }

    /** The handlers that read the setup guides. */
    method SetupTool(t: Tool, v: string) returns (reply: Reply)
      requires !OnComponents(t) && !OnRules(t)
      ensures reply == Respond(SetupHandler(t, v, setup))
    {
      match t
      case GetSetupGuide =>
        reply := Reply(Queries.SetupGuide(setup, v), false);
      case GetThemeUsage =>
        reply := Reply(Queries.ThemeUsage(setup), false);
      case GetDevelopmentRules =>
        reply := Reply(Queries.DevelopmentRules(setup), false);
    }
  }

  // ---------------------------------------------------------------------------
  // Lemmas

  /** Where a tool's `case` stands in the `switch`. */
  function Position(t: Tool): (i: nat)
    ensures i < |Tools| && Tools[i] == t
  {
    match t
    case SearchComponents => 0
    case GetComponentDocs => 1
    case ListAllComponents => 2
    case FindByAttribute => 3
    case GetDesignRules => 4
    case SearchDesignRules => 5
    case ListDesignCategories => 6
    case GetSetupGuide => 7
    case GetThemeUsage => 8
    case GetDevelopmentRules => 9
  }

  /** Each entry of `Tools` stands at its own position, so no tool is listed twice. */
  lemma PositionsOfTools(j: nat)
    requires j < |Tools|
    ensures Position(Tools[j]) == j
  {
  }

  /** The length and two letters of a tool's name, which already tell the names apart. */
  function Signature(t: Tool): (nat, char, char) {
    match t
    case SearchComponents => (17, 's', 'c')
    case GetComponentDocs => (18, 'g', 'c')
    case ListAllComponents => (19, 'l', '_')
    case FindByAttribute => (17, 'f', '_')
    case GetDesignRules => (16, 'g', 'd')
    case SearchDesignRules => (19, 's', 'c')
    case ListDesignCategories => (22, 'l', '_')
    case GetSetupGuide => (15, 'g', 's')
    case GetThemeUsage => (15, 'g', 't')
    case GetDevelopmentRules => (21, 'g', 'd')
  }

  lemma SignatureOfName(t: Tool)
    ensures |ToolName(t)| > 4 && Signature(t) == (|ToolName(t)|, ToolName(t)[0], ToolName(t)[4])
  {
  }

  /** No two tools share a name. */
  lemma ToolNamesDistinct(a: Tool, b: Tool)
    requires a != b
    ensures ToolName(a) != ToolName(b)
  {
    SignatureOfName(a);
    SignatureOfName(b);
  }

  /** A tool whose name no earlier tool has is the one its name selects. */
  lemma {:induction false} FirstNamedAt(tools: seq<Tool>, i: nat)
    requires i < |tools|
    requires forall j :: 0 <= j < i ==> ToolName(tools[j]) != ToolName(tools[i])
    ensures FirstNamed(ToolName(tools[i]), tools) == Some(tools[i])
  {
    if i > 0 {
      FirstNamedAt(tools[1..], i - 1);
    }
  }

  /** A name selects a tool exactly when it is that tool's name. */
  lemma ToolNamedExactly(name: string, t: Tool)
    ensures ToolNamed(name) == Some(t) <==> ToolName(t) == name
  {
    if ToolName(t) == name {
      var i := Position(t);
      forall j | 0 <= j < i
        ensures ToolName(Tools[j]) != ToolName(Tools[i])
      {
        PositionsOfTools(j);
        ToolNamesDistinct(Tools[j], Tools[i]);
      }
      FirstNamedAt(Tools, i);
    }
  }

  /**
   * A name that is no tool's name is decoded as unknown and answered with
   * "Error: Unknown tool: <name>"; the rules stay as they were.
   */
  lemma UnknownToolIsError(name: string, args: Args, docs: seq<Doc>, rules: seq<Doc>, setup: seq<Doc>)
    requires forall t: Tool :: ToolName(t) != name
    ensures Decode(name, args) == Unknown
    ensures Respond(Answer(name, args, docs, rules, setup)) == Reply("Error: Unknown tool: " + name, true)
    ensures RulesAfter(Decode(name, args), rules) == rules
  {
    UnknownNameDecodes(name, args);
    UnknownAnswer(name, args, docs, rules, setup);
  }

  lemma UnknownAnswer(name: string, args: Args, docs: seq<Doc>, rules: seq<Doc>, setup: seq<Doc>)
    requires Decode(name, args) == Unknown
    ensures Respond(Answer(name, args, docs, rules, setup)) == Reply("Error: Unknown tool: " + name, true)
  {
    assert "Error: " + "Unknown tool: " == "Error: Unknown tool: ";
    AppendAssociates("Error: ", "Unknown tool: ", name);
  }

  /** A name that is no tool's name matches no `case`. */
  lemma UnknownNameDecodes(name: string, args: Args)
    requires forall t: Tool :: ToolName(t) != name
    ensures Decode(name, args) == Unknown
  {
  }

  /**
   * A missing argument is passed on as "", as are an empty string and a falsy
   * non-string: the call decodes as if the argument were "".
   */
  lemma MissingArgumentIsEmpty(name: string, args: Args, param: string)
    requires param !in args
    ensures Decode(name, args[param := Str("")]) == Decode(name, args)
    ensures Decode(name, args[param := NonString(false)]) == Decode(name, args)
    ensures var call := Decode(name, args); call.Run? && ParamOf(call.tool) == Some(param) ==> call.arg == ""
  {
    match ToolNamed(name)
    case None =>
    case Some(t) =>
      match ParamOf(t)
      case None =>
      case Some(p) =>
        if p == param {
          assert Argument(args, p) == Queries.Text("");
          assert Argument(args[param := Str("")], p) == Queries.Text("");
          assert Argument(args[param := NonString(false)], p) == Queries.Text("");
        } else {
          assert Argument(args, p) == Argument(args[param := Str("")], p);
          assert Argument(args, p) == Argument(args[param := NonString(false)], p);
        }
  }

  /**
   * A call's argument is rejected exactly when the tool reads an argument and
   * it is a truthy non-string; the message names the argument.
   */
  lemma BadArgumentExactly(name: string, args: Args)
    ensures var call := Decode(name, args); var tool := ToolNamed(name);
      && (call.BadArgument? <==>
            tool.Some? && ParamOf(tool.value).Some? && ParamOf(tool.value).value in args
            && args[ParamOf(tool.value).value] == NonString(true))
      && (call.BadArgument? ==> call.message == ParamOf(tool.value).value + ".toLowerCase is not a function")
  {
  }

  /**
   * A call is answered with an error exactly when the name is unknown, the
   * argument is rejected, or the component listing meets an inherited
   * category name; an error reply says "Error: " first and leaves the rules
   * as they were.
   */
  lemma ErrorsExactly(name: string, args: Args, docs: seq<Doc>, rules: seq<Doc>, setup: seq<Doc>)
    ensures var reply := Respond(Answer(name, args, docs, rules, setup)); var call := Decode(name, args);
      && (reply.isError <==>
            || call.Unknown?
            || call.BadArgument?
            || (call.Run? && call.tool == ListAllComponents && Queries.HasInheritedCategory(docs)))
      && (reply.isError ==> StartsWith(reply.text, "Error: ") && RulesAfter(call, rules) == rules)
  {
    var reply := Respond(Answer(name, args, docs, rules, setup));
    match Decode(name, args)
    case Unknown =>
      PrefixStartsWith("Error: ", "Unknown tool: " + name);
    case BadArgument(m) =>
      PrefixStartsWith("Error: ", m);
    case Run(t, v) =>
      AnswerRuns(name, args, t, v, docs, rules, setup);
      HandleThrowsExactly(t, v, docs, rules, setup);
      var o := Handle(t, v, docs, rules, setup);
      if o.Thrown? {
        PrefixStartsWith("Error: ", o.message);
      }
  }

  /** Of the handlers, only the component listing throws, and only on an inherited category name. */
  lemma HandleThrowsExactly(t: Tool, v: string, docs: seq<Doc>, rules: seq<Doc>, setup: seq<Doc>)
    ensures Handle(t, v, docs, rules, setup).Thrown? <==> t == ListAllComponents && Queries.HasInheritedCategory(docs)
  {
  }
}

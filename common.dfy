/** What the domain commands share (`biucingcli/commands/common.py`): looking
    up a domain in the effective configuration, choosing the stacks to show,
    building one table row per stack, and formatting a stack's tools as text.
    The `rich` table is modelled by the `Table` class below: its title, its
    column headers and the rows added to it, each row a `Row` of the three
    cells; styling and printing are not modelled. */
module Common {
  import opened Values

  // ---------------------------------------------------------------------
  // Domain lookup

  /** `get_domain_config(ctx, domain)`: the domain's entry of the effective
      configuration, or the "Unknown domain" error. */
  function GetDomainConfig(config: Obj, domain: string): (r: Result<Value>)
    ensures r.Ok? <==> domain in config.entries
    ensures r.Ok? ==> r.value == config.entries[domain]
    ensures r.Err? ==> r.error == BadParameter("Unknown domain '" + domain + "'.")
  {
    if domain in config.entries then Ok(config.entries[domain])
    else Err(BadParameter("Unknown domain '" + domain + "'."))
  }

  /** `config.get("stacks", {})` in the domain commands: a domain without a
      `stacks` key has no stacks; a domain entry that is not a mapping has no
      `get` and fails. */
  function DomainStacks(domainConfig: Value): (r: Result<Value>)
    ensures r.Ok? <==> domainConfig.Dict?
    ensures r.Ok? && "stacks" !in domainConfig.obj.entries ==> r.value == Dict(EmptyObj)
    ensures r.Ok? && "stacks" in domainConfig.obj.entries ==> r.value == domainConfig.obj.entries["stacks"]
  {
    if domainConfig.Dict? then Ok(Get(domainConfig.obj, "stacks", Dict(EmptyObj))) else Err(WrongShape)
  }

  // ---------------------------------------------------------------------
  // Choosing the stacks

  /** Python's `if stack:` for an optional stack name: `None` and `""` are false. */
  function StackGiven(stack: Option<string>): (b: bool)
    ensures stack == None || stack == Some("") ==> !b
    ensures stack.Some? && stack.value != "" ==> b
  {
    stack.Some? && stack.value != ""
  }

  /** Python's `part in s` for strings. */
  predicate IsSubstring(part: string, s: string)
  {
    part <= s || (s != [] && IsSubstring(part, s[1..]))
  }

  /** Python's `name in container` for a parsed value: a key of a mapping, an
      element of a list, a substring of a string; other values are not
      containers and raise a TypeError. */
  function Contains(container: Value, name: string): (r: Result<bool>)
    ensures container.Dict? ==> r == Ok(name in container.obj.entries)
    ensures container.List? ==> r == Ok(Str(name) in container.items)
    ensures container.Str? ==> r == Ok(IsSubstring(name, container.s))
    ensures r.Err? <==> !(container.Dict? || container.List? || container.Str?)
  {
    match container
    case Dict(o) => Ok(name in o.entries)
    case List(xs) => Ok(Str(name) in xs)
    case Str(s) => Ok(IsSubstring(name, s))
    case _ => Err(WrongShape)
  }

  function NotFound(name: string): Failure
  {
    BadParameter("Stack '" + name + "' not found.")
  }

  /** The first lines of `render_stack_table`: with a stack name given, keep
      only that stack, or fail with "not found"; without one, keep every
      stack. What is kept must be a mapping, or the row loop's `.items()`
      fails. */
  function SelectStacks(stacks: Value, stack: Option<string>): (r: Result<Obj>)
    requires WellFormed(stacks)
    ensures r.Ok? ==> WellFormedObj(r.value)
    ensures !StackGiven(stack) ==> (r.Ok? <==> stacks.Dict?) && (r.Ok? ==> r.value == stacks.obj)
    ensures StackGiven(stack) && stacks.Dict? ==>
              if stack.value in stacks.obj.entries then
                r == Ok(Obj([stack.value], map[stack.value := stacks.obj.entries[stack.value]]))
              else
                r == Err(NotFound(stack.value))
  {
    if StackGiven(stack) then
      var name := stack.value;
      match Contains(stacks, name)
      case Err(e) => Err(e)
      case Ok(found) =>
        if !found then Err(NotFound(name))
        else if stacks.Dict? then
          var payload := stacks.obj.entries[name];
          assert WellFormedObj(stacks.obj);
          assert WellFormed(payload);
          Ok(Obj([name], map[name := payload]))
        else
          Err(WrongShape)
    else if stacks.Dict? then
      Ok(stacks.obj)
    else
      Err(WrongShape)
  }

  // ---------------------------------------------------------------------
  // Formatting values and tools

  const NoTools: string := "No tools configured"

  function DigitChar(d: nat): char
    requires d < 10
  {
    "0123456789"[d]
  }

  function Digits(n: nat): (r: string)
    ensures |r| > 0
    ensures forall i :: 0 <= i < |r| ==> '0' <= r[i] <= '9'
  {
    if n < 10 then [DigitChar(n)] else Digits(n / 10) + [DigitChar(n % 10)]
  }

  function DigitsValue(s: string): int
  {
    if s == [] then 0 else 10 * DigitsValue(s[..|s| - 1]) + (s[|s| - 1] as int - '0' as int)
  }

  /** Decimal rendering of integers reads back as the same number. */
  lemma {:induction false} DigitsRoundTrip(n: nat)
    ensures DigitsValue(Digits(n)) == n
  {
    if n >= 10 {
      DigitsRoundTrip(n / 10);
      var s := Digits(n);
      assert s[..|s| - 1] == Digits(n / 10);
    }
  }

  /** `str(v)` for the scalars YAML produces. */
  function ScalarText(v: Value): string
  {
    match v
    case Str(s) => s
    case Int(n) => if n < 0 then "-" + Digits(-n) else Digits(n)
    case Bool(b) => if b then "True" else "False"
    case Null => "None"
    case _ => ""
  }

  /** `str` of a string is the string itself; `str` of an integer is its
      decimal numeral, with a minus sign when negative, and reads back as the
      same number; other scalars never print as nothing. */
  lemma ScalarTextMeaning(v: Value)
    ensures v.Str? ==> ScalarText(v) == v.s
    ensures v.Int? && v.n >= 0 ==> DigitsValue(ScalarText(v)) == v.n
    ensures v.Int? && v.n < 0 ==> ScalarText(v)[0] == '-' && DigitsValue(ScalarText(v)[1..]) == -v.n
    ensures !v.Str? && !v.List? && !v.Dict? ==> ScalarText(v) != ""
  {
    if v.Int? {
      if v.n < 0 {
        DigitsRoundTrip(-v.n);
        assert ScalarText(v)[1..] == Digits(-v.n);
      } else {
        DigitsRoundTrip(v.n);
      }
    }
  }

  /** `repr(v)`, as Python prints the elements of a list or a mapping. */
  function Repr(v: Value): string
    decreases v, 1
  {
    match v
    case Str(s) => "'" + s + "'"
    case List(xs) => "[" + ReprItems(v, 0) + "]"
    case Dict(o) => "{" + ReprEntries(v, 0) + "}"
    case _ => ScalarText(v)
  }

  /** The list items of `v` from the `i`-th on, comma separated. */
  function ReprItems(v: Value, i: nat): string
    requires v.List?
    decreases v, 0, |v.items| - i
  {
    if i >= |v.items| then ""
    else (if i > 0 then ", " else "") + Repr(v.items[i]) + ReprItems(v, i + 1)
  }

  /** The entries of the mapping `v` from the `i`-th key on, comma separated. */
  function ReprEntries(v: Value, i: nat): string
    requires v.Dict?
    decreases v, 0, |v.obj.keys| - i
  {
    if i >= |v.obj.keys| then ""
    else
      var key := v.obj.keys[i];
      (if i > 0 then ", " else "") + "'" + key + "': "
      + (if key in v.obj.entries then Repr(v.obj.entries[key]) else "")
      + ReprEntries(v, i + 1)
  }

  /** `repr` quotes a string in single quotes, wraps a list in square
      brackets and a mapping in braces, and prints any other scalar as its
      `str`; it never prints nothing. */
  lemma ReprShape(v: Value)
    ensures v.Str? ==> Repr(v) == "'" + v.s + "'"
    ensures v.List? ==> Repr(v)[0] == '[' && Repr(v)[|Repr(v)| - 1] == ']'
    ensures v.Dict? ==> Repr(v)[0] == '{' && Repr(v)[|Repr(v)| - 1] == '}'
    ensures !v.Str? && !v.List? && !v.Dict? ==> Repr(v) == ScalarText(v)
    ensures Repr(v) != ""
  {
    ScalarTextMeaning(v);
  }

  /** The rest of a list or a mapping prints as nothing exactly when nothing
      is left, and every element after the first starts with `, `. */
  lemma ReprSeparators(v: Value, i: nat)
    ensures v.List? ==> (ReprItems(v, i) == "" <==> i >= |v.items|)
    ensures v.List? && 0 < i < |v.items| ==> ReprItems(v, i)[..2] == ", "
    ensures v.Dict? ==> (ReprEntries(v, i) == "" <==> i >= |v.obj.keys|)
    ensures v.Dict? && 0 < i < |v.obj.keys| ==> ReprEntries(v, i)[..2] == ", "
  {
    if v.List? && i < |v.items| {
      ReprShape(v.items[i]);
    }
  }

  /** `str(v)`, as an f-string inserts a value. */
  function Show(v: Value): string
  {
    if v.List? || v.Dict? then Repr(v) else ScalarText(v)
  }

  /** A string shows as itself, unquoted; a list or a mapping shows as its
      `repr`; only the empty string shows as nothing. */
  lemma ShowText(v: Value)
    ensures v.Str? ==> Show(v) == v.s
    ensures v.List? || v.Dict? ==> Show(v) == Repr(v)
    ensures Show(v) == "" <==> v == Str("")
  {
  }

  /** One tool's block: `name [category]`, a newline, then the url; a missing
      name reads "unknown", a missing category or url reads as empty. */
  function ToolBlock(tool: Obj): string
  {
    Show(Get(tool, "name", Str("unknown"))) + " [" + Show(Get(tool, "category", Str(""))) + "]\n"
    + Show(Get(tool, "url", Str("")))
  }

  /** A tool's block starts with its name and a bracket, and ends with a
      line break followed by the url. */
  lemma ToolBlockShape(tool: Obj)
    ensures Show(Get(tool, "name", Str("unknown"))) + " [" <= ToolBlock(tool)
    ensures var at := |Show(Get(tool, "name", Str("unknown")))| + 2 + |Show(Get(tool, "category", Str("")))| + 1;
            && at < |ToolBlock(tool)|
            && ToolBlock(tool)[at] == '\n'
            && ToolBlock(tool)[at + 1..] == Show(Get(tool, "url", Str("")))
    ensures '\n' in ToolBlock(tool)
  {
    var name := Show(Get(tool, "name", Str("unknown")));
    var category := Show(Get(tool, "category", Str("")));
    assert ToolBlock(tool)[|name| + 2 + |category| + 1] == '\n';
  }

  /** `sep.join(parts)` */
  function Join(parts: seq<string>, sep: string): (r: string)
    ensures parts != [] ==> parts[0] <= r
  {
    if parts == [] then ""
    else if |parts| == 1 then parts[0]
    else parts[0] + sep + Join(parts[1..], sep)
  }

  /** What `for tool in tools` visits: the items of a list, the keys of a
      mapping, the characters of a string; other values are not iterable. */
  function ToolItems(tools: Value): (r: Option<seq<Value>>)
    ensures tools.List? ==> r == Some(tools.items)
    ensures r.Some? <==> tools.List? || tools.Dict? || tools.Str?
    ensures tools.Dict? ==> r.Some? && |r.value| == |tools.obj.keys|
                            && forall i :: 0 <= i < |tools.obj.keys| ==> r.value[i] == Str(tools.obj.keys[i])
    ensures tools.Str? ==> r.Some? && |r.value| == |tools.s|
                           && forall i :: 0 <= i < |tools.s| ==> r.value[i] == Str([tools.s[i]])
    ensures (tools.Dict? || tools.Str?) && r.Some? ==> forall i :: 0 <= i < |r.value| ==> r.value[i].Str?
  {
    match tools
    case List(xs) => Some(xs)
    case Dict(o) => Some(seq(|o.keys|, i requires 0 <= i < |o.keys| => Str(o.keys[i])))
    case Str(s) => Some(seq(|s|, i requires 0 <= i < |s| => Str([s[i]])))
    case _ => None
  }

  predicate AllTools(items: seq<Value>)
  {
    forall i :: 0 <= i < |items| ==> items[i].Dict?
  }

  function Blocks(items: seq<Value>): (r: seq<string>)
    requires AllTools(items)
    ensures |r| == |items|
    ensures forall i :: 0 <= i < |items| ==> r[i] == ToolBlock(items[i].obj)
  {
    seq(|items|, i requires 0 <= i < |items| => ToolBlock(items[i].obj))
  }

  /** `_join_tool_lines(tools)`: the tools' blocks in order, separated by a
      blank line, or the placeholder when there are none. An item that is not
      a mapping has no `get` and fails. */
  function ToolLines(tools: Value): (r: Result<string>)
    ensures r.Ok? <==> ToolItems(tools).Some? && AllTools(ToolItems(tools).value)
    ensures r.Err? ==> r.error == WrongShape
  {
    match ToolItems(tools)
    case None => Err(WrongShape)
    case Some(items) =>
      if !AllTools(items) then Err(WrongShape)
      else if items == [] then Ok(NoTools)
      else Ok(Join(Blocks(items), "\n\n"))
  }

  /** The loop of `_join_tool_lines`, proved to compute `ToolLines`. */
  method JoinToolLines(tools: Value) returns (r: Result<string>)
    ensures r == ToolLines(tools)
  {
    var items := ToolItems(tools);
    if items.None? {
      return Err(WrongShape);
    }
    var result: seq<string> := [];
    var i := 0;
    while i < |items.value|
      invariant 0 <= i <= |items.value|
      invariant AllTools(items.value[..i])
      invariant result == Blocks(items.value[..i])
    {
      var tool := items.value[i];
      if !tool.Dict? {
        return Err(WrongShape);
      }
      var toolName := Show(Get(tool.obj, "name", Str("unknown")));
      var category := Show(Get(tool.obj, "category", Str("")));
      var url := Show(Get(tool.obj, "url", Str("")));
      var block := toolName + " [" + category + "]\n" + url;
      assert block == ToolBlock(tool.obj);
      BlocksAppend(items.value, i);
      result := result + [block];
      i := i + 1;
    }
    assert items.value[..i] == items.value;
    r := Ok(if |result| > 0 then Join(result, "\n\n") else NoTools);
  }

  /** One more tool adds its block at the end. */
  lemma BlocksAppend(items: seq<Value>, i: nat)
    requires i < |items| && AllTools(items[..i]) && items[i].Dict?
    ensures AllTools(items[..i + 1])
    ensures Blocks(items[..i + 1]) == Blocks(items[..i]) + [ToolBlock(items[i].obj)]
  {
    var longer := Blocks(items[..i + 1]);
    var shorter := Blocks(items[..i]);
    forall j | 0 <= j < i
      ensures longer[j] == shorter[j]
    {
      assert items[..i + 1][j] == items[..i][j];
    }
    assert longer[i] == ToolBlock(items[i].obj);
  }

  /** Joining is compositional: the first `k` parts joined, the separator,
      then the rest joined. */
  lemma {:induction false} JoinSplit(parts: seq<string>, sep: string, k: nat)
    requires 0 < k < |parts|
    ensures Join(parts, sep) == Join(parts[..k], sep) + sep + Join(parts[k..], sep)
  {
    if k > 1 {
      JoinSplit(parts[1..], sep, k - 1);
      assert parts[1..][..k - 1] == parts[1..k];
      assert parts[1..][k - 1..] == parts[k..];
      assert parts[..k][1..] == parts[1..k];
    }
  }

  /** The text starts with the first tool's block. */
  lemma ToolLinesStartsWithFirst(tools: Value)
    requires ToolLines(tools).Ok? && ToolItems(tools).value != []
    ensures ToolBlock(ToolItems(tools).value[0].obj) <= ToolLines(tools).value
  {
    var items := ToolItems(tools).value;
    assert Blocks(items)[0] == ToolBlock(items[0].obj);
  }

  /** No tools, or an empty list of them, gives exactly the placeholder. */
  lemma ToolLinesEmpty(tools: Value)
    requires ToolItems(tools) == Some([])
    ensures ToolLines(tools) == Ok(NoTools)
  {
  }

  /** A single tool gives exactly its block. */
  lemma ToolLinesSingle(tool: Obj)
    ensures ToolLines(List([Dict(tool)])) == Ok(ToolBlock(tool))
  {
    assert Blocks([Dict(tool)]) == [ToolBlock(tool)];
  }

  /** Each further tool adds a blank line and its own block at the end, so
      the text holds one block per tool, in the tools' order. */
  lemma ToolLinesAppend(tools: seq<Value>, tool: Obj)
    requires tools != [] && AllTools(tools)
    ensures ToolLines(List(tools)).Ok?
    ensures ToolLines(List(tools + [Dict(tool)])) == Ok(ToolLines(List(tools)).value + "\n\n" + ToolBlock(tool))
  {
    var all := tools + [Dict(tool)];
    assert AllTools(all);
    var blocks := Blocks(all);
    JoinSplit(blocks, "\n\n", |tools|);
    assert blocks[..|tools|] == Blocks(tools);
    assert blocks[|tools|..] == [ToolBlock(tool)];
  }

  /** The text for a non-empty list of tools is never the placeholder: every
      block holds a newline and the placeholder does not. */
  lemma ToolLinesNotPlaceholder(tools: seq<Value>)
    requires tools != [] && AllTools(tools)
    ensures ToolLines(List(tools)).Ok?
    ensures ToolLines(List(tools)).value != NoTools
  {
    assert AllTools(ToolItems(List(tools)).value);
    ToolBlockShape(tools[0].obj);
    ToolLinesStartsWithFirst(List(tools));
    NotPlaceholder(ToolBlock(tools[0].obj), ToolLines(List(tools)).value);
  }

  /** A text that starts with a block holding a line break is not the
      placeholder, which has none. */
  lemma NotPlaceholder(block: string, text: string)
    requires block <= text && '\n' in block
    ensures text != NoTools
  {
    var at :| 0 <= at < |block| && block[at] == '\n';
    assert text[at] == '\n';
    assert '\n' !in NoTools;
  }

  /** Tools written as a mapping or a string cannot be formatted: the loop
      visits keys or characters, which are strings with no `get`. */
  lemma ToolLinesOfStrings(tools: Value)
    requires (tools.Dict? && tools.obj.keys != []) || (tools.Str? && tools.s != [])
    ensures ToolLines(tools) == Err(WrongShape)
  {
    assert !ToolItems(tools).value[0].Dict?;
  }

  /** A tool with none of the three fields renders as `unknown []` and an
      empty url line. */
  lemma ToolBlockDefaults(tool: Obj)
    requires "name" !in tool.entries && "category" !in tool.entries && "url" !in tool.entries
    ensures ToolBlock(tool) == "unknown []\n"
  {
  }

  // ---------------------------------------------------------------------
  // Rows and the table

  /** One table row: the stack's name, its description and its tool text. */
  datatype Row = Row(stack: string, description: Value, tools: string)

  /** The row for one stack: the description defaults to the empty string,
      missing tools to an empty list. A stack that is not a mapping fails. */
  function StackRow(name: string, payload: Value): (r: Result<Row>)
    ensures r.Err? ==> r.error == WrongShape
  {
    if !payload.Dict? then Err(WrongShape)
    else
      match ToolLines(Get(payload.obj, "tools", List([])))
      case Err(e) => Err(e)
      case Ok(tools) => Ok(Row(name, Get(payload.obj, "description", Str("")), tools))
  }

  /** One pass of the row loop of `render_stack_table`: the row for a stack,
      with its tools formatted by `JoinToolLines`. */
  method MakeRow(name: string, payload: Value) returns (r: Result<Row>)
    ensures r == StackRow(name, payload)
  {
    if !payload.Dict? {
      return Err(WrongShape);
    }
    var tools := JoinToolLines(Get(payload.obj, "tools", List([])));
    if tools.Err? {
      return Err(tools.error);
    }
    r := Ok(Row(name, Get(payload.obj, "description", Str("")), tools.value));
  }

  /** The outcome of building the row of each named stack, in that order. */
  function RowResults(stacks: Obj, names: seq<string>): (r: seq<Result<Row>>)
    requires forall k :: k in names ==> k in stacks.entries
    ensures |r| == |names|
    ensures forall i :: 0 <= i < |names| ==> r[i] == StackRow(names[i], stacks.entries[names[i]])
  {
    seq(|names|, i requires 0 <= i < |names| => StackRow(names[i], stacks.entries[names[i]]))
  }

  /** The rows for the stacks named by `names`, in that order, or the failure
      of the first stack that has none. */
  function Rows(stacks: Obj, names: seq<string>): Result<seq<Row>>
    requires forall k :: k in names ==> k in stacks.entries
  {
    Collect(RowResults(stacks, names))
  }

  /** The rows `render_stack_table(console, stacks, stack=stack)` puts in its table. */
  function StackTable(stacks: Value, stack: Option<string>): Result<seq<Row>>
    requires WellFormed(stacks)
  {
    match SelectStacks(stacks, stack)
    case Err(e) => Err(e)
    case Ok(shown) => Rows(shown, shown.keys)
  }

  /** The rows, when they all succeed, are one per named stack, in order,
      each named after its stack. */
  lemma RowsNamed(stacks: Obj, names: seq<string>)
    requires forall k :: k in names ==> k in stacks.entries
    ensures Rows(stacks, names).Ok? ==>
              && |Rows(stacks, names).value| == |names|
              && forall i :: 0 <= i < |names| ==> Rows(stacks, names).value[i].stack == names[i]
  {
    CollectMeaning(RowResults(stacks, names));
  }

  /** A table is built only for a mapping of stacks, every row names one of
      its stacks, and a given stack name yields exactly its one row. */
  lemma StackTableShape(stacks: Value, stack: Option<string>)
    requires WellFormed(stacks)
    ensures StackTable(stacks, stack).Ok? ==> stacks.Dict?
    ensures StackTable(stacks, stack).Ok? ==>
              forall i :: 0 <= i < |StackTable(stacks, stack).value| ==>
                StackTable(stacks, stack).value[i].stack in stacks.obj.entries
    ensures StackTable(stacks, stack).Ok? && StackGiven(stack) ==>
              |StackTable(stacks, stack).value| == 1 && StackTable(stacks, stack).value[0].stack == stack.value
  {
    var selected := SelectStacks(stacks, stack);
    if selected.Ok? {
      var shown := selected.value;
      RowsNamed(shown, shown.keys);
      assert forall k :: k in shown.keys ==> k in stacks.obj.entries;
    }
  }

  /** A `rich` table: its title, its column headers and its rows. */
  class Table {
    const title: string
    var columns: seq<string>
    var rows: seq<Row>

    constructor (title: string)
      ensures this.title == title && columns == [] && rows == []
    {
      this.title := title;
      columns := [];
      rows := [];
    }

    method AddColumn(header: string)
      modifies this
      ensures columns == old(columns) + [header] && rows == old(rows)
    {
      columns := columns + [header];
    }

    method AddRow(row: Row)
      modifies this
      ensures rows == old(rows) + [row] && columns == old(columns)
    {
      rows := rows + [row];
    }
  }

  const Headers: seq<string> := ["Stack", "Description", "Tools"]

  /** `render_stack_table(console, stacks, stack=stack)` up to printing: the
      table it builds, or the error it raises. */
  method RenderStackTable(stacks: Value, stack: Option<string>) returns (r: Result<Table>)
    requires WellFormed(stacks)
    ensures r.Err? <==> StackTable(stacks, stack).Err?
    ensures r.Err? ==> r.error == StackTable(stacks, stack).error
    ensures r.Ok? ==> && fresh(r.value)
                      && r.value.title == "Stacks"
                      && r.value.columns == Headers
                      && r.value.rows == StackTable(stacks, stack).value
  {
    var selected := SelectStacks(stacks, stack);
    if selected.Err? {
      return Err(selected.error);
    }
    var shown := selected.value;
    var table := new Table("Stacks");
    table.AddColumn("Stack");
    table.AddColumn("Description");
    table.AddColumn("Tools");
    var filled := AddStackRows(table, shown);
    if filled.Err? {
      return Err(filled.error);
    }
    r := Ok(table);
  }

  /** The row loop of `render_stack_table`: one row per stack of `shown`, in
      its order, added to `table`; the first stack without a row stops the
      loop with its failure. */
  method AddStackRows(table: Table, shown: Obj) returns (r: Result<()>)
    requires forall k :: k in shown.keys ==> k in shown.entries
    modifies table
    ensures table.columns == old(table.columns)
    ensures r.Err? <==> Rows(shown, shown.keys).Err?
    ensures r.Err? ==> r.error == Rows(shown, shown.keys).error
    ensures r.Ok? ==> table.rows == old(table.rows) + Rows(shown, shown.keys).value
  {
    ghost var before := table.rows;
    ghost var added: seq<Row> := [];
    ghost var results := RowResults(shown, shown.keys);
    var i := 0;
    while i < |shown.keys|
      invariant 0 <= i <= |shown.keys|
      invariant table.columns == old(table.columns)
      invariant table.rows == before + added
      invariant Collect(results[..i]) == Ok(added)
    {
      var name := shown.keys[i];
      var row := MakeRow(name, shown.entries[name]);
      assert row == results[i];
      assert results[..i + 1][..i] == results[..i];
      if row.Err? {
        CollectFirstFailure(results, i);
        return Err(row.error);
      }
      table.AddRow(row.value);
      added := added + [row.value];
      i := i + 1;
    }
    assert results[..i] == results;
    r := Ok(());
  }

  /** The `list` and `suggest` commands of a domain: look the domain up, take
      its stacks and build the table. */
  method ListStacks(config: Obj, domain: string, stack: Option<string>) returns (r: Result<Table>)
    requires WellFormedObj(config)
    ensures domain !in config.entries ==> r == Err(BadParameter("Unknown domain '" + domain + "'."))
    ensures domain in config.entries && !config.entries[domain].Dict? ==> r == Err(WrongShape)
    ensures domain in config.entries && config.entries[domain].Dict? ==>
              var stacks := DomainStacks(config.entries[domain]).value;
              && WellFormed(stacks)
              && (r.Err? <==> StackTable(stacks, stack).Err?)
              && (r.Err? ==> r.error == StackTable(stacks, stack).error)
    ensures r.Ok? ==> && domain in config.entries && config.entries[domain].Dict?
                      && var stacks := DomainStacks(config.entries[domain]).value;
                      && WellFormed(stacks)
                      && StackTable(stacks, stack).Ok?
                      && r.value.rows == StackTable(stacks, stack).value
    ensures r.Ok? ==> fresh(r.value) && r.value.title == "Stacks" && r.value.columns == Headers
  {
    var domainConfig := GetDomainConfig(config, domain);
    if domainConfig.Err? {
      return Err(domainConfig.error);
    }
    var stacks := DomainStacks(domainConfig.value);
    if stacks.Err? {
      return Err(stacks.error);
    }
    assert WellFormed(domainConfig.value);
    assert WellFormed(stacks.value);
    r := RenderStackTable(stacks.value, stack);
  }

  // ---------------------------------------------------------------------
  // What the table holds

  /** Without a stack name every stack gets a row, in the stacks' order. */
  lemma StackTableAll(stacks: Value, stack: Option<string>)
    requires WellFormed(stacks) && stacks.Dict? && !StackGiven(stack)
    requires StackTable(stacks, stack).Ok?
    ensures |StackTable(stacks, stack).value| == |stacks.obj.keys|
    ensures forall i :: 0 <= i < |stacks.obj.keys| ==>
              && StackTable(stacks, stack).value[i].stack == stacks.obj.keys[i]
              && Ok(StackTable(stacks, stack).value[i]) == StackRow(stacks.obj.keys[i], stacks.obj.entries[stacks.obj.keys[i]])
  {
    var o := stacks.obj;
    assert WellFormedObj(o);
    assert StackTable(stacks, stack) == Rows(o, o.keys);
    CollectMeaning(RowResults(o, o.keys));
  }

  /** Without a stack name the table fails exactly when some stack has no row. */
  lemma StackTableAllFails(stacks: Value, stack: Option<string>)
    requires WellFormed(stacks) && stacks.Dict? && !StackGiven(stack)
    ensures StackTable(stacks, stack).Err? <==>
              exists k :: k in stacks.obj.entries && StackRow(k, stacks.obj.entries[k]).Err?
  {
    var o := stacks.obj;
    assert WellFormedObj(o);
    assert StackTable(stacks, stack) == Rows(o, o.keys);
    CollectMeaning(RowResults(o, o.keys));
    if exists k :: k in o.entries && StackRow(k, o.entries[k]).Err? {
      var k :| k in o.entries && StackRow(k, o.entries[k]).Err?;
      var i :| 0 <= i < |o.keys| && o.keys[i] == k;
      assert !StackRow(o.keys[i], o.entries[o.keys[i]]).Ok?;
    }
    if StackTable(stacks, stack).Err? {
      var i :| 0 <= i < |o.keys| && !StackRow(o.keys[i], o.entries[o.keys[i]]).Ok?;
      assert o.keys[i] in o.entries;
    }
  }

  /** With the name of an existing stack the table has exactly one row, the
      one for that stack. */
  lemma StackTableOne(stacks: Value, stack: Option<string>)
    requires WellFormed(stacks) && stacks.Dict? && StackGiven(stack)
    requires stack.value in stacks.obj.entries
    ensures StackTable(stacks, stack) ==
              match StackRow(stack.value, stacks.obj.entries[stack.value])
              case Ok(row) => Ok([row])
              case Err(e) => Err(e)
  {
    var name := stack.value;
    var shown := Obj([name], map[name := stacks.obj.entries[name]]);
    assert SelectStacks(stacks, stack) == Ok(shown);
    var results := RowResults(shown, [name]);
    assert results == [StackRow(name, stacks.obj.entries[name])];
    assert results[..0] == [];
    assert StackTable(stacks, stack) == Collect(results);
    assert Collect(results[..0]) == Ok([]);
    match results[0]
    case Ok(row) => assert [] + [row] == [row];
    case Err(e) =>
  }

  /** With a name that is not a stack the table is not built and the
      "not found" error names it. */
  lemma StackTableNotFound(stacks: Value, stack: Option<string>)
    requires WellFormed(stacks) && stacks.Dict? && StackGiven(stack)
    requires stack.value !in stacks.obj.entries
    ensures StackTable(stacks, stack) == Err(BadParameter("Stack '" + stack.value + "' not found."))
  {
  }

  /** A mapping stack whose tools format gets a row: it carries the stack's
      name and the formatted tools, and its description is the stored one or,
      when there is none, the empty string. */
  lemma StackRowFields(name: string, payload: Obj)
    requires ToolLines(Get(payload, "tools", List([]))).Ok?
    ensures StackRow(name, Dict(payload)).Ok?
    ensures StackRow(name, Dict(payload)).value.stack == name
    ensures StackRow(name, Dict(payload)).value.tools == ToolLines(Get(payload, "tools", List([]))).value
    ensures "description" !in payload.entries ==> StackRow(name, Dict(payload)).value.description == Str("")
    ensures "description" in payload.entries ==>
              StackRow(name, Dict(payload)).value.description == payload.entries["description"]
  {
  }

  /** A stack gets no row exactly when it is not a mapping or its tools
      cannot be formatted. */
  lemma StackRowFails(name: string, payload: Value)
    ensures StackRow(name, payload).Err? <==>
              !payload.Dict? || ToolLines(Get(payload.obj, "tools", List([]))).Err?
  {
  }

  /** A stack without a `tools` key shows the placeholder. */
  lemma StackRowNoTools(name: string, payload: Obj)
    requires "tools" !in payload.entries
    ensures StackRow(name, Dict(payload)).Ok?
    ensures StackRow(name, Dict(payload)).value.tools == NoTools
  {
  }
}

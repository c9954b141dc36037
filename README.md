# BiucingCLI configuration merge and stack tables, in Dafny

BiucingCLI is a command-line assistant that shows curated catalogs of
toolchain "stacks" grouped by domain (frontend, mobile, desktop, backend,
testing, devops). It loads a built-in default catalog, deep-merges an
optional user override file into it, and renders a domain's stacks as a
table.

This project models the two pieces of that program that carry logic:

- `config.dfy` (module `Config`): the layered configuration of
  `src/biucingcli/config.py`. `deep_merge` is specified by the function
  `Merge`, a left-to-right walk over the override's keys like the Python
  loop. `MergeShape` gives its result in closed form, and one lemma per rule
  states precedence, key preservation, wholesale replacement of lists and
  scalars, the recursion into nested mappings and the empty-override no-op.
  Further lemmas show that merging keeps dictionaries well-formed, that the
  merge is idempotent, that merging a dictionary into itself or into `{}`
  yields it unchanged, and that the description-only override keeps the
  stack's tools. The class `ConfigDict` is the dictionary `deep_merge`
  updates in place. Its method `DeepMerge` runs the same loop and returns
  the object it changed, and it is proved to leave exactly `Merge` of the
  old contents. `LoadUserConfig` and `BuildConfig` model `load_user_config`
  and `build_config`, with the filesystem reduced to the `ConfigFile` value
  found at the resolved path. `MergeFrom` skips a listed key that has no
  entry. A parsed dictionary never has such a key, so the skip only makes
  the function total.
- `common.dfy` (module `Common`): the helpers of
  `src/biucingcli/commands/common.py`. It covers the domain lookup with its
  "Unknown domain" error, the optional filter to one stack with its "not
  found" error, and one row per stack with the defaults for missing fields.
  The `rich` table is the class `Table` (title, column headers, rows added
  one at a time). `_join_tool_lines` is the method `JoinToolLines`, whose
  loop is proved to compute the function `ToolLines`.
- `value.dfy` (module `Values`): the parsed YAML values both pieces work on.
  These are strings, integers, booleans, `None`, lists and dictionaries.
  A dictionary is the sequence of its keys in insertion order beside the
  map of its entries, because Python dictionaries keep insertion order and
  that order decides the order of the table rows. The module also holds the
  `Result` and `Failure` types for the program's errors.

Behaviour worth noting:

- The placeholder for a stack without tools is `No tools configured`.
- The placeholder is also used when the `tools` key is missing.
- The "stack not found" and "unknown domain" failures are `BadParameter`
  errors with the code's message text.
- `build_config` merges only when the override is non-empty. The lemma
  `SkippingEmptyOverrideIsMerge` shows that this guard never changes the
  result.

## Model

| member | source | states |
|---|---|---|
| `Values.Get` | src/biucingcli/config.py:19 | `d.get(key, default)`: the stored value when the key is present, the default otherwise |
| `Values.Put` | src/biucingcli/config.py:23 | `d[key] = v`: the entry is set; an existing key keeps its position, a new key is appended |
| `Values.PutWellFormed` | src/biucingcli/config.py:23 | assignment keeps every key listed exactly once |
| `Config.MergeFromKeys` | src/biucingcli/config.py:18-23 | from any point of the loop on, keys already present keep their order and new keys are appended in the override's order |
| `Config.MergeFromValues` | src/biucingcli/config.py:18-23 | from any point of the loop on, each visited key holds the merge rule's value and every other key keeps its value |
| `Config.MergeFromUntouched` | src/biucingcli/config.py:18-23 | a base key the rest of the loop does not visit is still present with its value |
| `Config.MergeFromAbsent` | src/biucingcli/config.py:18-23 | a key in neither the base nor the rest of the override is never added |
| `Config.MergeFromVisited` | src/biucingcli/config.py:18-23 | a key the rest of the loop visits ends up holding the merge rule's value for it |
| `Config.MergeAt` | src/biucingcli/config.py:19-23 | the value left under one key: a mapping stays a mapping and anything else is stored as given; merging into a nested dictionary keeps its keys in front, in order |
| `Config.Merge` | src/biucingcli/config.py:18-24 | the merge never drops a base key and never reorders the base keys; an empty override leaves the base as it is |
| `Config.MergeFrom` | src/biucingcli/config.py:18-23 | from any point of the loop on, the keys of the dictionary so far stay present and in front, in order |
| `Config.MergeShape` | src/biucingcli/config.py:18-23 | closed form of the whole merge: key order, key set, merged value at override keys, untouched value elsewhere |
| `Config.MergeKeySet` | src/biucingcli/config.py:18-23 | the merged key set is the union of the base keys and the override keys |
| `Config.MergeKeyOrder` | src/biucingcli/config.py:18-23 | base keys keep their position; keys new to the base follow in the override's order |
| `Config.MergeKeepsUntouched` | src/biucingcli/config.py:18-23 | a base key the override does not mention keeps its original value |
| `Config.MergeRecurses` | src/biucingcli/config.py:20-21 | a mapping over a dictionary yields the recursive merge of the two at that key |
| `Config.MergeReplacesNonMapping` | src/biucingcli/config.py:22-23 | a scalar or list override value replaces the base value exactly; lists are never merged element-wise |
| `Config.MergeReplacesNonDictBase` | src/biucingcli/config.py:19-23 | where the base has no dictionary (key missing, scalar or list), the override value is stored as is, even a mapping |
| `Config.MergeIntoEmpty` | src/biucingcli/config.py:18-23 | merging into an empty dictionary yields the override itself, keys in the override's order |
| `Config.MergeSelf` | src/biucingcli/config.py:18-23 | merging a dictionary into itself changes nothing, at any depth |
| `Config.MergeIdempotent` | src/biucingcli/config.py:18-23 | applying the same override twice gives the same result as applying it once |
| `Config.MergeWellFormed` | src/biucingcli/config.py:18-23 | the merged dictionary lists every key exactly once, at every depth |
| `Config.MergeSingle` | src/biucingcli/config.py:20-21 | `{k: b}` merged with `{k: o}` for mappings `b`, `o` is `{k: merge(b, o)}` |
| `Config.OverrideDescriptionKeepsTools` | src/biucingcli/config.py:16-24 | overriding only `frontend.stacks.react.description` sets that description and keeps the stack's tools and all other structure |
| `Config.ConfigDict.DeepMerge` | src/biucingcli/config.py:16-24 | the in-place loop leaves the dictionary equal to `Merge` of its old contents with the override, keeps it well-formed, and returns the same object |
| `Config.ConfigDict.MergeKey` | src/biucingcli/config.py:19-23 | one pass of the loop: the key is set to the merge rule's value, the rest of the dictionary is unchanged, and it stays well-formed |
| `Config.LoadUserConfig` | src/biucingcli/config.py:27-35 | missing file: `{}`, or in strict mode the "Config file not found: <path>" error for the given path or the default one; unparsable file: parse error; a parsed truthy value is returned as is, a parsed falsy one as `{}` |
| `Config.DefaultConfigPath` | src/biucingcli/config.py:13 | the default path is the home directory followed by `/.config/biucingcli/config.yaml` |
| `Values.Truthy` | src/biucingcli/config.py:35-42 | Python truth: a dictionary is true exactly when it has an entry, a list or string exactly when it is non-empty, `None` is false |
| `Config.BuildConfig` | src/biucingcli/config.py:38-44 | a fresh copy of the defaults; a load error is passed on; an empty override leaves the defaults untouched; a non-empty mapping gives `Merge(defaults, override)`; a non-empty non-mapping fails |
| `Config.SkippingEmptyOverrideIsMerge` | src/biucingcli/config.py:42-43 | a falsy loaded override is exactly `{}`, and merging `{}` would leave the defaults unchanged |
| `Common.GetDomainConfig` | src/biucingcli/commands/common.py:13-19 | succeeds exactly when the domain is a key, with `config[domain]`; otherwise the "Unknown domain '<domain>'." error |
| `Common.DomainStacks` | src/biucingcli/commands/desktop.py:21 | a domain's `stacks` entry, `{}` when absent; a domain entry that is not a mapping fails |
| `Common.Contains` | src/biucingcli/commands/common.py:24 | Python's `in`: key of a mapping, element of a list, substring of a string; any other value fails |
| `Common.StackGiven` | src/biucingcli/commands/common.py:23 | `if stack:`: `None` and `""` are false, any other name is true |
| `Common.SelectStacks` | src/biucingcli/commands/common.py:23-26 | no name (`None` or `""`): all stacks; a present name: the one-entry mapping for it; an absent name: "Stack '<name>' not found." |
| `Common.StackTableAll` | src/biucingcli/commands/common.py:33-35 | without a stack name there is one row per stack, in the stacks' order, each named after its stack and equal to that stack's own row |
| `Common.StackTableAllFails` | src/biucingcli/commands/common.py:33-35 | without a stack name the table fails exactly when some stack's row fails |
| `Values.CollectMeaning` | src/biucingcli/commands/common.py:33-35 | a loop that stops at its first error succeeds exactly when every step does, and then yields one value per step, in order |
| `Values.CollectFirstFailure` | src/biucingcli/commands/common.py:33-35 | such a loop fails with the error of its first failing step |
| `Common.StackTableOne` | src/biucingcli/commands/common.py:23-35 | with an existing stack name the table has exactly that stack's row |
| `Common.StackTableNotFound` | src/biucingcli/commands/common.py:24-26 | with a name that is not a stack the result is the "not found" error naming it and no table |
| `Common.StackRow` | src/biucingcli/commands/common.py:34-35 | a stack row fails only with the shape error (a stack or tool that is not a mapping) |
| `Common.StackRowFields` | src/biucingcli/commands/common.py:34-35 | a mapping stack whose tools format gets a row with its name, the formatted tools, and the stored description or `""` when there is none |
| `Common.StackRowFails` | src/biucingcli/commands/common.py:33-35 | a stack has no row exactly when it is not a mapping or its tools do not format |
| `Common.StackRowNoTools` | src/biucingcli/commands/common.py:34 | a stack without a `tools` key shows "No tools configured" |
| `Common.RenderStackTable` | src/biucingcli/commands/common.py:22-37 | the table titled "Stacks" with columns Stack, Description, Tools holds exactly the rows of `StackTable`, or the same error |
| `Common.AddStackRows` | src/biucingcli/commands/common.py:33-35 | the row loop appends exactly the rows of `Rows` to the table, or stops with the same failure; the columns are unchanged |
| `Common.MakeRow` | src/biucingcli/commands/common.py:34-35 | one pass of the row loop computes `StackRow`: the name, the description or `""`, and the tool text |
| `Common.RowResults` | src/biucingcli/commands/common.py:33-35 | one outcome per named stack, in order, each the row of that stack |
| `Common.RowsNamed` | src/biucingcli/commands/common.py:33-35 | the rows, when they all succeed, are one per named stack, in order, each named after its stack |
| `Common.StackTableShape` | src/biucingcli/commands/common.py:22-35 | a table is built only for a mapping of stacks; every row names an existing stack; with a stack name given there is exactly one row, for that stack |
| `Common.ListStacks` | src/biucingcli/commands/desktop.py:14-21 | unknown domain: that error; a domain that is not a mapping fails; otherwise, when `StackTable` succeeds, a fresh table titled "Stacks" with the headers Stack, Description and Tools and exactly `StackTable`'s rows, and `StackTable`'s error when it fails |
| `Common.Table.AddColumn` | src/biucingcli/commands/common.py:29-31 | appends one column header and leaves the rows alone |
| `Common.Table.AddRow` | src/biucingcli/commands/common.py:35 | appends one row and leaves the columns alone |
| `Common.Digits` | src/biucingcli/commands/common.py:46 | decimal text of a natural number: non-empty, digits only |
| `Common.DigitsRoundTrip` | src/biucingcli/commands/common.py:46 | the decimal text of a number reads back as that number |
| `Common.ScalarTextMeaning` | src/biucingcli/commands/common.py:46 | `str` of a string is the string; of an integer its decimal numeral, signed when negative, which reads back as the number; other scalars never print as nothing |
| `Common.ReprShape` | src/biucingcli/commands/common.py:46 | `repr` of a string is the string in single quotes; of a list, text in square brackets; of a mapping, text in braces; of another scalar, its `str`; never empty |
| `Common.ReprSeparators` | src/biucingcli/commands/common.py:46 | the rest of a list or a mapping prints as nothing exactly when nothing is left; each element after the first starts with `, ` |
| `Common.ShowText` | src/biucingcli/commands/common.py:46 | an f-string inserts a string as itself and a list or mapping as its `repr`; only the empty string inserts nothing |
| `Common.ToolBlockShape` | src/biucingcli/commands/common.py:43-46 | a tool's block starts with its name and ` [`; after the category and `]` comes a line break, and after it exactly the url |
| `Common.ToolItems` | src/biucingcli/commands/common.py:42 | what `for tool in tools` visits: the list's items, the mapping's keys in order as strings, or the string's characters as one-character strings; anything else is not iterable |
| `Common.Blocks` | src/biucingcli/commands/common.py:42-46 | one block per tool, block `i` rendered from tool `i` |
| `Common.JoinToolLines` | src/biucingcli/commands/common.py:40-47 | the loop computes `ToolLines` exactly, failures included |
| `Common.ToolLines` | src/biucingcli/commands/common.py:40-47 | formatting succeeds exactly when the tools are iterable and every item is a mapping, and fails only with the shape error |
| `Common.ToolLinesStartsWithFirst` | src/biucingcli/commands/common.py:46-47 | the text of a non-empty tool list starts with the first tool's block |
| `Common.ToolLinesOfStrings` | src/biucingcli/commands/common.py:42-43 | tools written as a non-empty mapping or string fail: their items are strings with no `get` |
| `Common.ToolLinesEmpty` | src/biucingcli/commands/common.py:47 | no tools gives exactly "No tools configured" |
| `Common.ToolLinesSingle` | src/biucingcli/commands/common.py:41-47 | one tool gives exactly its `name [category]\nurl` block |
| `Common.ToolLinesAppend` | src/biucingcli/commands/common.py:41-47 | each further tool adds a blank line and its block at the end: one block per tool, in input order |
| `Common.ToolLinesNotPlaceholder` | src/biucingcli/commands/common.py:47 | the text for a non-empty tool list is never the placeholder |
| `Common.ToolBlockDefaults` | src/biucingcli/commands/common.py:43-46 | a tool with no name, category or url renders as `unknown []` and an empty url line |
| `Common.JoinSplit` | src/biucingcli/commands/common.py:47 | joining splits at any part: the first `k` parts joined, the separator, the rest joined |
| `Common.Join` | src/biucingcli/commands/common.py:47 | the joined text starts with the first part |

## Left out

- Reading YAML: parsing the packaged default catalog and the user file is
  foreign library code and file I/O. The defaults are an input `Obj`. The
  user file is the `ConfigFile` value at the resolved path: missing,
  unparsable, or parsed to a `Value`.
- The home directory is an input (`home`) to `DefaultConfigPath`.
- Filesystem checks are not modelled: `_resolve_config_path`'s existence
  check for `--config`, and `export_config`'s overwrite check, directory
  creation and write.
- The Typer command wiring, the `domains`, `configure show` and
  `configure path` commands, and exit codes are framework glue and console
  output. `desktop.py` and `mobile.py` differ only in the domain name.
  `ListStacks` stands for both of their `list` and `suggest` commands,
  which behave identically.
- The `rich` console, column styles, `show_lines` and printing of the
  table are left out. The printed form of a description cell that is not
  a string is left to `rich`: the row keeps the description as a `Value`.
- Aliasing: `deep_merge` stores the override's nested mapping in `base` by
  reference, and it mutates nested dictionaries in place through that
  reference. The model uses value semantics. Nested dictionaries are
  values, and `ConfigDict.DeepMerge` merges into a temporary `ConfigDict`
  for a nested dictionary and stores the result back under its key.
  Sharing between the result and the override is therefore not modelled.
  Nor is sharing inside the loaded YAML: a dictionary written once under a
  YAML anchor and reused through an alias loads as one Python object, so an
  in-place nested merge into it changes it at every place it appears, while
  the model merges each occurrence on its own.
- The `KeyError` that `get_domain_config` would also turn into "Unknown
  domain" when the context holds no `config` entry is not modelled. The
  application callback always sets that entry.
- Floats, dates and other YAML scalar types are left out, and so are
  non-string mapping keys. `Value` has strings, integers, booleans, `None`,
  lists and string-keyed dictionaries.
- Common.Repr: renders a string inside a list or mapping as `'text'`.
  Python's choice of double quotes for text containing a single quote and
  its escaping of special characters are not modelled.
- Common.StackRow: `rich`'s `add_row` raises `NotRenderableError` for a
  description that is neither a string nor `None` (an integer, a boolean,
  a list or a mapping), so such a stack fails the command. The model keeps
  the description as a `Value` and builds the row.
- Config.DefaultConfigPath: `str(target_path)` in the "Config file not
  found" message prints the path as `pathlib` normalises it: repeated and
  trailing slashes are removed, so a home directory of `/` gives
  `/.config/...`, not `//.config/...`. The model concatenates the given
  text as it is.
- The exact Python exception types (`AttributeError`, `TypeError`) for
  values of an unexpected shape are merged into the one failure
  `WrongShape`. Among the shape failures of a table, the model does not
  say which stack or tool raised it.

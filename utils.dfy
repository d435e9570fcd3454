/** The MTL metadata reader of at_modules/utils.py: the nested-path accessors
    `get_by_path` / `set_by_path`, the line loop of `read_config_file` that
    turns group-delimited text into nested dicts, and the file-name filter
    that picks the metadata file out of the extracted archive. */
module Utils {
  import opened Wrappers
  import opened Strings

  /** A parsed metadata node: a raw text leaf or a nested dict. Leaves are
      always text: utils.py calls `json.loads` without importing `json`, so
      that call raises NameError, which the `except Exception` branch catches
      and stores the unparsed value string instead. */
  datatype Value = Str(text: string) | Dict(entries: map<string, Value>)

  // ---------------------------------------------------------------------
  // Nested-path access

  /** `reduce(operator.getitem, items, root)`: index successively by each key.
      A missing key raises KeyError; indexing a text leaf by a key raises
      TypeError. */
  function GetByPath(root: Value, items: seq<string>): (r: Result<Value>)
    ensures items == [] ==> r == Ok(root)
    ensures r.Err? ==> items != [] && (r.error == NotAMapping || r.error.KeyNotFound?)
    decreases |items|
  {
    if items == [] then Ok(root)
    else
      match root
      case Str(_) => Err(NotAMapping)
      case Dict(m) =>
        if items[0] in m then GetByPath(m[items[0]], items[1..]) else Err(KeyNotFound(items[0]))
  }

  /** The path names a dict (a group) in `root`. */
  predicate IsGroupAt(root: Value, path: seq<string>) {
    GetByPath(root, path).Ok? && GetByPath(root, path).value.Dict?
  }

  /** Folding over `p + q` is folding over `p` and then over `q`. */
  lemma {:induction false} GetByPathAppend(root: Value, p: seq<string>, q: seq<string>)
    ensures GetByPath(root, p + q) ==
            (match GetByPath(root, p)
             case Ok(v) => GetByPath(v, q)
             case Err(e) => Err(e))
    decreases |p|
  {
    if p == [] {
      assert p + q == q;
    } else {
      assert (p + q)[0] == p[0] && (p + q)[1..] == p[1..] + q;
      match root
      case Str(_) =>
      case Dict(m) =>
        if p[0] in m {
          GetByPathAppend(m[p[0]], p[1..], q);
        }
    }
  }

  /** Every prefix of a path that reaches a value names a group. */
  lemma ParentIsGroup(root: Value, p: seq<string>)
    requires p != [] && GetByPath(root, p).Ok?
    ensures IsGroupAt(root, p[..|p| - 1])
    ensures p[|p| - 1] in GetByPath(root, p[..|p| - 1]).value.entries
  {
    var n := |p|;
    assert p == p[..n - 1] + [p[n - 1]];
    GetByPathAppend(root, p[..n - 1], [p[n - 1]]);
  }

  /** `get_by_path(root, items[:-1])[items[-1]] = value`, with the dicts as
      values: the result is the new root. An empty key list fails on
      `items[-1]`; the walk to the parent fails as `GetByPath` does; a text
      parent refuses item assignment. */
  function SetByPath(root: Value, items: seq<string>, v: Value): (r: Result<Value>)
    ensures r.Ok? ==> r.value.Dict?
    decreases |items|
  {
    if items == [] then Err(EmptyPath)
    else
      match root
      case Str(_) => Err(NotAMapping)
      case Dict(m) =>
        if |items| == 1 then Ok(Dict(m[items[0] := v]))
        else if items[0] !in m then Err(KeyNotFound(items[0]))
        else
          var child :- SetByPath(m[items[0]], items[1..], v);
          Ok(Dict(m[items[0] := child]))
  }

  /** Setting succeeds exactly when the key list is non-empty and all but its
      last key lead to an existing group. */
  lemma {:induction false} SetByPathSucceeds(root: Value, items: seq<string>, v: Value)
    ensures SetByPath(root, items, v).Ok? <==> items != [] && IsGroupAt(root, items[..|items| - 1])
    decreases |items|
  {
    if items != [] && root.Dict? && |items| > 1 && items[0] in root.entries {
      SetByPathSucceeds(root.entries[items[0]], items[1..], v);
      assert items[1..][..|items| - 2] == items[..|items| - 1][1..];
    }
  }

  /** After a successful set, the parent group holds `v` under the last key
      and every other key of the parent keeps its old value. */
  lemma {:induction false} SetThenGetParent(root: Value, items: seq<string>, v: Value)
    requires items != [] && IsGroupAt(root, items[..|items| - 1])
    ensures SetByPath(root, items, v).Ok?
    ensures GetByPath(SetByPath(root, items, v).value, items[..|items| - 1]) ==
            Ok(Dict(GetByPath(root, items[..|items| - 1]).value.entries[items[|items| - 1] := v]))
    decreases |items|
  {
    SetByPathSucceeds(root, items, v);
    if |items| > 1 {
      var m := root.entries;
      assert items[..|items| - 1][0] == items[0];
      assert items[..|items| - 1][1..] == items[1..][..|items| - 2];
      SetThenGetParent(m[items[0]], items[1..], v);
    }
  }

  /** Get after set returns what was set. */
  lemma SetThenGet(root: Value, items: seq<string>, v: Value)
    requires items != [] && IsGroupAt(root, items[..|items| - 1])
    ensures SetByPath(root, items, v).Ok?
    ensures GetByPath(SetByPath(root, items, v).value, items) == Ok(v)
  {
    SetThenGetParent(root, items, v);
    var n := |items|;
    assert items == items[..n - 1] + [items[n - 1]];
    GetByPathAppend(SetByPath(root, items, v).value, items[..n - 1], [items[n - 1]]);
  }

  predicate IsPrefix(p: seq<string>, q: seq<string>) {
    |p| <= |q| && q[..|p|] == p
  }

  /** A set touches nothing off its own path: every path that is neither a
      prefix nor an extension of `items` reads the same before and after. */
  lemma {:induction false} SetLeavesOtherPaths(root: Value, items: seq<string>, v: Value, q: seq<string>)
    requires SetByPath(root, items, v).Ok?
    requires !IsPrefix(items, q) && !IsPrefix(q, items)
    ensures GetByPath(SetByPath(root, items, v).value, q) == GetByPath(root, q)
    decreases |items|
  {
    var m := root.entries;
    assert q != [] && items != [];
    if q[0] == items[0] {
      SetLeavesOtherPaths(m[items[0]], items[1..], v, q[1..]);
    }
  }

  // ---------------------------------------------------------------------
  // The line loop of read_config_file

  /** The loop's variables: the stack of open group names and the dict built so far. */
  datatype ParserState = ParserState(groupPath: seq<string>, config: Value)

  const Initial := ParserState([], Dict(map[]))

  /** The stack names an existing group; the loop keeps this true. */
  predicate Consistent(st: ParserState) {
    IsGroupAt(st.config, st.groupPath)
  }

  /** The failures a line itself can cause. */
  predicate IsLineError(e: Error) {
    e == MissingGroupName || e == EmptyGroupStack || e == MalformedLine
  }

  /** One iteration of `for line in f`. The tests are prefix tests in this
      order, so a line such as `GROUPING = 1` opens a group and any line
      starting with `END` that is not `END_GROUP` is skipped. */
  function Step(st: ParserState, rawLine: string): (r: Result<ParserState>)
    ensures StripLine(rawLine) == [] ==> r == Err(MalformedLine)
  {
    Classify(st, StripLine(rawLine))
  }

  /** The body of the loop once the line is stripped. */
  function Classify(st: ParserState, line: string): (r: Result<ParserState>)
    ensures r.Ok? ==>
      || r.value.groupPath == st.groupPath
      || (|st.groupPath| > 0 && r.value.groupPath == st.groupPath[..|st.groupPath| - 1])
      || (|r.value.groupPath| == |st.groupPath| + 1 && r.value.groupPath[..|st.groupPath|] == st.groupPath)
  {
    if StartsWith(line, "GROUP") then
      var parts := Split(line, " = ");
      if |parts| < 2 then Err(MissingGroupName)
      else
        var path := st.groupPath + [parts[1]];
        var config :- SetByPath(st.config, path, Dict(map[]));
        Ok(ParserState(path, config))
    else if StartsWith(line, "END_GROUP") then
      if st.groupPath == [] then Err(EmptyGroupStack)
      else Ok(st.(groupPath := st.groupPath[..|st.groupPath| - 1]))
    else if StartsWith(line, "END") then
      Ok(st)
    else
      var parts := Split(line, " = ");
      if |parts| != 2 then Err(MalformedLine)
      else
        var config :- SetByPath(st.config, st.groupPath + [parts[0]], Str(parts[1]));
        Ok(st.(config := config))
  }

  /** The whole loop: the lines in order, stopping at the first failure. */
  function Parse(st: ParserState, lines: seq<string>): (r: Result<ParserState>)
    ensures r.Ok? ==> |r.value.groupPath| <= |st.groupPath| + |lines|
    decreases |lines|
  {
    if lines == [] then Ok(st)
    else
      var next :- Step(st, lines[0]);
      Parse(next, lines[1..])
  }

  /** Blanks before a line and whitespace after it do not change how it is
      read. */
  lemma StepIgnoresPadding(st: ParserState, lead: string, core: string, trail: string)
    requires forall i :: 0 <= i < |lead| ==> lead[i] == ' '
    requires forall i :: 0 <= i < |trail| ==> IsSpace(trail[i])
    requires core == [] || (core[0] != ' ' && !IsSpace(core[|core| - 1]))
    ensures Step(st, lead + core + trail) == Step(st, core)
  {
    StripLinePadding(lead, core, trail);
    StripLineKeepsCore(core);
    assert Step(st, lead + core + trail) == Classify(st, core);
  }

  /** Only blanks are stripped in front: a tab-indented `END` is not
      recognised and fails as a malformed key/value line. */
  lemma TabIndentedEndFails(st: ParserState)
    ensures Step(st, "\tEND") == Err(MalformedLine)
  {
    var line := StripLine("\tEND");
    assert LStripBlanks("\tEND") == "\tEND";
    assert RStrip("\tEND") == "\tEND";
    assert !StartsWith(line, "GROUP") && !StartsWith(line, "END_GROUP") && !StartsWith(line, "END");
    assert Find(line, " = ") == None by {
      assert !OccursAt(line, " = ", 0) && !OccursAt(line, " = ", 1);
    }
  }

  /** A `GROUP = X` line pushes X and installs a fresh empty group at the new
      stack path, replacing whatever the enclosing group held under X; the
      enclosing group's other keys are untouched. Without ` = ` it fails. */
  lemma StepGroup(st: ParserState, rawLine: string)
    requires Consistent(st)
    requires StartsWith(StripLine(rawLine), "GROUP")
    ensures |Split(StripLine(rawLine), " = ")| < 2 ==> Step(st, rawLine) == Err(MissingGroupName)
    ensures |Split(StripLine(rawLine), " = ")| >= 2 ==>
      var name := Split(StripLine(rawLine), " = ")[1];
      && Step(st, rawLine).Ok?
      && Step(st, rawLine).value.groupPath == st.groupPath + [name]
      && GetByPath(Step(st, rawLine).value.config, st.groupPath + [name]) == Ok(Dict(map[]))
      && GetByPath(Step(st, rawLine).value.config, st.groupPath) ==
         Ok(Dict(GetByPath(st.config, st.groupPath).value.entries[name := Dict(map[])]))
  {
    var parts := Split(StripLine(rawLine), " = ");
    if |parts| >= 2 {
      var path := st.groupPath + [parts[1]];
      assert path[..|path| - 1] == st.groupPath;
      SetThenGetParent(st.config, path, Dict(map[]));
      SetThenGet(st.config, path, Dict(map[]));
    }
  }

  /** An `END_GROUP` line pops exactly the last group name and leaves the
      dict alone; on an empty stack it fails. */
  lemma StepEndGroup(st: ParserState, rawLine: string)
    requires StartsWith(StripLine(rawLine), "END_GROUP")
    ensures st.groupPath == [] ==> Step(st, rawLine) == Err(EmptyGroupStack)
    ensures st.groupPath != [] ==>
      && Step(st, rawLine).Ok?
      && Step(st, rawLine).value.config == st.config
      && Step(st, rawLine).value.groupPath + [st.groupPath[|st.groupPath| - 1]] == st.groupPath
  {
    assert !StartsWith(StripLine(rawLine), "GROUP") by {
      assert StripLine(rawLine)[0] == 'E';
    }
  }

  /** A line starting with `END` but not `END_GROUP` changes nothing. */
  lemma StepEnd(st: ParserState, rawLine: string)
    requires StartsWith(StripLine(rawLine), "END") && !StartsWith(StripLine(rawLine), "END_GROUP")
    ensures Step(st, rawLine) == Ok(st)
  {
    assert !StartsWith(StripLine(rawLine), "GROUP") by {
      assert StripLine(rawLine)[0] == 'E';
    }
  }

  /** Any other line must split on ` = ` into exactly two parts, KEY and
      VALUE, with the line equal to `KEY = VALUE`; the raw VALUE text is
      stored under KEY in the innermost open group and the stack is kept. */
  lemma StepKeyValue(st: ParserState, rawLine: string)
    requires Consistent(st)
    requires !StartsWith(StripLine(rawLine), "GROUP") && !StartsWith(StripLine(rawLine), "END")
    ensures Step(st, rawLine).Ok? <==> |Split(StripLine(rawLine), " = ")| == 2
    ensures Step(st, rawLine).Err? ==> Step(st, rawLine).error == MalformedLine
    ensures Step(st, rawLine).Ok? ==>
      var parts := Split(StripLine(rawLine), " = ");
      && StripLine(rawLine) == parts[0] + " = " + parts[1]
      && Step(st, rawLine).value.groupPath == st.groupPath
      && GetByPath(Step(st, rawLine).value.config, st.groupPath + [parts[0]]) == Ok(Str(parts[1]))
      && GetByPath(Step(st, rawLine).value.config, st.groupPath) ==
         Ok(Dict(GetByPath(st.config, st.groupPath).value.entries[parts[0] := Str(parts[1])]))
  {
    var line := StripLine(rawLine);
    StartsWithShorter(line, "END_GROUP", "END");
    var parts := Split(line, " = ");
    if |parts| == 2 {
      SplitInTwo(line, " = ");
      var path := st.groupPath + [parts[0]];
      assert path[..|path| - 1] == st.groupPath;
      SetThenGet(st.config, path, Str(parts[1]));
      SetThenGetParent(st.config, path, Str(parts[1]));
    }
  }

  /** One step from a consistent state stays consistent, and can fail only
      because of the line itself, never with a KeyError or TypeError. */
  lemma StepConsistent(st: ParserState, rawLine: string)
    requires Consistent(st)
    ensures Step(st, rawLine).Ok? ==> Consistent(Step(st, rawLine).value)
    ensures Step(st, rawLine).Err? ==> IsLineError(Step(st, rawLine).error)
  {
    var line := StripLine(rawLine);
    var parts := Split(line, " = ");
    if StartsWith(line, "GROUP") {
      StepGroup(st, rawLine);
    } else if StartsWith(line, "END_GROUP") {
      if st.groupPath != [] {
        ParentIsGroup(st.config, st.groupPath);
      }
    } else if StartsWith(line, "END") {
    } else {
      StepKeyValue(st, rawLine);
      if |parts| == 2 {
        var path := st.groupPath + [parts[0]];
        assert path[..|path| - 1] == st.groupPath;
        SetThenGetParent(st.config, path, Str(parts[1]));
      }
    }
  }

  /** The whole loop keeps the stack pointing at a group and fails only on a
      malformed line or an unbalanced END_GROUP. */
  lemma {:induction false} ParseConsistent(st: ParserState, lines: seq<string>)
    requires Consistent(st)
    ensures Parse(st, lines).Ok? ==> Consistent(Parse(st, lines).value)
    ensures Parse(st, lines).Err? ==> IsLineError(Parse(st, lines).error)
    decreases |lines|
  {
    if lines != [] {
      StepConsistent(st, lines[0]);
      if Step(st, lines[0]).Ok? {
        ParseConsistent(Step(st, lines[0]).value, lines[1..]);
      }
    }
  }

  // ---------------------------------------------------------------------
  // Locating the metadata file and reading it

  /** `MTL.txt` at the very end, with a newline-free prefix; the `.` of the
      pattern matches any character but a newline. */
  predicate MatchesMtlTail(s: string) {
    && |s| >= 7
    && s[|s| - 7..|s| - 4] == "MTL"
    && s[|s| - 4] != '\n'
    && s[|s| - 3..] == "txt"
    && forall i :: 0 <= i < |s| - 7 ==> s[i] != '\n'
  }

  /** `re.compile("^(.*?)MTL.txt$").match(name)`: `$` also matches just
      before one final newline. */
  predicate IsMtlName(name: string): (b: bool)
    ensures b ==> |name| >= 7 && (name[|name| - 3..] == "txt" || name[|name| - 4..] == "txt\n")
  {
    || MatchesMtlTail(name)
    || (|name| > 0 && name[|name| - 1] == '\n' && MatchesMtlTail(name[..|name| - 1]))
  }

  /** The pattern read as a regular expression: a line-free prefix, `MTL`,
      any one character but newline, and `txt`, optionally followed by the
      one newline `$` lets through. */
  lemma MtlNamePattern(prefix: string, c: char)
    ensures IsMtlName(prefix + "MTL" + [c] + "txt") <==> ('\n' !in prefix && c != '\n')
    ensures IsMtlName(prefix + "MTL" + [c] + "txt" + "\n") <==> ('\n' !in prefix && c != '\n')
  {
    var s := prefix + "MTL" + [c] + "txt";
    MtlTailOf(prefix, c);
    assert s[|s| - 1] == 't';
    var t := s + "\n";
    assert t[..|t| - 1] == s;
    assert !MatchesMtlTail(t) by {
      assert t[|t| - 3..] != "txt" by {
        assert t[|t| - 1] == '\n';
      }
    }
  }

  /** `prefix + "MTL" + [c] + "txt"` passes the tail test exactly when the
      prefix and `c` are free of newlines. */
  lemma MtlTailOf(prefix: string, c: char)
    ensures MatchesMtlTail(prefix + "MTL" + [c] + "txt") <==> ('\n' !in prefix && c != '\n')
  {
    var s := prefix + "MTL" + [c] + "txt";
    var n := |s|;
    assert s[n - 7..n - 4] == "MTL" && s[n - 4] == c && s[n - 3..] == "txt";
    assert forall i :: 0 <= i < n - 7 ==> s[i] == prefix[i];
    if '\n' in prefix {
      var k :| 0 <= k < |prefix| && prefix[k] == '\n';
      assert s[k] == '\n';
    }
  }

  /** Conversely, every name the pattern accepts has that form. */
  lemma MtlNameShape(name: string)
    requires IsMtlName(name)
    ensures var core := if MatchesMtlTail(name) then name else name[..|name| - 1];
      var prefix := core[..|core| - 7];
      && (name == core || name == core + "\n")
      && core == prefix + "MTL" + [core[|core| - 4]] + "txt"
      && '\n' !in prefix && core[|core| - 4] != '\n'
  {
    var core := if MatchesMtlTail(name) then name else name[..|name| - 1];
    var n := |core|;
    assert MatchesMtlTail(core);
    if !MatchesMtlTail(name) {
      assert name == core + "\n";
    }
    assert core == core[..n - 7] + core[n - 7..n - 4] + [core[n - 4]] + core[n - 3..];
  }

  /** `list(filter(r.match, os.listdir(tile_path)))[0]`, or ValueError
      when nothing matches. */
  function FindMtlFile(entries: seq<string>): (r: Result<string>)
    ensures r.Err? <==> forall k :: 0 <= k < |entries| ==> !IsMtlName(entries[k])
    ensures r.Err? ==> r.error == MissingConfigFile
    ensures r.Ok? ==> exists k :: 0 <= k < |entries| && entries[k] == r.value && IsMtlName(r.value)
                                  && forall j :: 0 <= j < k ==> !IsMtlName(entries[j])
    decreases |entries|
  {
    if entries == [] then Err(MissingConfigFile)
    else if IsMtlName(entries[0]) then Ok(entries[0])
    else
      var r := FindMtlFile(entries[1..]);
      assert r.Ok? ==> exists k :: 1 <= k < |entries| && entries[k] == r.value && IsMtlName(r.value)
                                   && forall j :: 0 <= j < k ==> !IsMtlName(entries[j]) by {
        if r.Ok? {
          var k :| 0 <= k < |entries| - 1 && entries[1..][k] == r.value && IsMtlName(r.value)
                   && forall j :: 0 <= j < k ==> !IsMtlName(entries[1..][j]);
          assert entries[k + 1] == r.value;
          assert forall j :: 1 <= j < k + 1 ==> entries[j] == entries[1..][j - 1];
        }
      }
      r
  }

  /** What read_config_file returns for a directory listing and the text of
      its files (the archive extraction and the file read are parameters). */
  function ReadConfig(entries: seq<string>, readFile: string -> seq<string>): (r: Result<Value>)
    ensures r.Ok? ==> r.value.Dict?
    ensures r == Err(MissingConfigFile) <==> forall k :: 0 <= k < |entries| ==> !IsMtlName(entries[k])
    ensures r.Err? ==> r.error == MissingConfigFile || IsLineError(r.error)
  {
    var name :- FindMtlFile(entries);
    ParseConsistent(Initial, readFile(name));
    var st :- Parse(Initial, readFile(name));
    Ok(st.config)
  }

  /** The body of read_config_file after the archive is extracted: pick the
      metadata file, then run the line loop with a group stack and a dict. */
  method ReadConfigFile(entries: seq<string>, readFile: string -> seq<string>) returns (r: Result<Value>)
    ensures r == ReadConfig(entries, readFile)
    ensures r.Ok? ==> r.value.Dict?
    ensures r.Err? ==> r.error == MissingConfigFile || IsLineError(r.error)
  {
    var found := FindMtlFile(entries);
    if found.Err? {
      return Err(found.error);
    }
    var lines := readFile(found.value);
    ParseConsistent(Initial, lines);
    var groupPath: seq<string> := [];
    var config := Dict(map[]);
    for i := 0 to |lines|
      invariant Parse(Initial, lines) == Parse(ParserState(groupPath, config), lines[i..])
    {
      assert lines[i..][0] == lines[i] && lines[i..][1..] == lines[i + 1..];
      var line := StripLine(lines[i]);
      if StartsWith(line, "GROUP") {
        var parts := Split(line, " = ");
        if |parts| < 2 {
          return Err(MissingGroupName);
        }
        groupPath := groupPath + [parts[1]];
        var updated := SetByPath(config, groupPath, Dict(map[]));
        if updated.Err? {
          return Err(updated.error);
        }
        config := updated.value;
      } else if StartsWith(line, "END_GROUP") {
        if groupPath == [] {
          return Err(EmptyGroupStack);
        }
        groupPath := groupPath[..|groupPath| - 1];
      } else if StartsWith(line, "END") {
        continue;
      } else {
        var parts := Split(line, " = ");
        if |parts| != 2 {
          return Err(MalformedLine);
        }
        var updated := SetByPath(config, groupPath + [parts[0]], Str(parts[1]));
        if updated.Err? {
          return Err(updated.error);
        }
        config := updated.value;
      }
    }
    r := Ok(config);
  }
}

/** What the bash renderer's text does when the shell sources it, stated in
    terms of the shell fragment's semantics. */
module BashSemantics {
  import opened Results
  import opened Strings
  import opened Postscripts
  import opened ShellFragment
  import opened BashScript
  import Semver

  /** The value `"${HOME}/.notion"` takes in a session. */
  function NotionHome(env: Env): string
  {
    Lookup(env, "HOME") + "/.notion"
  }

  /** The intents whose text stays inside the fragment: paths without a
      single quote, tool names made of name characters. */
  predicate WellFormed(p: Postscript)
  {
    match p
    case Activate(path) => '\'' !in path
    case Deactivate(path) => '\'' !in path
    case ToolVersion(tool, _) => forall k :: 0 <= k < |tool| ==> IsNameChar(tool[k])
  }

  /** The variable names the renderer uses. */
  lemma RenderedNames()
    ensures IsName("PATH") && IsName("HOME") && IsName("NOTION_HOME")
  {
  }

  /** Where the pieces of `export PATH='path'` and its newline sit. */
  lemma ExportPathLayout(s: string, i: nat, path: string)
    requires HasAt(s, i, ExportPath(path))
    ensures ExportKeywordAt(s, i) && HasAt(s, i + 7, "PATH") && s[i + 11] == '='
    ensures i + 14 + |path| < |s| && s[i + 12] == '\'' && HasAt(s, i + 13, path)
    ensures s[i + 13 + |path|] == '\'' && s[i + 14 + |path|] == '\n'
  {
    assert ExportPath(path) == "export " + "PATH" + "=" + "'" + path + "'" + "\n";
    HasAtSplit(s, i, "export " + "PATH" + "=" + "'" + path + "'", "\n");
    HasAtSplit(s, i, "export " + "PATH" + "=" + "'" + path, "'");
    HasAtSplit(s, i, "export " + "PATH" + "=" + "'", path);
    HasAtSplit(s, i, "export " + "PATH" + "=", "'");
    ExportLayout(s, i, "PATH");
    HasAtChar(s, i + 12, "'", 0);
    HasAtChar(s, i + 13 + |path|, "'", 0);
    HasAtChar(s, i + 14 + |path|, "\n", 0);
  }

  lemma ExportPathStep(s: string, i: nat, path: string, env: Env)
    requires HasAt(s, i, ExportPath(path))
    requires '\'' !in path
    ensures Step(s, i, env) == Ok((env["PATH" := path], i + |ExportPath(path)|))
  {
    ExportPathLayout(s, i, path);
    ExportQuotedPathStep(s, i, path, env);
    assert |ExportPath(path)| == 15 + |path|;
  }

  /** The PATH statement laid out character by character, as `ExportPathLayout` gives it. */
  lemma ExportQuotedPathStep(s: string, i: nat, path: string, env: Env)
    requires i + 14 + |path| < |s|
    requires ExportKeywordAt(s, i) && HasAt(s, i + 7, "PATH") && s[i + 11] == '='
    requires s[i + 12] == '\'' && HasAt(s, i + 13, path)
    requires s[i + 13 + |path|] == '\'' && s[i + 14 + |path|] == '\n'
    requires '\'' !in path
    ensures Step(s, i, env) == Ok((env["PATH" := path], i + 15 + |path|))
  {
    var e := i + 14 + |path|;
    ReadEnd(s, e, env);
    ReadSingleQuoted(s, i + 12, path, env);
    assert path + [] == path;
    RenderedNames();
    ExportStep(s, i, "PATH", env, path, e);
  }

  /** The word `"${HOME}/.notion"` and its newline, character by character: what
      `NotionHomeLayout` derives from the literal, so that reading the word needs no literal. */
  predicate NotionHomeWordAt(s: string, w: nat)
  {
    w + 17 < |s| && s[w] == '"' && s[w + 1] == '$' && s[w + 2] == '{' && HasAt(s, w + 3, "HOME") &&
    s[w + 7] == '}' && HasAt(s, w + 8, "/.notion") && s[w + 16] == '"' && s[w + 17] == '\n' &&
    forall k :: w + 1 <= k < w + 16 ==> s[k] != '"'
  }

  lemma NotionHomeLayout(s: string, w: nat)
    requires HasAt(s, w, "\"${HOME}/.notion\"\n")
    ensures NotionHomeWordAt(s, w)
  {
    NotionHomeChars(s, w);
    NotionHomePieces(s, w);
  }

  lemma NotionHomeChars(s: string, w: nat)
    requires HasAt(s, w, "\"${HOME}/.notion\"\n")
    ensures w + 17 < |s| && s[w] == '"' && s[w + 1] == '$' && s[w + 2] == '{'
    ensures s[w + 7] == '}' && s[w + 16] == '"' && s[w + 17] == '\n'
    ensures forall k :: w + 1 <= k < w + 16 ==> s[k] != '"'
  {
    var word := "\"${HOME}/.notion\"\n";
    forall k | 0 <= k < 18 ensures s[w + k] == word[k] {
      HasAtChar(s, w, word, k);
    }
  }

  lemma NotionHomePieces(s: string, w: nat)
    requires HasAt(s, w, "\"${HOME}/.notion\"\n")
    ensures HasAt(s, w + 3, "HOME") && HasAt(s, w + 8, "/.notion")
  {
    assert "\"${HOME}/.notion\"\n" == "\"${" + "HOME" + "}" + "/.notion" + "\"\n";
    HasAtSplit(s, w, "\"${" + "HOME" + "}" + "/.notion", "\"\n");
    HasAtSplit(s, w, "\"${" + "HOME" + "}", "/.notion");
    HasAtSplit(s, w, "\"${" + "HOME", "}");
    HasAtSplit(s, w, "\"${", "HOME");
  }

  lemma ReadNotionHome(s: string, w: nat, env: Env)
    requires NotionHomeWordAt(s, w)
    ensures ReadWord(s, w, env) == Ok((NotionHome(env), w + 17))
  {
    forall k | w + 8 <= k < w + 16 ensures s[k] != '$' && s[k] != '\\' && s[k] != '`' {
      HasAtChar(s, w + 8, "/.notion", k - w - 8);
    }
    ExpandLiteral(s, w + 8, w + 16, env);
    RenderedNames();
    ExpandVariable(s, w + 1, w + 16, "HOME", env);
    assert IndexFrom(s, w + 1, '"') == w + 16;
    ReadDoubleQuoted(s, w, w + 16, env, NotionHome(env));
    ReadEnd(s, w + 17, env);
    assert NotionHome(env) + [] == NotionHome(env);
  }

  lemma ExportHomeStep(s: string, i: nat, env: Env)
    requires HasAt(s, i, ExportHome)
    ensures Step(s, i, env) == Ok((env["NOTION_HOME" := NotionHome(env)], i + |ExportHome|))
  {
    assert ExportHome == "export " + "NOTION_HOME" + "=" + "\"${HOME}/.notion\"\n";
    HasAtSplit(s, i, "export " + "NOTION_HOME" + "=", "\"${HOME}/.notion\"\n");
    ExportLayout(s, i, "NOTION_HOME");
    NotionHomeLayout(s, i + 19);
    ReadNotionHome(s, i + 19, env);
    RenderedNames();
    ExportStep(s, i, "NOTION_HOME", env, NotionHome(env), i + 36);
  }

  lemma UnsetHomeStep(s: string, i: nat, env: Env)
    requires HasAt(s, i, UnsetHome)
    ensures Step(s, i, env) == Ok((env - {"NOTION_HOME"}, i + |UnsetHome|))
  {
    assert UnsetHome == "unset " + "NOTION_HOME" + "\n";
    UnsetLayout(s, i, "NOTION_HOME");
    RenderedNames();
    UnsetStep(s, i, "NOTION_HOME", env);
  }

  /** The version variable of a tool named with name characters is a variable name. */
  lemma VersionVariableIsName(tool: string)
    requires forall k :: 0 <= k < |tool| ==> IsNameChar(tool[k])
    ensures IsName(VersionVariable(tool))
  {
    var v := VersionVariable(tool);
    assert v == "NOTION_" + Upper(tool) + "_VERSION";
    forall k | 0 <= k < |v| ensures IsNameChar(v[k]) {
      if 7 <= k < 7 + |tool| {
        assert v[k] == UpperChar(tool[k - 7]);
      }
    }
  }

  lemma ExportVersionStep(s: string, i: nat, tool: string, version: Semver.Version, env: Env)
    requires HasAt(s, i, Compile(ToolVersion(tool, version)))
    requires forall k :: 0 <= k < |tool| ==> IsNameChar(tool[k])
    ensures Step(s, i, env) == Ok((env[VersionVariable(tool) := Semver.ToString(version)],
                                   i + |Compile(ToolVersion(tool, version))|))
  {
    var name, value := VersionVariable(tool), Semver.ToString(version);
    HasAtSplit(s, i, "export " + name + "=" + value, "\n");
    HasAtSplit(s, i, "export " + name + "=", value);
    var w := i + 8 + |name|;
    var e := w + |value|;
    HasAtChar(s, e, "\n", 0);
    forall k | w <= k < e ensures IsPlain(s[k]) {
      HasAtChar(s, w, value, k - w);
    }
    VersionVariableIsName(tool);
    ExportLayout(s, i, name);
    ExportPlainStep(s, i, name, value, env);
  }

  /** An export of a word of plain characters, laid out character by character. */
  lemma ExportPlainStep(s: string, i: nat, name: string, value: string, env: Env)
    requires i + 8 + |name| + |value| < |s|
    requires ExportKeywordAt(s, i) && HasAt(s, i + 7, name) && IsName(name) && s[i + 7 + |name|] == '='
    requires HasAt(s, i + 8 + |name|, value) && s[i + 8 + |name| + |value|] == '\n'
    requires forall k :: i + 8 + |name| <= k < i + 8 + |name| + |value| ==> IsPlain(s[k])
    ensures Step(s, i, env) == Ok((env[name := value], i + 9 + |name| + |value|))
  {
    var w := i + 8 + |name|;
    var e := w + |value|;
    ReadEnd(s, e, env);
    ReadPlain(s, w, e, env);
    assert s[w..e] == value;
    assert value + [] == value;
    ExportStep(s, i, name, env, value, e);
  }

  /** Sourcing an activation sets PATH to the path and NOTION_HOME to the
      session's own `${HOME}/.notion`; nothing else changes. */
  lemma SourceActivate(path: string, env: Env)
    requires '\'' !in path
    ensures Source(Compile(Activate(path)), env)
         == Ok(env["PATH" := path]["NOTION_HOME" := NotionHome(env)])
  {
    var text := Compile(Activate(path));
    assert text == ExportPath(path) + ExportHome;
    HasAtParts(ExportPath(path), ExportHome);
    var env1 := env["PATH" := path];
    ExportPathStep(text, 0, path, env);
    RunStep(text, 0, env, env1, |ExportPath(path)|);
    ExportHomeStep(text, |ExportPath(path)|, env1);
    assert NotionHome(env1) == NotionHome(env);
    RunStep(text, |ExportPath(path)|, env1, env1["NOTION_HOME" := NotionHome(env)], |text|);
    RunEnd(text, env1["NOTION_HOME" := NotionHome(env)]);
  }

  /** Sourcing a deactivation sets PATH to the path and unsets NOTION_HOME;
      nothing else changes. */
  lemma SourceDeactivate(path: string, env: Env)
    requires '\'' !in path
    ensures Source(Compile(Deactivate(path)), env) == Ok(env["PATH" := path] - {"NOTION_HOME"})
  {
    var text := Compile(Deactivate(path));
    assert text == ExportPath(path) + UnsetHome;
    HasAtParts(ExportPath(path), UnsetHome);
    var env1 := env["PATH" := path];
    ExportPathStep(text, 0, path, env);
    RunStep(text, 0, env, env1, |ExportPath(path)|);
    UnsetHomeStep(text, |ExportPath(path)|, env1);
    RunStep(text, |ExportPath(path)|, env1, env1 - {"NOTION_HOME"}, |text|);
    RunEnd(text, env1 - {"NOTION_HOME"});
  }

  /** Sourcing a tool version sets that tool's variable to the version's
      canonical text, and nothing else. */
  lemma SourceToolVersion(tool: string, version: Semver.Version, env: Env)
    requires forall k :: 0 <= k < |tool| ==> IsNameChar(tool[k])
    ensures Source(Compile(ToolVersion(tool, version)), env)
         == Ok(env[VersionVariable(tool) := Semver.ToString(version)])
  {
    var text := Compile(ToolVersion(tool, version));
    assert HasAt(text, 0, text);
    var env1 := env[VersionVariable(tool) := Semver.ToString(version)];
    ExportVersionStep(text, 0, tool, version, env);
    RunStep(text, 0, env, env1, |text|);
    RunEnd(text, env1);
  }

  /** The environment a well-formed intent leaves behind. */
  function After(p: Postscript, env: Env): Env
  {
    match p
    case Activate(path) => env["PATH" := path]["NOTION_HOME" := NotionHome(env)]
    case Deactivate(path) => env["PATH" := path] - {"NOTION_HOME"}
    case ToolVersion(tool, version) => env[VersionVariable(tool) := Semver.ToString(version)]
  }

  lemma SourceCompile(p: Postscript, env: Env)
    requires WellFormed(p)
    ensures Source(Compile(p), env) == Ok(After(p, env))
  {
    match p
    case Activate(path) => SourceActivate(path, env);
    case Deactivate(path) => SourceDeactivate(path, env);
    case ToolVersion(tool, version) => SourceToolVersion(tool, version, env);
  }

  lemma AfterIdempotent(p: Postscript, env: Env)
    ensures After(p, After(p, env)) == After(p, env)
  {
    match p
    case Activate(path) =>
      assert NotionHome(After(p, env)) == NotionHome(env);
    case Deactivate(_) =>
    case ToolVersion(_, _) =>
  }

  /** Sourcing the same postscript twice has the effect of sourcing it once. */
  lemma SourcingTwiceIsSourcingOnce(p: Postscript, env: Env)
    requires WellFormed(p)
    ensures Source(Compile(p), env).Ok?
    ensures Source(Compile(p), Source(Compile(p), env).value) == Source(Compile(p), env)
  {
    var once := After(p, env);
    SourceCompile(p, env);
    SourceCompile(p, once);
    AfterIdempotent(p, env);
  }

  /** Deactivation leaves no trace of an earlier activation: the result is
      the same as deactivating straight away. */
  lemma DeactivateUndoesActivate(active: string, restored: string, env: Env)
    requires '\'' !in active && '\'' !in restored
    ensures Source(Compile(Activate(active)), env).Ok?
    ensures Source(Compile(Deactivate(restored)), Source(Compile(Activate(active)), env).value)
         == Source(Compile(Deactivate(restored)), env)
  {
    var env1 := After(Activate(active), env);
    SourceCompile(Activate(active), env);
    SourceCompile(Deactivate(restored), env1);
    SourceCompile(Deactivate(restored), env);
    DeactivateForgetsActivate(active, restored, env);
  }

  lemma DeactivateForgetsActivate(active: string, restored: string, env: Env)
    ensures After(Deactivate(restored), After(Activate(active), env)) == After(Deactivate(restored), env)
  {
    var env1 := After(Activate(active), env);
    assert env1["PATH" := restored] - {"NOTION_HOME"} == env["PATH" := restored] - {"NOTION_HOME"};
  }

  /** The unescaped quote: a path holding a single quote (and no double
      quote) never comes back as PATH after sourcing its deactivation. */
  lemma QuotedPathIsNotRestored(path: string, env: Env)
    requires '\'' in path && '"' !in path
    ensures Source(Compile(Deactivate(path)), env) != Ok(env["PATH" := path] - {"NOTION_HOME"})
  {
    var text := Compile(Deactivate(path));
    assert text == ExportPath(path) + UnsetHome;
    HasAtParts(ExportPath(path), UnsetHome);
    ExportPathLayout(text, 0, path);
    assert '"' !in text;
    if Source(text, env).Ok? {
      SourceExportPathWithoutDoubleQuote(text, env);
    }
    var target := env["PATH" := path] - {"NOTION_HOME"};
    assert !PathQuoteFree(target);
  }

  /** A run of plain characters is read as itself. */
  lemma ReadPlainWord(s: string, i: nat, w: string, env: Env)
    requires HasAt(s, i, w)
    requires forall k :: 0 <= k < |w| ==> IsPlain(w[k])
    ensures ReadWord(s, i, env) == Prepend(w, ReadWord(s, i + |w|, env))
  {
    forall k | i <= k < i + |w| ensures IsPlain(s[k]) {
      HasAtChar(s, i, w, k - i);
    }
    ReadPlain(s, i, i + |w|, env);
  }

  /** The rest `tail''` of the word, ending a line: the plain run, then an empty quoted string. */
  lemma ReadUnquotedTail(s: string, t: nat, tail: string, env: Env)
    requires t + |tail| + 2 < |s| && HasAt(s, t, tail) && forall k :: 0 <= k < |tail| ==> IsPlain(tail[k])
    requires s[t + |tail|] == '\'' && s[t + |tail| + 1] == '\'' && s[t + |tail| + 2] == '\n'
    ensures ReadWord(s, t, env) == Ok((tail, t + |tail| + 2))
  {
    var e := t + |tail| + 2;
    ReadEnd(s, e, env);
    ReadSingleQuoted(s, e - 2, [], env);
    PrependNothing(ReadWord(s, e, env));
    assert ReadWord(s, t + |tail|, env) == Ok(([], e));
    ReadPlainWord(s, t, tail, env);
    assert tail + [] == tail;
  }

  /** The word `'head'tail''` ending a line: the quote after `head` closes the
      quoted string, `tail` is read unquoted and the final `''` is an empty
      quoted string. */
  lemma ReadBrokenQuote(s: string, i: nat, head: string, tail: string, env: Env)
    requires i + |head| + |tail| + 4 < |s|
    requires s[i] == '\'' && HasAt(s, i + 1, head) && '\'' !in head && s[i + 1 + |head|] == '\''
    requires HasAt(s, i + |head| + 2, tail) && forall k :: 0 <= k < |tail| ==> IsPlain(tail[k])
    requires s[i + |head| + |tail| + 2] == '\'' && s[i + |head| + |tail| + 3] == '\''
    requires s[i + |head| + |tail| + 4] == '\n'
    ensures ReadWord(s, i, env) == Ok((head + tail, i + |head| + |tail| + 4))
  {
    ReadUnquotedTail(s, i + |head| + 2, tail, env);
    ReadSingleQuoted(s, i, head, env);
  }

  /** A compiled deactivation is the PATH export followed by the unset. */
  lemma DeactivateLayout(path: string)
    ensures HasAt(Compile(Deactivate(path)), 0, ExportPath(path))
    ensures HasAt(Compile(Deactivate(path)), |ExportPath(path)|, UnsetHome)
    ensures |Compile(Deactivate(path))| == |ExportPath(path)| + |UnsetHome|
  {
    HasAtParts(ExportPath(path), UnsetHome);
  }

  /** Where the pieces of `head'tail'` sit. */
  lemma QuotedRunLayout(s: string, j: nat, head: string, tail: string)
    requires HasAt(s, j, head + "'" + tail + "'")
    ensures HasAt(s, j, head) && s[j + |head|] == '\'' && HasAt(s, j + 1 + |head|, tail)
    ensures s[j + 1 + |head| + |tail|] == '\''
  {
    HasAtSplit(s, j, head + "'" + tail, "'");
    HasAtSplit(s, j, head + "'", tail);
    HasAtSplit(s, j, head, "'");
    HasAtChar(s, j + |head|, "'", 0);
    HasAtChar(s, j + 1 + |head| + |tail|, "'", 0);
  }

  /** Sourcing `export PATH=WORD` then `unset NOTION_HOME`, where the word reads as `value`. */
  lemma RunExportPathThenUnset(s: string, value: string, n: nat, env: Env)
    requires ExportKeywordAt(s, 0) && HasAt(s, 7, "PATH") && 11 < |s| && s[11] == '='
    requires ReadWord(s, 12, env) == Ok((value, n))
    requires n < |s| && s[n] == '\n' && HasAt(s, n + 1, UnsetHome) && |s| == n + 1 + |UnsetHome|
    ensures Source(s, env) == Ok(env["PATH" := value] - {"NOTION_HOME"})
  {
    var next := env["PATH" := value];
    RenderedNames();
    ExportStep(s, 0, "PATH", env, value, n);
    RunStep(s, 0, env, next, n + 1);
    UnsetHomeStep(s, n + 1, next);
    RunStep(s, n + 1, next, next - {"NOTION_HOME"}, |s|);
    RunEnd(s, next - {"NOTION_HOME"});
  }

  /** Where the pieces of a compiled deactivation of the path `head'tail'` sit. */
  lemma BrokenQuoteLayout(s: string, head: string, tail: string)
    requires s == Compile(Deactivate(head + "'" + tail + "'"))
    ensures |s| == 17 + |head| + |tail| + |UnsetHome|
    ensures ExportKeywordAt(s, 0) && HasAt(s, 7, "PATH") && s[11] == '=' && s[12] == '\''
    ensures HasAt(s, 13, head) && s[13 + |head|] == '\'' && HasAt(s, 14 + |head|, tail)
    ensures s[14 + |head| + |tail|] == '\'' && s[15 + |head| + |tail|] == '\''
    ensures s[16 + |head| + |tail|] == '\n' && HasAt(s, 17 + |head| + |tail|, UnsetHome)
  {
    var path := head + "'" + tail + "'";
    assert |path| == |head| + |tail| + 2;
    DeactivateLayout(path);
    ExportPathLayout(s, 0, path);
    QuotedRunLayout(s, 13, head, tail);
  }

  /** A path holding one quoted run `head'tail'` reaches the shell as `'head'tail''`:
      the quote closes early, the quotes vanish and PATH becomes `head + tail`. */
  lemma SourceBrokenQuote(head: string, tail: string, env: Env)
    requires '\'' !in head
    requires forall k :: 0 <= k < |tail| ==> IsPlain(tail[k])
    ensures Source(Compile(Deactivate(head + "'" + tail + "'")), env)
         == Ok(env["PATH" := head + tail] - {"NOTION_HOME"})
  {
    var s := Compile(Deactivate(head + "'" + tail + "'"));
    BrokenQuoteLayout(s, head, tail);
    SourceBrokenQuoteText(s, head, tail, env);
  }

  /** Sourcing text laid out as `export PATH='head'tail''` and `unset NOTION_HOME`. */
  lemma SourceBrokenQuoteText(s: string, head: string, tail: string, env: Env)
    requires '\'' !in head
    requires forall k :: 0 <= k < |tail| ==> IsPlain(tail[k])
    requires |s| == 17 + |head| + |tail| + |UnsetHome|
    requires ExportKeywordAt(s, 0) && HasAt(s, 7, "PATH") && s[11] == '=' && s[12] == '\''
    requires HasAt(s, 13, head) && s[13 + |head|] == '\'' && HasAt(s, 14 + |head|, tail)
    requires s[14 + |head| + |tail|] == '\'' && s[15 + |head| + |tail|] == '\''
    requires s[16 + |head| + |tail|] == '\n' && HasAt(s, 17 + |head| + |tail|, UnsetHome)
    ensures Source(s, env) == Ok(env["PATH" := head + tail] - {"NOTION_HOME"})
  {
    ReadBrokenQuote(s, 12, head, tail, env);
    RunExportPathThenUnset(s, head + tail, 16 + |head| + |tail|, env);
  }

  /** The quoted path of the unit test: the shell closes the quote early and
      PATH ends up without the quotes. */
  lemma QuotedTestCaseSourced(env: Env)
    ensures Source(Compile(Deactivate("/path:/with:/single'quotes'")), env)
         == Ok(env["PATH" := "/path:/with:/singlequotes"] - {"NOTION_HOME"})
  {
    var head, tail := "/path:/with:/single", "quotes";
    assert head + "'" + tail + "'" == "/path:/with:/single'quotes'";
    assert head + tail == "/path:/with:/singlequotes";
    SourceBrokenQuote(head, tail, env);
  }

  /** The path `'"${PATH}"x'` of the deactivation below, quoted without escaping. */
  const AppendingPath: string := "'\"${PATH}\"x'"

  /** Where the pieces of the compiled deactivation of `AppendingPath` sit. */
  lemma AppendingPathLayout(s: string)
    requires s == Compile(Deactivate(AppendingPath))
    ensures |s| == 27 + |UnsetHome| && HasAt(s, 27, UnsetHome)
    ensures ExportKeywordAt(s, 0) && HasAt(s, 7, "PATH") && s[11] == '='
    ensures s[12] == '\'' && s[13] == '\'' && s[14] == '"' && s[15] == '$' && s[16] == '{'
    ensures HasAt(s, 17, "PATH") && s[21] == '}' && s[22] == '"' && s[23] == 'x'
    ensures s[24] == '\'' && s[25] == '\'' && s[26] == '\n'
  {
    DeactivateLayout(AppendingPath);
    ExportPathLayout(s, 0, AppendingPath);
    assert AppendingPath == "'\"${" + "PATH" + "}\"x'";
    HasAtSplit(s, 13, "'\"${" + "PATH", "}\"x'");
    HasAtSplit(s, 13, "'\"${", "PATH");
    forall k | 0 <= k < 4 ensures s[13 + k] == "'\"${"[k] {
      HasAtChar(s, 13, "'\"${", k);
    }
    forall k | 0 <= k < 4 ensures s[21 + k] == "}\"x'"[k] {
      HasAtChar(s, 21, "}\"x'", k);
    }
  }

  /** The word `''"${PATH}"x''` ending a line reads as PATH's value followed by `x`. */
  lemma ReadAppendingWord(s: string, env: Env)
    requires 26 < |s| && s[12] == '\'' && s[13] == '\'' && s[14] == '"' && s[15] == '$' && s[16] == '{'
    requires HasAt(s, 17, "PATH") && s[21] == '}' && s[22] == '"' && s[23] == 'x'
    requires s[24] == '\'' && s[25] == '\'' && s[26] == '\n'
    ensures ReadWord(s, 12, env) == Ok((Lookup(env, "PATH") + "x", 26))
  {
    var v := Lookup(env, "PATH");
    ReadEnd(s, 26, env);
    ReadSingleQuoted(s, 24, [], env);
    PrependNothing(ReadWord(s, 26, env));
    ReadPlain(s, 23, 24, env);
    assert s[23..24] == "x";
    assert ReadWord(s, 24, env) == Ok(([], 26));
    assert "x" + [] == "x";
    assert ReadWord(s, 23, env) == Ok(("x", 26));
    RenderedNames();
    ExpandVariable(s, 15, 22, "PATH", env);
    assert Expand(s, 15, 22, env) == Ok(v) by {
      assert v + [] == v;
    }
    forall k | 15 <= k < 22 ensures s[k] != '"' {
      if 17 <= k < 21 {
        HasAtChar(s, 17, "PATH", k - 17);
      }
    }
    assert IndexFrom(s, 15, '"') == 22;
    ReadDoubleQuoted(s, 14, 22, env, v);
    ReadSingleQuoted(s, 12, [], env);
    PrependNothing(ReadWord(s, 14, env));
  }

  /** The unescaped quote lets a path reach the shell as an expansion: deactivating
      to `'"${PATH}"x'` appends `x` to the PATH the session already had. */
  lemma SourceAppendingPath(env: Env)
    ensures Source(Compile(Deactivate(AppendingPath)), env)
         == Ok(env["PATH" := Lookup(env, "PATH") + "x"] - {"NOTION_HOME"})
  {
    var s := Compile(Deactivate(AppendingPath));
    AppendingPathLayout(s);
    ReadAppendingWord(s, env);
    RunExportPathThenUnset(s, Lookup(env, "PATH") + "x", 26, env);
  }

  /** Sourcing that deactivation twice differs from sourcing it once: without the
      single-quote restriction, a rendered postscript need not be idempotent. */
  lemma AppendingPathNotIdempotent()
    ensures Source(Compile(Deactivate(AppendingPath)), map[]).Ok?
    ensures Source(Compile(Deactivate(AppendingPath)), Source(Compile(Deactivate(AppendingPath)), map[]).value)
         != Source(Compile(Deactivate(AppendingPath)), map[])
  {
    var env: Env := map[];
    SourceAppendingPath(env);
    var once := env["PATH" := "x"] - {"NOTION_HOME"};
    assert Lookup(env, "PATH") + "x" == "x";
    SourceAppendingPath(once);
    assert Lookup(once, "PATH") + "x" == "xx";
    assert once["PATH" := "xx"] - {"NOTION_HOME"} != once by {
      assert once["PATH"] == "x";
    }
  }

  /** Without the single-quote restriction, deactivating after an activation can
      depend on the activation: the path `'"${PATH}"x'` keeps the activated PATH. */
  lemma AppendingPathRemembersActivate()
    ensures Source(Compile(Activate("a")), map[]).Ok?
    ensures Source(Compile(Deactivate(AppendingPath)), Source(Compile(Activate("a")), map[]).value)
         != Source(Compile(Deactivate(AppendingPath)), map[])
  {
    var env: Env := map[];
    SourceActivate("a", env);
    var active := env["PATH" := "a"]["NOTION_HOME" := NotionHome(env)];
    SourceAppendingPath(active);
    SourceAppendingPath(env);
    assert Lookup(active, "PATH") + "x" == "ax";
    assert Lookup(env, "PATH") + "x" == "x";
    var after := active["PATH" := "ax"] - {"NOTION_HOME"};
    assert after["PATH"] == "ax";
    assert after != env["PATH" := "x"] - {"NOTION_HOME"} by {
      assert (env["PATH" := "x"] - {"NOTION_HOME"})["PATH"] == "x";
    }
  }
}

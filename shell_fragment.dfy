/** What sourcing a script does to a shell's environment, for the small
    fragment of the POSIX shell command language that postscripts use:
    newline-terminated lines `export NAME=WORD` and `unset NAME`, where a
    word is a run of plain characters, single-quoted strings (taken
    literally, up to the next single quote) and double-quoted strings (in
    which `${NAME}` is replaced by the variable's value). Text outside the
    fragment is reported as a fault; the model says nothing about what a
    real shell would do with it. The reader works by position in the text. */
module ShellFragment {
  import opened Results
  import opened Strings

  /** The exported variables of a shell session. */
  type Env = map<string, string>

  datatype Fault = Unterminated | Unsupported

  predicate IsNameChar(c: char)
  {
    'A' <= c <= 'Z' || 'a' <= c <= 'z' || '0' <= c <= '9' || c == '_'
  }

  /** A variable name: name characters, not starting with a digit. */
  predicate IsName(s: string)
  {
    0 < |s| && !('0' <= s[0] <= '9') && forall i :: 0 <= i < |s| ==> IsNameChar(s[i])
  }

  predicate IsBlank(c: char) { c == ' ' || c == '\t' || c == '\n' }

  /** A character that stands for itself outside quotes. The fragment admits
      only letters, digits and punctuation that no POSIX shell treats specially. */
  predicate IsPlain(c: char)
  {
    IsNameChar(c) || c == '/' || c == '.' || c == ':' || c == '-' || c == ',' ||
    c == '+' || c == '@' || c == '%' || c == '='
  }

  /** The value of a variable; an unset variable expands to nothing. */
  function Lookup(env: Env, name: string): string
  {
    if name in env then env[name] else ""
  }

  /** The first position at or after `i` that does not hold a name character. */
  function NameEnd(s: string, i: nat): (j: nat)
    requires i <= |s|
    ensures i <= j <= |s|
    ensures forall k :: i <= k < j ==> IsNameChar(s[k])
    ensures j < |s| ==> !IsNameChar(s[j])
    decreases |s| - i
  {
    if i == |s| || !IsNameChar(s[i]) then i else NameEnd(s, i + 1)
  }

  /** The value of the body `s[i..j]` of a double-quoted string, with each
      `${NAME}` replaced by the variable's value. */
  function Expand(s: string, i: nat, j: nat, env: Env): Result<string, Fault>
    requires i <= j <= |s|
    decreases j - i
  {
    if i == j then Ok([])
    else if s[i] == '$' then
      if i + 1 == j || s[i + 1] != '{' then Err(Unsupported)
      else
        var k := IndexFrom(s, i + 2, '}');
        if k >= j then Err(Unterminated)
        else if !IsName(s[i + 2..k]) then Err(Unsupported)
        else
          var rest :- Expand(s, k + 1, j, env);
          Ok(Lookup(env, s[i + 2..k]) + rest)
    else if s[i] == '\\' || s[i] == '`' then Err(Unsupported)
    else
      var rest :- Expand(s, i + 1, j, env);
      Ok([s[i]] + rest)
  }

  /** Reads the piece of a word at position `i`: a single-quoted string, a
      double-quoted string or one plain character; gives its value and the
      position just after it. */
  function ReadPiece(s: string, i: nat, env: Env): (r: Result<(string, nat), Fault>)
    requires i < |s|
    ensures r.Ok? ==> i < r.value.1 <= |s|
  {
    if s[i] == '\'' then
      var j := IndexFrom(s, i + 1, '\'');
      if j == |s| then Err(Unterminated) else Ok((s[i + 1..j], j + 1))
    else if s[i] == '"' then
      var j := IndexFrom(s, i + 1, '"');
      if j == |s| then Err(Unterminated)
      else
        var e :- Expand(s, i + 1, j, env);
        Ok((e, j + 1))
    else if IsPlain(s[i]) then Ok(([s[i]], i + 1))
    else Err(Unsupported)
  }

  /** The outcome of reading the rest of a word, with `piece` put in front of its value. */
  function Prepend(piece: string, r: Result<(string, nat), Fault>): Result<(string, nat), Fault>
  {
    match r
    case Ok((w, j)) => Ok((piece + w, j))
    case Err(f) => Err(f)
  }

  /** Reads the word that starts at position `i`; gives its value and the
      position just after it, which holds a blank or is the end. */
  function ReadWord(s: string, i: nat, env: Env): (r: Result<(string, nat), Fault>)
    requires i <= |s|
    ensures r.Ok? ==> i <= r.value.1 <= |s|
    ensures r.Ok? && r.value.1 < |s| ==> IsBlank(s[r.value.1])
    decreases |s| - i
  {
    if i == |s| || IsBlank(s[i]) then Ok(([], i))
    else
      var p :- ReadPiece(s, i, env);
      Prepend(p.0, ReadWord(s, p.1, env))
  }

  /** The rest of `export NAME=WORD` and its newline, from the name at position `i`. */
  function Export(s: string, i: nat, env: Env): (r: Result<(Env, nat), Fault>)
    requires i <= |s|
    ensures r.Ok? ==> i < r.value.1 <= |s|
  {
    var n := NameEnd(s, i);
    if n == |s| || s[n] != '=' || !IsName(s[i..n]) then Err(Unsupported)
    else
      match ReadWord(s, n + 1, env)
      case Err(f) => Err(f)
      case Ok((value, j)) =>
        if j == |s| || s[j] != '\n' then Err(Unsupported)
        else Ok((env[s[i..n] := value], j + 1))
  }

  /** The rest of `unset NAME` and its newline, from the name at position `i`. */
  function Unset(s: string, i: nat, env: Env): (r: Result<(Env, nat), Fault>)
    requires i <= |s|
    ensures r.Ok? ==> i < r.value.1 <= |s|
  {
    var n := NameEnd(s, i);
    if n == |s| || s[n] != '\n' || !IsName(s[i..n]) then Err(Unsupported)
    else Ok((env - {s[i..n]}, n + 1))
  }

  /** `export ` starts at position `i`. This is `HasAt(s, i, "export ")` spelt out
      character by character; the proofs stay cheaper without a literal here. */
  predicate ExportKeywordAt(s: string, i: nat)
  {
    i + 7 <= |s| && s[i] == 'e' && s[i + 1] == 'x' && s[i + 2] == 'p' && s[i + 3] == 'o' &&
    s[i + 4] == 'r' && s[i + 5] == 't' && s[i + 6] == ' '
  }

  /** `unset ` starts at position `i`. This is `HasAt(s, i, "unset ")` spelt out
      character by character; the proofs stay cheaper without a literal here. */
  predicate UnsetKeywordAt(s: string, i: nat)
  {
    i + 6 <= |s| && s[i] == 'u' && s[i + 1] == 'n' && s[i + 2] == 's' && s[i + 3] == 'e' &&
    s[i + 4] == 't' && s[i + 5] == ' '
  }

  /** Runs the newline-terminated statement at position `i`; gives the new
      environment and the position after the newline. */
  function Step(s: string, i: nat, env: Env): (r: Result<(Env, nat), Fault>)
    requires i <= |s|
    ensures r.Ok? ==> i < r.value.1 <= |s|
  {
    if ExportKeywordAt(s, i) then Export(s, i + 7, env)
    else if UnsetKeywordAt(s, i) then Unset(s, i + 6, env)
    else Err(Unsupported)
  }

  /** Runs the statements from position `i` to the end. */
  function Run(s: string, i: nat, env: Env): Result<Env, Fault>
    requires i <= |s|
    decreases |s| - i
  {
    if i == |s| then Ok(env)
    else
      var st :- Step(s, i, env);
      Run(s, st.1, st.0)
  }

  /** The environment after sourcing `text` in `env`. */
  function Source(text: string, env: Env): Result<Env, Fault>
  {
    Run(text, 0, env)
  }

  lemma PrependNothing(r: Result<(string, nat), Fault>)
    ensures Prepend([], r) == r
  {
    if r.Ok? {
      assert [] + r.value.0 == r.value.0;
    }
  }

  lemma PrependPrepend(a: string, b: string, r: Result<(string, nat), Fault>)
    ensures Prepend(a, Prepend(b, r)) == Prepend(a + b, r)
  {
    if r.Ok? {
      assert a + (b + r.value.0) == (a + b) + r.value.0;
    }
  }

  /** A word that does not end at `i` is its first piece followed by the rest. */
  lemma ReadPieceThen(s: string, i: nat, env: Env, piece: string, next: nat)
    requires i < |s| && !IsBlank(s[i])
    requires ReadPiece(s, i, env) == Ok((piece, next))
    ensures ReadWord(s, i, env) == Prepend(piece, ReadWord(s, next, env))
  {
  }

  /** A single-quoted string without a quote inside contributes its body to the word. */
  lemma ReadSingleQuoted(s: string, i: nat, body: string, env: Env)
    requires i + 1 + |body| < |s| && s[i] == '\'' && s[i + 1 + |body|] == '\''
    requires HasAt(s, i + 1, body) && '\'' !in body
    ensures ReadWord(s, i, env) == Prepend(body, ReadWord(s, i + |body| + 2, env))
  {
    forall k | i + 1 <= k < i + 1 + |body| ensures s[k] != '\'' {
      HasAtChar(s, i + 1, body, k - i - 1);
    }
    assert IndexFrom(s, i + 1, '\'') == i + 1 + |body|;
    assert ReadPiece(s, i, env) == Ok((body, i + |body| + 2));
    ReadPieceThen(s, i, env, body, i + |body| + 2);
  }

  /** A run of plain characters contributes itself to the word. */
  lemma {:induction false} ReadPlain(s: string, i: nat, j: nat, env: Env)
    requires i <= j <= |s|
    requires forall k :: i <= k < j ==> IsPlain(s[k])
    ensures ReadWord(s, i, env) == Prepend(s[i..j], ReadWord(s, j, env))
    decreases j - i
  {
    if i < j {
      ReadPieceThen(s, i, env, [s[i]], i + 1);
      ReadPlain(s, i + 1, j, env);
      PrependPrepend([s[i]], s[i + 1..j], ReadWord(s, j, env));
      assert [s[i]] + s[i + 1..j] == s[i..j];
    } else {
      assert s[i..j] == [];
      PrependNothing(ReadWord(s, j, env));
    }
  }

  /** At a blank or at the end the word is empty. */
  lemma ReadEnd(s: string, i: nat, env: Env)
    requires i == |s| || (i < |s| && IsBlank(s[i]))
    ensures ReadWord(s, i, env) == Ok(([], i))
  {
  }

  /** `${NAME}` at position `i` of a double-quoted body expands to the variable's value. */
  lemma ExpandVariable(s: string, i: nat, j: nat, name: string, env: Env)
    requires i + 2 + |name| < j <= |s| && s[i] == '$' && s[i + 1] == '{'
    requires HasAt(s, i + 2, name) && IsName(name) && s[i + 2 + |name|] == '}'
    ensures Expand(s, i, j, env).Ok? == Expand(s, i + 3 + |name|, j, env).Ok?
    ensures Expand(s, i, j, env).Ok? ==>
      Expand(s, i, j, env).value == Lookup(env, name) + Expand(s, i + 3 + |name|, j, env).value
  {
    forall k | i + 2 <= k < i + 2 + |name| ensures s[k] != '}' {
      HasAtChar(s, i + 2, name, k - i - 2);
    }
    assert IndexFrom(s, i + 2, '}') == i + 2 + |name|;
  }

  /** Double-quoted text with no `$`, backslash or backquote expands to itself. */
  lemma {:induction false} ExpandLiteral(s: string, i: nat, j: nat, env: Env)
    requires i <= j <= |s|
    requires forall k :: i <= k < j ==> s[k] != '$' && s[k] != '\\' && s[k] != '`'
    ensures Expand(s, i, j, env) == Ok(s[i..j])
    decreases j - i
  {
    if i < j {
      ExpandLiteral(s, i + 1, j, env);
      assert [s[i]] + s[i + 1..j] == s[i..j];
    }
  }

  lemma ExportAt(s: string, i: nat, name: string, env: Env, value: string, j: nat)
    requires i + |name| < |s|
    requires NameEnd(s, i) == i + |name| && s[i + |name|] == '=' && s[i..i + |name|] == name
    requires IsName(name)
    requires ReadWord(s, i + |name| + 1, env) == Ok((value, j))
    requires j < |s| && s[j] == '\n'
    ensures Export(s, i, env) == Ok((env[name := value], j + 1))
  {
  }

  lemma ExportKeyword(s: string, i: nat)
    requires HasAt(s, i, "export ")
    ensures ExportKeywordAt(s, i)
  {
    HasAtChar(s, i, "export ", 0);
    HasAtChar(s, i, "export ", 1);
    HasAtChar(s, i, "export ", 2);
    HasAtChar(s, i, "export ", 3);
    HasAtChar(s, i, "export ", 4);
    HasAtChar(s, i, "export ", 5);
    HasAtChar(s, i, "export ", 6);
  }

  lemma UnsetKeyword(s: string, i: nat)
    requires HasAt(s, i, "unset ")
    ensures UnsetKeywordAt(s, i)
  {
    HasAtChar(s, i, "unset ", 0);
    HasAtChar(s, i, "unset ", 1);
    HasAtChar(s, i, "unset ", 2);
    HasAtChar(s, i, "unset ", 3);
    HasAtChar(s, i, "unset ", 4);
    HasAtChar(s, i, "unset ", 5);
  }

  /** Where the pieces of `export NAME=` sit. */
  lemma ExportLayout(s: string, i: nat, name: string)
    requires HasAt(s, i, "export " + name + "=")
    ensures ExportKeywordAt(s, i) && HasAt(s, i + 7, name)
    ensures i + 7 + |name| < |s| && s[i + 7 + |name|] == '='
  {
    HasAtSplit(s, i, "export " + name, "=");
    HasAtSplit(s, i, "export ", name);
    HasAtChar(s, i + 7 + |name|, "=", 0);
    ExportKeyword(s, i);
  }

  /** Where the pieces of `unset NAME` and its newline sit. */
  lemma UnsetLayout(s: string, i: nat, name: string)
    requires HasAt(s, i, "unset " + name + "\n")
    ensures UnsetKeywordAt(s, i) && HasAt(s, i + 6, name)
    ensures i + 6 + |name| < |s| && s[i + 6 + |name|] == '\n'
  {
    HasAtSplit(s, i, "unset " + name, "\n");
    HasAtSplit(s, i, "unset ", name);
    HasAtChar(s, i + 6 + |name|, "\n", 0);
    UnsetKeyword(s, i);
  }

  /** The name that starts at `i` and is followed by a character that is not a name character ends there. */
  lemma NameEndAt(s: string, i: nat, name: string)
    requires HasAt(s, i, name) && IsName(name)
    requires i + |name| < |s| && !IsNameChar(s[i + |name|])
    ensures NameEnd(s, i) == i + |name| && s[i..i + |name|] == name
  {
    forall k | i <= k < i + |name| ensures IsNameChar(s[k]) {
      HasAtChar(s, i, name, k - i);
    }
  }

  /** `export NAME=WORD` followed by a newline assigns the word's value. */
  lemma ExportStep(s: string, i: nat, name: string, env: Env, value: string, j: nat)
    requires ExportKeywordAt(s, i) && HasAt(s, i + 7, name) && IsName(name)
    requires i + 7 + |name| < |s| && s[i + 7 + |name|] == '='
    requires ReadWord(s, i + 8 + |name|, env) == Ok((value, j))
    requires j < |s| && s[j] == '\n'
    ensures Step(s, i, env) == Ok((env[name := value], j + 1))
  {
    NameEndAt(s, i + 7, name);
    ExportAt(s, i + 7, name, env, value, j);
  }

  /** `unset NAME` followed by a newline removes the variable. */
  lemma UnsetStep(s: string, i: nat, name: string, env: Env)
    requires UnsetKeywordAt(s, i) && HasAt(s, i + 6, name) && IsName(name)
    requires i + 6 + |name| < |s| && s[i + 6 + |name|] == '\n'
    ensures Step(s, i, env) == Ok((env - {name}, i + 7 + |name|))
  {
    NameEndAt(s, i + 6, name);
  }

  lemma ReadDoubleQuoted(s: string, i: nat, e: nat, env: Env, expanded: string)
    requires i < e < |s| && s[i] == '"'
    requires IndexFrom(s, i + 1, '"') == e
    requires Expand(s, i + 1, e, env) == Ok(expanded)
    ensures ReadWord(s, i, env) == Prepend(expanded, ReadWord(s, e + 1, env))
  {
    ReadPieceThen(s, i, env, expanded, e + 1);
  }

  /** PATH is unset or holds no single quote. */
  predicate PathQuoteFree(env: Env)
  {
    "PATH" in env ==> '\'' !in env["PATH"]
  }

  /** Without double quotes in the text, no word can produce a single quote. */
  lemma {:induction false} ReadWordWithoutDoubleQuote(s: string, i: nat, env: Env)
    requires i <= |s| && '"' !in s
    requires ReadWord(s, i, env).Ok?
    ensures '\'' !in ReadWord(s, i, env).value.0
    decreases |s| - i
  {
    if i < |s| && !IsBlank(s[i]) {
      assert s[i] != '"';
      var p := ReadPiece(s, i, env).value;
      assert '\'' !in p.0;
      ReadWordWithoutDoubleQuote(s, p.1, env);
    }
  }

  lemma StepWithoutDoubleQuote(s: string, i: nat, env: Env)
    requires i <= |s| && '"' !in s
    requires PathQuoteFree(env)
    requires Step(s, i, env).Ok?
    ensures PathQuoteFree(Step(s, i, env).value.0)
  {
    if ExportKeywordAt(s, i) {
      var n := NameEnd(s, i + 7);
      ReadWordWithoutDoubleQuote(s, n + 1, env);
    }
  }

  /** Running text without double quotes cannot put a single quote into PATH. */
  lemma {:induction false} RunWithoutDoubleQuote(s: string, i: nat, env: Env)
    requires i <= |s| && '"' !in s
    requires PathQuoteFree(env)
    requires Run(s, i, env).Ok?
    ensures PathQuoteFree(Run(s, i, env).value)
    decreases |s| - i
  {
    if i < |s| {
      StepWithoutDoubleQuote(s, i, env);
      var st := Step(s, i, env).value;
      RunWithoutDoubleQuote(s, st.1, st.0);
    }
  }

  /** A first statement `export PATH=WORD` in text without double quotes leaves PATH without a single quote. */
  lemma ExportPathWithoutDoubleQuote(s: string, env: Env)
    requires ExportKeywordAt(s, 0) && HasAt(s, 7, "PATH") && 11 < |s| && s[11] == '=' && '"' !in s
    requires Step(s, 0, env).Ok?
    ensures PathQuoteFree(Step(s, 0, env).value.0)
  {
    NameEndAt(s, 7, "PATH");
    ReadWordWithoutDoubleQuote(s, 12, env);
  }

  /** Running from a statement that succeeds continues after it. */
  lemma RunStep(s: string, i: nat, env: Env, next: Env, j: nat)
    requires i < |s| && j <= |s|
    requires Step(s, i, env) == Ok((next, j))
    ensures Run(s, i, env) == Run(s, j, next)
  {
  }

  lemma RunEnd(s: string, env: Env)
    ensures Run(s, |s|, env) == Ok(env)
  {
  }

  /** Sourcing text that starts with `export PATH=` and holds no double
      quote leaves PATH without a single quote, whatever PATH was before. */
  lemma SourceExportPathWithoutDoubleQuote(s: string, env: Env)
    requires ExportKeywordAt(s, 0) && HasAt(s, 7, "PATH") && 11 < |s| && s[11] == '=' && '"' !in s
    requires Source(s, env).Ok?
    ensures PathQuoteFree(Source(s, env).value)
  {
    var r := Step(s, 0, env);
    if r.Ok? {
      ExportPathWithoutDoubleQuote(s, env);
      RunStep(s, 0, env, r.value.0, r.value.1);
      RunWithoutDoubleQuote(s, r.value.1, r.value.0);
    }
  }
}

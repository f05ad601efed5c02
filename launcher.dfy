/**
 * `start_server.py`: validates the server id given on the command line, loads that server's
 * `.env.server_<id>` file into the process environment, forces `SERVER_ID`, and picks the port.
 */
module Launcher {
  import opened Wrappers

  /** The servers a process may be started as. */
  const Servers: seq<string> := ["A", "B", "C", "D"]

  /** Every spelling of a server id on the command line that the launcher accepts. */
  const Spellings: set<string> := {"A", "B", "C", "D", "a", "b", "c", "d"}

  function UpperChar(c: char): char {
    if 'a' <= c <= 'z' then (c as int - 32) as char else c
  }

  function LowerChar(c: char): char {
    if 'A' <= c <= 'Z' then (c as int + 32) as char else c
  }

  /** `str.upper` on ASCII letters. */
  function Upper(s: string): (r: string)
    ensures |r| == |s| && forall i :: 0 <= i < |s| ==> r[i] == UpperChar(s[i])
  {
    seq(|s|, i requires 0 <= i < |s| => UpperChar(s[i]))
  }

  /** `str.lower` on ASCII letters. */
  function Lower(s: string): (r: string)
    ensures |r| == |s| && forall i :: 0 <= i < |s| ==> r[i] == LowerChar(s[i])
  {
    seq(|s|, i requires 0 <= i < |s| => LowerChar(s[i]))
  }

  lemma UpperOneLetter(s: string)
    ensures Upper(s) in Servers <==> s in Spellings
  {
    if Upper(s) in Servers {
      assert |s| == 1;
      assert s == [s[0]];
    }
    if s in Spellings {
      assert |s| == 1 && Upper(s) == [UpperChar(s[0])];
    }
  }

  /**
   * The validated server id, `argv[1].upper()`; `None` when the id is missing or not one of
   * the four servers, which ends the process with status 1.
   */
  function ServerId(argv: seq<string>): (id: Option<string>)
    ensures id.Some? <==> |argv| >= 2 && argv[1] in Spellings
    ensures id.Some? ==> id.value in Servers && id.value == Upper(argv[1])
  {
    if |argv| < 2 then None
    else
      UpperOneLetter(argv[1]);
      var id := Upper(argv[1]);
      if id in Servers then Some(id) else None
  }

  /** `port_map.get(server_id, 8000)`. */
  function Port(id: string): (p: int)
    ensures forall i :: 0 <= i < |Servers| && Servers[i] == id ==> p == 8000 + i
    ensures id !in Servers ==> p == 8000
  {
    var portMap := map["A" := 8000, "B" := 8001, "C" := 8002, "D" := 8003];
    if id in portMap then portMap[id] else 8000
  }

  /** Server `i` listens on port 8000 + i, so no two servers share a port. */
  lemma PortsDistinct()
    ensures forall i :: 0 <= i < |Servers| ==> Port(Servers[i]) == 8000 + i
    ensures forall i, j :: 0 <= i < j < |Servers| ==> Port(Servers[i]) != Port(Servers[j])
  {
  }

  /** `.env.server_<id in lower case>`. */
  function EnvFileName(id: string): (f: string)
    ensures |f| == 12 + |id| && f[..12] == ".env.server_" && f[12..] == Lower(id)
  {
    ".env.server_" + Lower(id)
  }

  /** Each server reads its own file: `.env.server_a` to `.env.server_d`. */
  lemma EnvFileNames()
    ensures forall i :: 0 <= i < |Servers| ==>
      EnvFileName(Servers[i]) == [".env.server_a", ".env.server_b", ".env.server_c", ".env.server_d"][i]
  {
    assert Lower("A") == "a" && Lower("B") == "b" && Lower("C") == "c" && Lower("D") == "d";
  }

  /** The characters `str.strip()` removes: those `str.isspace` accepts. */
  const Whitespace: set<char> := {' ', '\t', '\n', '\U{B}', '\U{C}', '\r', '\U{1C}', '\U{1D}', '\U{1E}', '\U{1F}',
    '\U{85}', '\U{A0}', '\U{1680}', '\U{2000}', '\U{2001}', '\U{2002}', '\U{2003}', '\U{2004}', '\U{2005}',
    '\U{2006}', '\U{2007}', '\U{2008}', '\U{2009}', '\U{200A}', '\U{2028}', '\U{2029}', '\U{202F}', '\U{205F}',
    '\U{3000}'}

  /** The characters the value is stripped of: `strip('"[]')`. */
  const ValueQuotes: set<char> := {'"', '[', ']'}

  /** `s.lstrip(cs)`. */
  function TrimStart(s: string, cs: set<char>): (r: string)
    ensures |r| <= |s| && r == s[|s| - |r|..]
    ensures |r| > 0 ==> r[0] !in cs
    ensures forall i :: 0 <= i < |s| - |r| ==> s[i] in cs
  {
    if |s| > 0 && s[0] in cs then
      var r := TrimStart(s[1..], cs);
      assert s[1..][|s| - 1 - |r|..] == s[|s| - |r|..];
      assert forall i :: 1 <= i < |s| - |r| ==> s[i] == s[1..][i - 1];
      r
    else s
  }

  /** `s.rstrip(cs)`. */
  function TrimEnd(s: string, cs: set<char>): (r: string)
    ensures |r| <= |s| && r == s[..|r|]
    ensures |r| > 0 ==> r[|r| - 1] !in cs
    ensures forall i :: |r| <= i < |s| ==> s[i] in cs
  {
    if |s| > 0 && s[|s| - 1] in cs then
      var r := TrimEnd(s[..|s| - 1], cs);
      assert s[..|s| - 1][..|r|] == s[..|r|];
      assert forall i :: |r| <= i < |s| - 1 ==> s[i] == s[..|s| - 1][i];
      r
    else s
  }

  /** `s.strip(cs)`: the part between the first and the last character not in `cs`. */
  function Strip(s: string, cs: set<char>): (r: string)
    ensures |r| > 0 ==> r[0] !in cs && r[|r| - 1] !in cs
    ensures var start := |s| - |TrimStart(s, cs)|;
      && start + |r| <= |s| && r == s[start..start + |r|]
      && forall i :: 0 <= i < |s| && s[i] !in cs ==> start <= i < start + |r|
  {
    var left := TrimStart(s, cs);
    var r := TrimEnd(left, cs);
    StripSlice(s, cs, |s| - |left|, left, r);
    r
  }

  /**
   * Cutting a prefix and then a suffix made of characters in `cs` leaves one slice of `s`, and
   * every position outside that slice holds a character in `cs`.
   */
  lemma StripSlice(s: string, cs: set<char>, start: nat, left: string, r: string)
    requires start <= |s| && left == s[start..] && |r| <= |left| && r == left[..|r|]
    requires forall i :: 0 <= i < start ==> s[i] in cs
    requires forall j :: |r| <= j < |left| ==> left[j] in cs
    ensures start + |r| <= |s| && r == s[start..start + |r|]
    ensures forall i :: 0 <= i < |s| && s[i] !in cs ==> start <= i < start + |r|
  {
    forall i | 0 <= i < |s| && s[i] !in cs ensures start <= i < start + |r| {
      assert left[i - start] == s[i];
    }
  }

  /** `s.split('=', 1)` on a string with an `=`: the text before the first `=` and the text after it. */
  function SplitAtEquals(s: string): (kv: (string, string))
    requires '=' in s
    ensures kv.0 + "=" + kv.1 == s
    ensures '=' !in kv.0
  {
    if s[0] == '=' then ("", s[1..])
    else
      var rest := SplitAtEquals(s[1..]);
      assert [s[0]] + rest.0 + "=" + rest.1 == [s[0]] + s[1..];
      ([s[0]] + rest.0, rest.1)
  }

  /** `=` is not white space, so a line keeps its `=` when stripped. */
  lemma EqualsSurvivesStrip(line: string)
    requires '=' in line
    ensures '=' in Strip(line, Whitespace)
  {
    var i :| 0 <= i < |line| && line[i] == '=';
    assert line[i] !in Whitespace;
    var r := Strip(line, Whitespace);
    var start := |line| - |TrimStart(line, Whitespace)|;
    assert start <= i < start + |r|;
    assert r[i - start] == '=';
  }

  /**
   * One line of the environment file: a line with an `=` that does not start with `#` is
   * stripped of surrounding whitespace and split at its first `=`; the value loses its
   * surrounding quotes and brackets. Any other line is skipped.
   */
  function ParseLine(line: string): (kv: Option<(string, string)>)
    ensures kv.Some? <==> '=' in line && !(|line| > 0 && line[0] == '#')
    ensures kv.Some? ==> '=' in Strip(line, Whitespace) && '=' !in kv.value.0
    ensures kv.Some? ==> (
      && '=' in Strip(line, Whitespace)
      && var raw := SplitAtEquals(Strip(line, Whitespace)).1;
         kv.value.0 + "=" + raw == Strip(line, Whitespace) && kv.value.1 == Strip(raw, ValueQuotes))
    ensures kv.Some? ==> |kv.value.1| > 0 ==> kv.value.1[0] !in ValueQuotes && kv.value.1[|kv.value.1| - 1] !in ValueQuotes
  {
    if '=' in line && !(|line| > 0 && line[0] == '#') then
      var stripped := Strip(line, Whitespace);
      EqualsSurvivesStrip(line);
      var parts := SplitAtEquals(stripped);
      Some((parts.0, Strip(parts.1, ValueQuotes)))
    else None
  }

  /**
   * `os.environ[key] = value` raises `OSError` for an empty name and `ValueError` for a NUL
   * character in the name or the value.
   */
  predicate Settable(key: string, value: string): (ok: bool)
    ensures !ok <==> key == "" || (exists i :: 0 <= i < |key| && key[i] == '\0') || (exists i :: 0 <= i < |value| && value[i] == '\0')
  {
    key != "" && '\0' !in key && '\0' !in value
  }

  /** The environment after a prefix of the file, and whether an assignment raised. */
  datatype Loaded = Loaded(env: map<string, string>, crashed: bool)

  /** The file's lines applied in order to the environment, stopping at the first assignment that raises. */
  function LoadLines(env: map<string, string>, lines: seq<string>): (l: Loaded)
    ensures env.Keys <= l.env.Keys
    decreases |lines|
  {
    if |lines| == 0 then Loaded(env, false)
    else match ParseLine(lines[0])
      case None => LoadLines(env, lines[1..])
      case Some(kv) =>
        if Settable(kv.0, kv.1) then LoadLines(env[kv.0 := kv.1], lines[1..]) else Loaded(env, true)
  }

  /** A line whose assignment raises. */
  predicate Raises(line: string) {
    ParseLine(line).Some? && !Settable(ParseLine(line).value.0, ParseLine(line).value.1)
  }

  /** The load crashes exactly when some line's assignment raises. */
  lemma {:induction false} LoadLinesCrash(env: map<string, string>, lines: seq<string>)
    ensures LoadLines(env, lines).crashed <==> exists i :: 0 <= i < |lines| && Raises(lines[i])
    decreases |lines|
  {
    if |lines| > 0 {
      assert forall j :: 0 <= j < |lines[1..]| ==> lines[1..][j] == lines[j + 1];
      match ParseLine(lines[0])
      case None => LoadLinesCrash(env, lines[1..]);
      case Some(kv) =>
        if Settable(kv.0, kv.1) {
          LoadLinesCrash(env[kv.0 := kv.1], lines[1..]);
        } else {
          assert Raises(lines[0]);
        }
    }
  }

  /** Loading the file in two parts is loading it in one. */
  lemma {:induction false} LoadLinesAppend(env: map<string, string>, a: seq<string>, b: seq<string>)
    ensures var first := LoadLines(env, a);
      LoadLines(env, a + b) == if first.crashed then first else LoadLines(first.env, b)
    decreases |a|
  {
    if |a| > 0 {
      assert (a + b)[0] == a[0] && (a + b)[1..] == a[1..] + b;
      match ParseLine(a[0])
      case None => LoadLinesAppend(env, a[1..], b);
      case Some(kv) =>
        if Settable(kv.0, kv.1) {
          LoadLinesAppend(env[kv.0 := kv.1], a[1..], b);
        }
    } else {
      assert a + b == b;
    }
  }

  /**
   * One line at a time: a skipped line changes nothing, a line `k=v` maps `k` to `v`, and an
   * assignment that raises stops the load.
   */
  lemma LastAssignmentWins(env: map<string, string>, a: seq<string>, line: string)
    requires !LoadLines(env, a).crashed
    ensures ParseLine(line).None? ==> LoadLines(env, a + [line]) == LoadLines(env, a)
    ensures ParseLine(line).Some? && Settable(ParseLine(line).value.0, ParseLine(line).value.1) ==>
      var kv := ParseLine(line).value;
      && !LoadLines(env, a + [line]).crashed
      && LoadLines(env, a + [line]).env == LoadLines(env, a).env[kv.0 := kv.1]
    ensures ParseLine(line).Some? && !Settable(ParseLine(line).value.0, ParseLine(line).value.1) ==>
      LoadLines(env, a + [line]) == Loaded(LoadLines(env, a).env, true)
  {
    LoadLinesAppend(env, a, [line]);
    assert [line][1..] == [];
  }

  /** Lines that assign other keys, whether they raise or not, leave a key's value alone. */
  lemma {:induction false} KeyKept(env: map<string, string>, b: seq<string>, k: string, v: string)
    requires k in env && env[k] == v
    requires forall j :: 0 <= j < |b| && ParseLine(b[j]).Some? ==> ParseLine(b[j]).value.0 != k
    ensures k in LoadLines(env, b).env && LoadLines(env, b).env[k] == v
    decreases |b|
  {
    if |b| > 0 {
      assert forall j :: 0 <= j < |b[1..]| ==> b[1..][j] == b[j + 1];
      match ParseLine(b[0])
      case None => KeyKept(env, b[1..], k, v);
      case Some(kv) =>
        if Settable(kv.0, kv.1) {
          KeyKept(env[kv.0 := kv.1], b[1..], k, v);
        }
    }
  }

  /**
   * The last line that assigns a key decides its value: after `k=v`, later lines that assign
   * other keys keep `k` mapped to `v`, to the end of the file or to the first assignment that raises.
   */
  lemma LastAssignmentDecides(env: map<string, string>, a: seq<string>, line: string, b: seq<string>, k: string, v: string)
    requires !LoadLines(env, a).crashed
    requires ParseLine(line) == Some((k, v)) && Settable(k, v)
    requires forall j :: 0 <= j < |b| && ParseLine(b[j]).Some? ==> ParseLine(b[j]).value.0 != k
    ensures k in LoadLines(env, a + [line] + b).env && LoadLines(env, a + [line] + b).env[k] == v
  {
    LastAssignmentWins(env, a, line);
    LoadLinesAppend(env, a + [line], b);
    KeyKept(LoadLines(env, a + [line]).env, b, k, v);
  }

  /** `os.environ`. */
  class Environment {
    var vars: map<string, string>

    constructor (vars: map<string, string>)
      ensures this.vars == vars
    {
      this.vars := vars;
    }

    /** `for line in f: ...`: assign the file's lines in order; `false` when an assignment raised. */
    method LoadFile(lines: seq<string>) returns (ok: bool)
      modifies this
      ensures var l := LoadLines(old(vars), lines);
        ok == !l.crashed && vars == l.env
    {
      var i := 0;
      while i < |lines|
        invariant 0 <= i <= |lines|
        invariant LoadLines(vars, lines[i..]) == LoadLines(old(vars), lines)
      {
        assert lines[i..][0] == lines[i] && lines[i..][1..] == lines[i + 1..];
        var kv := ParseLine(lines[i]);
        if kv.Some? {
          if !Settable(kv.value.0, kv.value.1) { return false; }
          vars := vars[kv.value.0 := kv.value.1];
        }
        i := i + 1;
      }
      return true;
    }
  }

  /** How the launcher ends: exit with a status, or serve as a server on a port. */
  datatype Launch = Exit(status: int) | Serve(serverId: string, port: int)

  /**
   * `main`: validate the id, load the server's env file if it is among `files`, force
   * `SERVER_ID`, and serve on the mapped port. A failed assignment raises `OSError` or `ValueError`;
   * neither is caught, so the process exits with status 1.
   */
  method StartServer(argv: seq<string>, files: map<string, seq<string>>, environ: Environment) returns (r: Launch)
    modifies environ
    ensures ServerId(argv).None? ==> r == Exit(1) && environ.vars == old(environ.vars)
    ensures ServerId(argv).Some? ==>
      var id := ServerId(argv).value;
      var l := if EnvFileName(id) in files then LoadLines(old(environ.vars), files[EnvFileName(id)])
               else Loaded(old(environ.vars), false);
      if l.crashed then r == Exit(1) && environ.vars == l.env
      else r == Serve(id, Port(id)) && environ.vars == l.env["SERVER_ID" := id]
    ensures r.Serve? ==> r.serverId in Servers && 8000 <= r.port <= 8003 && environ.vars["SERVER_ID"] == r.serverId
  {
    var id := ServerId(argv);
    if id.None? { return Exit(1); }
    var serverId := id.value;
    var envFile := EnvFileName(serverId);
    if envFile in files {
      var ok := environ.LoadFile(files[envFile]);
      if !ok { return Exit(1); }
    }
    environ.vars := environ.vars["SERVER_ID" := serverId];
    r := Serve(serverId, Port(serverId));
  }
}

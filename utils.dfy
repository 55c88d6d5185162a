/** The small utilities of `src/utils.py`: environment lookup and `${NAME}` expansion, the
    output-file naming rule, and the JSON-Lines file helpers over an abstract file system in
    which a path maps to the text of the file. */
module Utils {
  import opened Wrappers
  import opened Strings
  import opened JsonValues

  // ---------------------------------------------------------------------------
  // Environment variables

  /** `os.environ.get(key, default)`: the variable's value when it is set, else the default. */
  function GetEnvVar(env: map<string, string>, key: string, default: Option<string>): (r: Option<string>)
    ensures key in env ==> r == Some(env[key])
    ensures key !in env ==> r == default
  {
    if key in env then Some(env[key]) else default
  }

  /** Where a `${NAME}` placeholder that starts the text ends, as the pattern
      `\$\{([^}]+)\}` matches it: at the first `}` after `${`, provided the name between is
      not empty. */
  function PlaceholderEnd(text: string): (r: Option<nat>)
    ensures r.Some? ==> 2 < r.value < |text| && text[..2] == "${" && text[r.value] == '}'
                        && '}' !in text[2..r.value]
    ensures r.None? && StartsWith(text, "${") ==> '}' !in text[2..] || text[2] == '}'
  {
    if StartsWith(text, "${") then
      var j := 2 + IndexOfChar(text[2..], '}');
      if 2 < j < |text| then Some(j) else None
    else None
  }

  /** `substitute_env_vars`: scans left to right; each `${NAME}` becomes the value of NAME
      when it is set and stays as it is otherwise; everything else is copied. */
  function SubstituteEnvVars(text: string, env: map<string, string>): string
    decreases |text|
  {
    if text == [] then []
    else
      match PlaceholderEnd(text)
      case Some(j) =>
        GetEnvVar(env, text[2..j], Some(text[..j + 1])).value + SubstituteEnvVars(text[j + 1..], env)
      case None => [text[0]] + SubstituteEnvVars(text[1..], env)
  }

  /** Text without `${` comes back unchanged. */
  lemma {:induction false} SubstituteWithoutPlaceholder(text: string, env: map<string, string>)
    requires !Contains(text, "${")
    ensures SubstituteEnvVars(text, env) == text
    decreases |text|
  {
    if text != [] {
      SubstituteWithoutPlaceholder(text[1..], env);
    }
  }

  /** One placeholder with a non-empty name: replaced by the value when the name is set,
      kept verbatim when it is not, and the rest of the text is processed on its own. */
  lemma {:induction false} SubstituteOne(name: string, rest: string, env: map<string, string>)
    requires name != [] && '}' !in name
    ensures SubstituteEnvVars("${" + name + "}" + rest, env)
            == (if name in env then env[name] else "${" + name + "}") + SubstituteEnvVars(rest, env)
  {
    var text := "${" + name + "}" + rest;
    assert text[2..] == name + "}" + rest;
    assert IndexOfChar(text[2..], '}') == |name| by {
      assert (name + "}" + rest)[|name|] == '}';
      assert (name + "}" + rest)[..|name|] == name;
    }
    assert text[2..2 + |name|] == name;
    assert text[..3 + |name|] == "${" + name + "}";
    assert text[3 + |name|..] == rest;
  }

  /** `${}` has an empty name, which the pattern does not match: it is copied as text. */
  lemma {:induction false} SubstituteEmptyName(rest: string, env: map<string, string>)
    ensures SubstituteEnvVars("${}" + rest, env) == "${}" + SubstituteEnvVars(rest, env)
  {
    var r := SubstituteEnvVars(rest, env);
    CopiedHead('}', rest, env);
    CopiedHead('{', "}" + rest, env);
    var text := "${}" + rest;
    assert text[2..][0] == '}';
    assert PlaceholderEnd(text) == None;
    CopiedCharacter(text, env);
    assert text[1..] == "{" + ("}" + rest);
    ThreeCharacters(r);
  }

  /** `"$" + ("{" + ("}" + r))` is `"${}" + r`. */
  lemma {:induction false} ThreeCharacters(r: string)
    ensures "$" + ("{" + ("}" + r)) == "${}" + r
  {
    assert "{" + ("}" + r) == "{}" + r;
  }

  /** A character other than `$` never opens a placeholder, so it is copied. */
  lemma {:induction false} CopiedHead(c: char, rest: string, env: map<string, string>)
    requires c != '$'
    ensures SubstituteEnvVars([c] + rest, env) == [c] + SubstituteEnvVars(rest, env)
  {
    var text := [c] + rest;
    assert !StartsWith(text, "${");
    assert text[1..] == rest;
  }

  /** A character that does not open a placeholder is copied as it is. */
  lemma {:induction false} CopiedCharacter(text: string, env: map<string, string>)
    requires text != [] && PlaceholderEnd(text) == None
    ensures SubstituteEnvVars(text, env) == [text[0]] + SubstituteEnvVars(text[1..], env)
  {
  }

  /** A placeholder whose variable is unset is copied as written. */
  lemma {:induction false} UnsetPlaceholderKept(text: string, j: nat)
    requires text != [] && PlaceholderEnd(text) == Some(j)
    ensures SubstituteEnvVars(text, map[]) == text[..j + 1] + SubstituteEnvVars(text[j + 1..], map[])
  {
    assert GetEnvVar(map[], text[2..j], Some(text[..j + 1])) == Some(text[..j + 1]);
  }

  /** With no variable set, every placeholder stays verbatim and the text is unchanged. */
  lemma {:induction false} SubstituteWithEmptyEnvironment(text: string)
    ensures SubstituteEnvVars(text, map[]) == text
    decreases |text|
  {
    if text != [] {
      var n := KeptHead(text);
      SubstituteWithEmptyEnvironment(text[n..]);
      assert text[..n] + text[n..] == text;
    }
  }

  /** With no variable set, the first step of the scan copies a non-empty head of the text. */
  lemma {:induction false} KeptHead(text: string) returns (n: nat)
    requires text != []
    ensures 0 < n <= |text| && SubstituteEnvVars(text, map[]) == text[..n] + SubstituteEnvVars(text[n..], map[])
  {
    match PlaceholderEnd(text)
    case Some(j) =>
      UnsetPlaceholderKept(text, j);
      n := j + 1;
    case None =>
      CopiedCharacter(text, map[]);
      assert text[..1] == [text[0]];
      n := 1;
  }

  // ---------------------------------------------------------------------------
  // Output file names

  /** `source.rsplit('/', 1)`, or `('.', source)` when there is no `/`. */
  function SplitDirectory(source: string): (r: (string, string))
    ensures '/' !in source ==> r == (".", source)
    ensures '/' in source ==> r.0 + "/" + r.1 == source && '/' !in r.1
  {
    match RSplitOnce(source, '/')
    case Some(parts) => parts
    case None => (".", source)
  }

  /** `name.rsplit('.', 1)[0]`: the name without its last `.`-suffix, or the whole name. */
  function Stem(name: string): (r: string)
    ensures '.' !in name ==> r == name
    ensures '.' in name ==> StartsWith(name, r + ".") && '.' !in name[|r| + 1..]
  {
    match RSplitOnce(name, '.')
    case Some(parts) =>
      assert name[..|parts.0| + 1] == parts.0 + ".";
      assert name[|parts.0| + 1..] == parts.1;
      parts.0
    case None => name
  }

  /** `get_output_filename`: the directory of the source (`.` when it has none), a `/`, the
      file name without its last extension, and `.convert.jsonl`. */
  function GetOutputFilename(source: string): (r: string)
    ensures EndsWith(r, ".convert.jsonl")
    ensures '/' !in source ==> r == "./" + Stem(source) + ".convert.jsonl"
    ensures '/' in source ==> var n := |SplitDirectory(source).1|;
                              r == source[..|source| - n] + Stem(source[|source| - n..]) + ".convert.jsonl"
  {
    var (directory, name) := SplitDirectory(source);
    var r := directory + "/" + Stem(name) + ".convert.jsonl";
    assert r[|r| - 14..] == ".convert.jsonl";
    assert '/' in source ==> source[..|source| - |name|] == directory + "/" && source[|source| - |name|..] == name;
    r
  }

  // ---------------------------------------------------------------------------
  // JSON Lines

  /** What `load_to_jsonl` reports when it cannot produce the values. */
  datatype LoadError = FileNotFound(path: string) | MalformedLine(index: nat, line: string)

  /** `f.readlines()`: the text cut after every newline. */
  function ReadLines(s: string): (lines: seq<string>)
    decreases |s|
  {
    if s == [] then []
    else
      var i := IndexOfChar(s, '\n');
      if i == |s| then [s] else [s[..i + 1]] + ReadLines(s[i + 1..])
  }

  /** The pieces `readlines` returns give the text back, none is empty, and each ends at
      the first newline it holds (every piece but the last ends with one). */
  lemma {:induction false} ReadLinesPieces(s: string)
    ensures Concat(ReadLines(s)) == s
    ensures forall k :: 0 <= k < |ReadLines(s)| ==>
              ReadLines(s)[k] != [] && '\n' !in ReadLines(s)[k][..|ReadLines(s)[k]| - 1]
    ensures forall k :: 0 <= k < |ReadLines(s)| - 1 ==> ReadLines(s)[k][|ReadLines(s)[k]| - 1] == '\n'
    decreases |s|
  {
    if s != [] {
      var i := IndexOfChar(s, '\n');
      if i < |s| {
        var rest := s[i + 1..];
        ReadLinesPieces(rest);
        assert s == s[..i + 1] + rest;
        ConcatCons(s[..i + 1], ReadLines(rest));
        assert s[..i + 1][..i] == s[..i];
      }
    }
  }

  lemma {:induction false} ConcatCons(a: string, rest: seq<string>)
    ensures Concat([a] + rest) == a + Concat(rest)
  {
    if rest != [] {
      assert ([a] + rest)[1..] == rest;
    }
  }

  /** The text of a JSON-Lines file holding `items`: one dumped value and a newline each. */
  function JsonlText(items: seq<Json>, dumps: Json -> string): string
    decreases |items|
  {
    if items == [] then "" else dumps(items[0]) + "\n" + JsonlText(items[1..], dumps)
  }

  /** One `json.loads` per line, in file order; the first line that does not parse stops the
      load with its index and text. */
  function ParseLines(lines: seq<string>, loads: string -> Option<Json>): Result<seq<Json>, LoadError>
    decreases |lines|
  {
    if lines == [] then Success([])
    else
      var n := |lines| - 1;
      match ParseLines(lines[..n], loads)
      case Failure(e) => Failure(e)
      case Success(values) =>
        match loads(lines[n])
        case None => Failure(MalformedLine(n, lines[n]))
        case Some(v) => Success(values + [v])
  }

  /** A load that has failed on some prefix fails the same way on every longer prefix. */
  lemma {:induction false} ParseLinesKeepsFailure(lines: seq<string>, loads: string -> Option<Json>, i: nat, j: nat)
    requires i <= j <= |lines| && ParseLines(lines[..i], loads).Failure?
    ensures ParseLines(lines[..j], loads) == ParseLines(lines[..i], loads)
    decreases j - i
  {
    if i < j {
      ParseLinesKeepsFailure(lines, loads, i, j - 1);
      assert lines[..j][..j - 1] == lines[..j - 1];
    }
  }

  /** Parsing succeeds exactly when every line parses, and then gives one value per line. */
  lemma {:induction false} ParseLinesSucceeds(lines: seq<string>, loads: string -> Option<Json>)
    ensures ParseLines(lines, loads).Success? <==> forall k :: 0 <= k < |lines| ==> loads(lines[k]).Some?
    ensures ParseLines(lines, loads).Success? ==>
              |ParseLines(lines, loads).value| == |lines|
              && forall k :: 0 <= k < |lines| ==> loads(lines[k]) == Some(ParseLines(lines, loads).value[k])
    decreases |lines|
  {
    if lines != [] {
      var n := |lines| - 1;
      ParseLinesSucceeds(lines[..n], loads);
    }
  }

  /** The first line of a text that holds a newline. */
  lemma {:induction false} ReadLinesFirst(s: string, i: nat)
    requires i < |s| && IndexOfChar(s, '\n') == i
    ensures ReadLines(s) == [s[..i + 1]] + ReadLines(s[i + 1..])
  {
  }

  /** The first line of `a + b` is that of `a` when `a` holds a newline. */
  lemma {:induction false} ReadLinesFirstOfConcat(a: string, b: string, i: nat)
    requires i < |a| && IndexOfChar(a, '\n') == i
    ensures ReadLines(a + b) == [a[..i + 1]] + ReadLines(a[i + 1..] + b)
  {
    assert a[i] in a;
    IndexOfCharPrefix(a, b, '\n');
    ReadLinesFirst(a + b, i);
    assert (a + b)[..i + 1] == a[..i + 1];
    assert (a + b)[i + 1..] == a[i + 1..] + b;
  }

  lemma {:induction false} JsonlTextAppend(xs: seq<Json>, ys: seq<Json>, dumps: Json -> string)
    ensures JsonlText(xs + ys, dumps) == JsonlText(xs, dumps) + JsonlText(ys, dumps)
    decreases |xs|
  {
    if xs == [] {
      assert xs + ys == ys;
    } else {
      assert (xs + ys)[0] == xs[0];
      assert (xs + ys)[1..] == xs[1..] + ys;
      JsonlTextAppend(xs[1..], ys, dumps);
      var head := dumps(xs[0]) + "\n";
      assert JsonlText(xs + ys, dumps) == head + JsonlText(xs[1..] + ys, dumps);
      assert JsonlText(xs, dumps) == head + JsonlText(xs[1..], dumps);
    }
  }

  lemma {:induction false} JsonlTextSnoc(xs: seq<Json>, x: Json, dumps: Json -> string)
    ensures JsonlText(xs + [x], dumps) == JsonlText(xs, dumps) + dumps(x) + "\n"
  {
    JsonlTextAppend(xs, [x], dumps);
  }

  /** Only the empty list makes an empty file, and a non-empty file ends with a newline. */
  lemma {:induction false} JsonlTextShape(xs: seq<Json>, dumps: Json -> string)
    ensures JsonlText(xs, dumps) == [] <==> xs == []
    ensures xs != [] ==> JsonlText(xs, dumps)[|JsonlText(xs, dumps)| - 1] == '\n'
  {
    if xs != [] {
      assert xs == xs[..|xs| - 1] + [xs[|xs| - 1]];
      JsonlTextSnoc(xs[..|xs| - 1], xs[|xs| - 1], dumps);
    }
  }

  /** The lines of a JSON-Lines file holding `xs`, as `readlines` returns them. */
  function DumpedLines(xs: seq<Json>, dumps: Json -> string): (lines: seq<string>)
    ensures |lines| == |xs|
    ensures forall k :: 0 <= k < |xs| ==> lines[k] == dumps(xs[k]) + "\n"
    decreases |xs|
  {
    if xs == [] then [] else [dumps(xs[0]) + "\n"] + DumpedLines(xs[1..], dumps)
  }

  /** The lines of a written JSON-Lines file are the dumped values, one per line. */
  lemma {:induction false} ReadJsonlText(xs: seq<Json>, codec: Codec)
    requires LineSafe(codec)
    ensures ReadLines(JsonlText(xs, codec.dumps)) == DumpedLines(xs, codec.dumps)
    decreases |xs|
  {
    if xs != [] {
      var line := codec.dumps(xs[0]) + "\n";
      var rest := JsonlText(xs[1..], codec.dumps);
      assert '\n' !in codec.dumps(xs[0]);
      assert IndexOfChar(line, '\n') == |line| - 1 by {
        assert line[..|line| - 1] == codec.dumps(xs[0]);
        IndexOfCharAt(line, '\n', |line| - 1);
      }
      ReadLinesFirstOfConcat(line, rest, |line| - 1);
      assert line[..|line|] == line && line[|line|..] + rest == rest;
      ReadJsonlText(xs[1..], codec);
      assert JsonlText(xs, codec.dumps) == line + rest;
    }
  }

  /** Round trip: loading what was written gives back the values, in order. */
  lemma {:induction false} JsonlRoundTrip(xs: seq<Json>, codec: Codec)
    requires LineSafe(codec)
    ensures ParseLines(ReadLines(JsonlText(xs, codec.dumps)), codec.loads) == Success(xs)
  {
    ReadJsonlText(xs, codec);
    var lines := DumpedLines(xs, codec.dumps);
    forall k | 0 <= k < |lines| ensures codec.loads(lines[k]) == Some(xs[k]) {
      assert lines[k] == codec.dumps(xs[k]) + "\n";
    }
    ParseLinesSucceeds(lines, codec.loads);
    var r := ParseLines(lines, codec.loads);
    assert r.Success?;
    assert r.value == xs;
  }

  // ---------------------------------------------------------------------------
  // The file system

  /** How `open` prepares a file for writing: 'a' keeps its text, 'w' empties it. */
  datatype WriteMode = Append | Truncate

  /** The files of the machine, each path mapped to its text (a zero-byte file is ""). */
  class FileStore {
    var files: map<string, string>

    constructor (files: map<string, string>)
      ensures this.files == files
    {
      this.files := files;
    }

    /** `is_exist_file`: false for an absent path; false for a zero-byte file, which it also
        deletes; true for any other file, which it leaves as it is. */
    method IsExistFile(path: string) returns (present: bool)
      modifies this
      ensures present <==> path in old(files) && old(files)[path] != ""
      ensures files == if path in old(files) && old(files)[path] == "" then old(files) - {path} else old(files)
    {
      if path in files {
        if files[path] == "" {
          files := files - {path};
          present := false;
        } else {
          present := true;
        }
      } else {
        present := false;
      }
    }

    /** `load_to_jsonl`: reads the lines and parses them one after another, stopping at the
        first line that does not parse; opening an absent path raises. */
    method LoadToJsonl(path: string, loads: string -> Option<Json>) returns (r: Result<seq<Json>, LoadError>)
      ensures path !in files ==> r == Failure(FileNotFound(path))
      ensures path in files ==> r == ParseLines(ReadLines(files[path]), loads)
    {
      if path !in files {
        return Failure(FileNotFound(path));
      }
      var lines := ReadLines(files[path]);
      var output: seq<Json> := [];
      var i := 0;
      while i < |lines|
        invariant 0 <= i <= |lines|
        invariant ParseLines(lines[..i], loads) == Success(output)
      {
        assert lines[..i + 1][..i] == lines[..i];
        match loads(lines[i])
        case None =>
          ParseLinesKeepsFailure(lines, loads, i + 1, |lines|);
          assert lines[..|lines|] == lines;
          return Failure(MalformedLine(i, lines[i]));
        case Some(v) =>
          output := output + [v];
        i := i + 1;
      }
      assert lines[..i] == lines;
      r := Success(output);
    }

    /** `open(path, mode)` for writing: 'w' creates or empties the file, 'a' creates it
        when it is absent and otherwise keeps its text. */
    method Open(path: string, mode: WriteMode)
      modifies this
      ensures files == old(files)[path := if mode == Truncate || path !in old(files) then "" else old(files)[path]]
    {
      var text := if mode == Truncate || path !in files then "" else files[path];
      files := files[path := text];
    }

    /** `fp.write(text)` on a file opened for writing. */
    method Write(path: string, text: string)
      requires path in files
      modifies this
      ensures files == old(files)[path := old(files)[path] + text]
    {
      files := files[path := files[path] + text];
    }

    /** `save_to_jsonl`: a list is written as a fresh JSON-Lines file, one dumped item per
        line; anything else raises and nothing is written. */
    method SaveToJsonl(data: Json, filename: string, dumps: Json -> string) returns (saved: bool)
      modifies this
      ensures saved <==> data.Arr?
      ensures saved ==> files == old(files)[filename := JsonlText(data.items, dumps)]
      ensures !saved ==> files == old(files)
    {
      if !data.Arr? {
        return false;
      }
      Open(filename, Truncate);
      var i := 0;
      while i < |data.items|
        invariant 0 <= i <= |data.items|
        invariant files == old(files)[filename := JsonlText(data.items[..i], dumps)]
      {
        JsonlTextSnoc(data.items[..i], data.items[i], dumps);
        assert data.items[..i + 1] == data.items[..i] + [data.items[i]];
        Write(filename, dumps(data.items[i]) + "\n");
        assert files[filename] == JsonlText(data.items[..i + 1], dumps);
        i := i + 1;
      }
      assert data.items[..i] == data.items;
      saved := true;
    }
  }
}

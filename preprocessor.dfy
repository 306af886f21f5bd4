/** The Kato import preprocessor (`kato/compiler/preprocessor.py`).

    A source line whose stripped text starts with `import ` names a manifest
    (a `.kh` file) relative to the main file's directory, except the standard
    library module `filesystem`, which is only recorded.  A manifest lists
    `$export name from file.kato` lines; each exported function is lexed and
    parsed out of its file and recorded once.  Manifests are processed once
    per path and exports once per `path:name`.

    The file system is the map `files` from path to content; a path exists
    when it is a key.  Paths are joined with `/`, and `""` stands for the
    current directory. */
module Preprocessor {
  import opened Base
  import opened Strings
  import opened KatoTokens
  import opened KatoAst
  import opened KatoLexer
  import opened KatoParser

  // ---------------------------------------------------------------------
  // Import lines

  predicate IsImportLine(line: string) {
    StartsWith(Strip(line), "import ")
  }

  /** The path of an import line: the text after `import `, without one
      trailing `;`, stripped. */
  function ImportPath(line: string): string
    requires IsImportLine(line)
  {
    var stripped := Strip(line);
    assert stripped[6] == ' ';
    if EndsWith(stripped, ";") then Strip(stripped[7..|stripped| - 1]) else Strip(stripped[7..])
  }

  /** The import paths of the lines, in order. */
  function ImportsOf(lines: seq<string>): seq<string> {
    if lines == [] then []
    else (if IsImportLine(lines[0]) then [ImportPath(lines[0])] else []) + ImportsOf(lines[1..])
  }

  /** None of the lines is an import line. */
  predicate NoImports(lines: seq<string>) {
    lines == [] || (!IsImportLine(lines[0]) && NoImports(lines[1..]))
  }

  /** None of the lines holds a line break. */
  predicate SingleLines(lines: seq<string>) {
    forall i :: 0 <= i < |lines| ==> '\n' !in lines[i]
  }

  /** The lines that are not import lines, unchanged and in order. */
  function KeptLines(lines: seq<string>): (r: seq<string>)
    ensures NoImports(r) && |r| <= |lines|
  {
    if lines == [] then []
    else
      var rest := KeptLines(lines[1..]);
      if IsImportLine(lines[0]) then rest
      else
        assert ([lines[0]] + rest)[1..] == rest;
        [lines[0]] + rest
  }

  /** What `extract_imports` returns: the import paths of the source's lines. */
  function ImportPaths(source: string): seq<string> {
    ImportsOf(Split(source, '\n'))
  }

  /** What `remove_imports` returns: the source without its import lines. */
  function ImportsRemoved(source: string): string {
    Join(KeptLines(Split(source, '\n')), "\n")
  }

  /** Every line is either extracted as an import or kept, never both. */
  lemma {:induction false} ImportsPartition(lines: seq<string>)
    ensures |ImportsOf(lines)| + |KeptLines(lines)| == |lines|
  {
    if lines != [] {
      ImportsPartition(lines[1..]);
    }
  }

  /** Lines without imports are kept as they are, and yield no imports. */
  lemma {:induction false} NoImportLines(lines: seq<string>)
    requires NoImports(lines)
    ensures KeptLines(lines) == lines && ImportsOf(lines) == []
  {
    if lines != [] {
      var tail := lines[1..];
      NoImportLines(tail);
      assert !IsImportLine(lines[0]);
      calc {
        KeptLines(lines);
        [lines[0]] + KeptLines(tail);
        [lines[0]] + tail;
        { assert lines == [lines[0]] + tail; }
        lines;
      }
    }
  }

  /** Keeping lines keeps them free of line breaks. */
  lemma {:induction false} KeptSingleLines(lines: seq<string>)
    requires SingleLines(lines)
    ensures SingleLines(KeptLines(lines))
  {
    if lines != [] {
      assert SingleLines(lines[1..]) by {
        forall i | 0 <= i < |lines[1..]| ensures '\n' !in lines[1..][i] {
          assert lines[1..][i] == lines[i + 1];
        }
      }
      KeptSingleLines(lines[1..]);
      var rest := KeptLines(lines[1..]);
      if !IsImportLine(lines[0]) {
        assert KeptLines(lines) == [lines[0]] + rest;
        forall i | 0 <= i < |KeptLines(lines)| ensures '\n' !in KeptLines(lines)[i] {
          if i > 0 { assert KeptLines(lines)[i] == rest[i - 1]; }
        }
      }
    }
  }

  /** The lines of the text `remove_imports` returns are exactly the kept lines. */
  lemma LinesOfRemoved(source: string)
    ensures var kept := KeptLines(Split(source, '\n'));
      kept != [] ==> Split(ImportsRemoved(source), '\n') == kept
  {
    var lines := Split(source, '\n');
    var kept := KeptLines(lines);
    if kept != [] {
      KeptSingleLines(lines);
      SplitJoin(kept, '\n');
    }
  }

  /** `remove_imports` is idempotent. */
  lemma RemoveImportsIdempotent(source: string)
    ensures ImportsRemoved(ImportsRemoved(source)) == ImportsRemoved(source)
  {
    var kept := KeptLines(Split(source, '\n'));
    LinesOfRemoved(source);
    if kept == [] {
      assert ImportsRemoved(source) == "";
      assert Split("", '\n') == [""] by { assert IndexOf("", ['\n'], 0) == None; }
      assert !IsImportLine("");
      assert KeptLines([""]) == [""];
    } else {
      NoImportLines(kept);
    }
  }

  /** Nothing is left to extract once the imports are removed. */
  lemma ExtractAfterRemove(source: string)
    ensures ImportPaths(ImportsRemoved(source)) == []
  {
    var kept := KeptLines(Split(source, '\n'));
    LinesOfRemoved(source);
    if kept == [] {
      assert ImportsRemoved(source) == "";
      assert Split("", '\n') == [""] by { assert IndexOf("", ['\n'], 0) == None; }
      assert !IsImportLine("");
    } else {
      NoImportLines(kept);
    }
  }

  // ---------------------------------------------------------------------
  // Manifests

  predicate IsExportLine(line: string) {
    StartsWith(Strip(line), "$export ")
  }

  /** The text of an export line after `$export `, stripped. */
  function ExportText(line: string): string
    requires IsExportLine(line)
  {
    Strip(Strip(line)[8..])
  }

  /** `(name, file)` of an export text holding ` from `: the stripped first
      and second pieces of its split on ` from `. */
  function ExportEntry(text: string, k: nat): (string, string)
    requires OccursAt(text, " from ", k)
  {
    var rest := text[k + 6..];
    var second := match IndexOf(rest, " from ", 0) case None => rest case Some(j) => rest[..j];
    (Strip(text[..k]), Strip(second))
  }

  /** The entries `acc` already read, followed by what the rest yields. */
  function Prefixed(acc: seq<(string, string)>, r: Result<seq<(string, string)>>): Result<seq<(string, string)>> {
    match r
    case Ok(rest) => Ok(acc + rest)
    case Err(e) => Err(e)
  }

  /** One manifest line: no entry unless it is an export line; the entry of
      an export line holding ` from `; the error naming the manifest for one
      without. */
  function ExportOfLine(line: string, path: string): Result<Option<(string, string)>> {
    if IsExportLine(line) then
      var text := ExportText(line);
      match IndexOf(text, " from ", 0)
      case None => Err(SyntaxError(InvalidExport(path), 1, 1))
      case Some(k) => Ok(Some(ExportEntry(text, k)))
    else
      Ok(None)
  }

  /** The export entries of the manifest lines, in order; the first export
      line without ` from ` is an error naming the manifest. */
  function ExportsOf(lines: seq<string>, path: string): Result<seq<(string, string)>> {
    if lines == [] then Ok([])
    else
      match ExportOfLine(lines[0], path)
      case Err(e) => Err(e)
      case Ok(None) => ExportsOf(lines[1..], path)
      case Ok(Some(entry)) => Prefixed([entry], ExportsOf(lines[1..], path))
  }

  /** What `parse_kh_file` returns: the export entries of a manifest. */
  function Manifest(content: string, path: string): Result<seq<(string, string)>> {
    ExportsOf(Split(content, '\n'), path)
  }

  /** The first line of a non-empty list is kept unless it is an import. */
  lemma KeptHead(lines: seq<string>)
    requires lines != []
    ensures KeptLines(lines) == (if IsImportLine(lines[0]) then [] else [lines[0]]) + KeptLines(lines[1..])
  {
  }

  /** One step of the `remove_imports` loop. */
  lemma {:induction false} KeptStep(lines: seq<string>, i: nat, result: seq<string>)
    requires i < |lines| && result + KeptLines(lines[i..]) == KeptLines(lines)
    ensures (if IsImportLine(lines[i]) then result else result + [lines[i]]) + KeptLines(lines[i + 1..])
      == KeptLines(lines)
  {
    var tail := lines[i..];
    assert tail[0] == lines[i] && tail[1..] == lines[i + 1..];
    KeptHead(tail);
    var rest := KeptLines(lines[i + 1..]);
    if !IsImportLine(lines[i]) {
      Associative(result, [lines[i]], rest);
    } else {
      assert [] + rest == rest;
    }
  }

  lemma PrefixedNothing(r: Result<seq<(string, string)>>)
    ensures Prefixed([], r) == r
  {
    if r.Ok? {
      assert [] + r.value == r.value;
    }
  }

  lemma PrefixedAll(acc: seq<(string, string)>)
    ensures Prefixed(acc, Ok([])) == Ok(acc)
  {
    assert acc + [] == acc;
  }

  lemma PrefixedAppend(a: seq<(string, string)>, b: seq<(string, string)>, r: Result<seq<(string, string)>>)
    ensures Prefixed(a, Prefixed(b, r)) == Prefixed(a + b, r)
  {
    if r.Ok? {
      Associative(a, b, r.value);
    }
  }

  /** One step of the `parse_kh_file` loop. */
  lemma {:induction false} ManifestStep(lines: seq<string>, i: nat, exports: seq<(string, string)>, path: string)
    requires i < |lines| && Prefixed(exports, ExportsOf(lines[i..], path)) == ExportsOf(lines, path)
    ensures match ExportOfLine(lines[i], path)
      case Err(e) => ExportsOf(lines, path) == Err(e)
      case Ok(None) => Prefixed(exports, ExportsOf(lines[i + 1..], path)) == ExportsOf(lines, path)
      case Ok(Some(entry)) => Prefixed(exports + [entry], ExportsOf(lines[i + 1..], path)) == ExportsOf(lines, path)
  {
    var tail := lines[i..];
    assert tail[0] == lines[i] && tail[1..] == lines[i + 1..];
    match ExportOfLine(lines[i], path)
    case Err(_) =>
    case Ok(None) =>
    case Ok(Some(entry)) =>
      PrefixedAppend(exports, [entry], ExportsOf(lines[i + 1..], path));
  }

  function CountExports(lines: seq<string>): nat {
    if lines == [] then 0 else (if IsExportLine(lines[0]) then 1 else 0) + CountExports(lines[1..])
  }

  /** Every export line of the manifest has ` from `. */
  predicate ValidExports(lines: seq<string>) {
    lines == [] || ((IsExportLine(lines[0]) ==> Contains(ExportText(lines[0]), " from ")) && ValidExports(lines[1..]))
  }

  /** A manifest is accepted exactly when each of its export lines has
      ` from `, and then yields one entry per export line; otherwise the
      error names the manifest and is reported at 1:1. */
  lemma {:induction false} ExportsOfSpec(lines: seq<string>, path: string)
    ensures ExportsOf(lines, path).Ok? <==> ValidExports(lines)
    ensures ExportsOf(lines, path).Err? ==> ExportsOf(lines, path).error == SyntaxError(InvalidExport(path), 1, 1)
    ensures var r := ExportsOf(lines, path);
      r.Ok? ==> |r.value| == CountExports(lines)
  {
    if lines != [] {
      ExportOfLineSpec(lines[0], path);
      ExportsOfSpec(lines[1..], path);
    }
  }

  /** A line is rejected exactly when it is an export line without ` from `,
      and yields an entry exactly when it is one with it. */
  lemma ExportOfLineSpec(line: string, path: string)
    ensures ExportOfLine(line, path).Err? <==> IsExportLine(line) && !Contains(ExportText(line), " from ")
    ensures ExportOfLine(line, path).Err? ==> ExportOfLine(line, path).error == SyntaxError(InvalidExport(path), 1, 1)
    ensures ExportOfLine(line, path) == Ok(None) <==> !IsExportLine(line)
  {
  }

  // ---------------------------------------------------------------------
  // Paths and the file system

  /** `dir / name`. */
  function JoinPath(dir: string, name: string): string {
    if dir == "" then name else dir + "/" + name
  }

  /** `path.parent`: the text before the last `/`, or the current directory. */
  function Parent(path: string): string {
    if path == [] then ""
    else if path[|path| - 1] == '/' then path[..|path| - 1]
    else Parent(path[..|path| - 1])
  }

  /** The functions of a Kato file: its tokens, parsed as a program. */
  function ParseFile(content: string, keywords: map<string, Kind>): Result<seq<Function>>
    requires KeywordTable(keywords)
  {
    var tokens :- Lex(content, keywords);
    LexShape(content, keywords);
    var program :- Parse(tokens);
    Ok(program.functions)
  }

  /** A keyword table of the Kato lexer. */
  type Keywords = k: map<string, Kind> | KeywordTable(k) witness map[]

  /** The lexer and parser run that `process_export` performs on an exported
      file, as the function the preprocessor is given. */
  function FileParser(keywords: Keywords): string -> Result<seq<Function>> {
    content => ParseFile(content, keywords)
  }

  /** The index of the first function called `name` at or after `from`. */
  function FirstNamed(fs: seq<Function>, name: string, from: nat): (r: Option<nat>)
    ensures r.Some? ==> from <= r.value < |fs| && fs[r.value].name == name
    ensures r.Some? ==> forall j :: from <= j < r.value ==> fs[j].name != name
    ensures r.None? ==> forall j :: from <= j < |fs| ==> fs[j].name != name
    decreases |fs| - from
  {
    if from >= |fs| then None
    else if fs[from].name == name then Some(from)
    else FirstNamed(fs, name, from + 1)
  }

  // ---------------------------------------------------------------------
  // The preprocessor's state and its steps

  /** `processed_files`, `imported_functions`, `all_functions`, `stdlib_imports`. */
  datatype State = State(processed: set<string>, imported: map<string, Function>,
                         all: seq<Function>, stdlib: set<string>)

  const Initial := State({}, map[], [], {})

  /** `process_export` of the function `name` from `file` in directory `dir`. */
  function ExportStep(files: map<string, string>, parse: string -> Result<seq<Function>>, st: State,
                      name: string, file: string, dir: string): Result<State>
  {
    var path := JoinPath(dir, file);
    if path !in files then Err(SyntaxError(ExportFileNotFound(file), 1, 1))
    else
      var key := path + ":" + name;
      if key in st.processed then Ok(st)
      else
        var fs :- parse(files[path]);
        match FirstNamed(fs, name, 0)
        case None => Err(SyntaxError(ExportNotFound(name, file), 1, 1))
        case Some(i) =>
          if name == "main" then Err(SyntaxError(MainExported(file), 1, 1))
          else if name in st.imported then Err(SyntaxError(AlreadyImported(name), 1, 1))
          else Ok(State(st.processed + {key}, st.imported[name := fs[i]], st.all + [fs[i]], st.stdlib))
  }

  /** The export loop of `process_import`. */
  function ExportAll(files: map<string, string>, parse: string -> Result<seq<Function>>, st: State,
                     exports: seq<(string, string)>, dir: string): Result<State>
    decreases exports
  {
    if exports == [] then Ok(st)
    else
      var st' :- ExportStep(files, parse, st, exports[0].0, exports[0].1, dir);
      ExportAll(files, parse, st', exports[1..], dir)
  }

  /** `process_import` of `path`, relative to `baseDir`. */
  function ImportStep(files: map<string, string>, parse: string -> Result<seq<Function>>, baseDir: string,
                      st: State, path: string): Result<State>
  {
    var khPath := JoinPath(baseDir, path);
    if khPath !in files then Err(SyntaxError(ImportNotFound(path), 1, 1))
    else if khPath in st.processed then Ok(st)
    else
      var exports :- Manifest(files[khPath], khPath);
      ExportAll(files, parse, st.(processed := st.processed + {khPath}), exports, Parent(khPath))
  }

  /** The import loop of `process`. */
  function ImportAll(files: map<string, string>, parse: string -> Result<seq<Function>>, baseDir: string,
                     st: State, imports: seq<string>): Result<State>
    decreases imports
  {
    if imports == [] then Ok(st)
    else
      var st' :-
        if imports[0] == "filesystem" then Ok(st.(stdlib := st.stdlib + {imports[0]}))
        else ImportStep(files, parse, baseDir, st, imports[0]);
      ImportAll(files, parse, baseDir, st', imports[1..])
  }

  /** `process`: the source without its import lines, and the state after all imports. */
  function Preprocess(files: map<string, string>, parse: string -> Result<seq<Function>>, baseDir: string,
                      st: State, source: string): Result<(string, State)>
  {
    var st' :- ImportAll(files, parse, baseDir, st, ImportPaths(source));
    Ok((ImportsRemoved(source), st'))
  }

  // ---------------------------------------------------------------------
  // What the steps keep

  /** The imported functions are exactly the recorded functions, by name,
      none twice and none of them `main`. */
  predicate Consistent(st: State) {
    && st.imported.Keys == NameSet(st.all)
    && DistinctNames(st.all)
    && (forall i :: 0 <= i < |st.all| ==> st.imported[st.all[i].name] == st.all[i])
    && "main" !in st.imported
  }

  /** `st'` records one more function than `st`, under a new name, and forgets nothing. */
  predicate GrowsByOne(st: State, st': State) {
    && |st'.all| == |st.all| + 1 && st'.all[..|st.all|] == st.all
    && var f := st'.all[|st.all|];
       f.name !in st.imported && st'.imported == st.imported[f.name := f]
  }

  /** Other steps only remember more. */
  predicate Extends(st: State, st': State) {
    && st.processed <= st'.processed && st.stdlib <= st'.stdlib
    && |st.all| <= |st'.all| && st'.all[..|st.all|] == st.all
  }

  /** Adding one function under a new name keeps the state consistent. */
  lemma ConsistentAdd(st: State, f: Function, processed: set<string>)
    requires Consistent(st) && f.name !in st.imported && f.name != "main"
    ensures Consistent(State(processed, st.imported[f.name := f], st.all + [f], st.stdlib))
  {
    var all := st.all + [f];
    NameSetAppend(st.all, f);
    forall i, j | 0 <= i < j < |all| ensures all[i].name != all[j].name {
      if j == |st.all| {
        assert all[i] == st.all[i];
        assert all[i].name in NameSet(st.all);
      } else {
        assert all[i] == st.all[i] && all[j] == st.all[j];
      }
    }
    forall i | 0 <= i < |all| ensures st.imported[f.name := f][all[i].name] == all[i] {
      if i < |st.all| {
        assert all[i] == st.all[i];
        assert all[i].name in NameSet(st.all);
      }
    }
  }

  /** A successful export either was already done and changes nothing, or
      records exactly one function; the state stays consistent. */
  lemma ExportStepKeeps(files: map<string, string>, parse: string -> Result<seq<Function>>, st: State,
                        name: string, file: string, dir: string)
    requires Consistent(st)
    ensures var r := ExportStep(files, parse, st, name, file, dir);
      r.Ok? ==> && Consistent(r.value) && Extends(st, r.value)
                && (r.value == st || (GrowsByOne(st, r.value) && r.value.all[|st.all|].name == name))
  {
    var r := ExportStep(files, parse, st, name, file, dir);
    var path := JoinPath(dir, file);
    if r.Ok? && path in files && path + ":" + name !in st.processed {
      var fs := parse(files[path]).value;
      var i := FirstNamed(fs, name, 0).value;
      ConsistentAdd(st, fs[i], st.processed + {path + ":" + name});
      assert (st.all + [fs[i]])[..|st.all|] == st.all;
    }
  }

  lemma {:induction false} ExportAllKeeps(files: map<string, string>, parse: string -> Result<seq<Function>>, st: State,
                                          exports: seq<(string, string)>, dir: string)
    requires Consistent(st)
    decreases exports
    ensures var r := ExportAll(files, parse, st, exports, dir);
      r.Ok? ==> Consistent(r.value) && Extends(st, r.value) && r.value.stdlib == st.stdlib
  {
    var r := ExportAll(files, parse, st, exports, dir);
    if r.Ok? && exports != [] {
      var st' := ExportStep(files, parse, st, exports[0].0, exports[0].1, dir).value;
      ExportStepKeeps(files, parse, st, exports[0].0, exports[0].1, dir);
      ExportAllKeeps(files, parse, st', exports[1..], dir);
      ExtendsTrans(st, st', r.value);
    }
  }

  lemma ExtendsTrans(a: State, b: State, c: State)
    requires Extends(a, b) && Extends(b, c)
    ensures Extends(a, c)
  {
    assert c.all[..|a.all|] == c.all[..|b.all|][..|a.all|];
  }

  /** Preprocessing keeps the state consistent, only remembers more, and
      adds to the standard library imports nothing but `filesystem`, which it
      records whenever it is imported. */
  lemma {:induction false} ImportAllKeeps(files: map<string, string>, parse: string -> Result<seq<Function>>, baseDir: string,
                                          st: State, imports: seq<string>)
    requires Consistent(st)
    decreases imports
    ensures var r := ImportAll(files, parse, baseDir, st, imports);
      r.Ok? ==> && Consistent(r.value) && Extends(st, r.value)
                && r.value.stdlib <= st.stdlib + {"filesystem"}
                && ("filesystem" in imports ==> "filesystem" in r.value.stdlib)
  {
    var r := ImportAll(files, parse, baseDir, st, imports);
    if r.Ok? && imports != [] {
      var st' := if imports[0] == "filesystem" then st.(stdlib := st.stdlib + {imports[0]})
                 else ImportStep(files, parse, baseDir, st, imports[0]).value;
      if imports[0] != "filesystem" {
        var khPath := JoinPath(baseDir, imports[0]);
        if khPath !in st.processed {
          var exports := Manifest(files[khPath], khPath).value;
          ExportAllKeeps(files, parse, st.(processed := st.processed + {khPath}), exports, Parent(khPath));
        }
      }
      ImportAllKeeps(files, parse, baseDir, st', imports[1..]);
      ExtendsTrans(st, st', r.value);
      assert "filesystem" in imports ==> imports[0] == "filesystem" || "filesystem" in imports[1..];
    }
  }

  /** A manifest or an export already processed is skipped without any change. */
  lemma Memoised(files: map<string, string>, parse: string -> Result<seq<Function>>, st: State, dir: string,
                 path: string, name: string, file: string)
    ensures JoinPath(dir, path) in files && JoinPath(dir, path) in st.processed ==>
      ImportStep(files, parse, dir, st, path) == Ok(st)
    ensures JoinPath(dir, file) in files && JoinPath(dir, file) + ":" + name in st.processed ==>
      ExportStep(files, parse, st, name, file, dir) == Ok(st)
  {
  }

  // ---------------------------------------------------------------------
  // The preprocessor object

  /** Whether the method result and the state reached agree with a step's specification. */
  predicate Reached(r: Result<()>, st: State, spec: Result<State>) {
    match spec
    case Ok(s) => r == Ok(()) && st == s
    case Err(e) => r == Err(e)
  }

  class Preprocessor {
    const baseDir: string
    const files: map<string, string>
    const parse: string -> Result<seq<Function>>
    var processedFiles: set<string>
    var importedFunctions: map<string, Function>
    var allFunctions: seq<Function>
    var stdlibImports: set<string>

    function Current(): State
      reads this
    {
      State(processedFiles, importedFunctions, allFunctions, stdlibImports)
    }

    constructor (mainFilePath: string, files: map<string, string>, parse: string -> Result<seq<Function>>)
      ensures Current() == Initial
      ensures baseDir == Parent(mainFilePath) && this.files == files && this.parse == parse
    {
      baseDir := Parent(mainFilePath);
      this.files := files;
      this.parse := parse;
      processedFiles := {};
      importedFunctions := map[];
      allFunctions := [];
      stdlibImports := {};
    }

    /** `extract_imports`: the loop over the lines of the source. */
    method ExtractImports(sourceCode: string) returns (imports: seq<string>)
      ensures imports == ImportPaths(sourceCode)
    {
      var lines := Split(sourceCode, '\n');
      imports := [];
      for i := 0 to |lines|
        invariant imports + ImportsOf(lines[i..]) == ImportsOf(lines)
      {
        assert lines[i..][1..] == lines[i + 1..];
        ghost var rest := ImportsOf(lines[i + 1..]);
        if IsImportLine(lines[i]) {
          assert imports + ([ImportPath(lines[i])] + rest) == (imports + [ImportPath(lines[i])]) + rest;
          imports := imports + [ImportPath(lines[i])];
        } else {
          assert [] + rest == rest;
        }
      }
      assert lines[|lines|..] == [];
      assert imports + [] == imports;
    }

    /** `remove_imports`: the loop keeping the lines that are not imports. */
    method RemoveImports(sourceCode: string) returns (text: string)
      ensures text == ImportsRemoved(sourceCode)
    {
      var lines := Split(sourceCode, '\n');
      var result := [];
      for i := 0 to |lines|
        invariant result + KeptLines(lines[i..]) == KeptLines(lines)
      {
        KeptStep(lines, i, result);
        if !IsImportLine(lines[i]) {
          result := result + [lines[i]];
        }
      }
      assert lines[|lines|..] == [];
      assert result + [] == result;
      text := Join(result, "\n");
    }

    /** `parse_kh_file`: the loop over the manifest lines, failing at the
        first export line without ` from `. */
    method ParseKhFile(content: string, khPath: string) returns (r: Result<seq<(string, string)>>)
      ensures r == Manifest(content, khPath)
    {
      var lines := Split(content, '\n');
      var exports := [];
      assert lines[0..] == lines;
      PrefixedNothing(ExportsOf(lines, khPath));
      for i := 0 to |lines|
        invariant Prefixed(exports, ExportsOf(lines[i..], khPath)) == ExportsOf(lines, khPath)
      {
        ManifestStep(lines, i, exports, khPath);
        var entry :- ExportOfLine(lines[i], khPath);
        if entry.Some? {
          exports := exports + [entry.value];
        }
      }
      assert lines[|lines|..] == [];
      PrefixedAll(exports);
      return Ok(exports);
    }

    method Process(source: string) returns (r: Result<(string, map<string, Function>)>)
      modifies this
      ensures match Preprocess(files, parse, baseDir, old(Current()), source)
        case Ok(v) => r == Ok((v.0, v.1.imported)) && Current() == v.1
        case Err(e) => r == Err(e)
    {
      var imports := ExtractImports(source);
      for i := 0 to |imports|
        invariant ImportAll(files, parse, baseDir, Current(), imports[i..])
          == ImportAll(files, parse, baseDir, old(Current()), imports)
      {
        assert imports[i..][1..] == imports[i + 1..];
        if imports[i] == "filesystem" {
          stdlibImports := stdlibImports + {imports[i]};
        } else {
          var _ :- ProcessImport(imports[i]);
        }
      }
      assert imports[|imports|..] == [];
      var sourceWithoutImports := RemoveImports(source);
      return Ok((sourceWithoutImports, importedFunctions));
    }

    method ProcessImport(importPath: string) returns (r: Result<()>)
      modifies this
      ensures Reached(r, Current(), ImportStep(files, parse, baseDir, old(Current()), importPath))
    {
      var khPath := JoinPath(baseDir, importPath);
      if khPath !in files {
        return Err(SyntaxError(ImportNotFound(importPath), 1, 1));
      }
      if khPath in processedFiles {
        return Ok(());
      }
      processedFiles := processedFiles + {khPath};
      var exports :- ParseKhFile(files[khPath], khPath);
      ghost var start := Current();
      for i := 0 to |exports|
        invariant ExportAll(files, parse, Current(), exports[i..], Parent(khPath))
          == ExportAll(files, parse, start, exports, Parent(khPath))
      {
        assert exports[i..][1..] == exports[i + 1..];
        var _ :- ProcessExport(exports[i], Parent(khPath));
      }
      assert exports[|exports|..] == [];
      return Ok(());
    }

    method ProcessExport(exportInfo: (string, string), dir: string) returns (r: Result<()>)
      modifies this
      ensures Reached(r, Current(), ExportStep(files, parse, old(Current()), exportInfo.0, exportInfo.1, dir))
    {
      var funcName, exportFile := exportInfo.0, exportInfo.1;
      var katoPath := JoinPath(dir, exportFile);
      if katoPath !in files {
        return Err(SyntaxError(ExportFileNotFound(exportFile), 1, 1));
      }
      var fileKey := katoPath + ":" + funcName;
      if fileKey in processedFiles {
        return Ok(());
      }
      processedFiles := processedFiles + {fileKey};
      var katoContent := files[katoPath];
      var functions :- parse(katoContent);
      var found := false;
      var i := 0;
      while i < |functions|
        invariant i <= |functions| && !found
        invariant FirstNamed(functions, funcName, i) == FirstNamed(functions, funcName, 0)
        invariant Current() == old(Current()).(processed := old(processedFiles) + {fileKey})
      {
        var func := functions[i];
        if func.name == funcName {
          found := true;
          if func.name == "main" {
            return Err(SyntaxError(MainExported(exportFile), 1, 1));
          }
          if func.name in importedFunctions {
            return Err(SyntaxError(AlreadyImported(func.name), 1, 1));
          }
          importedFunctions := importedFunctions[func.name := func];
          allFunctions := allFunctions + [func];
          break;
        }
        i := i + 1;
      }
      if !found {
        return Err(SyntaxError(ExportNotFound(funcName, exportFile), 1, 1));
      }
      return Ok(());
    }
  }
}

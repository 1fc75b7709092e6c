/**
 * The JasperReports bridge: which jasperstarter binary and templates directory it uses, the
 * command line it builds, where it looks for a report, and when a run counts as done. The
 * filesystem is a predicate `present` on paths (`fs.access` succeeds), the child process is `run` (its exit code and
 * error output), and `tmpBase` is the fresh working directory of the call.
 */
module JasperService {
  import opened Wrappers
  import opened Js
  import opened Sql

  /** The binary locations tried after the environment's. */
  const UsrBin := "/usr/bin/jasperstarter"
  const UsrLocalBin := "/usr/local/bin/jasperstarter"
  const OptBin := "/opt/jasperstarter/bin/jasperstarter"

  /** `[...].filter(Boolean)`: the candidates that are given and non-empty, in order. */
  function Given(cs: seq<Option<string>>): (r: seq<string>)
    ensures |r| <= |cs|
    ensures forall p :: p in r ==> p != ""
  {
    if cs == [] then []
    else (if cs[0].Some? && cs[0].value != "" then [cs[0].value] else []) + Given(cs[1..])
  }

  /** The first candidate is kept when it is given, and dropped otherwise. */
  lemma GivenHead(c: Option<string>, rest: seq<Option<string>>)
    ensures c.Some? && c.value != "" ==> Given([c] + rest) == [c.value] + Given(rest)
    ensures c.None? || c.value == "" ==> Given([c] + rest) == Given(rest)
  {
    assert ([c] + rest)[1..] == rest;
  }

  /** `candidates[0]`: the environment's binary when set, else /usr/bin/jasperstarter. */
  function StarterBin(env: Option<string>): (bin: string)
    ensures env.Some? && env.value != "" ==> bin == env.value
    ensures env.None? || env.value == "" ==> bin == UsrBin
  {
    var fallbacks := [Some(UsrLocalBin), Some(OptBin)];
    GivenHead(Some(UsrBin), fallbacks);
    GivenHead(env, [Some(UsrBin)] + fallbacks);
    assert [env, Some(UsrBin), Some(UsrLocalBin), Some(OptBin)] == [env] + ([Some(UsrBin)] + fallbacks);
    Given([env, Some(UsrBin), Some(UsrLocalBin), Some(OptBin)])[0]
  }

  /** `path.resolve(cwd, p)` without normalisation: an absolute `p` stands, a relative one hangs under `cwd`. */
  function Resolve(cwd: string, p: string): (r: string)
    ensures StartsWith(p, "/") ==> r == p
    ensures !StartsWith(p, "/") ==> r == cwd + "/" + p
  {
    if StartsWith(p, "/") then p else cwd + "/" + p
  }

  /** The templates directory: the environment's, else `src/templates/jasper`, against the working directory. */
  function TemplatesDir(env: Option<string>, cwd: string): (dir: string)
    ensures env.Some? && env.value != "" ==> dir == Resolve(cwd, env.value)
    ensures env.None? || env.value == "" ==> dir == cwd + "/src/templates/jasper"
  {
    assert "src/templates/jasper"[..1] != "/" by { assert "src/templates/jasper"[0] == 's'; }
    assert cwd + "/" + "src/templates/jasper" == cwd + "/src/templates/jasper";
    if env.Some? && env.value != "" then Resolve(cwd, env.value) else Resolve(cwd, "src/templates/jasper")
  }

  /** `path.join(a, b)`, as plain concatenation with one separator. */
  function PathJoin(a: string, b: string): string
  {
    a + "/" + b
  }

  /** Where a report name is looked for, in order: compiled first, then the directory itself; `.jasper` before `.jrxml`. */
  function ReportCandidates(dir: string, name: string): (cs: seq<string>)
    ensures |cs| == 4
    ensures cs[0] == PathJoin(PathJoin(dir, "compiled"), name) + ".jasper"
    ensures cs[1] == PathJoin(PathJoin(dir, "compiled"), name) + ".jrxml"
    ensures cs[2] == PathJoin(dir, name + ".jasper") && cs[3] == PathJoin(dir, name + ".jrxml")
  {
    var base := PathJoin(PathJoin(dir, "compiled"), name);
    [base + ".jasper", base + ".jrxml", PathJoin(dir, name + ".jasper"), PathJoin(dir, name + ".jrxml")]
  }

  /** The index of the first path that is present. */
  function FirstExisting(cs: seq<string>, present: string -> bool): (r: Option<nat>)
    ensures r.Some? ==> r.value < |cs| && present(cs[r.value]) && forall j :: 0 <= j < r.value ==> !present(cs[j])
    ensures r.None? ==> forall j :: 0 <= j < |cs| ==> !present(cs[j])
  {
    if cs == [] then None
    else if present(cs[0]) then Some(0)
    else
      var r := FirstExisting(cs[1..], present);
      if r.None? then None else Some(r.value + 1)
  }

  function NotFoundMessage(name: string, dir: string): string
  {
    "Relatório não encontrado: " + name + ". Procure em " + dir
  }

  /** `resolveReportPath`: the first candidate that is present, or the not-found error. */
  method ResolveReportPath(dir: string, name: string, present: string -> bool) returns (r: Result<string>)
    ensures var first := FirstExisting(ReportCandidates(dir, name), present);
      (first.Some? ==> r == Ok(ReportCandidates(dir, name)[first.value])) &&
      (first.None? ==> r == Failure(NotFoundMessage(name, dir)))
  {
    var candidates := ReportCandidates(dir, name);
    var i := 0;
    while i < |candidates|
      invariant 0 <= i <= |candidates|
      invariant forall j :: 0 <= j < i ==> !present(candidates[j])
    {
      if present(candidates[i]) {
        FirstIsUnique(candidates, present, i);
        return Ok(candidates[i]);
      }
      i := i + 1;
    }
    return Failure(NotFoundMessage(name, dir));
  }

  /** The first existing path is the one every earlier path misses. */
  lemma {:induction false} FirstIsUnique(cs: seq<string>, present: string -> bool, i: nat)
    requires i < |cs| && present(cs[i]) && forall j :: 0 <= j < i ==> !present(cs[j])
    ensures FirstExisting(cs, present) == Some(i)
  {
    if i > 0 {
      assert !present(cs[0]);
      assert forall j :: 0 <= j < i - 1 ==> cs[1..][j] == cs[j + 1];
      FirstIsUnique(cs[1..], present, i - 1);
    }
  }

  // ---------------------------------------------------------------- the command line

  /** A report's data: none, or a JSON document with an optional JSON query. */
  datatype DataSource<P> = NoSource | Json(data: P, jsonQuery: Option<string>)

  /** `JasperOptions`: the report name, the parameters in entry order, the data. */
  datatype Options<P> = Options(report: string, params: seq<(string, JsValue)>, dataSource: DataSource<P>)

  /** The arguments every run starts with. */
  function BaseArgs(reportFile: string, outDir: string): seq<string>
  {
    ["process", reportFile, "-o", outDir, "-f", "pdf", "--locale", "pt_PT"]
  }

  /** `-t json -i <file>`, then `--json-query <q>` when a query is given. */
  function SourceArgs<P>(ds: DataSource<P>, jsonFile: string): (args: seq<string>)
    ensures ds.NoSource? ==> args == []
    ensures ds.Json? ==> |args| == if ds.jsonQuery.Some? && ds.jsonQuery.value != "" then 6 else 4
    ensures ds.Json? ==> args[..4] == ["-t", "json", "-i", jsonFile]
    ensures ds.Json? && |args| == 6 ==> args[4..] == ["--json-query", ds.jsonQuery.value]
  {
    match ds
    case NoSource => []
    case Json(_, q) =>
      ["-t", "json", "-i", jsonFile] + if q.Some? && q.value != "" then ["--json-query", q.value] else []
  }

  /** `-P k=String(v)` for each entry, in order. */
  function PairArgs(ds: seq<(string, JsValue)>): (args: seq<string>)
    ensures |args| == 2 * |ds|
  {
    if ds == [] then [] else PairArgs(ds[..|ds| - 1]) + ["-P", ds[|ds| - 1].0 + "=" + ds[|ds| - 1].1.ToText()]
  }

  lemma PairArgsSnoc(ds: seq<(string, JsValue)>, e: (string, JsValue))
    ensures PairArgs(ds + [e]) == PairArgs(ds) + ["-P", e.0 + "=" + e.1.ToText()]
  {
    assert (ds + [e])[..|ds|] == ds;
  }

  /** Every pair is the flag `-P` and then `key=value`. */
  lemma {:induction false} PairArgsShape(ds: seq<(string, JsValue)>, i: nat)
    requires i < |ds|
    ensures PairArgs(ds)[2 * i] == "-P" && PairArgs(ds)[2 * i + 1] == ds[i].0 + "=" + ds[i].1.ToText()
  {
    if i < |ds| - 1 {
      PairArgsShape(ds[..|ds| - 1], i);
    }
  }

  /** The parameter loop: `-P` pairs for the defined parameters, undefined ones skipped. */
  method Parameters(params: seq<(string, JsValue)>) returns (args: seq<string>)
    ensures args == PairArgs(DefinedEntries(params))
  {
    args := [];
    var i := 0;
    while i < |params|
      invariant 0 <= i <= |params|
      invariant args == PairArgs(DefinedEntries(params[..i]))
    {
      var k, v := params[i].0, params[i].1;
      DefinedSnoc(params, i);
      if v != Undefined {
        PairArgsSnoc(DefinedEntries(params[..i]), params[i]);
        args := args + ["-P", k + "=" + v.ToText()];
      } else {
        assert DefinedEntries(params[..i + 1]) == DefinedEntries(params[..i]);
      }
      i := i + 1;
    }
    assert params[..i] == params;
  }

  /** Each `key=value` argument comes from a defined parameter, and each defined parameter gives one. */
  lemma ParameterPassed(params: seq<(string, JsValue)>, k: string, v: JsValue)
    requires (k, v) in params && v != Undefined
    ensures exists i :: 0 <= i < |DefinedEntries(params)| && PairArgs(DefinedEntries(params))[2 * i + 1] == k + "=" + v.ToText()
  {
    DefinedEntriesMembers(params, (k, v));
    var ds := DefinedEntries(params);
    var i :| 0 <= i < |ds| && ds[i] == (k, v);
    PairArgsShape(ds, i);
  }

  /** The converse: every `key=value` argument on the command line is that of a defined parameter. */
  lemma ArgumentFromParameter(params: seq<(string, JsValue)>, i: nat)
    requires i < |DefinedEntries(params)|
    ensures PairArgs(DefinedEntries(params))[2 * i] == "-P"
    ensures exists e :: e in params && e.1 != Undefined && PairArgs(DefinedEntries(params))[2 * i + 1] == e.0 + "=" + e.1.ToText()
  {
    var ds := DefinedEntries(params);
    PairArgsShape(ds, i);
    assert ds[i] in ds;
    DefinedEntriesMembers(params, ds[i]);
  }

  /** A numeric parameter at position `j` reaches the command line as `key=<decimal>`. */
  lemma NumberArgument(params: seq<(string, JsValue)>, j: nat, key: string, n: int)
    requires j < |params| && params[j] == (key, Number(Num(n)))
    ensures key + "=" + IntToString(n) in PairArgs(DefinedEntries(params))
  {
    assert params[j] in params;
    ParameterPassed(params, key, Number(Num(n)));
  }

  /** The command line of `renderPDF`: base arguments, then the data source, then the parameters. */
  method BuildArgs<P>(reportFile: string, tmpBase: string, opts: Options<P>) returns (args: seq<string>)
    ensures args == BaseArgs(reportFile, PathJoin(tmpBase, "out")) +
      SourceArgs(opts.dataSource, PathJoin(tmpBase, "data.json")) + PairArgs(DefinedEntries(opts.params))
  {
    var outDir := PathJoin(tmpBase, "out");
    args := ["process", reportFile, "-o", outDir, "-f", "pdf", "--locale", "pt_PT"];
    if opts.dataSource.Json? {
      var jsonFile := PathJoin(tmpBase, "data.json");
      args := args + ["-t", "json", "-i", jsonFile];
      if opts.dataSource.jsonQuery.Some? && opts.dataSource.jsonQuery.value != "" {
        args := args + ["--json-query", opts.dataSource.jsonQuery.value];
      }
    }
    var ps := Parameters(opts.params);
    args := args + ps;
  }

  // ---------------------------------------------------------------- output and exit

  /** The text after the last `/`. */
  function BaseName(p: string): (b: string)
    ensures '/' !in b
  {
    if p == [] then []
    else if p[|p| - 1] == '/' then []
    else BaseName(p[..|p| - 1]) + [p[|p| - 1]]
  }

  /** The position of the last `c` in `s`. */
  function LastIndexOf(s: string, c: char): (r: Option<nat>)
    ensures r.Some? ==> r.value < |s| && s[r.value] == c && c !in s[r.value + 1..]
    ensures r.None? ==> c !in s
  {
    if s == [] then None
    else if s[|s| - 1] == c then Some(|s| - 1)
    else LastIndexOf(s[..|s| - 1], c)
  }

  /** `path.basename(b, path.extname(b))` of a base name: the extension after the last inner dot removed. */
  function Stem(b: string): string
  {
    var dot := LastIndexOf(b, '.');
    if dot.Some? && dot.value > 0 then b[..dot.value] else b
  }

  /** jasperstarter writes `<out>/<stem of the report file>.pdf`. */
  function OutputPdf(outDir: string, reportFile: string): string
  {
    PathJoin(outDir, Stem(BaseName(reportFile)) + ".pdf")
  }

  lemma {:induction false} BaseNameAfter(prefix: string, b: string)
    requires '/' !in b
    ensures BaseName(prefix + "/" + b) == b
  {
    if b != [] {
      var s := prefix + "/" + b;
      assert s[..|s| - 1] == prefix + "/" + b[..|b| - 1];
      assert b[..|b| - 1] + [b[|b| - 1]] == b;
      BaseNameAfter(prefix, b[..|b| - 1]);
    } else {
      assert (prefix + "/" + b)[|prefix + "/" + b| - 1] == '/';
    }
  }

  lemma {:induction false} LastDotBefore(name: string, ext: string)
    requires '.' !in ext
    ensures LastIndexOf(name + "." + ext, '.') == Some(|name|)
  {
    if ext != [] {
      var s := name + "." + ext;
      assert s[..|s| - 1] == name + "." + ext[..|ext| - 1];
      assert ext[|ext| - 1] in ext;
      LastDotBefore(name, ext[..|ext| - 1]);
    }
  }

  /** The PDF of a report found as `<dir>/<name>.jasper` is `<out>/<name>.pdf`. */
  lemma OutputNamedAfterReport(outDir: string, dir: string, name: string, ext: string)
    requires name != "" && '/' !in name && '/' !in ext && '.' !in ext
    ensures OutputPdf(outDir, PathJoin(dir, name + "." + ext)) == PathJoin(outDir, name + ".pdf")
  {
    assert '/' !in name + "." + ext;
    BaseNameAfter(dir, name + "." + ext);
    LastDotBefore(name, ext);
    assert (name + "." + ext)[..|name|] == name;
  }

  /** The `close` handler: done for exit code 0, otherwise an error naming the code and the error output. */
  function ExitOutcome(code: int, stderr: string): (r: Result<()>)
    ensures r.Ok? <==> code == 0
    ensures r.Failure? ==> r.message == "Falha ao processar relatório. Código " + IntToString(code) + ". STDERR: " + stderr
  {
    if code == 0 then Ok(())
    else Failure("Falha ao processar relatório. Código " + IntToString(code) + ". STDERR: " + stderr)
  }

  /** What a run of the bridge did: the file it read the PDF from, the command it ran, the JSON it wrote. */
  datatype Run<P> = Run(pdfPath: string, args: seq<string>, written: Option<P>)

  /** The service, with the binary and templates directory it chose when it was built. */
  class JasperReportService {
    var jasperStarterBin: string
    var templatesDir: string

    constructor(envBin: Option<string>, envTemplates: Option<string>, cwd: string)
      ensures jasperStarterBin == StarterBin(envBin) && templatesDir == TemplatesDir(envTemplates, cwd)
    {
      jasperStarterBin := StarterBin(envBin);
      templatesDir := TemplatesDir(envTemplates, cwd);
    }

    /**
     * `renderPDF` up to reading the PDF: fails when the binary is missing, when no report file
     * is present, or when the process exits with a non-zero code; otherwise the PDF path under
     * `tmpBase/out`, the command line it ran and the JSON data it wrote.
     */
    method RenderPdf<P>(opts: Options<P>, present: string -> bool, tmpBase: string, run: (string, seq<string>) -> (int, string))
      returns (r: Result<Run<P>>)
      ensures !present(jasperStarterBin) ==> r.Failure?
      ensures r.Ok? ==> present(jasperStarterBin)
      ensures r.Ok? ==> FirstExisting(ReportCandidates(templatesDir, opts.report), present).Some?
      ensures r.Ok? ==>
        var reportFile := ReportCandidates(templatesDir, opts.report)[FirstExisting(ReportCandidates(templatesDir, opts.report), present).value];
        r.value.args == BaseArgs(reportFile, PathJoin(tmpBase, "out")) +
          SourceArgs(opts.dataSource, PathJoin(tmpBase, "data.json")) + PairArgs(DefinedEntries(opts.params)) &&
        run(jasperStarterBin, r.value.args).0 == 0 &&
        r.value.pdfPath == OutputPdf(PathJoin(tmpBase, "out"), reportFile)
      ensures r.Ok? ==> r.value.written == if opts.dataSource.Json? then Some(opts.dataSource.data) else None
      ensures var candidates := ReportCandidates(templatesDir, opts.report);
        var first := FirstExisting(candidates, present);
        present(jasperStarterBin) && first.Some? &&
        run(jasperStarterBin, BaseArgs(candidates[first.value], PathJoin(tmpBase, "out")) +
          SourceArgs(opts.dataSource, PathJoin(tmpBase, "data.json")) + PairArgs(DefinedEntries(opts.params))).0 == 0
        ==> r.Ok?
    {
      if !present(jasperStarterBin) {
        return Failure("jasperstarter não encontrado em '" + jasperStarterBin + "'.");
      }
      var reportFile := ResolveReportPath(templatesDir, opts.report, present);
      if reportFile.Failure? {
        return Failure(reportFile.message);
      }
      var outDir := PathJoin(tmpBase, "out");
      var args := BuildArgs(reportFile.value, tmpBase, opts);
      var written := if opts.dataSource.Json? then Some(opts.dataSource.data) else None;
      var (code, stderr) := run(jasperStarterBin, args);
      var done := ExitOutcome(code, stderr);
      if done.Failure? {
        return Failure(done.message);
      }
      r := Ok(Run(OutputPdf(outDir, reportFile.value), args, written));
    }
  }
}

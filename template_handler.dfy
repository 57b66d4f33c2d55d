/**
 * The preview and statistics handlers of the backend (backend/template_handler.go): the
 * request-to-data mapping, the defaults of the statistics query, and the three counting loops.
 * Request binding and the JSON responses are left to the HTTP layer.
 */
module TemplateHandler {
  import opened Text
  import opened TemplateTypes
  import opened TemplateDispatch
  import opened GoMod
  import opened TemplateList

  /** Templates among `ts` whose path ends with `extension`; a shorter path never does. */
  function SuffixCount(ts: seq<Template>, extension: string): (r: nat)
    ensures r <= |ts|
  {
    if ts == [] then 0
    else SuffixCount(ts[..|ts| - 1], extension) + (if EndsWith(ts[|ts| - 1].path, extension) then 1 else 0)
  }

  /** Templates among `ts` whose path is exactly `path`. */
  function PathCount(ts: seq<Template>, path: string): (r: nat)
    ensures r <= |ts|
  {
    if ts == [] then 0
    else PathCount(ts[..|ts| - 1], path) + (if ts[|ts| - 1].path == path then 1 else 0)
  }

  /** The backend's notion of a configuration file: three fixed names and two YAML suffixes. */
  predicate IsConfigPath(path: string)
  {
    path == "go.mod" || path == "Makefile" || path == ".gitignore"
    || EndsWith(path, ".yaml") || EndsWith(path, ".yml")
  }

  function ConfigCount(ts: seq<Template>): (r: nat)
    ensures r <= |ts|
  {
    if ts == [] then 0
    else ConfigCount(ts[..|ts| - 1]) + (if IsConfigPath(ts[|ts| - 1].path) then 1 else 0)
  }

  /** The lines of one file: one more than its newline characters. */
  function Lines(content: string): nat
  {
    1 + CountChar(content, '\n')
  }

  function LineTotal(ts: seq<Template>): (r: nat)
    ensures r >= |ts|
  {
    if ts == [] then 0 else LineTotal(ts[..|ts| - 1]) + Lines(ts[|ts| - 1].content)
  }

  method CountFilesByExtension(templates: seq<Template>, extension: string) returns (count: int)
    ensures count == SuffixCount(templates, extension)
    ensures 0 <= count <= |templates|
  {
    count := 0;
    var i := 0;
    while i < |templates|
      invariant 0 <= i <= |templates|
      invariant count == SuffixCount(templates[..i], extension)
    {
      assert templates[..i + 1][..i] == templates[..i];
      var path := templates[i].path;
      if |path| >= |extension| && path[|path| - |extension|..] == extension {
        count := count + 1;
      }
      i := i + 1;
    }
    assert templates[..i] == templates;
  }

  method CountConfigFiles(templates: seq<Template>) returns (count: int)
    ensures count == ConfigCount(templates)
    ensures 0 <= count <= |templates|
  {
    count := 0;
    var i := 0;
    while i < |templates|
      invariant 0 <= i <= |templates|
      invariant count == ConfigCount(templates[..i])
    {
      assert templates[..i + 1][..i] == templates[..i];
      var path := templates[i].path;
      var isConfig := path == "go.mod" || path == "Makefile" || path == ".gitignore"
        || (|path| >= 5 && path[|path| - 5..] == ".yaml")
        || (|path| >= 4 && path[|path| - 4..] == ".yml");
      assert isConfig == IsConfigPath(path);
      assert ConfigCount(templates[..i + 1]) == ConfigCount(templates[..i]) + (if IsConfigPath(path) then 1 else 0);
      if isConfig {
        count := count + 1;
      }
      i := i + 1;
    }
    assert templates[..i] == templates;
  }

  method CountTotalLines(templates: seq<Template>) returns (total: int)
    ensures total == LineTotal(templates)
    ensures total >= |templates|
  {
    total := 0;
    var i := 0;
    while i < |templates|
      invariant 0 <= i <= |templates|
      invariant total == LineTotal(templates[..i])
    {
      assert templates[..i + 1][..i] == templates[..i];
      var content := templates[i].content;
      var lines := 1;
      var k := 0;
      while k < |content|
        invariant 0 <= k <= |content|
        invariant lines == 1 + CountChar(content[..k], '\n')
      {
        assert content[..k + 1][..k] == content[..k];
        if content[k] == '\n' {
          lines := lines + 1;
        }
        k := k + 1;
      }
      assert content[..k] == content;
      total := total + lines;
      i := i + 1;
    }
    assert templates[..i] == templates;
  }

  /** Counting over a concatenation adds the counts of the parts. */
  lemma {:induction false} CountsAppend(a: seq<Template>, b: seq<Template>, extension: string)
    ensures SuffixCount(a + b, extension) == SuffixCount(a, extension) + SuffixCount(b, extension)
    ensures ConfigCount(a + b) == ConfigCount(a) + ConfigCount(b)
    ensures LineTotal(a + b) == LineTotal(a) + LineTotal(b)
    decreases |b|
  {
    if b == [] {
      assert a + b == a;
    } else {
      assert (a + b)[..|a + b| - 1] == a + b[..|b| - 1];
      CountsAppend(a, b[..|b| - 1], extension);
    }
  }

  /** The YAML suffixes exclude each other and the three fixed names. */
  lemma YamlSuffixesDisjoint(path: string)
    ensures !(EndsWith(path, ".yaml") && EndsWith(path, ".yml"))
    ensures path == "go.mod" || path == "Makefile" || path == ".gitignore" ==>
      !EndsWith(path, ".yaml") && !EndsWith(path, ".yml")
  {
    if EndsWith(path, ".yml") {
      assert path[|path| - 4] == '.';
    }
  }

  /** The configuration count splits into the three fixed names and the two YAML suffixes. */
  lemma {:induction false} ConfigCountParts(ts: seq<Template>)
    ensures ConfigCount(ts) == PathCount(ts, "go.mod") + PathCount(ts, "Makefile") + PathCount(ts, ".gitignore")
      + SuffixCount(ts, ".yaml") + SuffixCount(ts, ".yml")
  {
    if ts != [] {
      ConfigCountParts(ts[..|ts| - 1]);
      YamlSuffixesDisjoint(ts[|ts| - 1].path);
    }
  }

  /** The JSON body of a preview request. */
  datatype TemplatePreviewRequest = TemplatePreviewRequest(
    projectType: string,
    framework: string,
    projectName: string,
    moduleName: string,
    description: string,
    goVersion: string)

  datatype TemplatePreviewResponse = TemplatePreviewResponse(templates: seq<Template>, count: int)

  /** The preview copies every request field into the template data unchanged. */
  function PreviewData(request: TemplatePreviewRequest): TemplateData
  {
    TemplateData(request.projectName, request.moduleName, request.description,
                 request.framework, request.goVersion, request.projectType)
  }

  /** The preview answers with the wrapped list for the request and its length. */
  method PreviewTemplatesHandler(cat: Catalog, request: TemplatePreviewRequest) returns (response: TemplatePreviewResponse)
    ensures response.templates == Wrapped(cat, request.projectType, request.framework, PreviewData(request))
    ensures response.count == |response.templates| == ExpectedCount(request.projectType)
  {
    var templateData := PreviewData(request);
    var templates := GetTemplatesForProjectType(cat, request.projectType, request.framework, templateData);
    WrappedShape(cat, request.projectType, request.framework, templateData);
    response := TemplatePreviewResponse(templates, |templates|);
  }

  /** The preview's data carries the request's own spelling of every field; nothing is lower-cased. */
  lemma PreviewDataVerbatim(request: TemplatePreviewRequest)
    ensures var d := PreviewData(request);
      d.framework == request.framework && d.projectType == request.projectType
      && d.projectName == request.projectName && d.moduleName == request.moduleName
      && d.description == request.description && d.goVersion == request.goVersion
  {
  }

  datatype Stats = Stats(
    totalFiles: int,
    goFiles: int,
    configFiles: int,
    totalLines: int,
    projectType: string,
    framework: string)

  /** The query value, or its default when the query string is empty. */
  function OrDefault(query: string, default: string): (r: string)
    requires default != ""
    ensures query == "" ==> r == default
    ensures query != "" ==> r == query
    ensures r != ""
  {
    if query == "" then default else query
  }

  /** The fixed data the statistics are computed from. */
  function StatsData(projectType: string, framework: string): TemplateData
  {
    TemplateData("project", "github.com/user/project", "Project for statistics", framework, "1.22.0", projectType)
  }

  method TemplateStatsHandler(cat: Catalog, projectTypeQuery: string, frameworkQuery: string) returns (stats: Stats)
    ensures stats.projectType == OrDefault(projectTypeQuery, "microservice")
    ensures stats.framework == OrDefault(frameworkQuery, "gin")
    ensures var ts := Wrapped(cat, stats.projectType, stats.framework, StatsData(stats.projectType, stats.framework));
      && stats.totalFiles == |ts| == ExpectedCount(stats.projectType)
      && stats.goFiles == SuffixCount(ts, ".go")
      && stats.configFiles == ConfigCount(ts)
      && stats.totalLines == LineTotal(ts)
    ensures 0 <= stats.goFiles <= stats.totalFiles && 0 <= stats.configFiles <= stats.totalFiles
    ensures stats.totalLines >= stats.totalFiles
  {
    var projectType := projectTypeQuery;
    var framework := frameworkQuery;
    if projectType == "" {
      projectType := "microservice";
    }
    if framework == "" {
      framework := "gin";
    }
    var templateData := StatsData(projectType, framework);
    var templates := GetTemplatesForProjectType(cat, projectType, framework, templateData);
    WrappedShape(cat, projectType, framework, templateData);
    var goFiles := CountFilesByExtension(templates, ".go");
    var configFiles := CountConfigFiles(templates);
    var totalLines := CountTotalLines(templates);
    stats := Stats(|templates|, goFiles, configFiles, totalLines, projectType, framework);
  }
}

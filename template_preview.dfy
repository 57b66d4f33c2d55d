/**
 * The template preview component (frontend/src/components/TemplatePreview.tsx): the search
 * filter, the icon and language chosen for a path, the statistics panel and the choice between
 * the spinner, the empty hint and the file list.
 */
module TemplatePreview {
  import opened Text
  import opened TemplateTypes

  /** `path.toLowerCase().includes(searchTerm.toLowerCase())`. */
  predicate Matches(t: Template, searchTerm: string)
  {
    Contains(ToLower(t.path), ToLower(searchTerm))
  }

  /** `templates.filter(...)` with the search predicate. */
  function FilterByTerm(ts: seq<Template>, searchTerm: string): (r: seq<Template>)
    ensures |r| <= |ts|
  {
    if ts == [] then []
    else FilterByTerm(ts[..|ts| - 1], searchTerm) + (if Matches(ts[|ts| - 1], searchTerm) then [ts[|ts| - 1]] else [])
  }

  /** Filtering distributes over concatenation, so the kept templates stay in their order. */
  lemma {:induction false} FilterAppend(a: seq<Template>, b: seq<Template>, searchTerm: string)
    ensures FilterByTerm(a + b, searchTerm) == FilterByTerm(a, searchTerm) + FilterByTerm(b, searchTerm)
    decreases |b|
  {
    if b == [] {
      assert a + b == a;
    } else {
      assert (a + b)[..|a + b| - 1] == a + b[..|b| - 1];
      FilterAppend(a, b[..|b| - 1], searchTerm);
    }
  }

  /** A template is listed exactly when it is one of the templates and matches the term. */
  lemma {:induction false} FilterMembers(ts: seq<Template>, searchTerm: string, t: Template)
    ensures t in FilterByTerm(ts, searchTerm) <==> t in ts && Matches(t, searchTerm)
  {
    if ts != [] {
      var front := ts[..|ts| - 1];
      FilterMembers(front, searchTerm, t);
      assert ts == front + [ts[|ts| - 1]];
    }
  }

  /** An empty search keeps every template. */
  lemma {:induction false} EmptyTermKeepsAll(ts: seq<Template>)
    ensures FilterByTerm(ts, "") == ts
  {
    if ts != [] {
      EmptyTermKeepsAll(ts[..|ts| - 1]);
      ContainsEmpty(ToLower(ts[|ts| - 1].path));
      assert ts[..|ts| - 1] + [ts[|ts| - 1]] == ts;
    }
  }

  /** The seven icons, in the order `getFileIcon` tries them. */
  datatype FileIcon = GoIcon | MarkdownIcon | ConfigIcon | MakefileIcon | GitignoreIcon | GoModIcon | DefaultIcon

  function GetFileIcon(path: string): FileIcon
  {
    if EndsWith(path, ".go") then GoIcon
    else if EndsWith(path, ".md") then MarkdownIcon
    else if EndsWith(path, ".yaml") || EndsWith(path, ".yml") then ConfigIcon
    else if path == "Makefile" then MakefileIcon
    else if path == ".gitignore" then GitignoreIcon
    else if path == "go.mod" then GoModIcon
    else DefaultIcon
  }

  function GetLanguage(path: string): string
  {
    if EndsWith(path, ".go") then "go"
    else if EndsWith(path, ".md") then "markdown"
    else if EndsWith(path, ".yaml") || EndsWith(path, ".yml") then "yaml"
    else if path == "Makefile" then "makefile"
    else "text"
  }

  /**
   * The three exact names never end in one of the four suffixes, so each of them gets its own
   * icon whatever the earlier checks; a `.go` path gets the Go icon whatever else it matches.
   */
  lemma FileIconExactNames(path: string)
    ensures GetFileIcon(path) == MakefileIcon <==> path == "Makefile"
    ensures GetFileIcon(path) == GitignoreIcon <==> path == ".gitignore"
    ensures GetFileIcon(path) == GoModIcon <==> path == "go.mod"
    ensures GetFileIcon(path) == GoIcon <==> EndsWith(path, ".go")
  {
    EndsWithAt(path, ".go", 2);
    EndsWithAt(path, ".md", 1);
    EndsWithAt(path, ".md", 2);
    EndsWithAt(path, ".yaml", 4);
    EndsWithAt(path, ".yml", 3);
  }

  /** The language follows the icon; the `.gitignore`, `go.mod` and default icons all read as plain text. */
  lemma LanguageFollowsIcon(path: string)
    ensures GetLanguage(path) == "go" <==> GetFileIcon(path) == GoIcon
    ensures GetLanguage(path) == "markdown" <==> GetFileIcon(path) == MarkdownIcon
    ensures GetLanguage(path) == "yaml" <==> GetFileIcon(path) == ConfigIcon
    ensures GetLanguage(path) == "makefile" <==> GetFileIcon(path) == MakefileIcon
    ensures GetLanguage(path) == "text" <==> GetFileIcon(path) in {GitignoreIcon, GoModIcon, DefaultIcon}
  {
  }

  /** `templates.filter(t => t.path.endsWith('.go')).length`. */
  function GoFileCount(ts: seq<Template>): (r: nat)
    ensures r <= |ts|
  {
    if ts == [] then 0 else GoFileCount(ts[..|ts| - 1]) + (if EndsWith(ts[|ts| - 1].path, ".go") then 1 else 0)
  }

  /** The frontend's configuration files: the YAML suffixes, go.mod and Makefile, but not .gitignore. */
  predicate IsFrontendConfig(path: string)
  {
    EndsWith(path, ".yaml") || EndsWith(path, ".yml") || path == "go.mod" || path == "Makefile"
  }

  function FrontendConfigCount(ts: seq<Template>): (r: nat)
    ensures r <= |ts|
  {
    if ts == [] then 0 else FrontendConfigCount(ts[..|ts| - 1]) + (if IsFrontendConfig(ts[|ts| - 1].path) then 1 else 0)
  }

  /** `templates.reduce((acc, t) => acc + t.content.split('\n').length, 0)`. */
  function TotalLines(ts: seq<Template>): nat
  {
    if ts == [] then 0 else TotalLines(ts[..|ts| - 1]) + |Split(ts[|ts| - 1].content, '\n')|
  }

  /** Each file counts one line more than it has newline characters, so there are at least as many lines as files. */
  lemma {:induction false} TotalLinesCountsNewlines(ts: seq<Template>)
    ensures TotalLines(ts) >= |ts|
    ensures ts != [] ==> TotalLines(ts) == TotalLines(ts[..|ts| - 1]) + CountChar(ts[|ts| - 1].content, '\n') + 1
  {
    if ts != [] {
      TotalLinesCountsNewlines(ts[..|ts| - 1]);
      SplitLength(ts[|ts| - 1].content, '\n');
    }
  }

  /** `templates.find(t => t.path === selectedTemplate)?.content`. */
  function SelectedContent(ts: seq<Template>, selected: string): (r: Option<string>)
    ensures r.Some? <==> exists i :: 0 <= i < |ts| && ts[i].path == selected
  {
    if ts == [] then None
    else if ts[0].path == selected then Some(ts[0].content)
    else
      var r := SelectedContent(ts[1..], selected);
      assert forall i :: 1 <= i < |ts| ==> ts[i] == ts[1..][i - 1];
      r
  }

  /** The shown content is that of the first template with the selected path. */
  lemma {:induction false} SelectedContentIsFirst(ts: seq<Template>, selected: string, i: nat)
    requires i < |ts| && ts[i].path == selected
    requires forall j :: 0 <= j < i ==> ts[j].path != selected
    ensures SelectedContent(ts, selected) == Some(ts[i].content)
  {
    if i > 0 {
      SelectedContentIsFirst(ts[1..], selected, i - 1);
    }
  }

  /** What the component renders. */
  datatype View = Spinner | EmptyHint | FileList(shown: seq<Template>)

  function PreviewView(loading: bool, templates: seq<Template>, searchTerm: string): View
  {
    if loading then Spinner
    else if templates == [] then EmptyHint
    else FileList(FilterByTerm(templates, searchTerm))
  }

  /** The spinner wins over the empty hint; the list shows only when templates exist and nothing loads. */
  lemma ViewPrecedence(loading: bool, templates: seq<Template>, searchTerm: string)
    ensures PreviewView(loading, templates, searchTerm) == Spinner <==> loading
    ensures PreviewView(loading, templates, searchTerm) == EmptyHint <==> !loading && templates == []
    ensures PreviewView(loading, templates, "") == FileList(templates) <==> !loading && templates != []
  {
    EmptyTermKeepsAll(templates);
  }
}

/**
 * The backend wrapper around the template dispatch (backend/templates.go): it takes the
 * dispatched list and overwrites, in place, the content of every entry whose path is
 * `go.mod` with the output of the go.mod builder for the data's own fields.
 */
module TemplateList {
  import opened TemplateTypes
  import opened CommonTemplates
  import opened TemplateDispatch
  import opened GoMod

  /** One entry after the rewrite: a `go.mod` entry gets the new content, any other is kept. */
  function ReplaceGoMod(t: Template, goMod: string): Template
  {
    if t.path == "go.mod" then t.(content := goMod) else t
  }

  /** The whole list after the rewrite. */
  function WithGoMod(ts: seq<Template>, goMod: string): (r: seq<Template>)
    ensures |r| == |ts|
    ensures forall i :: 0 <= i < |ts| ==> r[i].path == ts[i].path
    ensures forall i :: 0 <= i < |ts| && ts[i].path == "go.mod" ==> r[i].content == goMod
    ensures forall i :: 0 <= i < |ts| && ts[i].path != "go.mod" ==> r[i] == ts[i]
  {
    if ts == [] then [] else [ReplaceGoMod(ts[0], goMod)] + WithGoMod(ts[1..], goMod)
  }

  /** What the wrapper returns: the dispatched list with the go.mod text built from `d`'s fields. */
  function Wrapped(cat: Catalog, projectType: string, framework: string, d: TemplateData): seq<Template>
  {
    WithGoMod(TemplatesFor(projectType, framework, d),
              GoModText(cat, d.moduleName, d.goVersion, d.framework, d.projectType))
  }

  /** The wrapper: copy the dispatched list into a buffer and rewrite its go.mod entries in place. */
  method GetTemplatesForProjectType(cat: Catalog, projectType: string, framework: string, d: TemplateData)
    returns (r: seq<Template>)
    ensures r == Wrapped(cat, projectType, framework, d)
  {
    var list := TemplatesFor(projectType, framework, d);
    var templateList := new Template[|list|](i requires 0 <= i < |list| => list[i]);
    assert templateList[..] == list;
    RewriteGoMod(templateList, cat, d);
    r := templateList[..];
  }

  /** The loop of the wrapper: each `go.mod` entry gets a freshly built text, index by index. */
  method RewriteGoMod(templateList: array<Template>, cat: Catalog, d: TemplateData)
    modifies templateList
    ensures templateList[..] == WithGoMod(old(templateList[..]), GoModText(cat, d.moduleName, d.goVersion, d.framework, d.projectType))
  {
    ghost var list := templateList[..];
    ghost var goMod := GoModText(cat, d.moduleName, d.goVersion, d.framework, d.projectType);
    var i := 0;
    while i < templateList.Length
      invariant 0 <= i <= templateList.Length == |list|
      invariant forall j :: 0 <= j < i ==> templateList[j] == ReplaceGoMod(list[j], goMod)
      invariant forall j :: i <= j < templateList.Length ==> templateList[j] == list[j]
    {
      if templateList[i].path == "go.mod" {
        var content := GenerateGoMod(cat, d.moduleName, d.goVersion, d.framework, d.projectType);
        templateList[i] := templateList[i].(content := content);
      }
      i := i + 1;
    }
    assert forall j :: 0 <= j < templateList.Length ==> templateList[..][j] == WithGoMod(list, goMod)[j];
  }

  /** Rewriting a second time changes nothing. */
  lemma {:induction false} WithGoModIdempotent(ts: seq<Template>, goMod: string)
    ensures WithGoMod(WithGoMod(ts, goMod), goMod) == WithGoMod(ts, goMod)
  {
    if ts != [] {
      WithGoModIdempotent(ts[1..], goMod);
      assert WithGoMod(ts, goMod)[1..] == WithGoMod(ts[1..], goMod);
    }
  }

  /**
   * The wrapper keeps the length and every path of the dispatched list, puts the built text into
   * the common go.mod entry (index 1) and leaves every entry with another path as it was.
   */
  lemma WrappedShape(cat: Catalog, projectType: string, framework: string, d: TemplateData)
    ensures var inner := TemplatesFor(projectType, framework, d);
      var r := Wrapped(cat, projectType, framework, d);
      && |r| == |inner| == ExpectedCount(projectType)
      && Paths(r) == Paths(inner)
      && r[1] == Template("go.mod", GoModText(cat, d.moduleName, d.goVersion, d.framework, d.projectType))
      && (forall i :: 0 <= i < |r| && r[i].path != "go.mod" ==> r[i] == inner[i])
      && WellFormed(r)
  {
    var inner := TemplatesFor(projectType, framework, d);
    DispatchShape(projectType, framework, d);
    assert inner[1] == Common(d)[1];
    var r := Wrapped(cat, projectType, framework, d);
    assert Paths(r) == Paths(inner);
    assert |GoModText(cat, d.moduleName, d.goVersion, d.framework, d.projectType)| > 0;
  }
}

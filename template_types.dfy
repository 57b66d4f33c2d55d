/** The two records every template builder works with (backend/templates/types.go). */
module TemplateTypes {

  /** One generated file: its path inside the project folder and its text. The frontend receives the same pair as JSON. */
  datatype Template = Template(path: string, content: string)

  /** The values a template set is rendered from. */
  datatype TemplateData = TemplateData(
    projectName: string,
    moduleName: string,
    description: string,
    framework: string,
    goVersion: string,
    projectType: string)

  /** The paths of a template list, in order. */
  function Paths(ts: seq<Template>): (r: seq<string>)
    ensures |r| == |ts|
    ensures forall i :: 0 <= i < |ts| ==> r[i] == ts[i].path
  {
    seq(|ts|, i requires 0 <= i < |ts| => ts[i].path)
  }

  /** What the template tests check of every entry: a path and some content. */
  predicate WellFormed(ts: seq<Template>)
  {
    forall i :: 0 <= i < |ts| ==> ts[i].path != "" && ts[i].content != ""
  }

  /** The path `<dir>/<projectName>/<file>` used for project-name dependent entries. */
  function NamedPath(dir: string, projectName: string, file: string): string
  {
    dir + "/" + projectName + "/" + file
  }

  /** Appending files keeps the first list as a prefix, adds their paths at the end, and keeps every entry well formed. */
  lemma AppendShape(front: seq<Template>, back: seq<Template>)
    ensures |front + back| == |front| + |back|
    ensures front <= front + back
    ensures Paths(front + back)[|front|..] == Paths(back)
    ensures WellFormed(front) && WellFormed(back) ==> WellFormed(front + back)
  {
    var r := front + back;
    assert forall i :: |front| <= i < |r| ==> r[i] == back[i - |front|];
  }
}

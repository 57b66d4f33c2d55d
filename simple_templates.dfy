/**
 * The simple-project template set (backend/templates/simple.go): the common files followed by
 * a main package, an app package and a service package named after the project. The builder
 * takes no framework. Texts are abbreviated to the lines carrying fields.
 */
module SimpleTemplates {
  import opened TemplateTypes
  import opened CommonTemplates

  function Simple(d: TemplateData): seq<Template>
  {
    Common(d) + [
      Template(NamedPath("cmd", d.projectName, "main.go"), SimpleMainText(d)),
      Template("internal/app/app.go", SimpleAppText(d)),
      Template(NamedPath("pkg", d.projectName, "service.go"), SimpleServiceText(d)) ]
  }

  function SimpleMainText(d: TemplateData): string
  {
    "package main\n\"" + d.moduleName + "/internal/app\"\nStarting %s... " + d.projectName + "\n"
  }

  function SimpleAppText(d: TemplateData): string
  {
    "package app\n\"" + d.moduleName + "/pkg/" + d.projectName + "\"\nservice *" + d.projectName
    + ".Service\nservice: " + d.projectName + ".New()\n"
  }

  /** The service file's package clause is `package <projectName>`. */
  function SimpleServiceText(d: TemplateData): (r: string)
    ensures "package " + d.projectName + "\n" <= r
  {
    "package " + d.projectName + "\n" + "func (s *Service) Process(input string) string\n"
  }

  /** Seven files: the common four, then main.go, app.go and `pkg/<projectName>/service.go`. */
  lemma SimpleShape(d: TemplateData)
    ensures var r := Simple(d);
      && |r| == 7
      && Common(d) <= r
      && Paths(r)[4..] == [NamedPath("cmd", d.projectName, "main.go"), "internal/app/app.go", NamedPath("pkg", d.projectName, "service.go")]
      && WellFormed(r)
  {
    var r := Simple(d);
    assert Paths(r)[4..] == [NamedPath("cmd", d.projectName, "main.go"), "internal/app/app.go", NamedPath("pkg", d.projectName, "service.go")];
  }
}

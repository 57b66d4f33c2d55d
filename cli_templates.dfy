/**
 * The CLI-application template set (backend/templates/cli.go): the common files followed by
 * a main package and two command files. Only "cobra" selects the cobra texts; every other
 * framework (urfave and kingpin included) gets the flag-package texts.
 * Texts are abbreviated to a first line, the branch taken and the lines carrying fields.
 */
module CliTemplates {
  import opened Text
  import opened TemplateTypes
  import opened CommonTemplates

  datatype CliFlavor = CobraFlavor | FlagFlavor

  function CliFlavorOf(framework: string): (r: CliFlavor)
    ensures r == CobraFlavor <==> framework == "cobra"
  {
    if framework == "cobra" then CobraFlavor else FlagFlavor
  }

  function CliApp(framework: string, d: TemplateData): seq<Template>
  {
    Common(d) + [
      Template(NamedPath("cmd", d.projectName, "main.go"), CliMainText(framework, d)),
      Template("internal/cli/root.go", CliRootText(framework, d)),
      Template("internal/cli/version.go", CliVersionText(framework, d)) ]
  }

  /** The import line of the generated command package. */
  function CliImport(moduleName: string): string
  {
    "\"" + moduleName + "/internal/cli\"\n"
  }

  function CliMainText(framework: string, d: TemplateData): string
  {
    match CliFlavorOf(framework)
    case CobraFlavor => "package main\n" + CliImport(d.moduleName) + "cli.Execute()\n"
    case FlagFlavor => "package main\n\"os\"\n" + CliImport(d.moduleName) + "cli.Run(os.Args)\n"
  }

  function CliRootText(framework: string, d: TemplateData): string
  {
    match CliFlavorOf(framework)
    case CobraFlavor =>
      "package cli\nUse: \"" + d.projectName + "\"\nShort: \"" + d.description + "\"\nLong: `" + d.description
      + "`\nHello from " + d.projectName + "!\n"
    case FlagFlavor =>
      "package cli\nflag.NewFlagSet(\"" + d.projectName + "\")\n\"" + d.projectName + "\", \"" + d.description
      + "\"\nHello from " + d.projectName + "!\n"
  }

  function CliVersionText(framework: string, d: TemplateData): string
  {
    match CliFlavorOf(framework)
    case CobraFlavor => "package cli\nversionCmd\n" + d.projectName + " v%s\n"
    case FlagFlavor => "package cli\nGetVersion()\n" + d.projectName + " v%s\n"
  }

  /** Seven files: the common four, then `cmd/<projectName>/main.go`, root.go and version.go. */
  lemma CliShape(framework: string, d: TemplateData)
    ensures var r := CliApp(framework, d);
      && |r| == 7
      && Common(d) <= r
      && Paths(r)[4..] == [NamedPath("cmd", d.projectName, "main.go"), "internal/cli/root.go", "internal/cli/version.go"]
      && WellFormed(r)
  {
    var r := CliApp(framework, d);
    assert Paths(r)[4..] == [NamedPath("cmd", d.projectName, "main.go"), "internal/cli/root.go", "internal/cli/version.go"];
  }

  /** Any framework other than "cobra" yields the same texts as every other non-cobra framework. */
  lemma NonCobraShareDefault(f1: string, f2: string, d: TemplateData)
    requires f1 != "cobra" && f2 != "cobra"
    ensures CliApp(f1, d) == CliApp(f2, d)
  {
  }

  /** Both main.go branches import `<moduleName>/internal/cli`. */
  lemma CliMainImportsCommands(framework: string, d: TemplateData)
    ensures Contains(CliMainText(framework, d), CliImport(d.moduleName))
  {
    match CliFlavorOf(framework)
    case CobraFlavor =>
      ContainsMiddle("package main\n", CliImport(d.moduleName), "cli.Execute()\n");
    case FlagFlavor =>
      ContainsMiddle("package main\n\"os\"\n", CliImport(d.moduleName), "cli.Run(os.Args)\n");
  }
}

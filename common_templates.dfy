/**
 * The four files every project type starts with (backend/templates/common.go).
 * Each file text is abbreviated to the lines that carry an embedded field (plus a
 * first line); the fields appear in the same order as in the Go format strings.
 */
module CommonTemplates {
  import opened Text
  import opened TemplateTypes

  /** README.md, go.mod, .gitignore and Makefile, in that order. */
  function Common(d: TemplateData): (r: seq<Template>)
    ensures Paths(r) == ["README.md", "go.mod", ".gitignore", "Makefile"]
    ensures WellFormed(r)
  {
    [ Template("README.md", Readme(d)),
      Template("go.mod", GoModPlaceholder(d)),
      Template(".gitignore", GitignoreText),
      Template("Makefile", Makefile(d)) ]
  }

  /** The README opens with the heading `# <projectName>` followed by the description paragraph. */
  function Readme(d: TemplateData): (r: string)
    ensures "# " + d.projectName + "\n\n" + d.description + "\n" <= r
  {
    var heading := "# " + d.projectName + "\n\n" + d.description + "\n";
    heading
    + "- Go " + d.goVersion + " or later\n"
    + "cd " + d.projectName + "\n"
    + "go run cmd/" + d.projectName + "/main.go\n"
    + "go build -o bin/" + d.projectName + " cmd/" + d.projectName + "/main.go\n"
    + "cmd/" + d.projectName + "/\n"
  }

  /** The .gitignore text takes no data: one constant for every project. */
  const GitignoreText: string := "*.exe\n*.test\n*.out\ngo.work\n/bin/\n.env\n"

  /** The Makefile names the binary and the main package after the project. */
  function Makefile(d: TemplateData): string
  {
    "GOCMD=go\n"
    + ("BINARY_NAME=" + d.projectName + "\n")
    + "BINARY_PATH=./bin/$(BINARY_NAME)\n"
    + ("MAIN_PATH=./cmd/" + d.projectName + "\n")
    + "build:\n"
  }

  /** The placeholder go.mod opens with `module <moduleName>`, a blank line and `go <goVersion>`. */
  function GoModPlaceholder(d: TemplateData): (r: string)
    ensures "module " + d.moduleName + "\n\ngo " + d.goVersion + "\n" <= r
  {
    var header := "module " + d.moduleName + "\n\ngo " + d.goVersion + "\n";
    header + "\nrequire (\n)\n"
  }

  lemma MakefileEmbedsProjectName(d: TemplateData)
    ensures Contains(Makefile(d), "BINARY_NAME=" + d.projectName + "\n")
    ensures Contains(Makefile(d), "MAIN_PATH=./cmd/" + d.projectName + "\n")
  {
    var head := "GOCMD=go\n";
    var binary := "BINARY_NAME=" + d.projectName + "\n";
    var path := "BINARY_PATH=./bin/$(BINARY_NAME)\n";
    var main := "MAIN_PATH=./cmd/" + d.projectName + "\n";
    var tail := "build:\n";
    assert Makefile(d) == head + binary + (path + main + tail);
    ContainsMiddle(head, binary, path + main + tail);
    assert Makefile(d) == (head + binary + path) + main + tail;
    ContainsMiddle(head + binary + path, main, tail);
  }
}

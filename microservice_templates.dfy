/**
 * The microservice template set (backend/templates/microservice.go): the common files
 * followed by seven service files whose text depends on the framework.
 * Each file text is abbreviated to a first line, a line naming the branch taken, and
 * the lines that carry embedded fields, in the order of the Go source.
 */
module MicroserviceTemplates {
  import opened Text
  import opened TemplateTypes
  import opened CommonTemplates

  /** The three branches of every framework `switch` in the web templates. */
  datatype WebFlavor = GinFlavor | EchoFlavor | NetHttpFlavor

  /** Only the exact strings "gin" and "echo" select their own text; every other framework falls to the default. */
  function WebFlavorOf(framework: string): (r: WebFlavor)
    ensures r == GinFlavor <==> framework == "gin"
    ensures r == EchoFlavor <==> framework == "echo"
  {
    if framework == "gin" then GinFlavor
    else if framework == "echo" then EchoFlavor
    else NetHttpFlavor
  }

  /** The paths the microservice set adds after the common files, in order. */
  function ServicePaths(projectName: string): seq<string>
  {
    [ NamedPath("cmd", projectName, "main.go"),
      "internal/server/server.go",
      "internal/handler/health.go",
      "internal/handler/handler.go",
      "internal/config/config.go",
      "configs/config.yaml",
      "api/openapi.yaml" ]
  }

  function Microservice(framework: string, d: TemplateData): seq<Template>
  {
    Common(d) + ServiceFiles(framework, d)
  }

  /** The seven service files, in order. */
  function ServiceFiles(framework: string, d: TemplateData): seq<Template>
  {
    [ Template(NamedPath("cmd", d.projectName, "main.go"), MainText(framework, d)),
      Template("internal/server/server.go", ServerText(framework, d)),
      Template("internal/handler/health.go", HealthText(framework, d)),
      Template("internal/handler/handler.go", HandlerText(framework, d)),
      Template("internal/config/config.go", ConfigText(d)),
      Template("configs/config.yaml", ConfigYamlText(d)),
      Template("api/openapi.yaml", OpenApiText(d)) ]
  }

  function MainText(framework: string, d: TemplateData): string
  {
    var m := d.moduleName;
    match WebFlavorOf(framework)
    case GinFlavor =>
      "package main\n\"github.com/gin-gonic/gin\"\n"
      + "\"" + m + "/internal/config\"\n\"" + m + "/internal/handler\"\n\"" + m + "/internal/server\"\n"
    case EchoFlavor =>
      "package main\n"
      + "\"" + m + "/internal/config\"\n\"" + m + "/internal/handler\"\n\"" + m + "/internal/server\"\n"
    case NetHttpFlavor =>
      "package main\n\"net/http\"\n"
      + "\"" + m + "/internal/config\"\n\"" + m + "/internal/handler\"\n"
  }

  function ServerText(framework: string, d: TemplateData): string
  {
    var m := d.moduleName;
    match WebFlavorOf(framework)
    case GinFlavor =>
      "package server\n\"github.com/gin-gonic/gin\"\n"
      + "\"" + m + "/internal/config\"\n\"" + m + "/internal/handler\"\n"
    case EchoFlavor =>
      "package server\n\"github.com/labstack/echo/v4\"\n"
      + "\"" + m + "/internal/config\"\n\"" + m + "/internal/handler\"\n"
    case NetHttpFlavor =>
      DefaultServerText
  }

  /** The default server file is a fixed placeholder. */
  const DefaultServerText: string := "package server\n// placeholder\n"

  function HealthText(framework: string, d: TemplateData): string
  {
    match WebFlavorOf(framework)
    case GinFlavor => "package handler\n// gin\n\"service\": \"" + d.projectName + "\"\n"
    case EchoFlavor => "package handler\n// echo\n\"service\": \"" + d.projectName + "\"\n"
    case NetHttpFlavor => "package handler\n// net/http\n\"service\": \"" + d.projectName + "\"\n"
  }

  function HandlerText(framework: string, d: TemplateData): string
  {
    match WebFlavorOf(framework)
    case GinFlavor => "package handler\n// gin\nHello from " + d.projectName + "!\n"
    case EchoFlavor => "package handler\n// echo\nHello from " + d.projectName + "!\n"
    case NetHttpFlavor => "package handler\n// net/http\nHello from " + d.projectName + "!\n"
  }

  /** The configuration loader takes the data argument but uses none of it. */
  function ConfigText(d: TemplateData): string
  {
    "package config\nfunc Load() (*Config, error)\n"
  }

  function ConfigYamlText(d: TemplateData): string
  {
    "# Configuration for " + d.projectName + "\nserver:\n"
  }

  function OpenApiText(d: TemplateData): string
  {
    "openapi: 3.0.3\n  title: " + d.projectName + " API\n  description: " + d.description + "\n"
    + "  example: " + d.projectName + "\n  example: Hello from " + d.projectName + "!\n"
  }

  /** The service files sit at `ServicePaths`, each with a path and some content. */
  lemma ServiceFilesShape(framework: string, d: TemplateData)
    ensures Paths(ServiceFiles(framework, d)) == ServicePaths(d.projectName)
    ensures WellFormed(ServiceFiles(framework, d))
  {
    match WebFlavorOf(framework)
    case GinFlavor =>
    case EchoFlavor =>
    case NetHttpFlavor =>
  }

  /** Eleven files: the common four, then `cmd/<projectName>/main.go` and six fixed paths. */
  lemma MicroserviceShape(framework: string, d: TemplateData)
    ensures var r := Microservice(framework, d);
      && |r| == 11
      && Common(d) <= r
      && Paths(r)[4..] == ServicePaths(d.projectName)
      && WellFormed(r)
  {
    ServiceFilesShape(framework, d);
    AppendShape(Common(d), ServiceFiles(framework, d));
  }

  /** The framework reaches the file texts only through its flavour. */
  lemma MicroserviceDependsOnFlavorOnly(f1: string, f2: string, d: TemplateData)
    requires WebFlavorOf(f1) == WebFlavorOf(f2)
    ensures Microservice(f1, d) == Microservice(f2, d)
  {
  }

  /** Any framework other than "gin" and "echo" yields exactly the default texts. */
  lemma OtherFrameworksUseDefault(framework: string, d: TemplateData)
    requires framework != "gin" && framework != "echo"
    ensures Microservice(framework, d) == Microservice("", d)
  {
  }

  /** The three main.go branches are pairwise different texts, whatever the module name. */
  lemma MainBranchesDiffer(d: TemplateData)
    ensures MainText("gin", d) != MainText("echo", d)
    ensures MainText("gin", d) != MainText("chi", d)
    ensures MainText("echo", d) != MainText("chi", d)
  {
    var gin, echo, other := MainText("gin", d), MainText("echo", d), MainText("chi", d);
    assert |gin| != |echo| && |gin| != |other| && |echo| != |other|;
  }

  /** The default server text and the configuration loader do not depend on the data. */
  lemma ConstantTexts(framework: string, d1: TemplateData, d2: TemplateData)
    ensures framework != "gin" && framework != "echo" ==> ServerText(framework, d1) == ServerText(framework, d2) == DefaultServerText
    ensures ConfigText(d1) == ConfigText(d2)
  {
  }
}

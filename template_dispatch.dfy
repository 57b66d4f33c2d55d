/**
 * The project-type dispatch of the template package (backend/templates/types.go): four known
 * project types each go to their own builder, and every other string to the simple project.
 */
module TemplateDispatch {
  import opened TemplateTypes
  import opened CommonTemplates
  import opened MicroserviceTemplates
  import opened ApiServerTemplates
  import opened CliTemplates
  import opened SimpleTemplates

  /** The four project types with a builder of their own. */
  predicate KnownProjectType(projectType: string)
  {
    projectType == "microservice" || projectType == "cli-app"
    || projectType == "api-server" || projectType == "simple-project"
  }

  function TemplatesFor(projectType: string, framework: string, d: TemplateData): seq<Template>
  {
    if projectType == "microservice" then Microservice(framework, d)
    else if projectType == "cli-app" then CliApp(framework, d)
    else if projectType == "api-server" then ApiServer(framework, d)
    else Simple(d)
  }

  /** The number of files each project type produces: 11, 7, 13 and 7, and 7 for any unknown type. */
  function ExpectedCount(projectType: string): nat
  {
    if projectType == "microservice" then 11
    else if projectType == "api-server" then 13
    else 7
  }

  /**
   * Every dispatched list has the expected length, starts with the four common files and
   * carries a non-empty path and content in every entry.
   */
  lemma DispatchShape(projectType: string, framework: string, d: TemplateData)
    ensures |TemplatesFor(projectType, framework, d)| == ExpectedCount(projectType)
    ensures Common(d) <= TemplatesFor(projectType, framework, d)
    ensures WellFormed(TemplatesFor(projectType, framework, d))
  {
    if projectType == "microservice" {
      MicroserviceShape(framework, d);
    } else if projectType == "cli-app" {
      CliShape(framework, d);
    } else if projectType == "api-server" {
      ApiServerShape(framework, d);
    } else {
      SimpleShape(d);
    }
  }

  /** An unknown project type yields exactly the simple-project list, ignoring the framework. */
  lemma UnknownTypeIsSimple(projectType: string, framework: string, d: TemplateData)
    requires !KnownProjectType(projectType)
    ensures TemplatesFor(projectType, framework, d) == TemplatesFor("simple-project", "", d)
  {
  }

  /** For the simple project and for unknown types the framework argument is never read. */
  lemma FrameworkIgnoredOutsideWebAndCli(projectType: string, f1: string, f2: string, d: TemplateData)
    requires projectType != "microservice" && projectType != "cli-app" && projectType != "api-server"
    ensures TemplatesFor(projectType, f1, d) == TemplatesFor(projectType, f2, d)
  {
  }

  /** For the web project types the framework matters only through its flavour. */
  lemma WebTypesDependOnFlavor(projectType: string, f1: string, f2: string, d: TemplateData)
    requires projectType == "microservice" || projectType == "api-server"
    requires WebFlavorOf(f1) == WebFlavorOf(f2)
    ensures TemplatesFor(projectType, f1, d) == TemplatesFor(projectType, f2, d)
  {
    MicroserviceDependsOnFlavorOnly(f1, f2, d);
  }

  /** The API-server list extends the microservice list for the same framework and data. */
  lemma ApiServerExtendsMicroservice(framework: string, d: TemplateData)
    ensures TemplatesFor("microservice", framework, d) < TemplatesFor("api-server", framework, d)
  {
    ApiServerShape(framework, d);
    MicroserviceShape(framework, d);
  }
}

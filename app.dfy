/**
 * The stand-alone configuration page (frontend/src/App.tsx): four pieces of React state, the
 * framework options of the selected project type, the effect that resets the framework whenever
 * the type changes, the radio values derived from their labels, and the theme toggle.
 */
module App {
  import opened Text
  import Sidebar

  const Recommended: string := "golly (recommended)"

  /** `frameworkOptions[projectType] || ['None']`. */
  function FrameworkOptions(projectType: string): (r: seq<string>)
    ensures r != []
  {
    if projectType == "microservice" then [Recommended, "Gin", "Echo", "Fiber", "Go kit"]
    else if projectType == "cli-app" then [Recommended, "Cobra", "urfave/cli", "Kingpin"]
    else if projectType == "api-server" then [Recommended, "Gin", "Echo", "Fiber", "Chi"]
    else if projectType == "simple-project" then [Recommended]
    else ["None"]
  }

  predicate TableKey(projectType: string)
  {
    projectType == "microservice" || projectType == "cli-app"
    || projectType == "api-server" || projectType == "simple-project"
  }

  /** Every known type's list starts with the recommended entry; any other type offers only `None`. */
  lemma FrameworkOptionsFirst(projectType: string)
    ensures TableKey(projectType) ==> FrameworkOptions(projectType)[0] == Recommended
    ensures !TableKey(projectType) ==> FrameworkOptions(projectType) == ["None"]
    ensures Recommended in FrameworkOptions(projectType) <==> TableKey(projectType)
  {
  }

  /** `prev === 'light' ? 'dark' : 'light'`. */
  function NextTheme(theme: string): string
  {
    if theme == "light" then "dark" else "light"
  }

  /** Two toggles restore `light` and `dark`; from any other value one toggle enters that cycle. */
  lemma NextThemeInvolution(theme: string)
    ensures theme == "light" || theme == "dark" ==> NextTheme(NextTheme(theme)) == theme
    ensures NextTheme(theme) == "light" || NextTheme(theme) == "dark"
    ensures NextTheme(theme) != theme
  {
  }

  /** A Go version radio's value: its label up to the first space. */
  function GoVersionValue(versionLabel: string): (r: string)
    ensures r <= versionLabel && ' ' !in r
    ensures ' ' !in versionLabel ==> r == versionLabel
  {
    SplitFirst(versionLabel, ' ');
    Split(versionLabel, ' ')[0]
  }

  /** A label of the form `<version> <note>` yields `<version>`, so `1.22.0 (latest stable)` yields `1.22.0`. */
  lemma GoVersionValueDropsNote(version: string, note: string)
    requires ' ' !in version
    ensures GoVersionValue(version + " " + note) == version
  {
    var l := version + " " + note;
    var r := GoVersionValue(l);
    SplitFirst(l, ' ');
    assert l[|version|] == ' ';
    assert |r| == |version|;
    assert r == l[..|version|];
  }

  /** `.replace(/ /g, '-')`. */
  function Dashes(s: string): (r: string)
    ensures |r| == |s|
    ensures forall i :: 0 <= i < |s| ==> r[i] == if s[i] == ' ' then '-' else s[i]
  {
    seq(|s|, i requires 0 <= i < |s| => if s[i] == ' ' then '-' else s[i])
  }

  /** A project-type radio's value: the label lower-cased with spaces turned into dashes. */
  function ProjectTypeValue(typeLabel: string): string
  {
    Dashes(ToLower(typeLabel))
  }

  /** The four project-type labels on the page yield exactly the four keys of the framework table. */
  lemma ProjectTypeLabelsGiveKeys()
    ensures ProjectTypeValue("Microservice") == "microservice"
    ensures ProjectTypeValue("CLI App") == "cli-app"
    ensures ProjectTypeValue("API Server") == "api-server"
    ensures ProjectTypeValue("Simple Project") == "simple-project"
  {
    assert ProjectTypeValue("Microservice") == "microservice";
    assert ProjectTypeValue("CLI App") == "cli-app";
    assert ProjectTypeValue("API Server") == "api-server";
    assert ProjectTypeValue("Simple Project") == "simple-project";
  }

  /** The page's React state. */
  class AppState {
    var theme: string
    var projectType: string
    var goVersion: string
    var framework: string

    /** The initial values of the four `useState` calls. */
    constructor()
      ensures theme == "dark" && projectType == "microservice" && goVersion == "1.22.0" && framework == ""
    {
      theme := "dark";
      projectType := "microservice";
      goVersion := "1.22.0";
      framework := "";
    }

    /** The reset effect: the framework becomes the first option, whatever it was before. */
    method ResetFramework()
      modifies this
      ensures framework == FrameworkOptions(projectType)[0]
      ensures theme == old(theme) && projectType == old(projectType) && goVersion == old(goVersion)
    {
      framework := FrameworkOptions(projectType)[0];
    }

    /**
     * Picking a project type radio. The reset effect depends on the type alone, so it runs only
     * when the picked type differs from the current one; re-picking the checked type keeps the framework.
     */
    method ChangeProjectType(typeLabel: string)
      modifies this
      ensures projectType == ProjectTypeValue(typeLabel)
      ensures ProjectTypeValue(typeLabel) != old(projectType) ==> framework == FrameworkOptions(projectType)[0]
      ensures ProjectTypeValue(typeLabel) == old(projectType) ==> framework == old(framework)
      ensures theme == old(theme) && goVersion == old(goVersion)
    {
      var value := ProjectTypeValue(typeLabel);
      if value != projectType {
        projectType := value;
        ResetFramework();
      }
    }

    method ChangeGoVersion(versionLabel: string)
      modifies this
      ensures goVersion == GoVersionValue(versionLabel)
      ensures theme == old(theme) && projectType == old(projectType) && framework == old(framework)
    {
      goVersion := GoVersionValue(versionLabel);
    }

    /** Picking a framework radio stores its option text as is. */
    method ChangeFramework(fw: string)
      modifies this
      ensures framework == fw
      ensures theme == old(theme) && projectType == old(projectType) && goVersion == old(goVersion)
    {
      framework := fw;
    }

    method ToggleTheme()
      modifies this
      ensures theme == NextTheme(old(theme))
      ensures projectType == old(projectType) && goVersion == old(goVersion) && framework == old(framework)
    {
      theme := NextTheme(theme);
    }
  }

  /**
   * The page and the sidebar repair the framework differently: switching from microservice to
   * api-server, the sidebar keeps `gin`, which the new type also offers, while the page resets
   * `Gin` to the recommended entry although `Gin` is offered too.
   */
  lemma ResetDiffersFromSidebar()
    ensures "Gin" in FrameworkOptions("api-server") && FrameworkOptions("api-server")[0] != "Gin"
    ensures Sidebar.Reconcile(Sidebar.AvailableFrameworks("api-server"), Some("gin")) == Some("gin")
  {
    Sidebar.AvailableFrameworksTable("api-server");
  }
}

/**
 * The project-type sidebar (frontend/src/components/ProjectTypeSidebar.tsx): its fixed table of
 * project types and frameworks, the lookup of the selected type, the effect that repairs a
 * framework the new type does not offer, and the capitalised option labels.
 */
module Sidebar {
  import opened Text

  /** One row of the sidebar table; colours and descriptions only style the buttons. */
  datatype ProjectTypeRow = ProjectTypeRow(projectType: string, title: string, frameworks: seq<string>)

  const WebFrameworks: seq<string> := ["gin", "echo", "fiber", "chi"]

  const ProjectTypes: seq<ProjectTypeRow> := [
    ProjectTypeRow("microservice", "Microservice", WebFrameworks),
    ProjectTypeRow("cli-app", "CLI Application", ["cobra", "urfave", "kingpin"]),
    ProjectTypeRow("api-server", "API Server", WebFrameworks),
    ProjectTypeRow("simple-project", "Simple Project", ["golly"])]

  /** `Array.prototype.find`: the first row of the given type. */
  function Find(rows: seq<ProjectTypeRow>, projectType: string): (r: Option<ProjectTypeRow>)
    ensures r.Some? <==> exists i :: 0 <= i < |rows| && rows[i].projectType == projectType
    ensures r.Some? ==> r.value in rows && r.value.projectType == projectType
  {
    if rows == [] then None
    else if rows[0].projectType == projectType then Some(rows[0])
    else Find(rows[1..], projectType)
  }

  /** `selectedProject?.frameworks || []`. */
  function AvailableFrameworks(projectType: string): seq<string>
  {
    match Find(ProjectTypes, projectType)
    case Some(row) => row.frameworks
    case None => []
  }

  /** The four types of the table, each with its framework list; any other type offers nothing. */
  lemma AvailableFrameworksTable(projectType: string)
    ensures projectType == "microservice" || projectType == "api-server" ==> AvailableFrameworks(projectType) == ["gin", "echo", "fiber", "chi"]
    ensures projectType == "cli-app" ==> AvailableFrameworks(projectType) == ["cobra", "urfave", "kingpin"]
    ensures projectType == "simple-project" ==> AvailableFrameworks(projectType) == ["golly"]
    ensures AvailableFrameworks(projectType) != [] <==> KnownType(projectType)
  {
    var rows := ProjectTypes;
    if projectType == "microservice" {
      assert Find(rows, projectType) == Some(rows[0]);
    } else if projectType == "cli-app" {
      assert |rows[0].projectType| != |projectType|;
      assert Find(rows, projectType) == Some(rows[1]);
    } else if projectType == "api-server" {
      assert |rows[0].projectType| != |projectType| && |rows[1].projectType| != |projectType|;
      assert Find(rows, projectType) == Some(rows[2]);
    } else if projectType == "simple-project" {
      assert rows[0].projectType[0] != projectType[0] && rows[1].projectType[0] != projectType[0];
      assert rows[2].projectType[0] != projectType[0];
      assert Find(rows, projectType) == Some(rows[3]);
    } else {
      assert forall i :: 0 <= i < |rows| ==> rows[i].projectType != projectType;
    }
  }

  predicate KnownType(projectType: string)
  {
    projectType in {"microservice", "cli-app", "api-server", "simple-project"}
  }

  /**
   * The framework after the sidebar's effect: kept when the available list includes it, otherwise
   * replaced by the list's first element (`undefined`, here `None`, for an empty list).
   */
  function Reconcile(available: seq<string>, selected: Option<string>): Option<string>
  {
    if selected.Some? && selected.value in available then selected
    else if available == [] then None
    else Some(available[0])
  }

  /** The effect calls `onFrameworkChange` exactly when the selection is not in the list. */
  predicate ReconcileCalls(available: seq<string>, selected: Option<string>)
  {
    !(selected.Some? && selected.value in available)
  }

  /** After the effect a non-empty list includes the selection, an available selection is untouched, and a second run changes nothing. */
  lemma ReconcileProperties(available: seq<string>, selected: Option<string>)
    ensures available != [] ==> Reconcile(available, selected).Some? && Reconcile(available, selected).value in available
    ensures selected.Some? && selected.value in available ==> Reconcile(available, selected) == selected
    ensures !ReconcileCalls(available, selected) ==> Reconcile(available, selected) == selected
    ensures Reconcile(available, Reconcile(available, selected)) == Reconcile(available, selected)
    ensures available != [] ==> !ReconcileCalls(available, Reconcile(available, selected))
  {
  }

  /** For the four known types, the framework is one the sidebar offers once the effect has run. */
  lemma ReconciledIsOffered(projectType: string, selected: Option<string>)
    requires KnownType(projectType)
    ensures var r := Reconcile(AvailableFrameworks(projectType), selected);
      r.Some? && r.value in AvailableFrameworks(projectType)
  {
    AvailableFrameworksTable(projectType);
    ReconcileProperties(AvailableFrameworks(projectType), selected);
  }

  /** `fw.charAt(0).toUpperCase() + fw.slice(1)`. */
  function Capitalize(fw: string): (r: string)
    ensures |r| == |fw|
    ensures fw != [] ==> r[0] == UpperChar(fw[0]) && r[1..] == fw[1..]
  {
    if fw == [] then [] else [UpperChar(fw[0])] + fw[1..]
  }

  /** Capitalising only changes the case of the first letter: lower-casing undoes it. */
  lemma CapitalizeLowerInverse(fw: string)
    ensures ToLower(Capitalize(fw)) == ToLower(fw)
  {
    if fw != [] {
      var c := fw[0];
      assert LowerChar(UpperChar(c)) == LowerChar(c);
    }
  }
}

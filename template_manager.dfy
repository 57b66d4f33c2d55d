/**
 * The template manager page (frontend/src/components/TemplateManager.tsx): its React state, the
 * preview and download handlers, the partial update of the configuration and the effect that
 * copies the sidebar selection into the template data.
 * Each asynchronous handler is split at its `await`: a start step that runs before the request
 * and a finish step that receives the request's outcome. Browser effects of a download are
 * recorded as events.
 */
module TemplateManager {
  import opened Text
  import opened TemplateTypes
  import Sidebar

  /** A configuration change: the fields present overwrite, the absent ones are kept. */
  datatype Patch = Patch(
    projectName: Option<string>,
    moduleName: Option<string>,
    description: Option<string>,
    framework: Option<string>,
    goVersion: Option<string>,
    projectType: Option<string>)

  function Pick(old_: string, update: Option<string>): string
  {
    if update.Some? then update.value else old_
  }

  /** `{ ...prev, ...newData }`. */
  function Merge(prev: TemplateData, patch: Patch): (r: TemplateData)
    ensures patch.projectName.None? ==> r.projectName == prev.projectName
    ensures patch.moduleName.None? ==> r.moduleName == prev.moduleName
    ensures patch.description.None? ==> r.description == prev.description
    ensures patch.framework.None? ==> r.framework == prev.framework
    ensures patch.goVersion.None? ==> r.goVersion == prev.goVersion
    ensures patch.projectType.None? ==> r.projectType == prev.projectType
  {
    TemplateData(
      Pick(prev.projectName, patch.projectName),
      Pick(prev.moduleName, patch.moduleName),
      Pick(prev.description, patch.description),
      Pick(prev.framework, patch.framework),
      Pick(prev.goVersion, patch.goVersion),
      Pick(prev.projectType, patch.projectType))
  }

  const NoChange: Patch := Patch(None, None, None, None, None, None)

  /** Two patches in a row act as one in which the later patch's fields win. */
  function Then(first: Patch, second: Patch): Patch
  {
    Patch(
      if second.projectName.Some? then second.projectName else first.projectName,
      if second.moduleName.Some? then second.moduleName else first.moduleName,
      if second.description.Some? then second.description else first.description,
      if second.framework.Some? then second.framework else first.framework,
      if second.goVersion.Some? then second.goVersion else first.goVersion,
      if second.projectType.Some? then second.projectType else first.projectType)
  }

  /** The empty patch changes nothing, a patch applied twice acts once, and successive patches compose. */
  lemma MergeLaws(d: TemplateData, p: Patch, q: Patch)
    ensures Merge(d, NoChange) == d
    ensures Merge(Merge(d, p), p) == Merge(d, p)
    ensures Merge(Merge(d, p), q) == Merge(d, Then(p, q))
  {
  }

  /** The browser effects of a successful download, in order. */
  datatype DomEvent = CreateObjectUrl(blob: nat) | AppendAnchor(download: string) | ClickAnchor | RevokeObjectUrl(blob: nat) | RemoveAnchor

  /** The events of one download of `blob` saved as `filename`. */
  function DownloadEvents(blob: nat, filename: string): seq<DomEvent>
  {
    [CreateObjectUrl(blob), AppendAnchor(filename), ClickAnchor, RevokeObjectUrl(blob), RemoveAnchor]
  }

  /** `${projectName}.zip`: an empty name gives `.zip`. */
  function DownloadName(projectName: string): (r: string)
    ensures |r| == |projectName| + 4 && r[..|projectName|] == projectName && EndsWith(r, ".zip")
  {
    projectName + ".zip"
  }

  /** `err instanceof Error ? err.message : fallback`: `Some(message)` stands for an `Error`. */
  function ErrorText(thrown: Option<string>, fallback: string): string
  {
    if thrown.Some? then thrown.value else fallback
  }

  const PreviewFallback: string := "Failed to generate templates"
  const DownloadFallback: string := "Failed to download project"

  class Manager {
    var selectedProjectType: string
    var selectedFramework: Option<string>
    var templates: seq<Template>
    var loading: bool
    var error: Option<string>
    var templateData: TemplateData
    var events: seq<DomEvent>

    constructor()
      ensures selectedProjectType == "microservice" && selectedFramework == Some("gin")
      ensures templates == [] && !loading && error == None && events == []
      ensures templateData == TemplateData("", "", "", "gin", "1.22.0", "microservice")
    {
      selectedProjectType := "microservice";
      selectedFramework := Some("gin");
      templates := [];
      loading := false;
      error := None;
      templateData := TemplateData("", "", "", "gin", "1.22.0", "microservice");
      events := [];
    }

    /** Both action buttons are enabled only while nothing is loading. */
    function CanAct(): bool
      reads this
    {
      !loading
    }

    /**
     * Before the preview request: one shared flag goes up and the error is cleared; the request carries
     * the current data. Both buttons that start it are disabled while loading.
     */
    method StartPreview() returns (request: TemplateData)
      requires CanAct()
      modifies this
      ensures !CanAct() && error == None
      ensures request == templateData == old(templateData)
      ensures templates == old(templates) && events == old(events)
      ensures selectedProjectType == old(selectedProjectType) && selectedFramework == old(selectedFramework)
    {
      loading := true;
      error := None;
      request := templateData;
    }

    /**
     * After the preview request, whichever request it answers: a success replaces the templates, a
     * failure records its message and keeps them, and either way the flag goes down.
     */
    method FinishPreview(outcome: Result<seq<Template>, Option<string>>)
      modifies this
      ensures !loading
      ensures outcome.Success? ==> templates == outcome.value && error == old(error)
      ensures outcome.Failure? ==> templates == old(templates) && error == Some(ErrorText(outcome.error, PreviewFallback))
      ensures templateData == old(templateData) && events == old(events)
      ensures selectedProjectType == old(selectedProjectType) && selectedFramework == old(selectedFramework)
    {
      match outcome {
        case Success(ts) =>
          templates := ts;
        case Failure(thrown) =>
          error := Some(ErrorText(thrown, PreviewFallback));
      }
      loading := false;
    }

    /** Before the download request: the same shared flag, behind the same disabled buttons. */
    method StartDownload() returns (request: TemplateData)
      requires CanAct()
      modifies this
      ensures !CanAct() && error == None
      ensures request == templateData == old(templateData)
      ensures templates == old(templates) && events == old(events)
      ensures selectedProjectType == old(selectedProjectType) && selectedFramework == old(selectedFramework)
    {
      loading := true;
      error := None;
      request := templateData;
    }

    /**
     * After the download request: a blob is saved under the project name of the data the handler
     * captured when it started (`request`, whatever was edited since) plus `.zip`, through one
     * object URL that is revoked afterwards; the templates are never touched.
     */
    method FinishDownload(request: TemplateData, outcome: Result<nat, Option<string>>)
      modifies this
      ensures !loading
      ensures templates == old(templates)
      ensures outcome.Success? ==> events == old(events) + DownloadEvents(outcome.value, DownloadName(request.projectName)) && error == old(error)
      ensures outcome.Failure? ==> events == old(events) && error == Some(ErrorText(outcome.error, DownloadFallback))
      ensures templateData == old(templateData)
      ensures selectedProjectType == old(selectedProjectType) && selectedFramework == old(selectedFramework)
    {
      match outcome {
        case Success(blob) =>
          var url := blob;
          events := events + [CreateObjectUrl(url)];
          events := events + [AppendAnchor(DownloadName(request.projectName))];
          events := events + [ClickAnchor];
          events := events + [RevokeObjectUrl(url)];
          events := events + [RemoveAnchor];
        case Failure(thrown) =>
          error := Some(ErrorText(thrown, DownloadFallback));
      }
      loading := false;
    }

    /** `handleConfigurationChange`: only the supplied fields change. */
    method ConfigurationChange(patch: Patch)
      modifies this
      ensures templateData == Merge(old(templateData), patch)
      ensures templates == old(templates) && loading == old(loading) && error == old(error) && events == old(events)
      ensures selectedProjectType == old(selectedProjectType) && selectedFramework == old(selectedFramework)
    {
      templateData := Merge(templateData, patch);
    }

    /** The sync effect: the selection overwrites the data's project type and framework and nothing else. */
    method SyncSelection()
      modifies this
      ensures templateData == old(templateData).(projectType := selectedProjectType, framework := Pick("", selectedFramework))
      ensures templates == old(templates) && loading == old(loading) && error == old(error) && events == old(events)
      ensures selectedProjectType == old(selectedProjectType) && selectedFramework == old(selectedFramework)
    {
      var fw := if selectedFramework.Some? then selectedFramework.value else "";
      templateData := templateData.(projectType := selectedProjectType, framework := fw);
    }

    /** A sidebar button: the type changes, then the sidebar repairs the framework, then the sync effect runs. */
    method SelectProjectType(projectType: string)
      modifies this
      ensures selectedProjectType == projectType
      ensures selectedFramework == Sidebar.Reconcile(Sidebar.AvailableFrameworks(projectType), old(selectedFramework))
      ensures templateData == old(templateData).(projectType := projectType, framework := Pick("", selectedFramework))
      ensures templates == old(templates) && loading == old(loading) && error == old(error) && events == old(events)
    {
      selectedProjectType := projectType;
      var available := Sidebar.AvailableFrameworks(selectedProjectType);
      if !(selectedFramework.Some? && selectedFramework.value in available) {
        selectedFramework := if available == [] then None else Some(available[0]);
      }
      SyncSelection();
    }

    /** The framework select: the chosen option, then the sync effect. */
    method SelectFramework(framework: string)
      modifies this
      ensures selectedFramework == Some(framework)
      ensures templateData == old(templateData).(framework := framework, projectType := selectedProjectType)
      ensures selectedProjectType == old(selectedProjectType)
      ensures templates == old(templates) && loading == old(loading) && error == old(error) && events == old(events)
    {
      selectedFramework := Some(framework);
      SyncSelection();
    }
  }

  /**
   * The configuration stays editable while a download is out: the archive is still saved under the
   * name from the click, not the name shown when it arrives.
   */
  method DownloadKeepsClickTimeName(blob: nat) returns (m: Manager)
    ensures m.events == DownloadEvents(blob, "alpha.zip")
    ensures m.templateData.projectName == "beta"
    ensures m.CanAct() && m.error == None
  {
    m := new Manager();
    m.ConfigurationChange(NoChange.(projectName := Some("alpha")));
    var request := m.StartDownload();
    m.ConfigurationChange(NoChange.(projectName := Some("beta")));
    m.FinishDownload(request, Success(blob));
    assert request.projectName == "alpha";
    assert DownloadName("alpha") == "alpha.zip";
  }

  /**
   * Likewise for a preview: the templates shown were generated for the data of the click, which
   * may no longer be the data in the form.
   */
  method PreviewOfEditedData(shown: seq<Template>) returns (m: Manager, request: TemplateData)
    ensures m.templates == shown
    ensures request.projectName == "alpha" && m.templateData.projectName == "beta"
    ensures m.CanAct() && m.error == None
  {
    m := new Manager();
    m.ConfigurationChange(NoChange.(projectName := Some("alpha")));
    request := m.StartPreview();
    m.ConfigurationChange(NoChange.(projectName := Some("beta")));
    m.FinishPreview(Success(shown));
  }
}

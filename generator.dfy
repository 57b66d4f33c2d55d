/**
 * Project generation (backend/generator.go): the request is turned into template data, the
 * wrapped template list is written into a zip archive under one folder, one entry per
 * template, and the first failure of the archive writer aborts the run.
 * The zip writer is modelled as a `ZipSink` that records `(path, data)` entries and fails
 * at the positions a `Faults` plan names.
 */
module Generator {
  import opened Text
  import opened TemplateTypes
  import opened TemplateDispatch
  import opened GoMod
  import opened TemplateList

  /** The JSON body of a create-project request (backend/types.go). */
  datatype CreateProjectRequest = CreateProjectRequest(
    projectType: string,
    goVersion: string,
    framework: string,
    moduleName: string,
    name: string,
    description: string)

  /** One archive entry: its full path inside the zip and the bytes written to it. */
  datatype Entry = Entry(path: string, data: string)

  /** Where the archive writer fails: creating or writing the entry of the given index, or closing. */
  datatype Faults = Faults(createFailsAt: set<nat>, writeFailsAt: set<nat>, closeFails: bool)

  predicate Faulty(faults: Faults, i: nat)
  {
    i in faults.createFailsAt || i in faults.writeFailsAt
  }

  /** An archive writer that keeps its entries in order. */
  class ZipSink {
    var entries: seq<Entry>
    var closed: bool
    const faults: Faults

    constructor(faults: Faults)
      ensures entries == [] && !closed && this.faults == faults
    {
      entries := [];
      closed := false;
      this.faults := faults;
    }

    /** Starts a new, empty entry; the entry about to become number `|entries|` may fail. */
    method Create(path: string) returns (ok: bool)
      modifies this
      ensures ok <==> |old(entries)| !in faults.createFailsAt
      ensures entries == if ok then old(entries) + [Entry(path, "")] else old(entries)
      ensures closed == old(closed)
    {
      ok := |entries| !in faults.createFailsAt;
      if ok {
        entries := entries + [Entry(path, "")];
      }
    }

    /** Appends bytes to the entry created last. */
    method Write(data: string) returns (ok: bool)
      requires entries != []
      modifies this
      ensures ok <==> |old(entries)| - 1 !in faults.writeFailsAt
      ensures var last := old(entries)[|old(entries)| - 1];
        entries == if ok then old(entries)[..|old(entries)| - 1] + [last.(data := last.data + data)] else old(entries)
      ensures closed == old(closed)
    {
      ok := |entries| - 1 !in faults.writeFailsAt;
      if ok {
        var last := entries[|entries| - 1];
        entries := entries[..|entries| - 1] + [last.(data := last.data + data)];
      }
    }

    /** Finalises the archive. */
    method Close() returns (ok: bool)
      modifies this
      ensures ok <==> !faults.closeFails
      ensures closed == ok
      ensures entries == old(entries)
    {
      ok := !faults.closeFails;
      closed := ok;
    }
  }

  /** The folder every entry is placed in: the request's name, or `project` when it is empty. */
  function FolderName(name: string): (r: string)
    ensures r != ""
    ensures name != "" ==> r == name
    ensures name == "" ==> r == "project"
  {
    if name == "" then "project" else name
  }

  /** The template data of a request: the folder as project name and the framework lower-cased. */
  function RequestData(request: CreateProjectRequest): TemplateData
  {
    TemplateData(FolderName(request.name), request.moduleName, request.description,
                 ToLower(request.framework), request.goVersion, request.projectType)
  }

  /** The templates a request is generated from. */
  function RequestTemplates(cat: Catalog, request: CreateProjectRequest): seq<Template>
  {
    Wrapped(cat, request.projectType, ToLower(request.framework), RequestData(request))
  }

  /** The archive entries for `ts` under `folder`: one per template, in order, with the content as data. */
  function EntriesOf(folder: string, ts: seq<Template>): (r: seq<Entry>)
    ensures |r| == |ts|
    ensures forall i :: 0 <= i < |ts| ==> r[i] == Entry(folder + "/" + ts[i].path, ts[i].content)
  {
    if ts == [] then []
    else EntriesOf(folder, ts[..|ts| - 1]) + [Entry(folder + "/" + ts[|ts| - 1].path, ts[|ts| - 1].content)]
  }

  /** The smallest faulty index in `[from, n)`, or `n` when there is none. */
  function FirstFault(faults: Faults, from: nat, n: nat): (r: nat)
    requires from <= n
    ensures from <= r <= n
    ensures forall j :: from <= j < r ==> !Faulty(faults, j)
    ensures r < n ==> Faulty(faults, r)
    decreases n - from
  {
    if from == n then n
    else if Faulty(faults, from) then from
    else FirstFault(faults, from + 1, n)
  }

  /** The error or the archive entries that writing `ts` under `folder` produces. */
  function Outcome(folder: string, ts: seq<Template>, faults: Faults): Result<seq<Entry>, string>
  {
    var k := FirstFault(faults, 0, |ts|);
    if k < |ts| then
      if k in faults.createFailsAt then Failure("failed to create file " + ts[k].path + " in zip")
      else Failure("failed to write file " + ts[k].path)
    else if faults.closeFails then Failure("failed to finalize zip file")
    else Success(EntriesOf(folder, ts))
  }

  method GenerateProjectFromTemplate(cat: Catalog, request: CreateProjectRequest, faults: Faults)
    returns (result: Result<seq<Entry>, string>)
    ensures result == Outcome(FolderName(request.name), RequestTemplates(cat, request), faults)
  {
    var folderName := request.name;
    if folderName == "" {
      folderName := "project";
    }
    var templateData := TemplateData(folderName, request.moduleName, request.description,
                                     ToLower(request.framework), request.goVersion, request.projectType);
    var templates := GetTemplatesForProjectType(cat, request.projectType, ToLower(request.framework), templateData);
    result := WriteArchive(folderName, templates, faults);
  }

  /** The loop of the generator: one create and one write per template, stopping at the first failure. */
  method WriteArchive(folderName: string, templates: seq<Template>, faults: Faults)
    returns (result: Result<seq<Entry>, string>)
    ensures result == Outcome(folderName, templates, faults)
  {
    var sink := new ZipSink(faults);
    ghost var k := FirstFault(faults, 0, |templates|);
    var i := 0;
    while i < |templates|
      invariant 0 <= i <= k
      invariant sink.faults == faults
      invariant sink.entries == EntriesOf(folderName, templates[..i])
    {
      var template := templates[i];
      var filePath := folderName + "/" + template.path;
      assert |sink.entries| == i;
      var ok := sink.Create(filePath);
      if !ok {
        assert Faulty(faults, i) && i == k;
        return Failure("failed to create file " + template.path + " in zip");
      }
      ok := sink.Write(template.content);
      if !ok {
        assert Faulty(faults, i) && i == k;
        return Failure("failed to write file " + template.path);
      }
      assert "" + template.content == template.content;
      assert templates[..i + 1][..i] == templates[..i];
      i := i + 1;
    }
    assert templates[..i] == templates;
    var ok := sink.Close();
    if !ok {
      return Failure("failed to finalize zip file");
    }
    return Success(sink.entries);
  }

  /**
   * A run succeeds exactly when no create or write fails and the close succeeds; it then holds one
   * entry per template, whose path is the folder, a slash and the template's own path.
   */
  lemma SuccessShape(folder: string, ts: seq<Template>, faults: Faults)
    ensures Outcome(folder, ts, faults).Success? <==>
      (forall i :: 0 <= i < |ts| ==> !Faulty(faults, i)) && !faults.closeFails
    ensures Outcome(folder, ts, faults).Success? ==>
      var es := Outcome(folder, ts, faults).value;
      && |es| == |ts|
      && forall i :: 0 <= i < |ts| ==>
           es[i].path[..|folder| + 1] == folder + "/" && es[i].path[|folder| + 1..] == ts[i].path
           && es[i].data == ts[i].content
  {
    var k := FirstFault(faults, 0, |ts|);
    if k < |ts| {
      assert Faulty(faults, k);
    }
    if Outcome(folder, ts, faults).Success? {
      var es := Outcome(folder, ts, faults).value;
      forall i | 0 <= i < |ts|
        ensures es[i].path[..|folder| + 1] == folder + "/" && es[i].path[|folder| + 1..] == ts[i].path
      {
        assert es[i].path == (folder + "/") + ts[i].path;
      }
    }
  }

  /** The first failing entry decides the error, which names the template path, not the archive path. */
  lemma FirstFailureWins(folder: string, ts: seq<Template>, faults: Faults, i: nat)
    requires i < |ts| && Faulty(faults, i)
    requires forall j :: 0 <= j < i ==> !Faulty(faults, j)
    ensures Outcome(folder, ts, faults) ==
      if i in faults.createFailsAt then Failure("failed to create file " + ts[i].path + " in zip")
      else Failure("failed to write file " + ts[i].path)
  {
    var k := FirstFault(faults, 0, |ts|);
    assert !(i < k);
  }

  /** The framework is matched case-insensitively: two spellings that lower-case alike generate the same archive. */
  lemma FrameworkCaseInsensitive(cat: Catalog, r1: CreateProjectRequest, r2: CreateProjectRequest, faults: Faults)
    requires r1.(framework := r2.framework) == r2
    requires ToLower(r1.framework) == ToLower(r2.framework)
    ensures Outcome(FolderName(r1.name), RequestTemplates(cat, r1), faults)
         == Outcome(FolderName(r2.name), RequestTemplates(cat, r2), faults)
  {
    assert RequestData(r1) == RequestData(r2);
  }

  /** The archive of a successful run has as many entries as the project type has files. */
  lemma EntryCount(cat: Catalog, request: CreateProjectRequest, faults: Faults)
    requires Outcome(FolderName(request.name), RequestTemplates(cat, request), faults).Success?
    ensures |Outcome(FolderName(request.name), RequestTemplates(cat, request), faults).value| == ExpectedCount(request.projectType)
  {
    WrappedShape(cat, request.projectType, ToLower(request.framework), RequestData(request));
  }
}

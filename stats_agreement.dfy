/**
 * The backend statistics (backend/template_handler.go) and the frontend statistics panel
 * (frontend/src/components/TemplatePreview.tsx) computed over the same template list: lines and
 * Go files agree, and the configuration counts differ by exactly the `.gitignore` entries.
 */
module StatsAgreement {
  import opened Text
  import opened TemplateTypes
  import TemplateHandler
  import TemplatePreview

  /** `split('\n').length` per file and the backend's newline count plus one give the same total. */
  lemma {:induction false} LinesAgree(ts: seq<Template>)
    ensures TemplatePreview.TotalLines(ts) == TemplateHandler.LineTotal(ts)
  {
    if ts != [] {
      LinesAgree(ts[..|ts| - 1]);
      SplitLength(ts[|ts| - 1].content, '\n');
    }
  }

  /** Both sides count Go files by the `.go` suffix. */
  lemma {:induction false} GoFilesAgree(ts: seq<Template>)
    ensures TemplatePreview.GoFileCount(ts) == TemplateHandler.SuffixCount(ts, ".go")
  {
    if ts != [] {
      GoFilesAgree(ts[..|ts| - 1]);
    }
  }

  /** The backend counts `.gitignore` as a configuration file and the frontend does not; nothing else differs. */
  lemma {:induction false} ConfigCountsDifferByGitignore(ts: seq<Template>)
    ensures TemplateHandler.ConfigCount(ts) == TemplatePreview.FrontendConfigCount(ts) + TemplateHandler.PathCount(ts, ".gitignore")
  {
    if ts != [] {
      ConfigCountsDifferByGitignore(ts[..|ts| - 1]);
      var path := ts[|ts| - 1].path;
      if path == ".gitignore" {
        TemplateHandler.YamlSuffixesDisjoint(path);
      }
    }
  }
}

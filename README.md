# go-initializer in Dafny

go-initializer scaffolds Go projects. A user picks a project type and a framework in a React
front end. A Go back end then renders the project's files from string templates. It can
return them as a JSON preview or pack them into a zip archive. This project models both
halves and proves what each promises.

The back end is modelled as follows:

- **Template sets.** The four common files come first. Each of the four project types
  (microservice, api-server, cli-app, simple-project) adds its own files. The framework
  switches inside the texts are modelled too. Modules: `TemplateTypes`, `CommonTemplates`,
  `MicroserviceTemplates`, `ApiServerTemplates`, `CliTemplates`, `SimpleTemplates`.
- **Dispatch on the project type.** Module `TemplateDispatch`.
- **The go.mod generator** and its supported-type and supported-framework checks. Module `GoMod`.
- **The wrapper that rewrites the go.mod entry.** The Go source does this in place on a
  slice, and the model keeps an `array`. Module `TemplateList`.
- **The preview and statistics handlers** with their three counting loops. Module `TemplateHandler`.
- **The zip generator.** The zip writer is a class whose calls may fail at chosen points.
  Module `Generator`.

The front end is modelled as follows:

- **The conversions in `utils.ts`**: framework labels, the descending version sort and the
  project-type list. Module `FrontendUtils`.
- **The sidebar's framework reconciliation.** Module `Sidebar`.
- **The `App` page's option tables and state.** Module `App`.
- **The preview panel's filtering, icons and counters.** Module `TemplatePreview`.
- **The `TemplateManager` state machine** for preview, download and configuration changes.
  Module `TemplateManager`.

A last module, `StatsAgreement`, relates the back end's statistics to the counters the
front end shows.

Template texts are abbreviated. Each is reduced to a short opening line (the package clause
for Go files), a marker of the branch taken, and every line that embeds a data field, in the
source's order. The opening line is not always the source's first line: the Makefile text
opens with `GOCMD=go`, the .gitignore text with `*.exe`. What can be proved about a text
(which fields it embeds, which branches differ, which inputs it ignores) survives the
abbreviation.

The back end's tables are defined outside the modelled files (`SupportedProjectTypes`,
`SupportedFrameworksMap` and the dependency table); they are parameters of type `GoMod.Catalog`:
supported project types, supported frameworks per type, and dependencies per framework.
The list of supported Go versions is the input of `FrontendUtils.ToGoVersionOptions`.

Some consequences of the front end's code:

- There is no fallback file name: `TemplateManager.DownloadName` of an empty project name is `.zip`.
- Preview and download share one `loading` flag. The three buttons that start a request are
  disabled while it is set, so at most one request is outstanding at a time
  (`TemplateManager.Manager.StartPreview`, `TemplateManager.Manager.StartDownload`).
- The configuration form stays editable while a request is out. Each handler works with the
  data it captured when it was clicked. So a download is saved under the name from the click
  (`TemplateManager.DownloadKeepsClickTimeName`), and a preview may show files generated for
  data that has since been edited (`TemplateManager.PreviewOfEditedData`).

## Model

| member | source | states |
|---|---|---|
| TemplateTypes.Paths | backend/templates/types.go:4-8 | one path per template, in order |
| TemplateTypes.AppendShape | backend/templates/apiserver.go:5-20 | appending files keeps the first list as a prefix, puts the new paths at the end and keeps every entry non-empty |
| CommonTemplates.Common | backend/templates/common.go:6-25 | the common set is exactly README.md, go.mod, .gitignore, Makefile in that order, each with a path and content |
| CommonTemplates.Readme | backend/templates/common.go:27-30 | the README opens with `# <projectName>`, a blank line and the description |
| CommonTemplates.GoModPlaceholder | backend/templates/common.go:225-234 | the placeholder go.mod opens with `module <moduleName>` and `go <goVersion>` |
| CommonTemplates.MakefileEmbedsProjectName | backend/templates/common.go:157-221 | the Makefile sets BINARY_NAME and MAIN_PATH from the project name |
| MicroserviceTemplates.WebFlavorOf | backend/templates/microservice.go:45-49 | only the exact strings "gin" and "echo" select their own branch; every other framework takes the default |
| MicroserviceTemplates.ServiceFilesShape | backend/templates/microservice.go:10-39 | the seven service files sit at `cmd/<name>/main.go` and six fixed paths, in that order, each with a path and some content |
| MicroserviceTemplates.MicroserviceShape | backend/templates/microservice.go:6-42 | eleven files: the common four, then cmd/<name>/main.go and six fixed paths, all non-empty |
| MicroserviceTemplates.MicroserviceDependsOnFlavorOnly | backend/templates/microservice.go:44-456 | two frameworks with the same switch branch give identical file sets |
| MicroserviceTemplates.OtherFrameworksUseDefault | backend/templates/microservice.go:308-313 | fiber, chi or any unknown framework gives exactly the default (net/http) texts |
| MicroserviceTemplates.MainBranchesDiffer | backend/templates/microservice.go:44-144 | the gin, echo and default main.go texts are pairwise different for every module name |
| MicroserviceTemplates.ConstantTexts | backend/templates/microservice.go:458-507 | the default server text and the config loader text do not depend on the template data |
| ApiServerTemplates.ApiServerShape | backend/templates/apiserver.go:4-21 | thirteen files: the whole microservice set as a prefix, then the cors and auth middleware |
| ApiServerTemplates.MiddlewareShape | backend/templates/apiserver.go:10-17 | the middleware files are internal/middleware/cors.go then auth.go, both non-empty |
| ApiServerTemplates.MiddlewareOutcomes | backend/templates/apiserver.go:23-217 | every framework other than gin and echo gets the default middleware texts, and the three branches of each file differ |
| CliTemplates.CliFlavorOf | backend/templates/cli.go:28-40 | only "cobra" selects the cobra branch |
| CliTemplates.CliShape | backend/templates/cli.go:6-25 | seven files: the common four, then cmd/<name>/main.go, internal/cli/root.go, internal/cli/version.go |
| CliTemplates.NonCobraShareDefault | backend/templates/cli.go:27-164 | urfave, kingpin and any other non-cobra framework give the same file set |
| CliTemplates.CliMainImportsCommands | backend/templates/cli.go:27-58 | both main.go branches import `<moduleName>/internal/cli` |
| SimpleTemplates.SimpleServiceText | backend/templates/simple.go:78-96 | the service file is in the package named after the project |
| SimpleTemplates.SimpleShape | backend/templates/simple.go:6-25 | seven files: the common four, then cmd/<name>/main.go, internal/app/app.go, pkg/<name>/service.go |
| TemplateDispatch.DispatchShape | backend/templates/types.go:20-33 | every project type yields the common files as a prefix; 11 files for microservice, 13 for api-server and 7 otherwise; all entries non-empty |
| TemplateDispatch.UnknownTypeIsSimple | backend/templates/types.go:30-31 | an unknown project type yields the simple-project set |
| TemplateDispatch.FrameworkIgnoredOutsideWebAndCli | backend/templates/types.go:28-31 | simple and unknown project types ignore the framework |
| TemplateDispatch.WebTypesDependOnFlavor | backend/templates/types.go:22-27 | for the web types only the framework's switch branch matters |
| TemplateDispatch.ApiServerExtendsMicroservice | backend/templates/types.go:22-27 | the microservice set is a strict prefix of the api-server set |
| GoMod.GenerateGoMod | backend/mod_dependencies.go:7-37 | the loop builds exactly the specified go.mod text (error comment, bare header, or header plus require block) |
| GoMod.RequireLinesAppend | backend/mod_dependencies.go:30-33 | the require lines of concatenated lists are the concatenation of their require lines |
| GoMod.RequireLineAt | backend/mod_dependencies.go:30-33 | each dependency contributes its own tab-indented line at its position |
| GoMod.UnsupportedTypeFirst | backend/mod_dependencies.go:11-13 | an unsupported project type is reported before the framework is looked at, whatever the framework |
| GoMod.Outcomes | backend/mod_dependencies.go:11-35 | the two error texts; the result starts with "//" exactly when a check fails; a success starts with the module/go header |
| GoMod.RequireBlockIffDependencies | backend/mod_dependencies.go:22-35 | on success the result is the bare header exactly when the framework has no dependencies, else header plus require block |
| TemplateList.WithGoMod | backend/templates.go:17-21 | the rewrite keeps length and paths, replaces the content of every go.mod entry and leaves every other entry unchanged |
| TemplateList.GetTemplatesForProjectType | backend/templates.go:12-24 | returns the dispatched templates with every go.mod entry rewritten |
| TemplateList.RewriteGoMod | backend/templates.go:17-21 | the in-place loop over the slice leaves exactly the rewritten list |
| TemplateList.WithGoModIdempotent | backend/templates.go:17-21 | rewriting go.mod twice equals rewriting it once |
| TemplateList.WrappedShape | backend/templates.go:12-24 | the wrapped list has the dispatched length and paths; entry 1 is go.mod with the text generated from the data's own fields, so the framework argument cannot change it; all other entries are untouched; every wrapped entry has a non-empty path and content |
| TemplateHandler.SuffixCount | backend/template_handler.go:107-116 | the extension count is at most the number of templates |
| TemplateHandler.PathCount | backend/template_handler.go:121-123 | the count of one exact path is at most the number of templates |
| TemplateHandler.ConfigCount | backend/template_handler.go:118-130 | the config count is at most the number of templates |
| TemplateHandler.LineTotal | backend/template_handler.go:132-144 | the total is at least one line per template |
| TemplateHandler.CountFilesByExtension | backend/template_handler.go:107-116 | the loop counts exactly the paths ending in the extension |
| TemplateHandler.CountConfigFiles | backend/template_handler.go:118-130 | the loop counts exactly the config paths |
| TemplateHandler.CountTotalLines | backend/template_handler.go:132-144 | the nested loop yields, per file, one more than its newline count, summed |
| TemplateHandler.CountsAppend | backend/template_handler.go:107-144 | all three counters are additive over concatenation |
| TemplateHandler.YamlSuffixesDisjoint | backend/template_handler.go:121-125 | no path ends in both .yaml and .yml, and the three exact names end in neither |
| TemplateHandler.ConfigCountParts | backend/template_handler.go:118-130 | the config count is the go.mod, Makefile and .gitignore counts plus the .yaml and .yml counts |
| TemplateHandler.PreviewTemplatesHandler | backend/template_handler.go:28-57 | the response holds the wrapped templates for the request, and count equals their number, the project type's file count |
| TemplateHandler.PreviewDataVerbatim | backend/template_handler.go:39-46 | the template data copies the six request fields unchanged |
| TemplateHandler.OrDefault | backend/template_handler.go:75-80 | an empty query takes the default and a non-empty query is kept as is, so the value is never empty |
| TemplateHandler.TemplateStatsHandler | backend/template_handler.go:71-105 | defaults microservice/gin; each statistic is its counter applied to the wrapped templates for fixed sample data; the counts are bounded by the total |
| Generator.ZipSink.constructor | backend/generator.go:22-23 | a new writer is open and empty |
| Generator.ZipSink.Create | backend/generator.go:47-51 | an entry is added exactly when creation does not fail |
| Generator.ZipSink.Write | backend/generator.go:53-57 | the data is appended to the last entry exactly when the write does not fail |
| Generator.ZipSink.Close | backend/generator.go:62-66 | closing succeeds exactly when no close fault is set and leaves the entries alone |
| Generator.FolderName | backend/generator.go:25-28 | the folder is the request name, or "project" when the name is empty |
| Generator.EntriesOf | backend/generator.go:44-60 | one archive entry per template, at `<folder>/<path>` with the template's content |
| Generator.FirstFault | backend/generator.go:44-60 | finds the first entry whose create or write fails, or the end of the list |
| Generator.GenerateProjectFromTemplate | backend/generator.go:21-70 | the run's result is the specified outcome for the folder name, the lower-cased framework's templates and the faults |
| Generator.WriteArchive | backend/generator.go:44-66 | the loop stops at the first failing create or write with that error; otherwise a failing close gives "failed to finalize zip file"; otherwise the entries |
| Generator.SuccessShape | backend/generator.go:44-69 | success exactly when no create, write or close fails; then one entry per template at folder/path with its content |
| Generator.FirstFailureWins | backend/generator.go:47-57 | the first failing entry decides the error, which names the template path, not the archive path |
| Generator.FrameworkCaseInsensitive | backend/generator.go:35-41 | two requests whose frameworks lower-case alike produce the same archive |
| Generator.EntryCount | backend/generator.go:41-60 | a successful archive holds as many entries as the project type has templates |
| FrontendUtils.FrameworkLabelUnchangedIffUnknown | frontend/src/utils.ts:3-18 | a framework keeps its own name as label exactly when the label map does not know it |
| FrontendUtils.EnabledLabelsAppend | frontend/src/utils.ts:16-18 | filtering and labelling distributes over concatenation |
| FrontendUtils.EnabledLabelsMembers | frontend/src/utils.ts:16-18 | a label is offered exactly when some enabled framework maps to it |
| FrontendUtils.AssignNewKey | frontend/src/utils.ts:19 | assigning a fresh key appends it to the object |
| FrontendUtils.ToSupportedFrameworkOptionsMap | frontend/src/utils.ts:2-22 | the result has the input's keys in order, and each value is the labels of that type's enabled frameworks |
| FrontendUtils.Parts | frontend/src/utils.ts:29-30 | a version splits into one more component than it has dots |
| FrontendUtils.CompareVersions | frontend/src/utils.ts:27-35 | the comparator loop is antisymmetric and returns 0 exactly when all components (missing ones as 0) agree |
| FrontendUtils.CompareFromAntisymmetric | frontend/src/utils.ts:31-33 | swapping the arguments negates the comparison |
| FrontendUtils.CompareFromZero | frontend/src/utils.ts:31-34 | the comparison is 0 exactly when every remaining component agrees |
| FrontendUtils.CompareFromExtend | frontend/src/utils.ts:31-33 | looking past the longer version's last component changes nothing |
| FrontendUtils.CompareFromTransitive | frontend/src/utils.ts:31-34 | the descending order is transitive |
| FrontendUtils.BeforeTotal | frontend/src/utils.ts:27-35 | the comparator is antisymmetric and any two versions are ordered one way or the other |
| FrontendUtils.BeforeTransitive | frontend/src/utils.ts:27-35 | the sort order is transitive |
| FrontendUtils.Insert | frontend/src/utils.ts:26-27 | insertion adds exactly one element |
| FrontendUtils.InsertSorted | frontend/src/utils.ts:26-35 | inserting into a descending list keeps it descending |
| FrontendUtils.SortDesc | frontend/src/utils.ts:26-35 | the sort is a permutation of the keys and is descending by version |
| FrontendUtils.TiesAppend | frontend/src/utils.ts:27-35 | the versions tying with a given one, collected from a concatenation, are those of each part in turn |
| FrontendUtils.InsertTies | frontend/src/utils.ts:26-35 | insertion into a descending list places the new version after every version it ties with |
| FrontendUtils.SortDescStable | frontend/src/utils.ts:26-35 | the sort is stable, as JavaScript's `Array.prototype.sort` is: versions that compare equal, such as "1.2" and "1.2.0", keep their input order |
| FrontendUtils.VersionsOf | frontend/src/utils.ts:36-37 | one version per option, in order |
| FrontendUtils.ToGoVersionOptions | frontend/src/utils.ts:25-40 | the options are the keys in descending version order; only the first is labelled "(latest stable)"; the list is empty exactly when the input is |
| FrontendUtils.GetAt | frontend/src/utils.ts:46 | looking up a key of an object with distinct keys returns its own value |
| FrontendUtils.GetEvery | frontend/src/utils.ts:46 | the lookup returns each key's own value |
| FrontendUtils.ToSupportedProjectTypes | frontend/src/utils.ts:42-48 | one option per key, in key order, each labelled with that key's value |
| Sidebar.Find | frontend/src/components/ProjectTypeSidebar.tsx:52 | finds a row exactly when one has the project type, and returns a row with that type |
| Sidebar.AvailableFrameworksTable | frontend/src/components/ProjectTypeSidebar.tsx:13-53 | the frameworks offered per type, and an empty offer exactly for unknown types |
| Sidebar.ReconcileProperties | frontend/src/components/ProjectTypeSidebar.tsx:56-60 | a non-empty offer always ends with an offered framework; an offered selection is kept; reconciling is idempotent and leaves nothing to fix |
| Sidebar.ReconciledIsOffered | frontend/src/components/ProjectTypeSidebar.tsx:52-60 | for a known type the selected framework is one the sidebar offers |
| Sidebar.Capitalize | frontend/src/components/ProjectTypeSidebar.tsx:92 | the first character is upper-cased and the rest kept |
| Sidebar.CapitalizeLowerInverse | frontend/src/components/ProjectTypeSidebar.tsx:92 | capitalising changes nothing once lower-cased |
| App.FrameworkOptions | frontend/src/App.tsx:15-23 | the options list is never empty; unknown types get ["None"] |
| App.FrameworkOptionsFirst | frontend/src/App.tsx:15-23 | every known type offers "golly (recommended)" first, and only known types offer it |
| App.NextThemeInvolution | frontend/src/App.tsx:34-36 | toggling always gives light or dark, never the same theme, and toggling twice restores a light or dark theme |
| App.GoVersionValue | frontend/src/App.tsx:68-69 | the value is the label's prefix up to the first space |
| App.GoVersionValueDropsNote | frontend/src/App.tsx:68-69 | a label "<version> <note>" gives back the version |
| App.Dashes | frontend/src/App.tsx:109 | every space becomes a dash and every other character stays |
| App.ProjectTypeLabelsGiveKeys | frontend/src/App.tsx:108-109 | the four labels turn into the four project-type keys |
| App.AppState.constructor | frontend/src/App.tsx:8-11 | initial state: dark, microservice, 1.22.0, no framework |
| App.AppState.ResetFramework | frontend/src/App.tsx:25-28 | the framework becomes the first option of the current type; nothing else changes |
| App.AppState.ChangeProjectType | frontend/src/App.tsx:23-40 | the type becomes the label's key; when that differs from the current type the framework resets to its first option, and re-picking the current type keeps the framework |
| App.AppState.ChangeGoVersion | frontend/src/App.tsx:42-44 | the go version becomes the label's version part |
| App.AppState.ChangeFramework | frontend/src/App.tsx:174 | only the framework changes |
| App.AppState.ToggleTheme | frontend/src/App.tsx:34-36 | only the theme changes, to its toggle |
| App.ResetDiffersFromSidebar | frontend/src/App.tsx:25-28 | the page resets api-server's framework to the recommended entry, while the sidebar keeps gin |
| TemplatePreview.FilterByTerm | frontend/src/components/TemplatePreview.tsx:18-20 | the filter never adds files |
| TemplatePreview.FilterAppend | frontend/src/components/TemplatePreview.tsx:18-20 | filtering distributes over concatenation |
| TemplatePreview.FilterMembers | frontend/src/components/TemplatePreview.tsx:18-20 | a file is shown exactly when it is in the list and its lower-cased path contains the lower-cased term |
| TemplatePreview.EmptyTermKeepsAll | frontend/src/components/TemplatePreview.tsx:18-20 | an empty search term shows every file |
| TemplatePreview.FileIconExactNames | frontend/src/components/TemplatePreview.tsx:22-30 | the Makefile, .gitignore and go.mod icons go to exactly those names; the Go icon to exactly the .go paths |
| TemplatePreview.LanguageFollowsIcon | frontend/src/components/TemplatePreview.tsx:22-38 | the highlighting language agrees with the icon; the three special names fall to "text" like unknown files |
| TemplatePreview.GoFileCount | frontend/src/components/TemplatePreview.tsx:153 | the Go file counter is at most the file count |
| TemplatePreview.FrontendConfigCount | frontend/src/components/TemplatePreview.tsx:159-164 | the config counter is at most the file count |
| TemplatePreview.TotalLinesCountsNewlines | frontend/src/components/TemplatePreview.tsx:170 | each file adds its newline count plus one to the total |
| TemplatePreview.SelectedContent | frontend/src/components/TemplatePreview.tsx:128 | content is shown exactly when some file has the selected path |
| TemplatePreview.SelectedContentIsFirst | frontend/src/components/TemplatePreview.tsx:116-128 | the content shown is that of the first file with the selected path |
| TemplatePreview.ViewPrecedence | frontend/src/components/TemplatePreview.tsx:40-58 | loading shows the spinner; otherwise an empty list shows the hint; otherwise the files are listed |
| TemplateManager.Merge | frontend/src/components/TemplateManager.tsx:71-73 | fields absent from the partial update keep their values |
| TemplateManager.MergeLaws | frontend/src/components/TemplateManager.tsx:71-73 | an empty update changes nothing; repeating an update changes nothing more; two updates equal one combined update |
| TemplateManager.DownloadName | frontend/src/components/TemplateManager.tsx:59 | the file name is the project name followed by ".zip" |
| TemplateManager.Manager.constructor | frontend/src/components/TemplateManager.tsx:9-22 | the initial selection and template data |
| TemplateManager.Manager.StartPreview | frontend/src/components/TemplateManager.tsx:33-38 | callable only while the buttons are enabled (not loading, lines 110, 117); sets loading, so no second request can start, clears the error, and sends the current template data |
| TemplateManager.Manager.FinishPreview | frontend/src/components/TemplateManager.tsx:38-44 | success replaces the templates; failure keeps them and sets the message or the fallback; loading ends either way |
| TemplateManager.Manager.StartDownload | frontend/src/components/TemplateManager.tsx:47-52 | callable only while the buttons are enabled (not loading, line 110); sets loading, so no second request can start, clears the error, and sends the current template data |
| TemplateManager.Manager.FinishDownload | frontend/src/components/TemplateManager.tsx:52-68 | success performs the five browser steps with `<projectName>.zip`, the project name taken from the data captured when the download started; failure sets the message or the fallback; loading ends either way |
| TemplateManager.Manager.ConfigurationChange | frontend/src/components/TemplateManager.tsx:71-73 | the template data becomes the merge of the old data and the update |
| TemplateManager.Manager.SyncSelection | frontend/src/components/TemplateManager.tsx:25-31 | the template data takes the selected project type and framework |
| TemplateManager.Manager.SelectProjectType | frontend/src/components/TemplateManager.tsx:85-92 | the type is selected, the sidebar reconciles the framework, and the data follows both |
| TemplateManager.Manager.SelectFramework | frontend/src/components/TemplateManager.tsx:89 | the framework is selected and the data follows |
| TemplateManager.DownloadKeepsClickTimeName | frontend/src/components/TemplateManager.tsx:47-69 | a name edited while the download is out does not change the saved file name, which stays the one from the click |
| TemplateManager.PreviewOfEditedData | frontend/src/components/TemplateManager.tsx:33-45 | a preview answered after an edit shows the files for the data of the click, while the form holds the edited data |
| StatsAgreement.LinesAgree | frontend/src/components/TemplatePreview.tsx:170 | the front end's line total equals the back end's countTotalLines |
| StatsAgreement.GoFilesAgree | frontend/src/components/TemplatePreview.tsx:153 | the front end's Go file count equals the back end's count of ".go" paths |
| StatsAgreement.ConfigCountsDifferByGitignore | frontend/src/components/TemplatePreview.tsx:159-164 | the back end's config count is the front end's plus the number of .gitignore files |
| Text.ToLower | backend/generator.go:35 | lower-casing keeps the length and maps each character |
| Text.ToLowerIdempotent | backend/generator.go:35-41 | lower-casing twice equals lower-casing once |
| Text.Split | frontend/src/utils.ts:29-30 | a split always has at least one piece |
| Text.SplitLength | frontend/src/components/TemplatePreview.tsx:97 | a split has one piece more than there are separators |
| Text.SplitFirst | frontend/src/App.tsx:69 | the first piece is a separator-free prefix, the whole string when it has no separator |
| Text.Keys | frontend/src/utils.ts:26 | the keys of an object, in order |

## Left out

- HTTP plumbing is not modelled. That covers gin routing, JSON binding and its 400 error, `ctx.Query`, response writing and logging, including the `log.Printf` calls in `generator.go`. The handlers are modelled from their parsed inputs to their results.
- `GetAvailableTemplatesHandler` is not modelled. It returns three tables defined outside the modelled files: the project-type label map `SupportedProjectTypesLabelsMap`, which the model does not cover at all, and the framework and Go version tables, which appear here only as the `GoMod.Catalog` parameter and the input of `FrontendUtils.ToGoVersionOptions`.
- `handler.go`, `router.go`, `server.go`, `main.go`, `response.go` and `validate_templates.go` are not part of this model. They are callers and wiring.
- On the front end, `service.ts`, `ProjectConfiguration.tsx`, `Explore.tsx`, `Navigation.tsx`, `AppRouter.tsx` and `index.tsx` are not part of this model. The remote calls are inputs of `FinishPreview` and `FinishDownload`.
- Template texts are abbreviated to a short opening line, the branch marker and every line that embeds a field. Formatting and code lines without fields are not reproduced.
- The zip format, compression and byte encoding are not modelled. An archive is its list of entries. Create, write and close failures are injected through `Generator.Faults`.
- Go strings are modelled as sequences of characters, not UTF-8 bytes. The line counters count '\n' characters, which gives the same result.
- Text.ToLower, Sidebar.Capitalize: only ASCII letters change case. Go's `strings.ToLower` and JavaScript's `toUpperCase` also map other Unicode letters.
- FrontendUtils.ComponentValue: `Number(c) || 0` is modelled for plain decimal digit strings; any other component counts as 0. JavaScript also accepts whitespace, signs, exponents, hex and fractions, and large values lose precision as doubles.
- JavaScript objects are modelled as association lists in insertion order. The engine's placement of integer-like keys first is not modelled.
- TemplateManager.Manager.FinishDownload: exceptions thrown by the browser APIs inside the download block are not modelled. Only the request's own failure leads to the error path.
- DOM rendering, styling, the theme attribute on `document.body` and the clipboard button are not modelled. The download's browser calls are recorded as `TemplateManager.DomEvent` values.
- React's effect scheduling is modelled as explicit calls: `SyncSelection`, `ResetFramework`, and the sidebar reconciliation inside `SelectProjectType`. Renders and batching are not modelled.

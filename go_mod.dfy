/**
 * The go.mod builder (backend/mod_dependencies.go). It validates the project type, then the
 * framework for that type, and on success writes a `module`/`go` header followed by a
 * `require` block listing one line per dependency of the framework.
 * The three lookup tables live outside this file and are passed in as a `Catalog`.
 */
module GoMod {
  import opened Text

  /** The supported project types, the frameworks allowed per type, and each framework's module dependencies. */
  datatype Catalog = Catalog(
    projectTypes: map<string, bool>,
    frameworks: map<string, map<string, bool>>,
    dependencies: map<string, seq<string>>)

  /** Go's lookup in a `map[string]bool`: a missing key reads as `false`. */
  predicate Flag(m: map<string, bool>, key: string)
  {
    key in m && m[key]
  }

  predicate ProjectTypeSupported(cat: Catalog, projectType: string)
  {
    Flag(cat.projectTypes, projectType)
  }

  /** The type must have a framework map (`ok`) and the framework must be `true` in it. */
  predicate FrameworkSupported(cat: Catalog, projectType: string, framework: string)
  {
    projectType in cat.frameworks && Flag(cat.frameworks[projectType], framework)
  }

  /** A framework without an entry has no dependencies. */
  function Dependencies(cat: Catalog, framework: string): seq<string>
  {
    if framework in cat.dependencies then cat.dependencies[framework] else []
  }

  function UnsupportedProjectType(projectType: string): string
  {
    "// Unsupported project type: " + projectType + "\n"
  }

  function UnsupportedFramework(framework: string, projectType: string): string
  {
    "// Unsupported framework '" + framework + "' for project type '" + projectType + "'\n"
  }

  function Header(moduleName: string, goVersion: string): string
  {
    "module " + moduleName + "\n\ngo " + goVersion + "\n"
  }

  function RequireLine(dep: string): string
  {
    "\t" + dep + " latest\n"
  }

  /** The body of the require block: one line per dependency, in list order. */
  function RequireLines(deps: seq<string>): string
  {
    if deps == [] then "" else RequireLines(deps[..|deps| - 1]) + RequireLine(deps[|deps| - 1])
  }

  /** The module text for valid inputs. */
  function ModuleText(moduleName: string, goVersion: string, deps: seq<string>): string
  {
    if deps == [] then Header(moduleName, goVersion)
    else Header(moduleName, goVersion) + "\nrequire (\n" + RequireLines(deps) + ")\n"
  }

  /** What the builder returns: the project-type comment, the framework comment, or the module text. */
  function GoModText(cat: Catalog, moduleName: string, goVersion: string, framework: string, projectType: string): string
  {
    if !ProjectTypeSupported(cat, projectType) then UnsupportedProjectType(projectType)
    else if !FrameworkSupported(cat, projectType, framework) then UnsupportedFramework(framework, projectType)
    else ModuleText(moduleName, goVersion, Dependencies(cat, framework))
  }

  /** The builder itself, appending to the text one dependency line at a time. */
  method GenerateGoMod(cat: Catalog, moduleName: string, goVersion: string, framework: string, projectType: string)
    returns (goMod: string)
    ensures goMod == GoModText(cat, moduleName, goVersion, framework, projectType)
  {
    if !(projectType in cat.projectTypes && cat.projectTypes[projectType]) {
      return UnsupportedProjectType(projectType);
    }
    if !(projectType in cat.frameworks) || !(framework in cat.frameworks[projectType] && cat.frameworks[projectType][framework]) {
      return UnsupportedFramework(framework, projectType);
    }
    var requiredImports: seq<string>;
    if framework in cat.dependencies {
      requiredImports := cat.dependencies[framework];
    } else {
      requiredImports := [];
    }
    goMod := Header(moduleName, goVersion);
    if |requiredImports| > 0 {
      goMod := goMod + "\nrequire (\n";
      var i := 0;
      while i < |requiredImports|
        invariant 0 <= i <= |requiredImports|
        invariant goMod == Header(moduleName, goVersion) + "\nrequire (\n" + RequireLines(requiredImports[..i])
      {
        assert requiredImports[..i + 1][..i] == requiredImports[..i];
        goMod := goMod + RequireLine(requiredImports[i]);
        i := i + 1;
      }
      assert requiredImports[..i] == requiredImports;
      goMod := goMod + ")\n";
    }
  }

  /** The require body of a concatenation is the concatenation of the bodies: one line per dependency, in order. */
  lemma {:induction false} RequireLinesAppend(a: seq<string>, b: seq<string>)
    ensures RequireLines(a + b) == RequireLines(a) + RequireLines(b)
    decreases |b|
  {
    if b == [] {
      assert a + b == a;
    } else {
      var last := b[|b| - 1];
      var front := b[..|b| - 1];
      assert (a + b)[..|a + b| - 1] == a + front;
      assert (a + b)[|a + b| - 1] == last;
      assert RequireLines(a + b) == RequireLines(a + front) + RequireLine(last);
      RequireLinesAppend(a, front);
      assert RequireLines(b) == RequireLines(front) + RequireLine(last);
    }
  }

  /** The i-th dependency's line sits right after the lines of the dependencies before it. */
  lemma RequireLineAt(deps: seq<string>, i: nat)
    requires i < |deps|
    ensures RequireLines(deps) == RequireLines(deps[..i]) + RequireLine(deps[i]) + RequireLines(deps[i + 1..])
  {
    assert deps == deps[..i] + [deps[i]] + deps[i + 1..];
    RequireLinesAppend(deps[..i] + [deps[i]], deps[i + 1..]);
    RequireLinesAppend(deps[..i], [deps[i]]);
    assert [deps[i]][..0] == [];
  }

  /** The project type is checked first: an unsupported type yields its comment whatever the framework and tables for it say. */
  lemma UnsupportedTypeFirst(cat: Catalog, m: string, v: string, f1: string, f2: string, projectType: string)
    requires !ProjectTypeSupported(cat, projectType)
    ensures GoModText(cat, m, v, f1, projectType) == GoModText(cat, m, v, f2, projectType) == UnsupportedProjectType(projectType)
  {
  }

  /**
   * The three outcomes are told apart by their first characters: failures are `//` comments,
   * a success starts with the `module`/`go` header.
   */
  lemma Outcomes(cat: Catalog, m: string, v: string, framework: string, projectType: string)
    ensures var r := GoModText(cat, m, v, framework, projectType);
      && (!ProjectTypeSupported(cat, projectType) ==> r == UnsupportedProjectType(projectType))
      && (ProjectTypeSupported(cat, projectType) && !FrameworkSupported(cat, projectType, framework) ==>
            r == UnsupportedFramework(framework, projectType))
      && ("//" <= r <==> !(ProjectTypeSupported(cat, projectType) && FrameworkSupported(cat, projectType, framework)))
      && (ProjectTypeSupported(cat, projectType) && FrameworkSupported(cat, projectType, framework) ==>
            Header(m, v) <= r)
  {
    var r := GoModText(cat, m, v, framework, projectType);
    if ProjectTypeSupported(cat, projectType) && FrameworkSupported(cat, projectType, framework) {
      var h := Header(m, v);
      assert h <= r;
      assert r[0] == 'm' != '/';
    }
  }

  /** On success the output is the bare header exactly when the framework has no dependencies. */
  lemma RequireBlockIffDependencies(cat: Catalog, m: string, v: string, framework: string, projectType: string)
    requires ProjectTypeSupported(cat, projectType) && FrameworkSupported(cat, projectType, framework)
    ensures GoModText(cat, m, v, framework, projectType) == Header(m, v) <==> Dependencies(cat, framework) == []
    ensures Dependencies(cat, framework) != [] ==>
      GoModText(cat, m, v, framework, projectType) == Header(m, v) + "\nrequire (\n" + RequireLines(Dependencies(cat, framework)) + ")\n"
    ensures framework !in cat.dependencies ==> GoModText(cat, m, v, framework, projectType) == Header(m, v)
  {
  }
}

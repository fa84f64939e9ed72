/**
 * The setup validator: Python version gate, placing the three game templates
 * into templates/, the .env and requirements.txt checks, the template status
 * computed in main and the all-good decision of the summary.
 */
module Setup {
  import opened Wrappers
  import opened Collections
  import opened Text

  /** The templates the factory ships, in the order they are checked. */
  const TemplateNames: seq<string> := ["matching_game.html", "quiz_game.html", "flashcards_game.html"]
  const HtmlSuffix := ".html"

  const EnvFile := ".env"
  const KeyPrefix := "OPENAI_API_KEY="
  const PlaceholderKey := "your-api-key-here"
  /** What check_env_file writes into a missing .env. */
  const EnvPlaceholder := KeyPrefix + PlaceholderKey + "\n"

  const RequirementsFile := "requirements.txt"
  /** What check_requirements writes into a missing requirements.txt. */
  const Requirements :=
    "streamlit>=1.31.0\nopenai>=1.12.0\npython-dotenv>=1.0.0\njinja2>=3.1.0\nPyMuPDF>=1.24.0\npymupdf4llm>=0.0.10\n"

  // ---------------- Python version ----------------

  /** Lexicographic order on version tuples of equal length. */
  predicate LexAtLeast(v: seq<int>, w: seq<int>)
    requires |v| == |w|
    decreases |v|
  {
    v == [] || v[0] > w[0] || (v[0] == w[0] && LexAtLeast(v[1..], w[1..]))
  }

  /** check_python_version: 3.8 or newer. */
  function PythonVersionOk(major: int, minor: int): (ok: bool)
    ensures ok <==> LexAtLeast([major, minor], [3, 8])
  {
    !(major < 3 || (major == 3 && minor < 8))
  }

  // ---------------- Placing the templates ----------------

  predicate Distinct(names: seq<string>) {
    forall i, j :: 0 <= i < j < |names| ==> names[i] != names[j]
  }

  /** The outcome of find_and_move_templates: the two lists it returns and the new templates/ directory. */
  datatype Placement = Placement(found: seq<string>, moved: seq<string>, templates: map<string, string>)

  /**
   * The loop of find_and_move_templates over `names`, front to back: a name
   * already in templates/ is found; otherwise a name in the current directory
   * is copied over and counted as moved; otherwise it is skipped.
   */
  function PlaceAll(names: seq<string>, templates: map<string, string>, cwd: map<string, string>): (p: Placement)
    ensures |p.found| + |p.moved| <= |names|
    ensures templates.Keys <= p.templates.Keys
    decreases |names|
  {
    if names == [] then Placement([], [], templates)
    else
      var p := PlaceAll(names[..|names| - 1], templates, cwd);
      var name := Last(names);
      if name in p.templates then Placement(p.found + [name], p.moved, p.templates)
      else if name in cwd then Placement(p.found, p.moved + [name], p.templates[name := cwd[name]])
      else p
  }

  /** The names, in order, that were already present in templates/. */
  function FoundNames(names: seq<string>, templates: map<string, string>): (r: seq<string>)
    ensures forall n :: n in r <==> n in names && n in templates
    decreases |names|
  {
    if names == [] then []
    else
      var prior := names[..|names| - 1];
      assert forall n :: n in names <==> n in prior || n == Last(names);
      FoundNames(prior, templates) + (if Last(names) in templates then [Last(names)] else [])
  }

  /** The names, in order, that were absent from templates/ and present in the current directory. */
  function MovedNames(names: seq<string>, templates: map<string, string>, cwd: map<string, string>): (r: seq<string>)
    ensures forall n :: n in r <==> n in names && n !in templates && n in cwd
    decreases |names|
  {
    if names == [] then []
    else
      var prior := names[..|names| - 1];
      assert forall n :: n in names <==> n in prior || n == Last(names);
      MovedNames(prior, templates, cwd) + (if Last(names) !in templates && Last(names) in cwd then [Last(names)] else [])
  }

  /**
   * For distinct names the loop finds exactly the names already present and
   * copies exactly the absent names the current directory has, both in list
   * order; it adds only the copied files, with the current directory's content,
   * and leaves every existing file as it was.
   */
  lemma {:induction false} PlaceAllSpec(names: seq<string>, templates: map<string, string>, cwd: map<string, string>)
    requires Distinct(names)
    ensures var p := PlaceAll(names, templates, cwd);
      && p.found == FoundNames(names, templates)
      && p.moved == MovedNames(names, templates, cwd)
      && (forall n :: n in p.templates <==> n in templates || n in p.moved)
      && (forall n :: n in p.templates ==> p.templates[n] == if n in templates then templates[n] else cwd[n])
    decreases |names|
  {
    if names != [] {
      var prior := names[..|names| - 1];
      assert Distinct(prior);
      PlaceAllSpec(prior, templates, cwd);
      var name := Last(names);
      assert name !in prior;
    }
  }

  /** Each checked name ends up in exactly one of found, moved or neither. */
  lemma TemplateClasses(names: seq<string>, templates: map<string, string>, cwd: map<string, string>, n: string)
    requires Distinct(names) && n in names
    ensures var p := PlaceAll(names, templates, cwd);
      && (n in p.found <==> n in templates)
      && (n in p.moved <==> n !in templates && n in cwd)
      && !(n in p.found && n in p.moved)
  {
    PlaceAllSpec(names, templates, cwd);
  }

  /** An existing destination is never overwritten, and every found or moved name is in templates/ afterwards. */
  lemma PlaceAllKeeps(names: seq<string>, templates: map<string, string>, cwd: map<string, string>)
    requires Distinct(names)
    ensures var p := PlaceAll(names, templates, cwd);
      && (forall n :: n in templates ==> n in p.templates && p.templates[n] == templates[n])
      && (forall n :: n in p.found || n in p.moved ==> n in p.templates)
  {
    PlaceAllSpec(names, templates, cwd);
  }

  lemma TemplateNamesDistinct()
    ensures Distinct(TemplateNames)
  {
  }

  /** Every fixed template name is an .html file name. */
  lemma TemplateNamesAreHtml()
    ensures forall n :: n in TemplateNames ==> EndsWith(n, HtmlSuffix)
  {
    assert TemplateNames[0] == "matching_game" + HtmlSuffix;
    assert TemplateNames[1] == "quiz_game" + HtmlSuffix;
    assert TemplateNames[2] == "flashcards_game" + HtmlSuffix;
    EndsWithAppend("matching_game", HtmlSuffix);
    EndsWithAppend("quiz_game", HtmlSuffix);
    EndsWithAppend("flashcards_game", HtmlSuffix);
  }

  // ---------------- .env ----------------

  /** The API key counts as set when the key assignment is there and the placeholder is not. */
  predicate EnvConfigured(content: string)
    ensures EnvConfigured(content) <==>
      && (exists k :: 0 <= k <= |content| - |KeyPrefix| && StartsWith(content[k..], KeyPrefix))
      && !(exists k :: 0 <= k <= |content| - |PlaceholderKey| && StartsWith(content[k..], PlaceholderKey))
  {
    ContainsAt(content, KeyPrefix);
    ContainsAt(content, PlaceholderKey);
    Contains(content, KeyPrefix) && !Contains(content, PlaceholderKey)
  }

  /** The file check_env_file writes counts as not configured, so a second run still reports it. */
  lemma PlaceholderNotConfigured()
    ensures Contains(EnvPlaceholder, KeyPrefix)
    ensures !EnvConfigured(EnvPlaceholder)
  {
    var k, v := KeyPrefix, PlaceholderKey;
    ContainsSelf(k);
    ContainsLeft(k, v + "\n", k);
    ContainsSelf(v);
    ContainsLeft(v, "\n", v);
    ContainsRight(k, v + "\n", v);
    assert EnvPlaceholder == k + (v + "\n");
  }

  // ---------------- Template status ----------------

  /** The names Path('templates').glob('*.html') yields. */
  function HtmlFiles(templates: map<string, string>): (r: set<string>)
    ensures forall n :: n in r <==> n in templates && EndsWith(n, HtmlSuffix)
  {
    set n | n in templates && EndsWith(n, HtmlSuffix)
  }

  /** The names of `names`, in order, that are not among `present`. */
  function Missing(names: seq<string>, present: set<string>): (r: seq<string>)
    ensures |r| <= |names|
    ensures forall n :: n in r <==> n in names && n !in present
    decreases |names|
  {
    if names == [] then []
    else
      var prior := names[..|names| - 1];
      assert forall n :: n in names <==> n in prior || n == Last(names);
      Missing(prior, present) + (if Last(names) in present then [] else [Last(names)])
  }

  /** With none of the names present, all of them are missing, in order. */
  lemma {:induction false} NoneMissing(names: seq<string>, present: set<string>)
    requires forall n :: n in names ==> n !in present
    ensures Missing(names, present) == names
    decreases |names|
  {
    if names != [] {
      NoneMissing(names[..|names| - 1], present);
      SnocSplit(names);
    }
  }

  datatype TemplateStatus = TemplateStatus(found: nat, missing: seq<string>)

  /** The template status main computes: every .html file counts, the missing list is of the fixed names. */
  function StatusOf(templates: map<string, string>): (st: TemplateStatus)
    ensures st.found == |HtmlFiles(templates)|
    ensures |st.missing| <= |TemplateNames|
    ensures forall n :: n in st.missing <==> n in TemplateNames && n !in templates
  {
    TemplateNamesAreHtml();
    var html := HtmlFiles(templates);
    TemplateStatus(|html|, Missing(TemplateNames, html))
  }

  /** A name already present or copied over by the placement is not reported missing. */
  lemma PlacedNotMissing(templates: map<string, string>, cwd: map<string, string>, n: string)
    requires n in TemplateNames
    requires n in templates || n in cwd
    ensures n !in StatusOf(PlaceAll(TemplateNames, templates, cwd).templates).missing
  {
    TemplateNamesDistinct();
    PlaceAllSpec(TemplateNames, templates, cwd);
    TemplateNamesAreHtml();
  }

  /** An empty missing list means all three fixed templates are there, so at least three are counted. */
  lemma NoneMissingCountsThree(templates: map<string, string>)
    requires StatusOf(templates).missing == []
    ensures StatusOf(templates).found >= 3
  {
    var html := HtmlFiles(templates);
    var a, b, c := TemplateNames[0], TemplateNames[1], TemplateNames[2];
    assert {a, b, c} <= html;
    TemplateNamesDistinct();
    CardThree(a, b, c);
    SubsetCard({a, b, c}, html);
  }

  /**
   * found counts every .html file, not the fixed ones: three stray .html files
   * give found == 3, so the summary reports all templates in place, while every
   * fixed template is missing.
   */
  lemma CountIgnoresNames(x: string, y: string, z: string)
    requires x != y && y != z && x != z
    requires EndsWith(x, HtmlSuffix) && EndsWith(y, HtmlSuffix) && EndsWith(z, HtmlSuffix)
    requires x !in TemplateNames && y !in TemplateNames && z !in TemplateNames
    ensures StatusOf(map[x := "", y := "", z := ""]).found == 3
    ensures StatusOf(map[x := "", y := "", z := ""]).missing == TemplateNames
  {
    var html := HtmlFiles(map[x := "", y := "", z := ""]);
    assert html == {x, y, z};
    CardThree(x, y, z);
    NoneMissing(TemplateNames, html);
  }

  // ---------------- Summary ----------------

  /** The templates paragraph of print_summary. */
  datatype TemplateReport =
    | AllInPlace                                // "All templates are in place"
    | SomeFound(found: nat, missing: seq<string>) // "<found>/3 templates found" and the missing list
    | NoneFound                                 // "No templates found"

  /**
   * The decisions of print_summary: which templates paragraph it prints and
   * whether it declares the setup complete.
   */
  method PrintSummary(status: TemplateStatus, envStatus: bool, missingPackages: seq<string>)
    returns (report: TemplateReport, allGood: bool)
    ensures report.AllInPlace? <==> status.found == 3
    ensures report.NoneFound? <==> status.found == 0
    ensures report.SomeFound? ==> report == SomeFound(status.found, status.missing)
    ensures allGood <==> status.found == 3 && envStatus && missingPackages == []
  {
    allGood := true;
    if status.found == 3 {
      report := AllInPlace;
    } else if status.found > 0 {
      report := SomeFound(status.found, status.missing);
      allGood := false;
    } else {
      report := NoneFound;
      allGood := false;
    }
    if !envStatus {
      allGood := false;
    }
    if missingPackages != [] {
      allGood := false;
    }
  }

  // ---------------- The project directory ----------------

  /** The current directory after .env and requirements.txt have been created where absent. */
  function Scaffolded(cwd: map<string, string>): (r: map<string, string>)
    ensures EnvFile in r && RequirementsFile in r
    ensures forall n :: n in cwd ==> n in r && r[n] == cwd[n]
    ensures EnvFile !in cwd ==> r[EnvFile] == EnvPlaceholder
    ensures RequirementsFile !in cwd ==> r[RequirementsFile] == Requirements
    ensures r.Keys == cwd.Keys + {EnvFile, RequirementsFile}
  {
    var withEnv := if EnvFile in cwd then cwd else cwd[EnvFile := EnvPlaceholder];
    if RequirementsFile in withEnv then withEnv else withEnv[RequirementsFile := Requirements]
  }

  datatype SetupOutcome =
    | VersionRejected  // sys.exit(1)
    | Completed(found: seq<string>, moved: seq<string>, envStatus: bool,
                status: TemplateStatus, report: TemplateReport, allGood: bool)

  /** The files setup touches: templates/ and the current directory, each as file name to content. */
  class Workspace {
    var templatesDirExists: bool
    var templates: map<string, string>
    var cwd: map<string, string>

    ghost predicate Valid()
      reads this
    {
      !templatesDirExists ==> templates == map[]
    }

    constructor (templatesDirExists: bool, templates: map<string, string>, cwd: map<string, string>)
      requires !templatesDirExists ==> templates == map[]
      ensures Valid()
      ensures this.templatesDirExists == templatesDirExists && this.templates == templates && this.cwd == cwd
    {
      this.templatesDirExists := templatesDirExists;
      this.templates := templates;
      this.cwd := cwd;
    }

    /** create_templates_directory: makes templates/ when it is missing; its contents are untouched. */
    method CreateTemplatesDirectory() returns (existed: bool)
      requires Valid()
      modifies this`templatesDirExists
      ensures Valid()
      ensures existed == old(templatesDirExists) && templatesDirExists
    {
      existed := templatesDirExists;
      if !templatesDirExists {
        templatesDirExists := true;
      }
    }

    /** find_and_move_templates over the fixed template names. */
    method FindAndMoveTemplates() returns (found: seq<string>, moved: seq<string>)
      requires Valid() && templatesDirExists
      modifies this`templates
      ensures Valid()
      ensures PlaceAll(TemplateNames, old(templates), cwd) == Placement(found, moved, templates)
    {
      ghost var original := templates;
      found, moved := [], [];
      for i := 0 to |TemplateNames|
        invariant PlaceAll(TemplateNames[..i], original, cwd) == Placement(found, moved, templates)
      {
        var name := TemplateNames[i];
        assert TemplateNames[..i + 1][..i] == TemplateNames[..i];
        if name in templates {
          found := found + [name];
        } else if name in cwd {
          templates := templates[name := cwd[name]];
          moved := moved + [name];
        }
      }
      assert TemplateNames[..|TemplateNames|] == TemplateNames;
    }

    /** check_env_file: writes the placeholder when .env is missing, else reports whether the key is set. */
    method CheckEnvFile() returns (configured: bool)
      modifies this`cwd
      ensures EnvFile !in old(cwd) ==> !configured && cwd == old(cwd)[EnvFile := EnvPlaceholder]
      ensures EnvFile in old(cwd) ==> cwd == old(cwd) && (configured <==> EnvConfigured(old(cwd)[EnvFile]))
    {
      if EnvFile !in cwd {
        cwd := cwd[EnvFile := EnvPlaceholder];
        return false;
      }
      var content := cwd[EnvFile];
      if Contains(content, PlaceholderKey) || !Contains(content, KeyPrefix) {
        return false;
      }
      return true;
    }

    /** check_requirements: writes the default requirements when the file is missing. */
    method CheckRequirements() returns (existed: bool)
      modifies this`cwd
      ensures existed <==> RequirementsFile in old(cwd)
      ensures cwd == if existed then old(cwd) else old(cwd)[RequirementsFile := Requirements]
    {
      if RequirementsFile !in cwd {
        cwd := cwd[RequirementsFile := Requirements];
        return false;
      }
      return true;
    }

    /** The first two steps of main: templates/ exists, then the fixed templates are placed in it. */
    method PrepareTemplates() returns (found: seq<string>, moved: seq<string>)
      requires Valid()
      modifies this`templatesDirExists, this`templates
      ensures Valid() && templatesDirExists
      ensures PlaceAll(TemplateNames, old(templates), cwd) == Placement(found, moved, templates)
    {
      var _ := CreateTemplatesDirectory();
      found, moved := FindAndMoveTemplates();
    }

    /** The next two steps of main: .env and requirements.txt are checked and created where absent. */
    method PrepareFiles() returns (envStatus: bool)
      modifies this`cwd
      ensures cwd == Scaffolded(old(cwd))
      ensures envStatus <==> EnvFile in old(cwd) && EnvConfigured(old(cwd)[EnvFile])
    {
      envStatus := CheckEnvFile();
      var _ := CheckRequirements();
    }

    /**
     * main, with the installed-package probe given as its result. The
     * requirements check runs for its effect only; its result is discarded.
     */
    method RunSetup(major: int, minor: int, missingPackages: seq<string>) returns (outcome: SetupOutcome)
      requires Valid()
      modifies this
      ensures Valid()
      ensures !PythonVersionOk(major, minor) ==>
        outcome == VersionRejected && templatesDirExists == old(templatesDirExists) &&
        templates == old(templates) && cwd == old(cwd)
      ensures PythonVersionOk(major, minor) ==>
        var p := PlaceAll(TemplateNames, old(templates), old(cwd));
        && templatesDirExists
        && templates == p.templates
        && cwd == Scaffolded(old(cwd))
        && outcome.Completed?
        && outcome.found == p.found && outcome.moved == p.moved
        && (outcome.envStatus <==> EnvFile in old(cwd) && EnvConfigured(old(cwd)[EnvFile]))
        && outcome.status == StatusOf(templates)
        && (outcome.allGood <==> outcome.status.found == 3 && outcome.envStatus && missingPackages == [])
    {
      if !PythonVersionOk(major, minor) {
        return VersionRejected;
      }
      var found, moved := PrepareTemplates();
      var envStatus := PrepareFiles();
      var status := StatusOf(templates);
      var report, allGood := PrintSummary(status, envStatus, missingPackages);
      outcome := Completed(found, moved, envStatus, status, report, allGood);
    }
  }
}

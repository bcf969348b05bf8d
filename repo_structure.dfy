/**
 * `verify_repos.py`: the check and the repair of one domain's site directory. The
 * filesystem under the working directory is a set of directories and a map from file paths
 * to their text; a path is a top-level name (`<domain>`) or a name inside a top-level
 * directory (`<domain>/CNAME`).
 */
module RepoStructure {
  import opened Wrappers
  import opened Strings
  import opened Dicts

  /** The files a site directory must hold, in the order they are checked. */
  const RequiredFiles: seq<string> := [
    "index.html", "about.html", "services.html", "contact.html",
    "CNAME", "README.md", ".gitignore", "config.template.json"
  ]

  /** The sub-directories a site directory must hold, in the order they are checked and made. */
  const RequiredDirs: seq<string> := ["assets", "content", "config"]

  /** The four pages the repair never creates. */
  const Pages: seq<string> := RequiredFiles[..4]

  datatype Path = Top(name: string) | Under(parent: string, name: string)

  /** A directory tree: the paths that are directories, and the text of each file. */
  datatype Tree = Tree(files: map<Path, string>, dirs: set<Path>) {
    /** `Path.exists()`: a file or a directory. */
    predicate Exists(p: Path) {
      p in files || p in dirs
    }
  }

  /** What `verify_domain_structure` returns: the two entries of per-name checks and the verdict. */
  datatype Report = Report(files: Dict<bool>, directories: Dict<bool>, overall: bool)

  /** The domain's CNAME file holds, once stripped, something other than the domain name. */
  predicate CnameMismatch(t: Tree, domain: string) {
    Under(domain, "CNAME") in t.files && Strip(t.files[Under(domain, "CNAME")]) != domain
  }

  /** Every required file exists, every required directory exists as a directory, and CNAME names the domain. */
  predicate StructureOk(t: Tree, domain: string) {
    && (forall i :: 0 <= i < |RequiredFiles| ==> t.Exists(Under(domain, RequiredFiles[i])))
    && (forall i :: 0 <= i < |RequiredDirs| ==> Under(domain, RequiredDirs[i]) in t.dirs)
    && !CnameMismatch(t, domain)
  }

  /**
   * `verify_domain_structure`. None stands for the error `open` raises when CNAME is a
   * directory: it exists, so it is read.
   */
  method VerifyDomainStructure(t: Tree, domain: string) returns (r: Option<Report>)
    ensures r.None? <==> Under(domain, "CNAME") in t.dirs
    ensures r.Some? ==> Keys(r.value.files) == RequiredFiles && Keys(r.value.directories) == RequiredDirs
    ensures r.Some? ==> forall i :: 0 <= i < |RequiredFiles| ==> r.value.files[i].1 == t.Exists(Under(domain, RequiredFiles[i]))
    ensures r.Some? ==> forall i :: 0 <= i < |RequiredDirs| ==> r.value.directories[i].1 == (Under(domain, RequiredDirs[i]) in t.dirs)
    ensures r.Some? ==> (r.value.overall <==> StructureOk(t, domain))
  {
    var files: Dict<bool> := [];
    var directories: Dict<bool> := [];
    var overall := true;
    for i := 0 to |RequiredFiles|
      invariant |files| == i
      invariant forall k :: 0 <= k < i ==> files[k] == (RequiredFiles[k], t.Exists(Under(domain, RequiredFiles[k])))
      invariant overall <==> forall k :: 0 <= k < i ==> t.Exists(Under(domain, RequiredFiles[k]))
    {
      var found := t.Exists(Under(domain, RequiredFiles[i]));
      // the names are distinct, so the assignment appends
      files := files + [(RequiredFiles[i], found)];
      if !found {
        overall := false;
      }
    }
    for i := 0 to |RequiredDirs|
      invariant |directories| == i
      invariant forall k :: 0 <= k < i ==> directories[k] == (RequiredDirs[k], Under(domain, RequiredDirs[k]) in t.dirs)
      invariant overall <==> (forall k :: 0 <= k < |RequiredFiles| ==> t.Exists(Under(domain, RequiredFiles[k])))
                             && forall k :: 0 <= k < i ==> Under(domain, RequiredDirs[k]) in t.dirs
    {
      var found := t.Exists(Under(domain, RequiredDirs[i])) && Under(domain, RequiredDirs[i]) in t.dirs;
      directories := directories + [(RequiredDirs[i], found)];
      if !found {
        overall := false;
      }
    }
    var cname := Under(domain, "CNAME");
    if t.Exists(cname) {
      if cname in t.dirs {
        return None;
      }
      if Strip(t.files[cname]) != domain {
        overall := false;
      }
    }
    r := Some(Report(files, directories, overall));
  }

  /** `Path.mkdir(exist_ok=True)`: None when the parent is missing or the path is a file (the error raised). */
  function Mkdir(t: Tree, p: Path): (r: Option<Tree>)
    requires p.Under?
    ensures r.Some? <==> Top(p.parent) in t.dirs && p !in t.files
    ensures r.Some? ==> r.value == Tree(t.files, t.dirs + {p})
  {
    if Top(p.parent) !in t.dirs || p in t.files then None
    else Some(Tree(t.files, t.dirs + {p}))
  }

  /** The directory loop of `update_domain_structure` over `names`: the tree reached and whether no mkdir raised. */
  function MakeDirs(t: Tree, domain: string, names: seq<string>): (Tree, bool)
    decreases |names|
  {
    if names == [] then (t, true)
    else match Mkdir(t, Under(domain, names[0]))
      case None => (t, false)
      case Some(t1) => MakeDirs(t1, domain, names[1..])
  }

  /** `if not path.exists(): write(path, text)`. */
  function CreateIfMissing(t: Tree, p: Path, text: string): Tree {
    if t.Exists(p) then t else Tree(t.files[p := text], t.dirs)
  }

  function ReadmeText(domain: string): string {
    "# " + domain + "\n\nThis is the GitHub Pages repository for " + domain + ".\n"
  }

  const GitignoreText: string :=
    "# Dependencies\nnode_modules/\nvenv/\n\n# Build outputs\ndist/\nbuild/\n\n# Environment files\n"
    + ".env\n.env.local\n\n# IDE files\n.idea/\n.vscode/\n\n# OS files\n.DS_Store\nThumbs.db\n"

  /** The template `json.dump(..., indent=2)` writes; the name and the time are inserted as they are. */
  function ConfigTemplateText(domain: string, now: string): string {
    TemplateHead + domain + TemplateDescription + domain + TemplateEmail + domain + TemplateRest + now + "\"\n}"
  }

  const TemplateHead: string := "{\n  \"site\": {\n    \"title\": \""
  const TemplateDescription: string := "\",\n    \"description\": \"Welcome to "
  const TemplateEmail: string := "\",\n    \"author\": \"FullStacks.life\",\n    \"email\": \"contact@"
  const TemplateRest: string :=
    "\",\n    \"phone\": \"\",\n    \"address\": \"\",\n    \"social\": {\n      \"facebook\": \"\",\n"
    + "      \"twitter\": \"\",\n      \"instagram\": \"\",\n      \"linkedin\": \"\"\n    }\n  },\n"
    + "  \"analytics\": {\n    \"google_analytics_id\": \"\",\n    \"hubspot_portal_id\": \"\",\n"
    + "    \"brevo_conversations_id\": \"\"\n  },\n  \"last_updated\": \""

  /** The texts a repair writes into README.md, .gitignore and config.template.json. */
  datatype Texts = Texts(readme: string, gitignore: string, configTemplate: string)

  function SourceTexts(domain: string, now: string): Texts {
    Texts(ReadmeText(domain), GitignoreText, ConfigTemplateText(domain, now))
  }

  /** The four file steps of `update_domain_structure`, after the directories exist. */
  function Seeded(t: Tree, domain: string, texts: Texts): Tree {
    var t1 := CreateIfMissing(t, Under(domain, "CNAME"), domain);
    var t2 := CreateIfMissing(t1, Under(domain, "README.md"), texts.readme);
    var t3 := CreateIfMissing(t2, Under(domain, ".gitignore"), texts.gitignore);
    CreateIfMissing(t3, Under(domain, "config.template.json"), texts.configTemplate)
  }

  /** The tree after `update_domain_structure`, and whether it returned without raising. */
  function Updated(t: Tree, domain: string, texts: Texts): (Tree, bool) {
    var (d, ok) := MakeDirs(t, domain, RequiredDirs);
    if ok then (Seeded(d, domain, texts), true) else (d, false)
  }

  /** The filesystem `update_domain_structure` changes in place. */
  class Workspace {
    var files: map<Path, string>
    var dirs: set<Path>

    function State(): Tree
      reads this
    {
      Tree(files, dirs)
    }

    constructor (t: Tree)
      ensures State() == t
    {
      files := t.files;
      dirs := t.dirs;
    }

    method CreateFileIfMissing(p: Path, text: string)
      modifies this
      ensures State() == CreateIfMissing(old(State()), p, text)
    {
      if !(p in files || p in dirs) {
        files := files[p := text];
      }
    }

    /** The directory loop, then the four conditional writes; ok is false when a mkdir raised. */
    method Repair(domain: string, texts: Texts) returns (ok: bool)
      modifies this
      ensures (State(), ok) == Updated(old(State()), domain, texts)
    {
      for i := 0 to |RequiredDirs|
        invariant MakeDirs(State(), domain, RequiredDirs[i..]) == MakeDirs(old(State()), domain, RequiredDirs)
      {
        var p := Under(domain, RequiredDirs[i]);
        assert RequiredDirs[i..][1..] == RequiredDirs[i + 1..];
        if Top(domain) !in dirs || p in files {
          return false;
        }
        dirs := dirs + {p};
      }
      CreateFileIfMissing(Under(domain, "CNAME"), domain);
      CreateFileIfMissing(Under(domain, "README.md"), texts.readme);
      CreateFileIfMissing(Under(domain, ".gitignore"), texts.gitignore);
      CreateFileIfMissing(Under(domain, "config.template.json"), texts.configTemplate);
      ok := true;
    }

    /** `update_domain_structure(domain)`, at clock reading `now`. */
    method UpdateDomainStructure(domain: string, now: string) returns (ok: bool)
      modifies this
      ensures (State(), ok) == Updated(old(State()), domain, SourceTexts(domain, now))
    {
      var texts := SourceTexts(domain, now);
      ok := Repair(domain, texts);
    }
  }

  // ---- what a repair guarantees ----

  /** The directory loop only adds directories, and fails iff the domain directory is missing or a required name is a file. */
  lemma {:induction false} MakeDirsSpec(t: Tree, domain: string, names: seq<string>)
    decreases |names|
    ensures MakeDirs(t, domain, names).0.files == t.files
    ensures t.dirs <= MakeDirs(t, domain, names).0.dirs
    ensures MakeDirs(t, domain, names).0.dirs <= t.dirs + set n | n in names :: Under(domain, n)
    ensures MakeDirs(t, domain, names).1 <==>
      names == [] || (Top(domain) in t.dirs && forall n :: n in names ==> Under(domain, n) !in t.files)
    ensures MakeDirs(t, domain, names).1 ==> forall n :: n in names ==> Under(domain, n) in MakeDirs(t, domain, names).0.dirs
  {
    if names != [] {
      var p := Under(domain, names[0]);
      if Mkdir(t, p).Some? {
        var t1 := Mkdir(t, p).value;
        MakeDirsSpec(t1, domain, names[1..]);
        assert forall n :: n in names ==> n == names[0] || n in names[1..];
        if names[1..] == [] {
          assert names == [names[0]];
        }
      }
    }
  }

  /** Running the directory loop again over its own result changes nothing. */
  lemma {:induction false} MakeDirsIdempotent(t: Tree, domain: string, names: seq<string>)
    decreases |names|
    ensures var (d, ok) := MakeDirs(t, domain, names); MakeDirs(d, domain, names) == (d, ok)
  {
    var (d, ok) := MakeDirs(t, domain, names);
    MakeDirsSpec(t, domain, names);
    if names != [] {
      var p := Under(domain, names[0]);
      if Mkdir(t, p).Some? {
        var t1 := Mkdir(t, p).value;
        MakeDirsIdempotent(t1, domain, names[1..]);
        MakeDirsSpec(t1, domain, names[1..]);
        // the first mkdir of the second run finds its directory already made
        assert p in d.dirs && d.dirs + {p} == d.dirs;
        assert Mkdir(d, p) == Some(d);
      } else {
        assert d == t;
      }
    }
  }

  /** Where every named directory already exists, the loop leaves the tree as it is and succeeds. */
  lemma {:induction false} MakeDirsNoop(t: Tree, domain: string, names: seq<string>)
    decreases |names|
    requires names == [] || Top(domain) in t.dirs
    requires forall n :: n in names ==> Under(domain, n) in t.dirs && Under(domain, n) !in t.files
    ensures MakeDirs(t, domain, names) == (t, true)
  {
    if names != [] {
      var p := Under(domain, names[0]);
      assert t.dirs + {p} == t.dirs;
      MakeDirsNoop(t, domain, names[1..]);
    }
  }

  /** The four file steps keep every file and directory and create the four files that were missing. */
  lemma SeededSpec(d: Tree, domain: string, texts: Texts)
    ensures var u := Seeded(d, domain, texts);
      && u.dirs == d.dirs
      && (forall p :: p in d.files ==> p in u.files && u.files[p] == d.files[p])
      && (forall p :: p in u.files && p !in d.files ==>
            p in {Under(domain, "CNAME"), Under(domain, "README.md"), Under(domain, ".gitignore"), Under(domain, "config.template.json")})
      && u.Exists(Under(domain, "CNAME")) && u.Exists(Under(domain, "README.md"))
      && u.Exists(Under(domain, ".gitignore")) && u.Exists(Under(domain, "config.template.json"))
      && (!d.Exists(Under(domain, "CNAME")) ==> Under(domain, "CNAME") in u.files && u.files[Under(domain, "CNAME")] == domain)
  {
  }

  /**
   * A repair never changes an existing file and only adds directories. It returns iff the
   * domain directory exists and no required directory name is taken by a file; then every
   * required directory and CNAME, README.md, .gitignore and config.template.json exist,
   * and a CNAME it had to create holds the domain name.
   */
  lemma UpdatedSpec(t: Tree, domain: string, texts: Texts)
    ensures var (u, ok) := Updated(t, domain, texts);
      && (forall p :: p in t.files ==> p in u.files && u.files[p] == t.files[p])
      && t.dirs <= u.dirs
      && (ok <==> Top(domain) in t.dirs && forall n :: n in RequiredDirs ==> Under(domain, n) !in t.files)
      && (ok ==> forall n :: n in RequiredDirs ==> Under(domain, n) in u.dirs)
      && (ok ==> forall i :: 4 <= i < |RequiredFiles| ==> u.Exists(Under(domain, RequiredFiles[i])))
      && (ok && !t.Exists(Under(domain, "CNAME")) ==> Under(domain, "CNAME") in u.files && u.files[Under(domain, "CNAME")] == domain)
  {
    MakeDirsSpec(t, domain, RequiredDirs);
    var (d, ok) := MakeDirs(t, domain, RequiredDirs);
    if ok {
      SeededSpec(d, domain, texts);
      assert Under(domain, "CNAME") !in d.dirs ==> Under(domain, "CNAME") !in t.dirs;
    }
  }

  /** Creating the four files a second time changes nothing: they all exist by then. */
  lemma SeededAgain(d: Tree, domain: string, texts1: Texts, texts2: Texts)
    ensures Seeded(Seeded(d, domain, texts1), domain, texts2) == Seeded(d, domain, texts1)
  {
  }

  /** A second repair leaves the tree as the first left it, whatever it would write. */
  lemma UpdateIdempotent(t: Tree, domain: string, texts1: Texts, texts2: Texts)
    ensures Updated(Updated(t, domain, texts1).0, domain, texts2) == Updated(t, domain, texts1)
  {
    var (d, ok) := MakeDirs(t, domain, RequiredDirs);
    MakeDirsIdempotent(t, domain, RequiredDirs);
    MakeDirsSpec(t, domain, RequiredDirs);
    if ok {
      var u := Seeded(d, domain, texts1);
      SeededSpec(d, domain, texts1);
      forall n | n in RequiredDirs ensures Under(domain, n) in u.dirs && Under(domain, n) !in u.files {
        assert n[0] == 'a' || n[0] == 'c';
        assert n != "CNAME" && n != "README.md" && n != ".gitignore" && n != "config.template.json";
      }
      MakeDirsNoop(u, domain, RequiredDirs);
      SeededAgain(d, domain, texts1, texts2);
    }
  }

  /** None of the four pages is a required directory. */
  lemma PagesAreNotDirs()
    ensures forall i :: 0 <= i < |Pages| ==> Pages[i] !in RequiredDirs
  {
  }

  /** After a repair that returned, a required file exists iff it is not a page or it existed before. */
  lemma RepairedFiles(t: Tree, domain: string, texts: Texts, i: nat)
    requires Updated(t, domain, texts).1 && i < |RequiredFiles|
    ensures Updated(t, domain, texts).0.Exists(Under(domain, RequiredFiles[i])) <==>
      i >= 4 || t.Exists(Under(domain, RequiredFiles[i]))
  {
    UpdatedSpec(t, domain, texts);
    if i < 4 {
      MakeDirsSpec(t, domain, RequiredDirs);
      var d := MakeDirs(t, domain, RequiredDirs).0;
      SeededSpec(d, domain, texts);
      var name := RequiredFiles[i];
      assert name !in RequiredDirs && name[0] != 'C' && name[0] != 'R' && name[0] != '.' && name[|name| - 1] == 'l';
      assert Under(domain, name) !in set n | n in RequiredDirs :: Under(domain, n);
    }
  }

  /** After a repair that returned, CNAME holds its old text, or is still a directory, or holds the domain. */
  lemma RepairedCname(t: Tree, domain: string, texts: Texts)
    requires Updated(t, domain, texts).1
    ensures var u := Updated(t, domain, texts).0; var c := Under(domain, "CNAME");
      if c in t.files then c in u.files && u.files[c] == t.files[c]
      else if c in t.dirs then c !in u.files
      else c in u.files && u.files[c] == domain
  {
    UpdatedSpec(t, domain, texts);
    MakeDirsSpec(t, domain, RequiredDirs);
    var d := MakeDirs(t, domain, RequiredDirs).0;
    SeededSpec(d, domain, texts);
    assert Under(domain, "CNAME") in d.dirs <==> Under(domain, "CNAME") in t.dirs by {
      assert Under(domain, "CNAME") !in set n | n in RequiredDirs :: Under(domain, n);
    }
  }

  /**
   * After a repair that returned, the structure checks out exactly when the four pages
   * already existed and CNAME names the domain: an existing CNAME is not rewritten, and one
   * the repair wrote fails the check when the name has surrounding white space.
   */
  lemma ReverifyAfterUpdate(t: Tree, domain: string, texts: Texts)
    requires Updated(t, domain, texts).1
    ensures var u := Updated(t, domain, texts).0;
      StructureOk(u, domain) <==>
        && (forall i :: 0 <= i < |Pages| ==> t.Exists(Under(domain, Pages[i])))
        && (if Under(domain, "CNAME") in t.files then Strip(t.files[Under(domain, "CNAME")]) == domain
            else Under(domain, "CNAME") in t.dirs || Strip(domain) == domain)
  {
    var u := Updated(t, domain, texts).0;
    UpdatedSpec(t, domain, texts);
    forall i | 0 <= i < |RequiredFiles|
      ensures u.Exists(Under(domain, RequiredFiles[i])) <==> i >= 4 || t.Exists(Under(domain, Pages[i]))
    {
      RepairedFiles(t, domain, texts, i);
    }
    assert forall i :: 0 <= i < |RequiredDirs| ==> Under(domain, RequiredDirs[i]) in u.dirs;
    RepairedCname(t, domain, texts);
  }

  /** The repair never writes the four pages, so a site missing one of them still fails the check. */
  lemma MissingPageStaysMissing(t: Tree, domain: string, texts: Texts, i: nat)
    requires Updated(t, domain, texts).1 && i < |Pages| && !t.Exists(Under(domain, Pages[i]))
    ensures !StructureOk(Updated(t, domain, texts).0, domain)
  {
    ReverifyAfterUpdate(t, domain, texts);
  }
}

/** Package managers (internal/platform/packages.go) and the two RPM-based
    ones, DNF and YUM (internal/platform/packages_dnf.go). Running `sudo`,
    `dnf`, `yum` and `rpm` is an oracle from the argument vector to the
    command's outcome. */
module Packages {
  import opened Text
  import opened Manifest

  // ---------------------------------------------------------------------
  // Choosing a manager

  /** The package managers the program knows. */
  datatype Manager = Dnf | Yum | Apt | Brew | Pacman

  /** The platform id that selects each manager. */
  function ManagerId(m: Manager): string {
    match m
    case Dnf => "dnf"
    case Yum => "yum"
    case Apt => "apt"
    case Brew => "brew"
    case Pacman => "pacman"
  }

  datatype ManagerError = UnsupportedManager(id: string)

  /** `GetPackageManager`: the manager a platform id names. */
  function GetPackageManager(id: string): (r: Result<Manager, ManagerError>)
    ensures r.Ok? ==> ManagerId(r.value) == id
    ensures r.Err? ==> r.error == UnsupportedManager(id)
  {
    if id == "dnf" then Ok(Dnf)
    else if id == "yum" then Ok(Yum)
    else if id == "apt" then Ok(Apt)
    else if id == "brew" then Ok(Brew)
    else if id == "pacman" then Ok(Pacman)
    else Err(UnsupportedManager(id))
  }

  /** Every manager is selected by its own id, so an id fails exactly when no
      manager has it. */
  lemma GetPackageManagerRoundTrip(m: Manager, id: string)
    ensures GetPackageManager(ManagerId(m)) == Ok(m)
    ensures GetPackageManager(id).Err? <==> forall m' :: ManagerId(m') != id
  {
    if GetPackageManager(id).Err? {
      forall m' ensures ManagerId(m') != id {
        assert GetPackageManager(ManagerId(m')) == Ok(m');
      }
    }
  }

  // ---------------------------------------------------------------------
  // Package names

  /** The generic names that some manager calls differently, by manager. */
  const Mappings: map<string, map<string, string>> := map[
    "neovim" := map["dnf" := "neovim", "apt" := "neovim", "brew" := "neovim", "pacman" := "neovim"],
    "fd" := map["dnf" := "fd-find", "apt" := "fd-find", "brew" := "fd", "pacman" := "fd"],
    "ripgrep" := map["dnf" := "ripgrep", "apt" := "ripgrep", "brew" := "ripgrep", "pacman" := "ripgrep"]
  ]

  /** `MapPackageName`: the manager's own name for a package. */
  function MapPackageName(generic: string, manager: string): (r: string)
    ensures generic !in Mappings || manager !in Mappings[generic] ==> r == generic
    ensures generic in Mappings && manager in Mappings[generic] ==> r == Mappings[generic][manager]
  {
    if generic in Mappings && manager in Mappings[generic] then Mappings[generic][manager] else generic
  }

  /** `fd` is `fd-find` on DNF and APT and `fd` on Homebrew and pacman;
      `neovim` and `ripgrep` keep their names everywhere. */
  lemma KnownMappings(manager: string)
    ensures MapPackageName("fd", "dnf") == "fd-find" && MapPackageName("fd", "apt") == "fd-find"
    ensures MapPackageName("fd", "brew") == "fd" && MapPackageName("fd", "pacman") == "fd"
    ensures MapPackageName("neovim", manager) == "neovim"
    ensures MapPackageName("ripgrep", manager) == "ripgrep"
  {
  }

  /** No row names `yum`, so YUM installs every package under its generic
      name. */
  lemma YumKeepsNames(generic: string)
    ensures MapPackageName(generic, "yum") == generic
  {
    if generic in Mappings {
      assert generic == "neovim" || generic == "fd" || generic == "ripgrep";
    }
  }

  // ---------------------------------------------------------------------
  // The RPM-based managers

  datatype RpmManager = DnfManager | YumManager

  /** `Name`. */
  function Name(m: RpmManager): string {
    match m
    case DnfManager => "dnf"
    case YumManager => "yum"
  }

  /** `NeedsSudo`: both managers install through sudo. */
  predicate NeedsSudo(m: RpmManager) {
    true
  }

  /** The packages under the names the manager uses, in the same order. */
  function MappedNames(m: RpmManager, packages: seq<string>): (r: seq<string>)
    ensures |r| == |packages|
    ensures forall i :: 0 <= i < |packages| ==> r[i] == MapPackageName(packages[i], Name(m))
  {
    seq(|packages|, i requires 0 <= i < |packages| => MapPackageName(packages[i], Name(m)))
  }

  /** The command a non-empty `Install` runs. */
  function InstallCommand(m: RpmManager, packages: seq<string>): seq<string> {
    ["sudo", Name(m), "install", "-y"] + MappedNames(m, packages)
  }

  datatype PackageError = InstallFailed | SearchFailed

  /** `Install`: nothing runs for no packages; otherwise one command installs
      them all. */
  method Install(m: RpmManager, packages: seq<string>, runOk: seq<string> -> bool)
    returns (ran: Option<seq<string>>, err: Option<PackageError>)
    ensures packages == [] ==> ran.None? && err.None?
    ensures packages != [] ==> ran == Some(InstallCommand(m, packages))
    ensures packages != [] ==> (err.Some? <==> !runOk(InstallCommand(m, packages)))
    ensures err.Some? ==> err.value == InstallFailed
  {
    if |packages| == 0 {
      return None, None;
    }
    var mapped := new string[|packages|];
    for i := 0 to |packages|
      invariant forall k :: 0 <= k < i ==> mapped[k] == MapPackageName(packages[k], Name(m))
    {
      mapped[i] := MapPackageName(packages[i], Name(m));
    }
    var args := ["install", "-y"] + mapped[..];
    var cmd := [Name(m)] + args;
    assert mapped[..] == MappedNames(m, packages);
    assert ["sudo"] + cmd == InstallCommand(m, packages);
    ran := Some(["sudo"] + cmd);
    if !runOk(["sudo"] + cmd) {
      return ran, Some(InstallFailed);
    }
    return ran, None;
  }

  /** The install command: sudo, the manager, `install -y`, then every
      package under the manager's name, one argument each. */
  lemma InstallCommandLayout(m: RpmManager, packages: seq<string>)
    ensures |InstallCommand(m, packages)| == 4 + |packages|
    ensures InstallCommand(m, packages)[..4] == ["sudo", Name(m), "install", "-y"]
    ensures NeedsSudo(m) && InstallCommand(m, packages)[0] == "sudo"
    ensures forall i :: 0 <= i < |packages| ==>
              InstallCommand(m, packages)[4 + i] == MapPackageName(packages[i], Name(m))
    ensures m == YumManager ==> InstallCommand(m, packages)[4..] == packages
  {
    if m == YumManager {
      forall i | 0 <= i < |packages|
        ensures MappedNames(m, packages)[i] == packages[i]
      {
        YumKeepsNames(packages[i]);
      }
    }
  }

  /** `IsInstalled`: `rpm -q` on the mapped name succeeded and does not say
      "not installed". */
  predicate IsInstalled(m: RpmManager, pkg: string, rpm: seq<string> -> Option<string>) {
    var out := rpm(["rpm", "-q", MapPackageName(pkg, Name(m))]);
    match out
    case None => false
    case Some(o) => !Contains(TrimSpace(o), "not installed")
  }

  /** An rpm query that fails means "not installed", whatever else holds. */
  lemma FailedQueryNotInstalled(m: RpmManager, pkg: string, rpm: seq<string> -> Option<string>)
    requires rpm(["rpm", "-q", MapPackageName(pkg, Name(m))]).None?
    ensures !IsInstalled(m, pkg, rpm)
  {
  }

  /** An rpm answer that says "not installed" anywhere means not
      installed, whatever white space surrounds it. */
  lemma NotInstalledAnswer(m: RpmManager, pkg: string, rpm: seq<string> -> Option<string>, a: string, b: string)
    requires rpm(["rpm", "-q", MapPackageName(pkg, Name(m))]) == Some(a + "not installed" + b)
    ensures !IsInstalled(m, pkg, rpm)
  {
    var w := a + "not installed" + b;
    assert w[|a|..|a| + |"not installed"|] == "not installed";
    TrimKeepsSlice(w, "not installed", |a|);
  }

  /** Trimming keeps every slice that neither starts nor ends with white
      space. */
  lemma TrimKeepsSlice(s: string, sub: string, i: nat)
    requires sub != [] && !IsSpace(sub[0]) && !IsSpace(sub[|sub| - 1])
    requires i + |sub| <= |s| && s[i..i + |sub|] == sub
    ensures Contains(TrimSpace(s), sub)
  {
    var p := LeftTrimKeeps(s, sub, i);
    RightTrimKeeps(TrimLeft(s), sub, p);
  }

  /** Left trimming keeps a slice that does not start with white space;
      `p` is where it lands, shifted by the characters trimmed. */
  lemma LeftTrimKeeps(s: string, sub: string, i: nat) returns (p: nat)
    requires sub != [] && !IsSpace(sub[0])
    requires i + |sub| <= |s| && s[i..i + |sub|] == sub
    ensures p <= i && p + |sub| <= |TrimLeft(s)| && TrimLeft(s)[p..p + |sub|] == sub
  {
    var l := TrimLeft(s);
    var k := |s| - |l|;
    assert s[i] == sub[0];
    assert k <= i;
    p := i - k;
    assert l[p..p + |sub|] == s[i..i + |sub|];
  }

  /** Right trimming keeps a slice that does not end with white space. */
  lemma RightTrimKeeps(l: string, sub: string, p: nat)
    requires sub != [] && !IsSpace(sub[|sub| - 1])
    requires p + |sub| <= |l| && l[p..p + |sub|] == sub
    ensures Contains(TrimRight(l), sub)
  {
    var r := TrimRight(l);
    assert l[p + |sub| - 1] == sub[|sub| - 1];
    assert p + |sub| <= |r|;
    assert r[p..p + |sub|] == l[p..p + |sub|];
    ContainsAt(r, sub, p);
  }

  /** A string holds every one of its slices. */
  lemma {:induction false} ContainsAt(s: string, sub: string, i: nat)
    requires i + |sub| <= |s| && s[i..i + |sub|] == sub
    ensures Contains(s, sub)
    decreases i
  {
    if i > 0 {
      assert s[1..][i - 1..i - 1 + |sub|] == sub;
      ContainsAt(s[1..], sub, i - 1);
    }
  }

  /** The cache refresh `Update` runs; its exit status is ignored. */
  function UpdateCommand(m: RpmManager): seq<string> {
    ["sudo", Name(m), "check-update", "-y"]
  }

  /** `Update`: refreshes the cache and never fails. */
  method Update(m: RpmManager, runOk: seq<string> -> bool) returns (ran: seq<string>, err: Option<PackageError>)
    ensures ran == ["sudo", Name(m), "check-update", "-y"]
    ensures err.None?
  {
    ran := UpdateCommand(m);
    var _ := runOk(ran);
    err := None;
  }

  // ---------------------------------------------------------------------
  // Search

  /** The package a search-output line names, if the line is kept: lines
      holding a ':' and not starting with '=' name the text before their
      first ':', trimmed and cut at its first '.'. */
  function SearchLine(line: string): Option<string> {
    if Contains(line, ":") && !HasPrefix(line, "=") then
      var pkg := TrimSpace(Split(line, ':')[0]);
      Some(if Contains(pkg, ".") then Split(pkg, '.')[0] else pkg)
    else None
  }

  /** What `parse` keeps of each line, in order. */
  function Kept(lines: seq<string>, parse: string -> Option<string>): seq<string>
    decreases |lines|
  {
    if lines == [] then []
    else
      var n := |lines| - 1;
      Kept(lines[..n], parse) + (match parse(lines[n]) case Some(p) => [p] case None => [])
  }

  /** The packages named by the kept lines of a search output. */
  function SearchResults(lines: seq<string>): seq<string> {
    Kept(lines, SearchLine)
  }

  /** One turn of the search loop: the package a line names, if it is kept. */
  method ParseLine(line: string) returns (parsed: Option<string>)
    ensures parsed == SearchLine(line)
  {
    if Contains(line, ":") && !HasPrefix(line, "=") {
      var parts := Split(line, ':');
      var pkg := TrimSpace(parts[0]);
      if Contains(pkg, ".") {
        pkg := Split(pkg, '.')[0];
      }
      return Some(pkg);
    }
    return None;
  }

  /** `Search`: runs the manager's search and parses its trimmed output line
      by line. */
  method Search(m: RpmManager, query: string, run: seq<string> -> Option<string>)
    returns (r: Result<seq<string>, PackageError>)
    ensures run([Name(m), "search", query]).None? ==> r == Err(SearchFailed)
    ensures run([Name(m), "search", query]).Some? ==>
              r == Ok(SearchResults(Split(TrimSpace(run([Name(m), "search", query]).value), '\n')))
  {
    var output := run([Name(m), "search", query]);
    if output.None? {
      return Err(SearchFailed);
    }
    var lines := Split(TrimSpace(output.value), '\n');
    var results: seq<string> := [];
    var i := 0;
    while i < |lines|
      invariant 0 <= i <= |lines|
      invariant results == Kept(lines[..i], SearchLine)
    {
      assert lines[..i + 1][..i] == lines[..i];
      var parsed := ParseLine(lines[i]);
      if parsed.Some? {
        results := results + [parsed.value];
      }
      i := i + 1;
    }
    assert lines[..i] == lines;
    return Ok(results);
  }

  /** `strings.Contains` with a one-character needle is membership. */
  lemma {:induction false} ContainsChar(s: string, c: char)
    ensures Contains(s, [c]) <==> c in s
    decreases |s|
  {
    if s != [] {
      ContainsChar(s[1..], c);
      assert s == [s[0]] + s[1..];
    }
  }

  /** A line is kept exactly when it holds a ':' and does not start with
      '='; it then names the text before its first ':', trimmed and cut
      before its first '.', which holds neither ':' nor '.' and does not
      start with white space. */
  lemma SearchLineMeaning(line: string)
    ensures SearchLine(line).Some? <==> ':' in line && (line == [] || line[0] != '=')
    ensures SearchLine(line).Some? ==>
              var head := TrimSpace(line[..IndexOf(line, ':')]);
              SearchLine(line).value == head[..IndexOf(head, '.')]
    ensures SearchLine(line).Some? ==>
              var pkg := SearchLine(line).value;
              ':' !in pkg && '.' !in pkg && (pkg == [] || !IsSpace(pkg[0]))
  {
    ContainsChar(line, ':');
    assert HasPrefix(line, "=") <==> line != [] && line[0] == '=';
    if SearchLine(line).Some? {
      SplitHead(line, ':');
      var head := Split(line, ':')[0];
      var pkg := TrimSpace(head);
      TrimSpaceInside(head);
      ContainsChar(pkg, '.');
      SplitHead(pkg, '.');
      if '.' in pkg {
        var cut := Split(pkg, '.')[0];
        assert forall k :: 0 <= k < |cut| ==> cut[k] == pkg[k];
        assert cut == [] || !IsSpace(cut[0]);
      } else {
        assert pkg[..IndexOf(pkg, '.')] == pkg;
      }
    }
  }

  /** The first piece of a split is the text before the first separator. */
  lemma SplitHead(s: string, sep: char)
    ensures Split(s, sep)[0] == s[..IndexOf(s, sep)]
  {
  }

  /** Trimming only removes characters. */
  lemma TrimSpaceInside(s: string)
    ensures forall c :: c in TrimSpace(s) ==> c in s
  {
    var l := TrimLeft(s);
    assert forall c :: c in TrimRight(l) ==> c in l;
    assert forall c :: c in l ==> c in s;
  }

  /** One result per kept line: there are as many results as lines exactly
      when every line is kept. */
  lemma {:induction false} KeptCount(lines: seq<string>, parse: string -> Option<string>)
    ensures |Kept(lines, parse)| <= |lines|
    ensures |Kept(lines, parse)| == |lines| <==> forall k :: 0 <= k < |lines| ==> parse(lines[k]).Some?
    decreases |lines|
  {
    if lines != [] {
      var n := |lines| - 1;
      KeptCount(lines[..n], parse);
      if forall k :: 0 <= k < n ==> parse(lines[..n][k]).Some? {
        assert forall k :: 0 <= k < n ==> parse(lines[k]).Some?;
      } else {
        var k :| 0 <= k < n && parse(lines[..n][k]).None?;
        assert parse(lines[k]).None?;
      }
    }
  }

  /** Each result is what `parse` makes of some line, in line order. */
  lemma {:induction false} KeptSound(lines: seq<string>, parse: string -> Option<string>)
    ensures forall p :: p in Kept(lines, parse) ==> exists k :: 0 <= k < |lines| && parse(lines[k]) == Some(p)
    decreases |lines|
  {
    if lines != [] {
      var n := |lines| - 1;
      KeptSound(lines[..n], parse);
      forall p | p in Kept(lines, parse)
        ensures exists k :: 0 <= k < |lines| && parse(lines[k]) == Some(p)
      {
        if p in Kept(lines[..n], parse) {
          var k :| 0 <= k < n && parse(lines[..n][k]) == Some(p);
          assert parse(lines[k]) == Some(p);
        } else {
          assert parse(lines[n]) == Some(p);
        }
      }
    }
  }

  /** Search results hold neither ':' nor '.', and there are as many as
      output lines exactly when every line is kept. */
  lemma SearchResultsShape(lines: seq<string>)
    ensures |SearchResults(lines)| <= |lines|
    ensures |SearchResults(lines)| == |lines| <==>
              forall k :: 0 <= k < |lines| ==> ':' in lines[k] && (lines[k] == [] || lines[k][0] != '=')
    ensures forall p :: p in SearchResults(lines) ==> ':' !in p && '.' !in p
  {
    KeptCount(lines, SearchLine);
    KeptSound(lines, SearchLine);
    forall k | 0 <= k < |lines| {
      SearchLineMeaning(lines[k]);
    }
    forall p | p in SearchResults(lines)
      ensures ':' !in p && '.' !in p
    {
      var k :| 0 <= k < |lines| && SearchLine(lines[k]) == Some(p);
      SearchLineMeaning(lines[k]);
    }
  }
}

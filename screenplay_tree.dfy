/**
 * The screenplay tree of the living-screenplay page: live screenplays grouped
 * into projects named after the directory that holds them, projects ordered by
 * the locale's collation with "[Sem Projeto]" last, files newest first, and a
 * per-project expansion flag that survives every rebuild of the tree.
 */
module ScreenplayTree {
  import opened Wrappers
  import opened JsText
  import opened OrderedMap
  import opened Arrays
  import opened Sorting
  import opened SeqSet

  /** The project of a screenplay without a usable directory. */
  const NoProject := "[Sem Projeto]"

  /** Leading path parts hidden from display, tried in this order. */
  const SensitivePrefixes: seq<string> := ["/mnt/ramdisk/primoia-main/", "/home/", "/Users/", "C:\\Users\\", "C:\\"]

  /** Directory names too generic to name a project. */
  const CommonDirs: seq<string> := ["src", "lib", "app", "components", "services", "docs"]

  /**
   * A screenplay as the list shows it. `updatedAt` is the modification time
   * already read as milliseconds since the epoch.
   */
  datatype Item = Item(id: string, name: string, importPath: Option<string>, updatedAt: int, isDeleted: bool)

  datatype TreeNode =
    | Project(name: string, isExpanded: bool, children: seq<TreeNode>)
    | File(name: string, screenplay: Item)

  /** A project with the screenplays filed under it. */
  type Group = (string, seq<Item>)

  // ------------------------------------------------------------ paths

  /** Strips the first prefix of `prefixes` that `path` starts with, and no other. */
  function StripFirst(path: string, prefixes: seq<string>): string
  {
    if prefixes == [] then path
    else if StartsWith(path, prefixes[0]) then ReplaceFirst(path, prefixes[0], "")
    else StripFirst(path, prefixes[1..])
  }

  /** `sanitizePath`. */
  function SanitizePath(path: string): string {
    StripFirst(path, SensitivePrefixes)
  }

  /** `path` starts with the `k`-th prefix and with none before it. */
  predicate FirstMatch(path: string, prefixes: seq<string>, k: nat) {
    k < |prefixes| && StartsWith(path, prefixes[k]) && forall m :: 0 <= m < k ==> !StartsWith(path, prefixes[m])
  }

  /**
   * A path starting with no prefix comes back as it is; otherwise exactly the
   * first matching prefix is cut off the front, and nothing further.
   */
  lemma {:induction false} StripFirstFacts(path: string, prefixes: seq<string>)
    ensures (forall k :: 0 <= k < |prefixes| ==> !StartsWith(path, prefixes[k])) ==> StripFirst(path, prefixes) == path
    ensures forall k: nat :: FirstMatch(path, prefixes, k) ==> StripFirst(path, prefixes) == path[|prefixes[k]|..]
  {
    if prefixes != [] {
      var rest := prefixes[1..];
      StripFirstFacts(path, rest);
      if StartsWith(path, prefixes[0]) {
        StartsWithIndexOf(path, prefixes[0]);
        forall k: nat | FirstMatch(path, prefixes, k) ensures k == 0 {
          assert FirstMatch(path, prefixes, k);
        }
      } else {
        forall k: nat | FirstMatch(path, prefixes, k)
          ensures StripFirst(path, prefixes) == path[|prefixes[k]|..]
        {
          assert k > 0;
          assert FirstMatch(path, rest, k - 1) by {
            forall m | 0 <= m < k - 1 ensures !StartsWith(path, rest[m]) { assert rest[m] == prefixes[m + 1]; }
          }
        }
        forall k | 0 <= k < |rest| ensures rest[k] == prefixes[k + 1] { }
      }
    }
  }

  /** A path that cannot start with any sensitive prefix is left alone. */
  lemma SanitizeKeeps(path: string)
    requires |path| > 0 && path[0] != '/' && path[0] != 'C'
    ensures SanitizePath(path) == path
  {
    forall k | 0 <= k < |SensitivePrefixes| ensures !StartsWith(path, SensitivePrefixes[k]) {
      assert SensitivePrefixes[k][0] == '/' || SensitivePrefixes[k][0] == 'C';
    }
    StripFirstFacts(path, SensitivePrefixes);
  }

  /** "C:\Users\" is tried before "C:\", so a user folder loses both parts. */
  lemma SanitizeUserFolder(rest: string)
    ensures SanitizePath("C:\\Users\\" + rest) == rest
  {
    var path := "C:\\Users\\" + rest;
    assert StartsWith(path, SensitivePrefixes[3]) by { assert path[..9] == "C:\\Users\\"; }
    assert FirstMatch(path, SensitivePrefixes, 3) by {
      forall m | 0 <= m < 3 ensures !StartsWith(path, SensitivePrefixes[m]) { assert path[0] == 'C'; }
    }
    StripFirstFacts(path, SensitivePrefixes);
  }

  // ------------------------------------------------------------ projects

  /** `extractProjectName`: the directory holding the file, or the one above a generic directory. */
  function ExtractProjectName(importPath: Option<string>): (r: string)
    ensures r == NoProject || !Has(r, '/')
    ensures !Truthy(importPath) ==> r == NoProject
    ensures Truthy(importPath) && !Has(SanitizePath(importPath.value), '/') ==> r == NoProject
  {
    if !Truthy(importPath) then NoProject
    else ProjectOfParts(Split(SanitizePath(importPath.value), '/'))
  }

  /** The project named by the segments of a sanitized path. */
  function ProjectOfParts(parts: seq<string>): (r: string)
    ensures r == NoProject || r in parts
  {
    if |parts| <= 1 then NoProject
    else
      var lastDir := parts[|parts| - 2];
      if lastDir in CommonDirs && |parts| > 2 then parts[|parts| - 3] else lastDir
  }

  /** A path whose sanitized form splits into `parts` belongs to the project those parts name. */
  lemma ProjectOfSplit(path: string, parts: seq<string>)
    requires path != "" && Split(SanitizePath(path), '/') == parts
    ensures ExtractProjectName(Some(path)) == ProjectOfParts(parts)
  {
  }

  /** A relative path joined from separator-free segments is kept by sanitizing and splits back into them. */
  lemma SanitizedJoin(parts: seq<string>)
    requires |parts| >= 1 && forall k :: 0 <= k < |parts| ==> !Has(parts[k], '/')
    requires parts[0] != "" && parts[0][0] != '/' && parts[0][0] != 'C'
    ensures Join(parts, '/') != "" && Split(SanitizePath(Join(parts, '/')), '/') == parts
  {
    var path := Join(parts, '/');
    JoinStartsWithFirst(parts, '/');
    assert path[0] == parts[0][0];
    SanitizeKeeps(path);
    SplitJoin(parts, '/');
  }

  /** A file directly inside a top-level directory belongs to that directory's project, generic or not. */
  lemma ProjectOfDirFile(dir: string, file: string)
    requires dir != "" && dir[0] != '/' && dir[0] != 'C' && !Has(dir, '/') && !Has(file, '/')
    ensures ExtractProjectName(Some(dir + "/" + file)) == dir
  {
    var parts := [dir, file];
    assert Join(parts, '/') == dir + "/" + file;
    SanitizedJoin(parts);
    ProjectOfSplit(dir + "/" + file, parts);
  }

  /** A file inside a generic directory belongs to the project one level up. */
  lemma ProjectOfCommonDir(root: string, common: string, file: string)
    requires root != "" && root[0] != '/' && root[0] != 'C' && !Has(root, '/') && !Has(file, '/')
    requires common in CommonDirs
    ensures ExtractProjectName(Some(root + "/" + common + "/" + file)) == root
  {
    var parts := [root, common, file];
    assert !Has(common, '/');
    assert parts[1..] == [common, file] && parts[1..][1..] == [file];
    assert Join(parts[1..], '/') == common + "/" + file;
    assert Join(parts, '/') == root + "/" + (common + "/" + file);
    assert Join(parts, '/') == root + "/" + common + "/" + file;
    SanitizedJoin(parts);
    ProjectOfSplit(root + "/" + common + "/" + file, parts);
  }

  /** The source's own examples: "conductor/README.md" and "conductor-community/src/conductor/README.md" name "conductor". */
  lemma ConductorExamples()
    ensures ExtractProjectName(Some("conductor" + "/" + "README.md")) == "conductor"
    ensures ExtractProjectName(Some("conductor-community" + "/" + "src" + "/" + "conductor" + "/" + "README.md")) == "conductor"
  {
    ProjectOfDirFile("conductor", "README.md");
    ProjectOfNestedDir("conductor-community", "src", "conductor", "README.md");
  }

  /** No path, or a bare file name, has no project. */
  lemma BareFileHasNoProject(file: string)
    requires !Has(file, '/') && (file == "" || file[0] != 'C')
    ensures ExtractProjectName(None) == NoProject
    ensures ExtractProjectName(Some(file)) == NoProject
  {
    if file != "" {
      assert file[0] != '/';
      SanitizeKeeps(file);
    }
  }

  /** Deeper down, the directory holding the file names the project when it is not generic. */
  lemma ProjectOfNestedDir(root: string, mid: string, dir: string, file: string)
    requires root != "" && root[0] != '/' && root[0] != 'C'
    requires !Has(root, '/') && !Has(mid, '/') && !Has(dir, '/') && !Has(file, '/')
    requires dir !in CommonDirs
    ensures ExtractProjectName(Some(root + "/" + mid + "/" + dir + "/" + file)) == dir
  {
    var parts := [root, mid, dir, file];
    assert parts[1..] == [mid, dir, file] && parts[1..][1..] == [dir, file] && parts[1..][1..][1..] == [file];
    assert Join(parts[1..][1..], '/') == dir + "/" + file;
    assert Join(parts[1..], '/') == mid + "/" + (dir + "/" + file);
    assert Join(parts, '/') == root + "/" + (mid + "/" + (dir + "/" + file));
    assert Join(parts, '/') == root + "/" + mid + "/" + dir + "/" + file;
    SanitizedJoin(parts);
    ProjectOfSplit(root + "/" + mid + "/" + dir + "/" + file, parts);
  }

  /** `extractProjectName` of a screenplay. */
  function ProjectOf(s: Item): string {
    ExtractProjectName(s.importPath)
  }

  // ------------------------------------------------------------ grouping

  predicate Live(s: Item) { !s.isDeleted }

  /** The project map as `buildTree`'s loop fills it, one live screenplay after another. */
  function Grouped(xs: seq<Item>, project: Item -> string): Entries<seq<Item>>
  {
    if xs == [] then []
    else
      var m := Grouped(xs[..|xs| - 1], project);
      var s := xs[|xs| - 1];
      Put(m, project(s), Get(m, project(s)).GetOr([]) + [s])
  }

  /** The screenplays of project `k`, in input order: the reference the grouping is checked against. */
  function InProject(xs: seq<Item>, k: string, project: Item -> string): seq<Item>
  {
    if xs == [] then []
    else InProject(xs[..|xs| - 1], k, project) + (if project(xs[|xs| - 1]) == k then [xs[|xs| - 1]] else [])
  }

  lemma {:induction false} InProjectMembers(xs: seq<Item>, k: string, project: Item -> string, s: Item)
    ensures s in InProject(xs, k, project) <==> s in xs && project(s) == k
  {
    if xs != [] {
      var front := xs[..|xs| - 1];
      InProjectMembers(front, k, project, s);
      assert xs == front + [xs[|xs| - 1]];
    }
  }

  /**
   * Every project key occurs once, and the group under `k` is exactly the
   * screenplays of project `k` in input order; a project with none has no entry.
   */
  lemma {:induction false} GroupedFacts(xs: seq<Item>, k: string, project: Item -> string)
    ensures DistinctKeys(Grouped(xs, project))
    ensures Get(Grouped(xs, project), k) == if InProject(xs, k, project) == [] then None else Some(InProject(xs, k, project))
  {
    if xs != [] {
      var front := xs[..|xs| - 1];
      var s := xs[|xs| - 1];
      var m := Grouped(front, project);
      var p := project(s);
      GroupedFacts(front, k, project);
      GroupedFacts(front, p, project);
      var v := Get(m, p).GetOr([]) + [s];
      assert v == InProject(front, p, project) + [s];
      assert Grouped(xs, project) == Put(m, p, v);
      assert InProject(xs, k, project) == InProject(front, k, project) + (if p == k then [s] else []);
      PutKeepsDistinct(m, p, v);
      GetAfterPut(m, p, v, k);
      if p == k {
        assert InProject(xs, k, project) == v;
      } else {
        assert InProject(xs, k, project) == InProject(front, k, project);
      }
    }
  }

  /** The `k`-th entry's group is the screenplays of its project. */
  lemma GroupAt(xs: seq<Item>, project: Item -> string, i: nat)
    requires i < |Grouped(xs, project)|
    ensures var g := Grouped(xs, project)[i]; g.1 == InProject(xs, g.0, project) && g.1 != []
  {
    var m := Grouped(xs, project);
    var k := m[i].0;
    GroupedFacts(xs, k, project);
    assert HasKey(m, k);
    IndexUnique(m, i, k);
  }

  // ------------------------------------------------------------ ordering

  predicate Named(g: Group) { g.0 != NoProject }

  predicate Unnamed(g: Group) { g.0 == NoProject }

  function Collation(collate: string -> int): Group -> int {
    (g: Group) => collate(g.0)
  }

  /**
   * The order of the project comparator: named projects by their collation
   * position (`localeCompare`, given as `collate`), and "[Sem Projeto]" after all.
   */
  function Ordered(es: Entries<seq<Item>>, collate: string -> int): Entries<seq<Item>>
  {
    SortBy(Filter(es, Named), Collation(collate)) + Filter(es, Unnamed)
  }

  /** Distinct keys: at most one entry is "[Sem Projeto]". */
  lemma {:induction false} AtMostOneUnnamed(es: Entries<seq<Item>>)
    requires DistinctKeys(es)
    ensures |Filter(es, Unnamed)| <= 1
  {
    if es != [] {
      var rest := es[1..];
      assert DistinctKeys(rest) by {
        forall i, j | 0 <= i < j < |rest| ensures rest[i].0 != rest[j].0 { assert rest[i] == es[i + 1] && rest[j] == es[j + 1]; }
      }
      if Unnamed(es[0]) {
        forall k | 0 <= k < |rest| ensures !Unnamed(rest[k]) { assert rest[k] == es[k + 1]; }
        FilterNone(rest, Unnamed);
      } else {
        AtMostOneUnnamed(rest);
      }
    }
  }

  /**
   * Names in the comparator's order: "[Sem Projeto]" can only be the last one,
   * and anything before a named project is a named project that collates no later.
   */
  predicate ShownInOrder(names: seq<string>, collate: string -> int) {
    && (forall i :: 0 <= i < |names| && names[i] == NoProject ==> i == |names| - 1)
    && (forall i, j :: 0 <= i < j < |names| && names[j] != NoProject ==> names[i] != NoProject && collate(names[i]) <= collate(names[j]))
  }

  /** Ordering keeps every project exactly once and puts the projects in the comparator's order. */
  lemma OrderedFacts(es: Entries<seq<Item>>, collate: string -> int)
    requires DistinctKeys(es)
    ensures multiset(Ordered(es, collate)) == multiset(es)
    ensures ShownInOrder(Keys(Ordered(es, collate)), collate)
  {
    FilterPartition(es, Named, Unnamed);
    OrderedShown(es, collate);
  }

  /** The sorted part holds named projects only. */
  lemma SortedAreNamed(es: Entries<seq<Item>>, key: Group -> int, sorted: Entries<seq<Item>>)
    requires sorted == SortBy(Filter(es, Named), key)
    ensures forall i :: 0 <= i < |sorted| ==> sorted[i].0 != NoProject
  {
    var named := Filter(es, Named);
    forall i | 0 <= i < |sorted| ensures Named(sorted[i]) {
      assert sorted[i] in multiset(named);
      FilterMembers(es, Named, sorted[i]);
    }
  }

  lemma OrderedShown(es: Entries<seq<Item>>, collate: string -> int)
    requires DistinctKeys(es)
    ensures ShownInOrder(Keys(Ordered(es, collate)), collate)
  {
    var named := Filter(es, Named);
    var sorted := SortBy(named, Collation(collate));
    var unnamed := Filter(es, Unnamed);
    var r: Entries<seq<Item>> := sorted + unnamed;
    var ks := Keys(r);
    AtMostOneUnnamed(es);
    SortedAreNamed(es, Collation(collate), sorted);
    forall i | 0 <= i < |ks| && ks[i] == NoProject ensures i == |ks| - 1 {
      assert ks[i] == r[i].0;
    }
    forall i, j | 0 <= i < j < |ks| && ks[j] != NoProject
      ensures ks[i] != NoProject && collate(ks[i]) <= collate(ks[j])
    {
      assert r[i] == sorted[i] && r[j] == sorted[j];
      assert Collation(collate)(sorted[i]) <= Collation(collate)(sorted[j]);
    }
  }

  // ------------------------------------------------------------ tree

  /** Newest first, as the children comparator orders them. */
  function Recency(): Item -> int {
    (s: Item) => -s.updatedAt
  }

  function FileNodes(xs: seq<Item>): (r: seq<TreeNode>)
    ensures |r| == |xs| && forall i :: 0 <= i < |xs| ==> r[i] == File(xs[i].name, xs[i])
  {
    seq(|xs|, i requires 0 <= i < |xs| => File(xs[i].name, xs[i]))
  }

  /** A project's node: its saved expansion flag, or expanded the first time it is seen. */
  function ProjectNode(g: Group, expansion: Entries<bool>): TreeNode {
    Project(g.0, Get(expansion, g.0).GetOr(true), FileNodes(SortBy(g.1, Recency())))
  }

  /** The groups of the live screenplays, in the order the tree shows them. */
  function Groups(screenplays: seq<Item>, collate: string -> int, project: Item -> string): Entries<seq<Item>> {
    Ordered(Grouped(Filter(screenplays, Live), project), collate)
  }

  /** One project node per group, in the groups' order. */
  function Nodes(gs: Entries<seq<Item>>, expansion: Entries<bool>): (t: seq<TreeNode>)
    ensures |t| == |gs| && forall i :: 0 <= i < |gs| ==> t[i] == ProjectNode(gs[i], expansion)
  {
    seq(|gs|, i requires 0 <= i < |gs| => ProjectNode(gs[i], expansion))
  }

  /** The tree `buildTree` produces. */
  function Tree(screenplays: seq<Item>, expansion: Entries<bool>, collate: string -> int, project: Item -> string): seq<TreeNode> {
    Nodes(Groups(screenplays, collate, project), expansion)
  }

  /** Each ordered group is a group of the map: its screenplays are live ones of that project. */
  lemma GroupsAt(screenplays: seq<Item>, collate: string -> int, project: Item -> string, i: nat)
    requires i < |Groups(screenplays, collate, project)|
    ensures var g := Groups(screenplays, collate, project)[i];
      g.1 != [] && g.1 == InProject(Filter(screenplays, Live), g.0, project)
  {
    var live := Filter(screenplays, Live);
    var m := Grouped(live, project);
    GroupedFacts(live, "", project);
    OrderedFacts(m, collate);
    var g := Groups(screenplays, collate, project)[i];
    assert g in multiset(m);
    var k :| 0 <= k < |m| && m[k] == g;
    GroupAt(live, project, k);
  }

  /** A file node stands for a live screenplay of its project, and each project's files are newest first. */
  lemma TreeChildren(screenplays: seq<Item>, expansion: Entries<bool>, collate: string -> int, project: Item -> string, i: nat, c: TreeNode)
    requires i < |Tree(screenplays, expansion, collate, project)|
    ensures var n := Tree(screenplays, expansion, collate, project)[i];
      n.Project? && n.isExpanded == Get(expansion, n.name).GetOr(true) && |n.children| > 0
    ensures var n := Tree(screenplays, expansion, collate, project)[i];
      c in n.children ==> c.File? && c.screenplay in screenplays && !c.screenplay.isDeleted && project(c.screenplay) == n.name
  {
    var live := Filter(screenplays, Live);
    var g := Groups(screenplays, collate, project)[i];
    GroupsAt(screenplays, collate, project, i);
    var sorted := SortBy(g.1, Recency());
    SortByMembers(g.1, Recency());
    if c in FileNodes(sorted) {
      var k :| 0 <= k < |sorted| && FileNodes(sorted)[k] == c;
      assert c.screenplay == sorted[k];
      InProjectMembers(live, g.0, project, c.screenplay);
      FilterMembers(screenplays, Live, c.screenplay);
    }
  }

  /** Every live screenplay is filed under the node of its own project; deleted ones never appear. */
  lemma TreeCoversLive(screenplays: seq<Item>, expansion: Entries<bool>, collate: string -> int, project: Item -> string, s: Item)
    requires s in screenplays && !s.isDeleted
    ensures var t := Tree(screenplays, expansion, collate, project);
      exists i :: 0 <= i < |t| && t[i].name == project(s) && File(s.name, s) in t[i].children
  {
    var gs := Groups(screenplays, collate, project);
    var i := GroupOfLive(screenplays, collate, project, s);
    var sorted := SortBy(gs[i].1, Recency());
    SortByMembers(gs[i].1, Recency());
    var j :| 0 <= j < |sorted| && sorted[j] == s;
    var t := Tree(screenplays, expansion, collate, project);
    assert t[i].children[j] == File(s.name, s);
  }

  /** The group a live screenplay is filed in. */
  lemma GroupOfLive(screenplays: seq<Item>, collate: string -> int, project: Item -> string, s: Item) returns (i: nat)
    requires s in screenplays && !s.isDeleted
    ensures var gs := Groups(screenplays, collate, project);
      i < |gs| && gs[i].0 == project(s) && s in gs[i].1
  {
    var live := Filter(screenplays, Live);
    var m := Grouped(live, project);
    var p := project(s);
    FilterMembers(screenplays, Live, s);
    InProjectMembers(live, p, project, s);
    GroupedFacts(live, p, project);
    var k := IndexOfKey(m, p).value;
    OrderedFacts(m, collate);
    var gs := Groups(screenplays, collate, project);
    assert m[k] in multiset(gs);
    i :| 0 <= i < |gs| && gs[i] == m[k];
  }

  /** Project names are distinct in the tree, and "[Sem Projeto]" is always the last node. */
  lemma TreeOrder(screenplays: seq<Item>, expansion: Entries<bool>, collate: string -> int, project: Item -> string)
    ensures Distinct(Names(Tree(screenplays, expansion, collate, project)))
    ensures ShownInOrder(Names(Tree(screenplays, expansion, collate, project)), collate)
  {
    var gs := Groups(screenplays, collate, project);
    GroupNamesDistinct(screenplays, collate, project);
    GroupedFacts(Filter(screenplays, Live), "", project);
    OrderedFacts(Grouped(Filter(screenplays, Live), project), collate);
    NodeNames(gs, expansion);
    assert Names(Tree(screenplays, expansion, collate, project)) == Keys(gs);
    assert Distinct(Keys(gs));
  }

  /** The names of the nodes. */
  function Names(t: seq<TreeNode>): (r: seq<string>)
    ensures |r| == |t| && forall i :: 0 <= i < |t| ==> r[i] == t[i].name
  {
    seq(|t|, i requires 0 <= i < |t| => t[i].name)
  }

  /** The nodes carry the group names, in the groups' order. */
  lemma NodeNames(gs: Entries<seq<Item>>, expansion: Entries<bool>)
    ensures Names(Nodes(gs, expansion)) == Keys(gs)
  {
  }

  /** Each project has one group. */
  lemma GroupNamesDistinct(screenplays: seq<Item>, collate: string -> int, project: Item -> string)
    ensures DistinctKeys(Groups(screenplays, collate, project))
  {
    var live := Filter(screenplays, Live);
    var m := Grouped(live, project);
    var gs := Groups(screenplays, collate, project);
    GroupedFacts(live, "", project);
    OrderedFacts(m, collate);
    forall i, j | 0 <= i < j < |gs| ensures gs[i].0 != gs[j].0 {
      DistinctAfterPermutation(m, gs, i, j);
    }
  }

  /** Two positions of a permutation of a map with distinct keys hold different keys. */
  lemma DistinctAfterPermutation(m: Entries<seq<Item>>, gs: Entries<seq<Item>>, i: nat, j: nat)
    requires DistinctKeys(m) && multiset(gs) == multiset(m) && i < j < |gs|
    ensures gs[i].0 != gs[j].0
  {
    if gs[i].0 == gs[j].0 {
      assert gs[i] in multiset(m) && gs[j] in multiset(m);
      var a :| 0 <= a < |m| && m[a] == gs[i];
      var b :| 0 <= b < |m| && m[b] == gs[j];
      assert a == b;
      assert gs == gs[..i] + [gs[i]] + gs[i + 1..j] + [gs[j]] + gs[j + 1..];
      MultiplicityOfDistinct(m, a);
    }
  }

  /** An entry of a map with distinct keys occurs in it once. */
  lemma {:induction false} MultiplicityOfDistinct(m: Entries<seq<Item>>, a: nat)
    requires DistinctKeys(m) && a < |m|
    ensures multiset(m)[m[a]] == 1
  {
    var rest := m[1..];
    assert m == [m[0]] + rest;
    assert DistinctKeys(rest) by {
      forall i, j | 0 <= i < j < |rest| ensures rest[i].0 != rest[j].0 { assert rest[i] == m[i + 1] && rest[j] == m[j + 1]; }
    }
    if a == 0 {
      assert forall k :: 0 <= k < |rest| ==> rest[k] == m[k + 1];
      assert m[0] !in rest;
    } else {
      MultiplicityOfDistinct(rest, a - 1);
      assert rest[a - 1] == m[a];
    }
  }

  // ------------------------------------------------------------ expansion

  /** `toggleProject`: a project node flips and its new flag is saved; any other node is ignored. */
  function Toggled(node: TreeNode, expansion: Entries<bool>): (TreeNode, Entries<bool>)
  {
    if node.Project? then
      (node.(isExpanded := !node.isExpanded), Put(expansion, node.name, !node.isExpanded))
    else (node, expansion)
  }

  /** A node depends on the expansion flags only through its own project's flag. */
  lemma ProjectNodeFlag(g: Group, expansion: Entries<bool>, e: Entries<bool>)
    requires Get(e, g.0) == Get(expansion, g.0)
    ensures ProjectNode(g, e) == ProjectNode(g, expansion)
  {
  }

  /**
   * Toggling a node of the tree flips it, and rebuilding the tree with the
   * saved flags gives the old tree with just that node replaced by the toggled one.
   */
  lemma ToggleSurvivesRebuild(screenplays: seq<Item>, expansion: Entries<bool>, collate: string -> int, project: Item -> string, i: nat)
    requires DistinctKeys(expansion) && i < |Tree(screenplays, expansion, collate, project)|
    ensures var t := Tree(screenplays, expansion, collate, project);
      Toggled(t[i], expansion).0.isExpanded == !t[i].isExpanded
    ensures var t := Tree(screenplays, expansion, collate, project);
      Tree(screenplays, Toggled(t[i], expansion).1, collate, project) == t[i := Toggled(t[i], expansion).0]
  {
    GroupNamesDistinct(screenplays, collate, project);
    NodesToggle(Groups(screenplays, collate, project), expansion, i);
  }

  /** `ToggleSurvivesRebuild` for any groups with distinct names. */
  lemma NodesToggle(gs: Entries<seq<Item>>, expansion: Entries<bool>, i: nat)
    requires DistinctKeys(gs) && DistinctKeys(expansion) && i < |gs|
    ensures var t := Nodes(gs, expansion);
      Toggled(t[i], expansion).0.isExpanded == !t[i].isExpanded
    ensures var t := Nodes(gs, expansion);
      Nodes(gs, Toggled(t[i], expansion).1) == t[i := Toggled(t[i], expansion).0]
  {
    var t := Nodes(gs, expansion);
    var name := t[i].name;
    var flag := !t[i].isExpanded;
    var e := Put(expansion, name, flag);
    assert Toggled(t[i], expansion) == (t[i].(isExpanded := flag), e);
    var t' := Nodes(gs, e);
    forall j | 0 <= j < |t| ensures t'[j] == t[i := t[i].(isExpanded := flag)][j] {
      GetAfterPut(expansion, name, flag, gs[j].0);
      if j != i {
        assert gs[j].0 == t[j].name;
        ProjectNodeFlag(gs[j], expansion, e);
      }
    }
  }

  /** One more screenplay extends its project's group at the end. */
  lemma GroupedStep(xs: seq<Item>, project: Item -> string, i: nat)
    requires i < |xs|
    ensures var m := Grouped(xs[..i], project); var p := project(xs[i]);
      Grouped(xs[..i + 1], project) == Put(m, p, Get(m, p).GetOr([]) + [xs[i]])
  {
    assert xs[..i + 1][..i] == xs[..i];
  }

  /** Creating an empty group and then pushing onto it is putting the one-element group. */
  lemma PutEmptyThenAppend(m: Entries<seq<Item>>, p: string, s: Item)
    requires !HasKey(m, p)
    ensures Get(Put(m, p, []), p) == Some([])
    ensures Put(Put(m, p, []), p, [s]) == Put(m, p, [s])
  {
    var m1 := Put(m, p, []);
    assert m1 == m + [(p, [])];
    assert IndexOfKey(m1, p) == Some(|m|) by {
      assert m1[|m|].0 == p;
      assert forall j :: 0 <= j < |m| ==> m1[j] == m[j];
    }
  }

  /** The tree is laid out from the project map of the live screenplays. */
  lemma TreeOfGroups(screenplays: seq<Item>, expansion: Entries<bool>, collate: string -> int, project: Item -> string, m: Entries<seq<Item>>)
    requires m == Grouped(Filter(screenplays, Live), project)
    ensures Nodes(Ordered(m, collate), expansion) == Tree(screenplays, expansion, collate, project)
  {
  }

  class ScreenplayTreeComponent {
    var screenplays: seq<Item>
    var treeNodes: seq<TreeNode>
    var expansionState: Entries<bool>

    /** The saved flags form a map: one flag per project. */
    ghost predicate Valid()
      reads this
    {
      DistinctKeys(expansionState)
    }

    constructor (screenplays: seq<Item>)
      ensures this.screenplays == screenplays && treeNodes == [] && expansionState == []
      ensures Valid()
    {
      this.screenplays := screenplays;
      treeNodes := [];
      expansionState := [];
    }

    /** Groups the live screenplays into a fresh project map, then lays the tree out from it. */
    method BuildTree(collate: string -> int)
      modifies this
      ensures screenplays == old(screenplays) && expansionState == old(expansionState)
      ensures treeNodes == Tree(screenplays, expansionState, collate, ProjectOf)
    {
      var projectMap := GroupByProject(Filter(screenplays, Live));
      TreeOfGroups(screenplays, expansionState, collate, ProjectOf, projectMap);
      treeNodes := Nodes(Ordered(projectMap, collate), expansionState);
    }

    /** The `forEach` of `buildTree`: each screenplay is pushed onto its project's list, created when first needed. */
    static method GroupByProject(live: seq<Item>) returns (projectMap: Entries<seq<Item>>)
      ensures projectMap == Grouped(live, ProjectOf)
    {
      projectMap := [];
      var i := 0;
      while i < |live|
        invariant i <= |live|
        invariant projectMap == Grouped(live[..i], ProjectOf)
      {
        var s := live[i];
        var p := ExtractProjectName(s.importPath);
        GroupedStep(live, ProjectOf, i);
        if !HasKey(projectMap, p) {
          PutEmptyThenAppend(projectMap, p, s);
          projectMap := Put(projectMap, p, []);
        }
        projectMap := Put(projectMap, p, Get(projectMap, p).value + [s]);
        i := i + 1;
      }
      assert live[..i] == live;
    }

    /** `toggleProject` on the `i`-th node of the tree. */
    method ToggleProject(i: nat)
      requires Valid() && i < |treeNodes|
      modifies this
      ensures |treeNodes| == |old(treeNodes)|
      ensures (treeNodes[i], expansionState) == Toggled(old(treeNodes[i]), old(expansionState))
      ensures forall j :: 0 <= j < |treeNodes| && j != i ==> treeNodes[j] == old(treeNodes[j])
      ensures screenplays == old(screenplays) && Valid()
    {
      var node := treeNodes[i];
      if node.Project? {
        node := node.(isExpanded := !node.isExpanded);
        treeNodes := treeNodes[i := node];
        PutKeepsDistinct(expansionState, node.name, node.isExpanded);
        expansionState := Put(expansionState, node.name, node.isExpanded);
      }
    }
  }
}

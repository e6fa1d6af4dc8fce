/**
 * `src/features/meeting-summary/meeting-summary-page.tsx`: the file browser
 * of meeting summaries. The workspace list grouped from the files, the
 * `filteredFiles` pipeline (one category filter, a search, a sort by name),
 * and the page state behind the filter chips and the sort toggle.
 */
module MeetingSummary {
  import opened Optional
  import opened Strings
  import opened Seqs

  datatype File = File(id: nat, name: string, subtext: string, modified: string, owner: string,
                       activity: string, isFavorite: bool, workspace: string)

  const INITIAL_FILES: seq<File> := [
    File(1, "Capstone Project Proposal Defense", "Meeting Summary • 45m duration", "10m ago", "Klariz Habla",
         "You recently opened this", false, "Capstone 101"),
    File(2, "SIA 101 - Requirements Analysis", "Transcript & Action Items", "2h ago", "Klariz Habla",
         "You edited this file", true, "Capstone 101"),
    File(3, "UI/UX Design Review - Sprint 4", "Recording & Notes", "Yesterday", "Peter Parker",
         "Shared with team", false, "Internal Tools"),
    File(4, "Database Schema Finalization", "Technical Documentation", "Nov 15, 2025", "Klariz Habla",
         "", false, "Capstone 101")
  ]

  datatype ViewMode = ListView | GridView
  datatype FilterChip = AllFiles | RecentlyOpened | WorkspaceChip | Favorites
  datatype SortOrder = Asc | Desc

  datatype Workspace = Workspace(name: string, fileCount: nat)

  // ------------------------------------------------------------ workspaces

  /** The index of the first occurrence of `x` in `s`. */
  function FirstIndex(s: seq<string>, x: string): (i: nat)
    requires x in s
    ensures i < |s| && s[i] == x && forall j :: 0 <= j < i ==> s[j] != x
  {
    if s[0] == x then 0 else 1 + FirstIndex(s[1..], x)
  }

  /**
   * `Array.from(new Set(names))`: each name once, in the order of its first
   * occurrence.
   */
  function Unique(names: seq<string>): (r: seq<string>)
    ensures forall i, j :: 0 <= i < j < |r| ==> r[i] != r[j]
    ensures forall x :: x in r <==> x in names
    ensures forall i, j :: 0 <= i < j < |r| ==> FirstIndex(names, r[i]) < FirstIndex(names, r[j])
  {
    if names == [] then []
    else
      var init := names[..|names| - 1];
      var last := names[|names| - 1];
      var prev := Unique(init);
      assert names == init + [last];
      forall x | x in init ensures FirstIndex(names, x) == FirstIndex(init, x) {
        FirstIndexOfPrefix(init, last, x);
      }
      if last in prev then prev
      else
        assert last !in init;
        assert FirstIndex(names, last) == |init| by { FirstIndexAtEnd(init, last); }
        prev + [last]
  }

  lemma {:induction false} FirstIndexOfPrefix(init: seq<string>, last: string, x: string)
    requires x in init
    ensures FirstIndex(init + [last], x) == FirstIndex(init, x)
  {
    if init[0] != x {
      assert (init + [last])[1..] == init[1..] + [last];
      FirstIndexOfPrefix(init[1..], last, x);
    }
  }

  lemma {:induction false} FirstIndexAtEnd(init: seq<string>, last: string)
    requires last !in init
    ensures FirstIndex(init + [last], last) == |init|
  {
    if init != [] {
      assert (init + [last])[1..] == init[1..] + [last];
      FirstIndexAtEnd(init[1..], last);
    }
  }

  function WorkspaceNames(files: seq<File>): (r: seq<string>)
    ensures |r| == |files| && forall i :: 0 <= i < |files| ==> r[i] == files[i].workspace
  {
    seq(|files|, i requires 0 <= i < |files| => files[i].workspace)
  }

  function FilesIn(files: seq<File>, name: string): nat {
    Count(files, (f: File) => f.workspace == name)
  }

  /** `workspaces`: the distinct workspace names with the number of files in each. */
  function Workspaces(files: seq<File>): (r: seq<Workspace>)
    ensures |r| == |Unique(WorkspaceNames(files))|
    ensures forall i :: 0 <= i < |r| ==> r[i] == Workspace(Unique(WorkspaceNames(files))[i], FilesIn(files, r[i].name))
  {
    var names := Unique(WorkspaceNames(files));
    seq(|names|, i requires 0 <= i < |names| => Workspace(names[i], FilesIn(files, names[i])))
  }

  function SumCounts(ws: seq<Workspace>): nat {
    if ws == [] then 0 else ws[0].fileCount + SumCounts(ws[1..])
  }

  /** Every file is counted in exactly one workspace: the counts add up to the number of files. */
  lemma CountsSumToTotal(files: seq<File>)
    ensures SumCounts(Workspaces(files)) == |files|
  {
    var wn := WorkspaceNames(files);
    var names := Unique(wn);
    forall i | 0 <= i < |files| ensures files[i].workspace in names {
      assert wn[i] == files[i].workspace;
    }
    SumOverNames(names, files);
    assert Workspaces(files) == CountsFor(names, files);
  }

  /** Every listed workspace has at least one file. */
  lemma WorkspacesNonEmpty(files: seq<File>)
    ensures forall i :: 0 <= i < |Workspaces(files)| ==> Workspaces(files)[i].fileCount >= 1
  {
    var wn := WorkspaceNames(files);
    var names := Unique(wn);
    forall i | 0 <= i < |names| ensures FilesIn(files, names[i]) >= 1 {
      assert names[i] in wn;
      var k :| 0 <= k < |wn| && wn[k] == names[i];
      assert files[k] in Filter(files, (f: File) => f.workspace == names[i]);
    }
  }

  function CountsFor(names: seq<string>, files: seq<File>): (r: seq<Workspace>)
    ensures |r| == |names| && forall i :: 0 <= i < |names| ==> r[i] == Workspace(names[i], FilesIn(files, names[i]))
  {
    seq(|names|, i requires 0 <= i < |names| => Workspace(names[i], FilesIn(files, names[i])))
  }

  /** Summing the per-name counts over distinct names that cover every file's workspace gives the number of files. */
  lemma {:induction false} SumOverNames(names: seq<string>, files: seq<File>)
    requires forall i, j :: 0 <= i < j < |names| ==> names[i] != names[j]
    requires forall i :: 0 <= i < |files| ==> files[i].workspace in names
    ensures SumCounts(CountsFor(names, files)) == |files|
  {
    if files == [] {
      ZeroCounts(names, files);
    } else {
      SumOverNames(names, files[1..]);
      AddOneFile(names, files[0], files[1..]);
      assert files == [files[0]] + files[1..];
    }
  }

  lemma {:induction false} ZeroCounts(names: seq<string>, files: seq<File>)
    requires files == []
    ensures SumCounts(CountsFor(names, files)) == 0
  {
    if names != [] {
      ZeroCounts(names[1..], files);
      assert CountsFor(names, files)[1..] == CountsFor(names[1..], files);
    }
  }

  /** Adding one file adds one to the sum, when its workspace appears exactly once among the names. */
  lemma {:induction false} AddOneFile(names: seq<string>, f: File, rest: seq<File>)
    requires forall i, j :: 0 <= i < j < |names| ==> names[i] != names[j]
    ensures SumCounts(CountsFor(names, [f] + rest)) == SumCounts(CountsFor(names, rest)) + (if f.workspace in names then 1 else 0)
  {
    if names != [] {
      AddOneFile(names[1..], f, rest);
      assert CountsFor(names, [f] + rest)[1..] == CountsFor(names[1..], [f] + rest);
      assert CountsFor(names, rest)[1..] == CountsFor(names[1..], rest);
      assert ([f] + rest)[1..] == rest;
      if f.workspace == names[0] {
        assert f.workspace !in names[1..];
      }
    }
  }

  /** Appending a name adds it at the end of the distinct names unless it is already there. */
  lemma UniqueSnoc(init: seq<string>, last: string)
    ensures Unique(init + [last]) == if last in init then Unique(init) else Unique(init) + [last]
  {
    var names := init + [last];
    assert names[..|names| - 1] == init;
  }

  lemma UniqueRepeated(a: string)
    ensures Unique([a, a]) == [a]
  {
    assert Unique([a]) == [a] by {
      assert [] + [a] == [a];
      UniqueSnoc([], a);
    }
    assert [a] + [a] == [a, a];
    UniqueSnoc([a], a);
  }

  lemma UniqueThenOther(a: string, b: string)
    requires a != b
    ensures Unique([a, a, b]) == [a, b]
  {
    UniqueRepeated(a);
    assert [a, a] + [b] == [a, a, b];
    assert [a] + [b] == [a, b];
    UniqueSnoc([a, a], b);
  }

  /** A name, itself again, a second name and the first again: two distinct names, in that order. */
  lemma UniqueOfSampleShape(a: string, b: string)
    requires a != b
    ensures Unique([a, a, b, a]) == [a, b]
  {
    UniqueThenOther(a, b);
    assert [a, a, b] + [a] == [a, a, b, a];
    UniqueSnoc([a, a, b], a);
  }

  lemma SampleWorkspaceNames()
    ensures WorkspaceNames(INITIAL_FILES) == ["Capstone 101", "Capstone 101", "Internal Tools", "Capstone 101"]
  {
  }

  /** The sample files name two workspaces, Capstone 101 first. */
  lemma InitialWorkspaceNames()
    ensures Unique(WorkspaceNames(INITIAL_FILES)) == ["Capstone 101", "Internal Tools"]
  {
    assert "Capstone 101" != "Internal Tools" by { assert "Capstone 101"[0] != "Internal Tools"[0]; }
    SampleWorkspaceNames();
    UniqueOfSampleShape("Capstone 101", "Internal Tools");
  }

  lemma FilesInStep(files: seq<File>, name: string)
    requires files != []
    ensures FilesIn(files, name) == (if files[0].workspace == name then 1 else 0) + FilesIn(files[1..], name)
  {
  }

  lemma InitialCount(name: string, expected: nat)
    requires (name == "Capstone 101" && expected == 3) || (name == "Internal Tools" && expected == 1)
    ensures FilesIn(INITIAL_FILES, name) == expected
  {
    assert "Internal Tools" != "Capstone 101" by { assert "Internal Tools"[0] != "Capstone 101"[0]; }
    FilesInStep(INITIAL_FILES, name);
    FilesInStep(INITIAL_FILES[1..], name);
    FilesInStep(INITIAL_FILES[2..], name);
    FilesInStep(INITIAL_FILES[3..], name);
    assert INITIAL_FILES[1..][1..] == INITIAL_FILES[2..];
    assert INITIAL_FILES[2..][1..] == INITIAL_FILES[3..];
    assert INITIAL_FILES[3..][1..] == [];
  }

  /** Capstone 101 holds three of the sample files and Internal Tools one. */
  lemma InitialWorkspaces()
    ensures Workspaces(INITIAL_FILES) == [Workspace("Capstone 101", 3), Workspace("Internal Tools", 1)]
  {
    InitialWorkspaceNames();
    InitialCount("Capstone 101", 3);
    InitialCount("Internal Tools", 1);
    TwoWorkspaces(INITIAL_FILES, "Capstone 101", "Internal Tools");
  }

  lemma TwoWorkspaces(files: seq<File>, a: string, b: string)
    requires Unique(WorkspaceNames(files)) == [a, b]
    ensures Workspaces(files) == [Workspace(a, FilesIn(files, a)), Workspace(b, FilesIn(files, b))]
  {
  }

  // -------------------------------------------------------- filteredFiles

  /** A name the user can select is "truthy": present and not empty. */
  predicate Selected(selectedWorkspace: Option<string>) {
    selectedWorkspace.Some? && selectedWorkspace.value != ""
  }

  predicate RecentlyOpenedFile(f: File) {
    Contains(f.modified, "ago") || f.modified == "Yesterday"
  }

  /** The category filter: at most one of workspace, recently opened or favourites applies. */
  predicate PassesChip(f: File, chip: FilterChip, selectedWorkspace: Option<string>) {
    if chip == WorkspaceChip && Selected(selectedWorkspace) then f.workspace == selectedWorkspace.value
    else if chip == RecentlyOpened then RecentlyOpenedFile(f)
    else if chip == Favorites then f.isFavorite
    else true
  }

  /** The search: an empty query keeps everything, otherwise a case-insensitive substring test on the name. */
  predicate PassesSearch(f: File, query: string) {
    query == "" || Contains(ToLower(f.name), ToLower(query))
  }

  predicate Matches(f: File, chip: FilterChip, selectedWorkspace: Option<string>, query: string) {
    PassesChip(f, chip, selectedWorkspace) && PassesSearch(f, query)
  }

  /** `a` may come before `b` in the sorted list: by name, ascending or descending. */
  predicate InOrder(a: File, b: File, order: SortOrder) {
    if order == Asc then !Below(b.name, a.name) else !Below(a.name, b.name)
  }

  predicate Sorted(s: seq<File>, order: SortOrder) {
    forall i, j :: 0 <= i < j < |s| ==> InOrder(s[i], s[j], order)
  }

  lemma InOrderTotal(a: File, b: File, order: SortOrder)
    ensures InOrder(a, b, order) || InOrder(b, a, order)
  {
    BelowAsymmetric(a.name, b.name);
  }

  lemma InOrderTransitive(a: File, b: File, c: File, order: SortOrder)
    requires InOrder(a, b, order) && InOrder(b, c, order)
    ensures InOrder(a, c, order)
  {
    BelowTotal(a.name, b.name);
    BelowTotal(b.name, c.name);
    if order == Asc {
      if Below(c.name, a.name) {
        if Below(a.name, b.name) { BelowTransitive(c.name, a.name, b.name); }
      }
    } else {
      if Below(a.name, c.name) {
        if Below(c.name, b.name) { BelowTransitive(a.name, c.name, b.name); }
      }
    }
  }

  /** Inserts `x` before the first element it may precede. */
  function Insert(x: File, s: seq<File>, order: SortOrder): (r: seq<File>)
    ensures multiset(r) == multiset(s) + multiset{x}
  {
    if s == [] || InOrder(x, s[0], order) then [x] + s
    else
      assert s == [s[0]] + s[1..];
      [s[0]] + Insert(x, s[1..], order)
  }

  /** A sorted list stays sorted with an element in front that may precede all of it. */
  lemma SortedCons(a: File, t: seq<File>, order: SortOrder)
    requires Sorted(t, order)
    requires forall j :: 0 <= j < |t| ==> InOrder(a, t[j], order)
    ensures Sorted([a] + t, order)
  {
    var r := [a] + t;
    forall i, j | 0 <= i < j < |r| ensures InOrder(r[i], r[j], order) {
      if i == 0 {
        assert r[j] == t[j - 1];
      } else {
        assert r[i] == t[i - 1] && r[j] == t[j - 1];
      }
    }
  }

  /** An element that may precede every element of `s`, and `x` too, may precede every element of `x` inserted into `s`. */
  lemma PrecedesInserted(a: File, x: File, s: seq<File>, order: SortOrder)
    requires InOrder(a, x, order)
    requires forall k :: 0 <= k < |s| ==> InOrder(a, s[k], order)
    ensures forall j :: 0 <= j < |Insert(x, s, order)| ==> InOrder(a, Insert(x, s, order)[j], order)
  {
    var r := Insert(x, s, order);
    forall j | 0 <= j < |r| ensures InOrder(a, r[j], order) {
      assert r[j] in multiset(r);
      if r[j] != x {
        assert r[j] in multiset(s);
        var k :| 0 <= k < |s| && s[k] == r[j];
      }
    }
  }

  lemma {:induction false} InsertSorted(x: File, s: seq<File>, order: SortOrder)
    requires Sorted(s, order)
    ensures Sorted(Insert(x, s, order), order)
  {
    if s == [] {
    } else if InOrder(x, s[0], order) {
      forall j | 0 <= j < |s| ensures InOrder(x, s[j], order) {
        if j > 0 {
          InOrderTransitive(x, s[0], s[j], order);
        }
      }
      SortedCons(x, s, order);
    } else {
      InsertSorted(x, s[1..], order);
      InOrderTotal(x, s[0], order);
      PrecedesInserted(s[0], x, s[1..], order);
      SortedCons(s[0], Insert(x, s[1..], order), order);
    }
  }

  /** `data.sort(...)` by name, ascending or with the comparison reversed. */
  function SortFiles(s: seq<File>, order: SortOrder): (r: seq<File>)
    ensures multiset(r) == multiset(s)
    ensures Sorted(r, order)
  {
    if s == [] then [] else
      assert s == [s[0]] + s[1..];
      InsertSorted(s[0], SortFiles(s[1..], order), order);
      Insert(s[0], SortFiles(s[1..], order), order)
  }

  /**
   * `filteredFiles`: start from a copy of the files, narrow by the chip and
   * then by the search, and sort by name. The result holds exactly the
   * matching files, each as often as in the input, in sorted order.
   */
  method FilteredFiles(files: seq<File>, chip: FilterChip, selectedWorkspace: Option<string>, query: string, order: SortOrder)
    returns (data: seq<File>)
    ensures multiset(data) == multiset(Filter(files, (f: File) => Matches(f, chip, selectedWorkspace, query)))
    ensures Sorted(data, order)
    ensures forall i :: 0 <= i < |data| ==> data[i] in files && Matches(data[i], chip, selectedWorkspace, query)
    ensures forall i :: 0 <= i < |files| && Matches(files[i], chip, selectedWorkspace, query) ==> files[i] in data
  {
    var chipTest := (f: File) => PassesChip(f, chip, selectedWorkspace);
    var matches := (f: File) => Matches(f, chip, selectedWorkspace, query);
    data := files;
    if chip == WorkspaceChip && Selected(selectedWorkspace) {
      data := Filter(data, (f: File) => f.workspace == selectedWorkspace.value);
      FilterExt(files, (f: File) => f.workspace == selectedWorkspace.value, chipTest);
    } else if chip == RecentlyOpened {
      data := Filter(data, RecentlyOpenedFile);
      FilterExt(files, RecentlyOpenedFile, chipTest);
    } else if chip == Favorites {
      data := Filter(data, (f: File) => f.isFavorite);
      FilterExt(files, (f: File) => f.isFavorite, chipTest);
    } else {
      FilterAll(files, chipTest);
    }
    assert data == Filter(files, chipTest);
    if query != "" {
      data := Filter(data, (f: File) => Contains(ToLower(f.name), ToLower(query)));
      FilterTwice(files, chipTest, (f: File) => Contains(ToLower(f.name), ToLower(query)), matches);
    } else {
      FilterExt(files, chipTest, matches);
    }
    assert data == Filter(files, matches);
    data := SortFiles(data, order);
    PermutedFilterMembers(files, matches, data);
  }

  /** The workspace chip narrows only once a workspace is picked; picking none keeps every file. */
  lemma WorkspaceChipNeedsSelection(f: File, name: string)
    ensures PassesChip(f, WorkspaceChip, None) && PassesChip(f, WorkspaceChip, Some(""))
    ensures name != "" ==> (PassesChip(f, WorkspaceChip, Some(name)) <==> f.workspace == name)
    ensures PassesChip(f, AllFiles, Some(name))
  {
  }

  /** "Recently opened" keeps relative times and "Yesterday", not dates. */
  lemma RecentlyOpenedSamples()
    ensures RecentlyOpenedFile(INITIAL_FILES[0]) && RecentlyOpenedFile(INITIAL_FILES[2])
    ensures !RecentlyOpenedFile(INITIAL_FILES[3])
  {
    FirstSampleRecent();
    NoAgoInDate();
  }

  lemma FirstSampleRecent()
    ensures RecentlyOpenedFile(INITIAL_FILES[0])
  {
    assert INITIAL_FILES[0].modified == "10m " + "ago";
    ContainsSuffix("10m ", "ago");
  }

  lemma NoAgoInDate()
    ensures !Contains("Nov 15, 2025", "ago")
  {
    var d := "Nov 15, 2025";
    assert forall k :: 0 <= k <= |d| ==> !IsPrefix("ago", d[k..]) by {
      forall k | 0 <= k <= |d| ensures !IsPrefix("ago", d[k..]) {
        if k + 3 <= |d| {
          assert d[k..][..3][0] == d[k];
        }
      }
    }
    NotContainsFromSuffixes(d, "ago");
  }

  lemma {:induction false} NotContainsFromSuffixes(s: string, sub: string)
    requires forall k :: 0 <= k <= |s| ==> !IsPrefix(sub, s[k..])
    ensures !Contains(s, sub)
  {
    assert s[0..] == s;
    if |s| > 0 {
      forall k | 0 <= k <= |s[1..]| ensures !IsPrefix(sub, s[1..][k..]) {
        assert s[1..][k..] == s[k + 1..];
      }
      NotContainsFromSuffixes(s[1..], sub);
    }
  }

  // -------------------------------------------------------------- sorting

  predicate DistinctNames(s: seq<File>) {
    forall i, j :: 0 <= i < j < |s| ==> s[i].name != s[j].name
  }

  lemma InOrderReflexive(a: File, order: SortOrder)
    ensures InOrder(a, a, order)
  {
    BelowIrreflexive(a.name);
  }

  lemma InOrderAntisymmetric(a: File, b: File, order: SortOrder)
    requires InOrder(a, b, order) && InOrder(b, a, order)
    ensures a.name == b.name
  {
    BelowTotal(a.name, b.name);
  }

  /** A name missing from `s` and different from `x`'s is missing from `x` inserted into `s`. */
  lemma NameAbsentFromInserted(name: string, x: File, s: seq<File>, order: SortOrder)
    requires x.name != name && forall k :: 0 <= k < |s| ==> s[k].name != name
    ensures forall j :: 0 <= j < |Insert(x, s, order)| ==> Insert(x, s, order)[j].name != name
  {
    var r := Insert(x, s, order);
    forall j | 0 <= j < |r| ensures r[j].name != name {
      assert r[j] in multiset(r);
      if r[j] != x {
        assert r[j] in multiset(s);
        var k :| 0 <= k < |s| && s[k] == r[j];
      }
    }
  }

  /** Distinct names stay distinct with a file in front whose name is not among them. */
  lemma DistinctCons(a: File, t: seq<File>)
    requires DistinctNames(t) && forall j :: 0 <= j < |t| ==> t[j].name != a.name
    ensures DistinctNames([a] + t)
  {
    var r := [a] + t;
    forall i, j | 0 <= i < j < |r| ensures r[i].name != r[j].name {
      if i == 0 {
        assert r[j] == t[j - 1];
      } else {
        assert r[i] == t[i - 1] && r[j] == t[j - 1];
      }
    }
  }

  lemma {:induction false} InsertDistinct(x: File, s: seq<File>, order: SortOrder)
    requires DistinctNames(s) && forall k :: 0 <= k < |s| ==> s[k].name != x.name
    ensures DistinctNames(Insert(x, s, order))
  {
    if s == [] || InOrder(x, s[0], order) {
      DistinctCons(x, s);
    } else {
      InsertDistinct(x, s[1..], order);
      NameAbsentFromInserted(s[0].name, x, s[1..], order);
      DistinctCons(s[0], Insert(x, s[1..], order));
    }
  }

  lemma {:induction false} SortDistinct(s: seq<File>, order: SortOrder)
    requires DistinctNames(s)
    ensures DistinctNames(SortFiles(s, order))
  {
    if s != [] {
      var rest := SortFiles(s[1..], order);
      SortDistinct(s[1..], order);
      forall k | 0 <= k < |rest| ensures rest[k].name != s[0].name {
        assert rest[k] in multiset(s[1..]);
        var m :| 0 <= m < |s[1..]| && s[1..][m] == rest[k];
        assert s[m + 1] == rest[k];
      }
      InsertDistinct(s[0], rest, order);
    }
  }

  /** Two orderings of the same files with distinct names, both sorted, are the same ordering. */
  lemma {:induction false} SortedUnique(a: seq<File>, b: seq<File>, order: SortOrder)
    requires multiset(a) == multiset(b) && Sorted(a, order) && Sorted(b, order) && DistinctNames(a)
    ensures a == b
  {
    if a == [] {
      assert |b| == |multiset(b)| == 0;
    } else {
      assert b != [] by { assert a[0] in multiset(b); }
      SameHead(a, b, order);
      TailsPermuted(a, b);
      SortedUnique(a[1..], b[1..], order);
    }
  }

  lemma SameHead(a: seq<File>, b: seq<File>, order: SortOrder)
    requires a != [] && b != []
    requires multiset(a) == multiset(b) && Sorted(a, order) && Sorted(b, order) && DistinctNames(a)
    ensures a[0] == b[0]
  {
    assert a[0] in multiset(b);
    var k :| 0 <= k < |b| && b[k] == a[0];
    assert b[0] in multiset(a);
    var m :| 0 <= m < |a| && a[m] == b[0];
    if m == 0 { InOrderReflexive(a[0], order); }
    if k == 0 { InOrderReflexive(b[0], order); }
    assert InOrder(a[0], b[0], order);
    assert InOrder(b[0], a[0], order);
    InOrderAntisymmetric(a[0], b[0], order);
    assert a[m].name == a[0].name;
    assert m == 0;
  }

  lemma TailsPermuted(a: seq<File>, b: seq<File>)
    requires a != [] && b != [] && a[0] == b[0] && multiset(a) == multiset(b)
    ensures multiset(a[1..]) == multiset(b[1..])
  {
    assert a == [a[0]] + a[1..] && b == [b[0]] + b[1..];
    assert multiset(a) == multiset([a[0]]) + multiset(a[1..]);
    assert multiset(b) == multiset([b[0]]) + multiset(b[1..]);
    assert multiset(a[1..]) == multiset(a) - multiset([a[0]]);
    assert multiset(b[1..]) == multiset(b) - multiset([b[0]]);
  }

  function Reverse(s: seq<File>): (r: seq<File>)
    ensures |r| == |s| && forall i :: 0 <= i < |s| ==> r[i] == s[|s| - 1 - i]
  {
    seq(|s|, i requires 0 <= i < |s| => s[|s| - 1 - i])
  }

  lemma {:induction false} ReverseMultiset(s: seq<File>)
    ensures multiset(Reverse(s)) == multiset(s)
  {
    if s != [] {
      var init := s[..|s| - 1];
      ReverseMultiset(init);
      assert Reverse(s) == [s[|s| - 1]] + Reverse(init);
      assert s == init + [s[|s| - 1]];
    }
  }

  /** With distinct names, the descending order is the ascending order read backwards. */
  lemma DescIsReversedAsc(s: seq<File>)
    requires DistinctNames(s)
    ensures SortFiles(s, Desc) == Reverse(SortFiles(s, Asc))
  {
    var up := SortFiles(s, Asc);
    SortDistinct(s, Asc);
    ReverseMultiset(up);
    var down := Reverse(up);
    assert Sorted(down, Desc);
    SortedUnique(down, SortFiles(s, Desc), Desc);
  }

  /** `toggleSort`. */
  function Toggled(order: SortOrder): (r: SortOrder)
    ensures r != order
  {
    if order == Asc then Desc else Asc
  }

  /** Toggling twice gives back the first order, and with it the same list. */
  lemma ToggleTwice(s: seq<File>, order: SortOrder)
    requires DistinctNames(s)
    ensures Toggled(Toggled(order)) == order
    ensures SortFiles(s, Toggled(order)) == Reverse(SortFiles(s, order))
  {
    DescIsReversedAsc(s);
    if order == Desc {
      var up := SortFiles(s, Asc);
      assert Reverse(Reverse(up)) == up;
    }
  }

  /** `openFile(id)`: the detail route of a file. */
  function OpenFilePath(id: nat): string {
    "/meeting-summary/" + NatToString(id)
  }

  // ----------------------------------------------------------------- page

  class MeetingSummaryPage {
    var view: ViewMode
    var activeFilter: FilterChip
    var searchQuery: string
    var sortOrder: SortOrder
    var selectedWorkspace: Option<string>

    constructor ()
      ensures view == ListView && activeFilter == AllFiles && searchQuery == "" && sortOrder == Asc && selectedWorkspace == None
    {
      view, activeFilter, searchQuery, sortOrder, selectedWorkspace := ListView, AllFiles, "", Asc, None;
    }

    method ToggleSort()
      modifies this
      ensures sortOrder == Toggled(old(sortOrder))
      ensures view == old(view) && activeFilter == old(activeFilter) && searchQuery == old(searchQuery)
      ensures selectedWorkspace == old(selectedWorkspace)
    {
      sortOrder := Toggled(sortOrder);
    }

    /** A filter chip: switches the filter, forgets the picked workspace and clears the search. */
    method HandleFilterClick(filter: FilterChip)
      modifies this
      ensures activeFilter == filter && selectedWorkspace == None && searchQuery == ""
      ensures view == old(view) && sortOrder == old(sortOrder)
    {
      activeFilter := filter;
      selectedWorkspace := None;
      searchQuery := "";
    }

    /** A workspace card picks that workspace; the back button (`null`) forgets it. */
    method SetSelectedWorkspace(name: Option<string>)
      modifies this
      ensures selectedWorkspace == name
      ensures view == old(view) && activeFilter == old(activeFilter) && searchQuery == old(searchQuery)
      ensures sortOrder == old(sortOrder)
    {
      selectedWorkspace := name;
    }

    method SetSearchQuery(query: string)
      modifies this
      ensures searchQuery == query
      ensures view == old(view) && activeFilter == old(activeFilter) && selectedWorkspace == old(selectedWorkspace)
      ensures sortOrder == old(sortOrder)
    {
      searchQuery := query;
    }

    method SetView(mode: ViewMode)
      modifies this
      ensures view == mode
      ensures activeFilter == old(activeFilter) && searchQuery == old(searchQuery)
      ensures selectedWorkspace == old(selectedWorkspace) && sortOrder == old(sortOrder)
    {
      view := mode;
    }
  }

  /**
   * Picking a workspace and typing a search, then a chip: the chip click
   * forgets both, so the list is every file again, sorted.
   */
  method ChipClickShowsAllAgain(files: seq<File>) returns (data: seq<File>)
    ensures multiset(data) == multiset(files) && Sorted(data, Asc)
  {
    var page := new MeetingSummaryPage();
    page.SetSelectedWorkspace(Some("Internal Tools"));
    page.SetSearchQuery("design");
    page.HandleFilterClick(WorkspaceChip);
    data := FilteredFiles(files, page.activeFilter, page.selectedWorkspace, page.searchQuery, page.sortOrder);
    FilterAll(files, (f: File) => Matches(f, WorkspaceChip, None, ""));
  }
}

/**
 * `src/components/shared/app-shell.tsx`: the page frame. Its only logic is
 * the header title, looked up in a table of anchored path patterns where the
 * first pattern that matches wins.
 */
module AppShell {
  import opened Optional
  import opened Strings

  /**
   * The two pattern shapes of the table: `^path$`, and `^path(\/.*)?$`, which
   * also takes `path/` followed by any text without a line terminator
   * (`.` does not match one).
   */
  datatype Pattern = Exact(path: string) | PathOrBelow(path: string)

  predicate IsLineTerminator(c: char)
  {
    c == '\n' || c == '\r' || c == '\U{2028}' || c == '\U{2029}'
  }

  predicate NoLineTerminator(s: string)
  {
    forall i :: 0 <= i < |s| ==> !IsLineTerminator(s[i])
  }

  /** `re.test(pathname)`. */
  predicate Matches(pattern: Pattern, pathname: string)
  {
    match pattern
    case Exact(path) => pathname == path
    case PathOrBelow(path) =>
      pathname == path
      || (IsPrefix(path + "/", pathname) && NoLineTerminator(pathname[|path| + 1..]))
  }

  const DEFAULT_TITLE: string := "Synthia"

  const TITLE_BY_PATH: seq<(Pattern, string)> := [
    (Exact("/dashboard"), "Dashboard"),
    (Exact("/calendar"), "Calendar"),
    (Exact("/meetings"), "Meetings"),
    (Exact("/notifications"), "Notifications"),
    (Exact("/profile"), "Profile"),
    (Exact("/meeting-history"), "Meeting History"),
    (PathOrBelow("/meeting-summary"), "Meeting Summary"),
    (Exact("/settings"), "Settings"),
    (Exact("/collaboration"), "Collaboration"),
    (Exact("/tasks"), "Tasks")
  ]

  /** The title of the first entry whose pattern matches, if any. */
  function FirstMatch(table: seq<(Pattern, string)>, pathname: string): (r: Option<string>)
    ensures r.None? <==> forall i :: 0 <= i < |table| ==> !Matches(table[i].0, pathname)
    ensures r.Some? ==> exists i :: (&& 0 <= i < |table| && Matches(table[i].0, pathname) && r.value == table[i].1
                                     && forall j :: 0 <= j < i ==> !Matches(table[j].0, pathname))
  {
    if table == [] then None
    else if Matches(table[0].0, pathname) then Some(table[0].1)
    else
      var rest := FirstMatch(table[1..], pathname);
      assert forall i :: 1 <= i < |table| ==> table[i] == table[1..][i - 1];
      rest
  }

  /** `titleForPath`: the first matching title, or "Synthia". */
  function TitleForPath(pathname: string): string
  {
    match FirstMatch(TITLE_BY_PATH, pathname)
    case Some(title) => title
    case None => DEFAULT_TITLE
  }

  /** When exactly one entry matches, that entry's title is the one shown. */
  lemma UniqueMatchWins(pathname: string, i: nat)
    requires i < |TITLE_BY_PATH| && Matches(TITLE_BY_PATH[i].0, pathname)
    requires forall j :: 0 <= j < |TITLE_BY_PATH| && j != i ==> !Matches(TITLE_BY_PATH[j].0, pathname)
    ensures TitleForPath(pathname) == TITLE_BY_PATH[i].1
  {
    var r := FirstMatch(TITLE_BY_PATH, pathname);
    assert r.Some?;
    var k :| 0 <= k < |TITLE_BY_PATH| && Matches(TITLE_BY_PATH[k].0, pathname) && r.value == TITLE_BY_PATH[k].1
      && forall j :: 0 <= j < k ==> !Matches(TITLE_BY_PATH[j].0, pathname);
    assert k == i;
  }

  /** Nothing matching gives the default title. */
  lemma NoMatchIsDefault(pathname: string)
    requires forall j :: 0 <= j < |TITLE_BY_PATH| ==> !Matches(TITLE_BY_PATH[j].0, pathname)
    ensures TitleForPath(pathname) == DEFAULT_TITLE
  {
  }

  /** The table's paths are ten different words, each `/` and then no further `/`. */
  predicate OneSegment(path: string)
  {
    |path| >= 2 && path[0] == '/' && forall i :: 1 <= i < |path| ==> path[i] != '/'
  }

  lemma TablePathsOneSegment(i: nat)
    requires i < |TITLE_BY_PATH|
    ensures OneSegment(TITLE_BY_PATH[i].0.path)
  {
    if i < 5 {
      FirstPathsOneSegment(i);
    } else {
      LastPathsOneSegment(i);
    }
  }

  lemma FirstPathsOneSegment(i: nat)
    requires i < 5
    ensures OneSegment(TITLE_BY_PATH[i].0.path)
  {
  }

  lemma LastPathsOneSegment(i: nat)
    requires 5 <= i < |TITLE_BY_PATH|
    ensures OneSegment(TITLE_BY_PATH[i].0.path)
  {
  }

  /** A one-segment path never has another one-segment path plus `/` in front of it. */
  lemma SegmentNotBelowOther(p: string, q: string)
    requires OneSegment(p) && OneSegment(q)
    ensures !IsPrefix(p + "/", q)
  {
    if |p| + 1 <= |q| {
      assert (p + "/")[|p|] == '/';
      assert q[|p|] != '/';
    }
  }

  /** Below one one-segment path there is nothing that is also below a different one. */
  lemma NotBelowOtherSegment(p: string, q: string, rest: string)
    requires OneSegment(p) && OneSegment(q) && p != q
    ensures !IsPrefix(q + "/", p + "/" + rest)
  {
    var pathname := p + "/" + rest;
    if |q| + 1 <= |pathname| {
      if |q| < |p| {
        assert pathname[|q|] == p[|q|] != '/';
        assert (q + "/")[|q|] == '/';
      } else if |q| == |p| {
        var k :| 0 <= k < |p| && p[k] != q[k];
        assert pathname[k] == p[k];
        assert (q + "/")[k] == q[k];
      } else {
        assert pathname[|p|] == '/';
        assert (q + "/")[|p|] == q[|p|] != '/';
      }
    }
  }

  /**
   * Every route but meeting-summary matches only its exact path: a path
   * with anything after the route, such as `/dashboard/x`, matches nothing
   * and gives "Synthia".
   */
  lemma ChildOfExactRouteIsDefault(i: nat, rest: string)
    requires i < |TITLE_BY_PATH| && TITLE_BY_PATH[i].0.Exact?
    ensures TitleForPath(TITLE_BY_PATH[i].0.path + "/" + rest) == DEFAULT_TITLE
  {
    var p := TITLE_BY_PATH[i].0.path;
    var pathname := p + "/" + rest;
    TablePathsOneSegment(i);
    assert pathname[|p|] == '/';
    assert !OneSegment(pathname);
    forall j | 0 <= j < |TITLE_BY_PATH| ensures !Matches(TITLE_BY_PATH[j].0, pathname) {
      TablePathsOneSegment(j);
      if TITLE_BY_PATH[j].0.PathOrBelow? {
        assert j == 6;
        PathsDistinct(i, j);
        NotBelowOtherSegment(p, TITLE_BY_PATH[j].0.path, rest);
      }
    }
  }

  /** Each route's own path gives its title. */
  lemma ExactPathGivesTitle(i: nat)
    requires i < |TITLE_BY_PATH|
    ensures TitleForPath(TITLE_BY_PATH[i].0.path) == TITLE_BY_PATH[i].1
  {
    var pathname := TITLE_BY_PATH[i].0.path;
    forall j | 0 <= j < |TITLE_BY_PATH| && j != i ensures !Matches(TITLE_BY_PATH[j].0, pathname) {
      TablePathsOneSegment(i);
      TablePathsOneSegment(j);
      SegmentNotBelowOther(TITLE_BY_PATH[j].0.path, pathname);
      PathsDistinct(i, j);
    }
    UniqueMatchWins(pathname, i);
  }

  lemma PathsDistinct(i: nat, j: nat)
    requires i < |TITLE_BY_PATH| && j < |TITLE_BY_PATH| && i != j
    ensures TITLE_BY_PATH[i].0.path != TITLE_BY_PATH[j].0.path
  {
  }

  /** `/meeting-summary` gives "Meeting Summary". */
  lemma MeetingSummaryTitle()
    ensures TitleForPath("/meeting-summary") == "Meeting Summary"
  {
    ExactPathGivesTitle(6);
  }

  /** Any `/meeting-summary/...` without a line terminator gives "Meeting Summary". */
  lemma BelowMeetingSummaryTitle(rest: string)
    requires NoLineTerminator(rest)
    ensures TitleForPath("/meeting-summary/" + rest) == "Meeting Summary"
  {
    assert "/meeting-summary/" + rest == TITLE_BY_PATH[6].0.path + "/" + rest;
    BelowPatternTitle(6, rest);
  }

  /** Only the meeting-summary entry matches paths below its own. */
  lemma OnlyMeetingSummaryBelow(j: nat)
    requires j < |TITLE_BY_PATH|
    ensures TITLE_BY_PATH[j].0.PathOrBelow? <==> j == 6
  {
  }

  /** A path below the entry that takes paths below it gives that entry's title. */
  lemma BelowPatternTitle(i: nat, rest: string)
    requires i < |TITLE_BY_PATH| && TITLE_BY_PATH[i].0.PathOrBelow? && NoLineTerminator(rest)
    ensures TitleForPath(TITLE_BY_PATH[i].0.path + "/" + rest) == TITLE_BY_PATH[i].1
  {
    var p := TITLE_BY_PATH[i].0.path;
    var below := p + "/" + rest;
    assert below[..|p| + 1] == p + "/";
    assert below[|p| + 1..] == rest;
    assert Matches(TITLE_BY_PATH[i].0, below);
    TablePathsOneSegment(i);
    assert below[|p|] == '/';
    assert !OneSegment(below);
    OnlyMeetingSummaryBelow(i);
    forall j | 0 <= j < |TITLE_BY_PATH| && j != i ensures !Matches(TITLE_BY_PATH[j].0, below) {
      TablePathsOneSegment(j);
      OnlyMeetingSummaryBelow(j);
    }
    UniqueMatchWins(below, i);
  }

  /** A sibling such as `/meeting-summaryX` is not below `/meeting-summary` and gives "Synthia". */
  lemma MeetingSummarySiblingIsDefault()
    ensures TitleForPath("/meeting-summaryX") == DEFAULT_TITLE
  {
    var x := "/meeting-summaryX";
    assert OneSegment(x);
    forall j | 0 <= j < |TITLE_BY_PATH| ensures !Matches(TITLE_BY_PATH[j].0, x) {
      TablePathsOneSegment(j);
      SegmentNotBelowOther(TITLE_BY_PATH[j].0.path, x);
      assert |TITLE_BY_PATH[j].0.path| != |x|;
    }
  }

  /** `/dashboard/x` is not a dashboard page as far as the title goes. */
  lemma DashboardChildIsDefault()
    ensures TitleForPath("/dashboard/x") == DEFAULT_TITLE
  {
    ChildOfExactRouteIsDefault(0, "x");
  }
}

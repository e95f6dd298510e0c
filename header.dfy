/**
 * The dashboard header's title (src/components/dashboard/header.tsx): the third piece of the
 * path split on `/`, classified by an ordered chain of substring tests.
 */
module Header {
  import opened Wrappers
  import opened Strings

  /** `pathname.split("/")[2]`, undefined when the path has fewer pieces. */
  function CurrentPath(pathname: string): (seg: Option<string>)
    ensures seg.Some? <==> |Split(pathname, '/')| > 2
    ensures seg.Some? ==> seg.value == Split(pathname, '/')[2] && '/' !in seg.value
  {
    var parts := Split(pathname, '/');
    SplitPiecesClean(pathname, '/');
    if |parts| > 2 then Some(parts[2]) else None
  }

  /** The eight titles the header can show. */
  const Titles: seq<string> := ["Analytics", "Dashboard", "Content Scheduler", "Content Library",
    "Social Accounts", "AI Assistant", "Team", "Inbox"]

  /** The `useMemo` chain: a missing or empty segment is the dashboard; otherwise the first
      key the segment contains decides, and the dashboard when none does. */
  function HeaderTitle(currentPath: Option<string>): (t: string)
    ensures t in Titles
  {
    if currentPath.None? || currentPath.value == "" then "Dashboard"
    else
      var p := currentPath.value;
      if Contains(p, "analytics") then "Analytics"
      else if Contains(p, "scheduler") then "Content Scheduler"
      else if Contains(p, "content") then "Content Library"
      else if Contains(p, "social-accounts") then "Social Accounts"
      else if Contains(p, "ai-assistant") then "AI Assistant"
      else if Contains(p, "team") then "Team"
      else if Contains(p, "inbox") then "Inbox"
      else "Dashboard"
  }

  /** The chain as a table of (key, title) rules, tried in order. */
  const TitleRules: seq<(string, string)> := [
    ("analytics", "Analytics"), ("scheduler", "Content Scheduler"), ("content", "Content Library"),
    ("social-accounts", "Social Accounts"), ("ai-assistant", "AI Assistant"), ("team", "Team"),
    ("inbox", "Inbox")]

  /** The title of the first rule whose key occurs in s. */
  function FirstMatch(rules: seq<(string, string)>, s: string): Option<string>
    decreases |rules|
  {
    if rules == [] then None
    else if Contains(s, rules[0].0) then Some(rules[0].1)
    else FirstMatch(rules[1..], s)
  }

  /** A rule that matches wins only if no earlier rule matches. */
  lemma {:induction false} FirstMatchIsFirst(rules: seq<(string, string)>, s: string, i: nat)
    requires i < |rules| && Contains(s, rules[i].0)
    requires forall j :: 0 <= j < i ==> !Contains(s, rules[j].0)
    ensures FirstMatch(rules, s) == Some(rules[i].1)
    decreases i
  {
    if i > 0 {
      assert !Contains(s, rules[0].0);
      forall j | 0 <= j < i - 1 ensures !Contains(s, rules[1..][j].0) {
        assert rules[1..][j] == rules[j + 1];
      }
      FirstMatchIsFirst(rules[1..], s, i - 1);
    }
  }

  /** Without a matching rule there is no title from the table. */
  lemma {:induction false} FirstMatchNone(rules: seq<(string, string)>, s: string)
    requires forall j :: 0 <= j < |rules| ==> !Contains(s, rules[j].0)
    ensures FirstMatch(rules, s).None?
    decreases |rules|
  {
    if rules != [] {
      assert !Contains(s, rules[0].0);
      forall j | 0 <= j < |rules| - 1 ensures !Contains(s, rules[1..][j].0) {
        assert rules[1..][j] == rules[j + 1];
      }
      FirstMatchNone(rules[1..], s);
    }
  }

  /** The chain is the rule table tried in order, with the dashboard as fallback. */
  lemma HeaderTitleByRules(currentPath: Option<string>)
    ensures HeaderTitle(currentPath) ==
      if currentPath.None? || currentPath.value == "" then "Dashboard"
      else FirstMatch(TitleRules, currentPath.value).GetOr("Dashboard")
  {
    if currentPath.Some? && currentPath.value != "" {
      var p := currentPath.value;
      var r0 := TitleRules;
      var r1 := [("scheduler", "Content Scheduler"), ("content", "Content Library"),
        ("social-accounts", "Social Accounts"), ("ai-assistant", "AI Assistant"), ("team", "Team"),
        ("inbox", "Inbox")];
      var r4 := [("ai-assistant", "AI Assistant"), ("team", "Team"), ("inbox", "Inbox")];
      assert r0 == [("analytics", "Analytics")] + r1;
      FirstMatchCons(("analytics", "Analytics"), r1, p);
      FirstMatchCons(("scheduler", "Content Scheduler"), r1[1..], p);
      FirstMatchCons(("content", "Content Library"), r1[2..], p);
      FirstMatchCons(("social-accounts", "Social Accounts"), r4, p);
      FirstMatchCons(("ai-assistant", "AI Assistant"), r4[1..], p);
      FirstMatchCons(("team", "Team"), r4[2..], p);
      FirstMatchCons(("inbox", "Inbox"), [], p);
      assert r1 == [r1[0]] + r1[1..] && r1[1..] == [r1[1]] + r1[2..];
      assert r1[2..] == [r1[2]] + r4;
      assert r4 == [r4[0]] + r4[1..] && r4[1..] == [r4[1]] + r4[2..] && r4[2..] == [r4[2]] + [];
    }
  }

  lemma FirstMatchCons(rule: (string, string), rules: seq<(string, string)>, s: string)
    ensures FirstMatch([rule] + rules, s) ==
      if Contains(s, rule.0) then Some(rule.1) else FirstMatch(rules, s)
  {
    assert ([rule] + rules)[1..] == rules;
  }

  /** The dashboard title shows exactly when the segment is missing, empty, or holds none of
      the keys. */
  lemma DashboardTitle(currentPath: Option<string>)
    ensures HeaderTitle(currentPath) == "Dashboard" <==>
      currentPath.None? || currentPath.value == ""
      || forall j :: 0 <= j < |TitleRules| ==> !Contains(currentPath.value, TitleRules[j].0)
  {
    if currentPath.Some? && currentPath.value != "" {
      var p := currentPath.value;
      if forall j :: 0 <= j < |TitleRules| ==> !Contains(p, TitleRules[j].0) {
        assert !Contains(p, TitleRules[0].0) && !Contains(p, TitleRules[1].0);
        assert !Contains(p, TitleRules[2].0) && !Contains(p, TitleRules[3].0);
        assert !Contains(p, TitleRules[4].0) && !Contains(p, TitleRules[5].0);
        assert !Contains(p, TitleRules[6].0);
      }
    }
  }

  /** A path `/d/seg` splits into an empty piece, d and seg. */
  lemma PathPieces(d: string, seg: string)
    requires '/' !in d && '/' !in seg
    ensures Split([] + ['/'] + (d + ['/'] + seg), '/') == [[]] + ([d] + [seg])
  {
    SplitCons(d, seg, '/');
    SplitNone(seg, '/');
    SplitCons([], d + ['/'] + seg, '/');
  }

  /** A path `/d/seg/rest` splits into an empty piece, d, seg and the pieces of rest. */
  lemma LongerPathPieces(d: string, seg: string, rest: string)
    requires '/' !in d && '/' !in seg
    ensures Split([] + ['/'] + (d + ['/'] + (seg + ['/'] + rest)), '/') == [[]] + ([d] + ([seg] + Split(rest, '/')))
  {
    SplitCons(seg, rest, '/');
    SplitCons(d, seg + ['/'] + rest, '/');
    SplitCons([], d + ['/'] + (seg + ['/'] + rest), '/');
  }

  /** The segment of a dashboard route is the piece after `/dashboard/`. */
  lemma DashboardSegment(seg: string)
    requires '/' !in seg
    ensures CurrentPath("/dashboard/" + seg) == Some(seg)
  {
    var d := "dashboard";
    var e: string := [];
    assert '/' !in d;
    assert "/dashboard/" + seg == e + ['/'] + (d + ['/'] + seg);
    PathPieces(d, seg);
  }

  /** Below a dashboard route the segment is still the piece after `/dashboard/`, up to the
      next `/`. */
  lemma DashboardSubpageSegment(seg: string, rest: string)
    requires '/' !in seg
    ensures CurrentPath("/dashboard/" + seg + "/" + rest) == Some(seg)
  {
    var d := "dashboard";
    var e: string := [];
    assert '/' !in d;
    assert "/dashboard/" + seg + "/" + rest == e + ['/'] + (d + ['/'] + (seg + ['/'] + rest));
    LongerPathPieces(d, seg, rest);
  }

  lemma CreatePostSegment()
    ensures CurrentPath("/dashboard/content/create-post") == Some("content")
  {
    DashboardSubpageSegment("content", "create-post");
    assert "/dashboard/" + "content" + "/" + "create-post" == "/dashboard/content/create-post";
  }

  lemma ContentTitle()
    ensures HeaderTitle(Some("content")) == "Content Library"
  {
    ContainsLonger("content", "analytics");
    ContainsLonger("content", "scheduler");
    assert StartsWith("content", "content");
  }

  /** The create-post page is titled with the content library's title. */
  lemma CreatePostTitle()
    ensures HeaderTitle(CurrentPath("/dashboard/content/create-post")) == "Content Library"
  {
    CreatePostSegment();
    ContentTitle();
  }
}

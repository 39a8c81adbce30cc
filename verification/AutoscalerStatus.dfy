/** The Cluster Autoscaler status parser and the names it generates for pending nodes. */
module AutoscalerStatus {
  import opened Quantities
  import opened Objects
  import opened Text

  /** One node group's report: its name and how many nodes are pending. */
  datatype Report = Report(group: string, pending: int)

  function PendingName(group: string, i: nat): string {
    group + "-pending-" + Decimal(i)
  }

  function PendingNode(group: string, i: nat): InflightNode {
    InflightNode(PendingName(group, i), map[], map[], "")
  }

  function ClampedCount(pending: int): nat {
    if pending > 0 then pending else 0
  }

  function NodesOf(report: Report): seq<InflightNode> {
    seq(ClampedCount(report.pending), i requires 0 <= i => PendingNode(report.group, i))
  }

  function AllNodes(reports: seq<Report>): seq<InflightNode> {
    if reports == [] then [] else AllNodes(reports[..|reports| - 1]) + NodesOf(reports[|reports| - 1])
  }

  function ExtractValue(s: string, prefix: string): string {
    var idx := Index(s, prefix);
    if idx < 0 then "" else TrimSpace(s[idx + |prefix|..])
  }

  /** ready and target after the remaining comma-separated parts. */
  function HealthFrom(parts: seq<string>, ready: int, target: int): (int, int) {
    if parts == [] then (ready, target)
    else
      var p := TrimSpace(parts[0]);
      HealthFrom(parts[1..],
                 if Contains(p, "ready=") then ParseInt(ExtractValue(p, "ready=")).0 else ready,
                 if Contains(p, "cloudProviderTarget=") then ParseInt(ExtractValue(p, "cloudProviderTarget=")).0 else target)
  }

  function PendingIn(line: string): int {
    var (ready, target) := HealthFrom(Split(line, ','), 0, 0);
    Sub(Int64, target, ready)
  }

  /** The last part that mentions a value sets it, whatever earlier parts said; a value no part mentions stays as it was. */
  lemma {:induction false} LastMentionWins(parts: seq<string>, part: string, ready: int, target: int)
    ensures var before, after := HealthFrom(parts, ready, target), HealthFrom(parts + [part], ready, target);
      var p := TrimSpace(part);
      && after.0 == (if Contains(p, "ready=") then ParseInt(ExtractValue(p, "ready=")).0 else before.0)
      && after.1 == (if Contains(p, "cloudProviderTarget=") then ParseInt(ExtractValue(p, "cloudProviderTarget=")).0 else before.1)
    decreases |parts|
  {
    var all := parts + [part];
    if parts == [] {
      assert all[1..] == [];
    } else {
      var p := TrimSpace(parts[0]);
      assert all[0] == parts[0] && all[1..] == parts[1..] + [part];
      LastMentionWins(parts[1..], part,
                      if Contains(p, "ready=") then ParseInt(ExtractValue(p, "ready=")).0 else ready,
                      if Contains(p, "cloudProviderTarget=") then ParseInt(ExtractValue(p, "cloudProviderTarget=")).0 else target);
    }
  }

  /** What a line says, after trimming. */
  datatype Line = NameOf(group: string) | HealthOf(pending: int) | Other

  function Classify(raw: string): Line {
    var line := TrimSpace(raw);
    if "Name:" <= line then NameOf(TrimSpace(line[5..]))
    else if "Health:" <= line then HealthOf(PendingIn(line))
    else Other
  }

  /** The reports in the remaining lines: a Health line counts for the group named last,
      once. */
  function ReportsFrom(lines: seq<string>, group: string): seq<Report> {
    if lines == [] then []
    else
      match Classify(lines[0])
      case NameOf(g) => ReportsFrom(lines[1..], g)
      case HealthOf(pending) =>
        if group != "" then [Report(group, pending)] + ReportsFrom(lines[1..], "") else ReportsFrom(lines[1..], group)
      case Other => ReportsFrom(lines[1..], group)
  }

  function ReportsIn(status: string): seq<Report> {
    ReportsFrom(Split(status, '\n'), "")
  }

  method ParseHealthLine(line: string) returns (ready: int, target: int)
    ensures (ready, target) == HealthFrom(Split(line, ','), 0, 0)
  {
    ready, target := 0, 0;
    var parts := Split(line, ',');
    for i := 0 to |parts|
      invariant HealthFrom(parts, 0, 0) == HealthFrom(parts[i..], ready, target)
    {
      assert parts[i..][1..] == parts[i + 1..];
      var p := TrimSpace(parts[i]);
      if Contains(p, "ready=") {
        ready := ParseInt(ExtractValue(p, "ready=")).0;
      }
      if Contains(p, "cloudProviderTarget=") {
        target := ParseInt(ExtractValue(p, "cloudProviderTarget=")).0;
      }
    }
  }

  method AppendPending(before: seq<InflightNode>, group: string, pending: int) returns (nodes: seq<InflightNode>)
    ensures nodes == before + NodesOf(Report(group, pending))
  {
    nodes := before;
    ghost var added := NodesOf(Report(group, pending));
    var i := 0;
    while i < pending
      invariant 0 <= i <= ClampedCount(pending)
      invariant nodes == before + added[..i]
    {
      nodes := nodes + [PendingNode(group, i)];
      assert added[..i + 1] == added[..i] + [PendingNode(group, i)];
      i := i + 1;
    }
    assert added[..i] == added;
  }

  /** The body of the line loop; `done` are the reports so far, `rest` the lines to come. */
  method ParseLine(raw: string, group: string, nodes: seq<InflightNode>, ghost done: seq<Report>, ghost rest: seq<string>)
    returns (group': string, nodes': seq<InflightNode>, ghost done': seq<Report>)
    requires nodes == AllNodes(done)
    ensures nodes' == AllNodes(done')
    ensures done + ReportsFrom([raw] + rest, group) == done' + ReportsFrom(rest, group')
  {
    ReportsStep(raw, rest, group);
    var line := TrimSpace(raw);
    if "Name:" <= line {
      return TrimSpace(line[5..]), nodes, done;
    }
    if "Health:" <= line && group != "" {
      var ready, target := ParseHealthLine(line);
      var pending := Sub(Int64, target, ready);
      nodes' := AppendPending(nodes, group, pending);
      ghost var report := Report(group, pending);
      AllNodesAppend(done, report);
      assert Classify(raw) == HealthOf(pending);
      Regroup(done, report, ReportsFrom(rest, ""));
      return "", nodes', done + [report];
    }
    return group, nodes, done;
  }

  lemma Regroup(done: seq<Report>, report: Report, more: seq<Report>)
    ensures done + ([report] + more) == done + [report] + more
  {
  }

  lemma ReportsStep(raw: string, rest: seq<string>, group: string)
    ensures Classify(raw).NameOf? ==> ReportsFrom([raw] + rest, group) == ReportsFrom(rest, Classify(raw).group)
    ensures Classify(raw).HealthOf? && group != "" ==>
      ReportsFrom([raw] + rest, group) == [Report(group, Classify(raw).pending)] + ReportsFrom(rest, "")
    ensures Classify(raw).Other? || (Classify(raw).HealthOf? && group == "") ==>
      ReportsFrom([raw] + rest, group) == ReportsFrom(rest, group)
  {
    assert ([raw] + rest)[1..] == rest;
  }

  predicate SaysName(line: string) {
    "Name:" <= TrimSpace(line)
  }

  predicate SaysHealth(line: string) {
    "Health:" <= TrimSpace(line) && !SaysName(line)
  }

  /** WHICH LINES COUNT. A Health line reports for the last group named before it, and only the first one does; one with no
      such name, or after another Health line, counts for nothing, and so does every line that is neither. */
  lemma LinesThatCount(line: string, rest: seq<string>, group: string)
    ensures SaysName(line) ==> ReportsFrom([line] + rest, group) == ReportsFrom(rest, TrimSpace(TrimSpace(line)[5..]))
    ensures SaysHealth(line) && group != "" ==>
      ReportsFrom([line] + rest, group) == [Report(group, PendingIn(TrimSpace(line)))] + ReportsFrom(rest, "")
    ensures SaysHealth(line) && group == "" ==> ReportsFrom([line] + rest, group) == ReportsFrom(rest, "")
    ensures !SaysName(line) && !SaysHealth(line) ==> ReportsFrom([line] + rest, group) == ReportsFrom(rest, group)
  {
    ReportsStep(line, rest, group);
  }

  method ParseCAStatus(status: string) returns (nodes: seq<InflightNode>)
    ensures nodes == AllNodes(ReportsIn(status))
  {
    nodes := [];
    var lines := Split(status, '\n');
    var currentGroup := "";
    ghost var done: seq<Report> := [];
    for k := 0 to |lines|
      invariant nodes == AllNodes(done)
      invariant ReportsFrom(lines, "") == done + ReportsFrom(lines[k..], currentGroup)
    {
      assert lines[k..] == [lines[k]] + lines[k + 1..];
      currentGroup, nodes, done := ParseLine(lines[k], currentGroup, nodes, done, lines[k + 1..]);
    }
    assert lines[|lines|..] == [];
    assert done + [] == done;
  }

  lemma AllNodesAppend(reports: seq<Report>, report: Report)
    ensures AllNodes(reports + [report]) == AllNodes(reports) + NodesOf(report)
  {
    assert (reports + [report])[..|reports|] == reports;
  }

  /** A generated name determines its group and number. */
  lemma PendingNameInjective(g: string, i: nat, g': string, i': nat)
    requires PendingName(g, i) == PendingName(g', i')
    ensures g == g' && i == i'
  {
    var d, d' := Decimal(i), Decimal(i');
    var s, s' := g + "-pending-", g' + "-pending-";
    assert s[|s| - 1] == '-' && s'[|s'| - 1] == '-';
    SuffixDigitsUnique(s, d, s', d');
    assert s == s' && d == d';
    assert g == s[..|s| - 9] && g' == s'[..|s'| - 9];
    DecimalValue(i);
    DecimalValue(i');
  }

  /** The digits after the last non-digit are determined by the whole string. */
  lemma SuffixDigitsUnique(s: string, d: string, s': string, d': string)
    requires s != "" && s' != "" && !IsDigit(s[|s| - 1]) && !IsDigit(s'[|s'| - 1])
    requires AllDigits(d) && AllDigits(d') && s + d == s' + d'
    ensures s == s' && d == d'
  {
    var all := s + d;
    assert forall k :: |s| <= k < |all| ==> IsDigit(all[k]) by {
      assert forall k :: |s| <= k < |all| ==> all[k] == d[k - |s|];
    }
    assert forall k :: |s'| <= k < |all| ==> IsDigit(all[k]) by {
      assert forall k :: |s'| <= k < |all| ==> all[k] == (s' + d')[k] == d'[k - |s'|];
    }
    assert all[|s| - 1] == s[|s| - 1];
    assert all[|s'| - 1] == (s' + d')[|s'| - 1] == s'[|s'| - 1];
    assert |s| == |s'|;
    assert s == all[..|s|] && s' == all[..|s'|];
    assert d == all[|s|..] && d' == all[|s'|..];
  }

  function TotalPending(reports: seq<Report>): nat {
    if reports == [] then 0
    else TotalPending(reports[..|reports| - 1]) + ClampedCount(reports[|reports| - 1].pending)
  }

  lemma {:induction false} AllNodesCount(reports: seq<Report>)
    ensures |AllNodes(reports)| == TotalPending(reports)
  {
    if reports != [] {
      AllNodesCount(reports[..|reports| - 1]);
    }
  }

  /** Exactly which names are generated. */
  lemma {:induction false} AllNodesNames(reports: seq<Report>, n: InflightNode)
    ensures n in AllNodes(reports) <==>
      exists k, i: int :: 0 <= k < |reports| && 0 <= i < reports[k].pending && n == PendingNode(reports[k].group, i)
  {
    if reports != [] {
      var init, last := reports[..|reports| - 1], reports[|reports| - 1];
      AllNodesNames(init, n);
      if n in NodesOf(last) {
        var i :| 0 <= i < |NodesOf(last)| && NodesOf(last)[i] == n;
        assert reports[|reports| - 1] == last && n == PendingNode(last.group, i);
      }
      if exists k, i: int :: 0 <= k < |reports| && 0 <= i < reports[k].pending && n == PendingNode(reports[k].group, i) {
        var k, i: int :| 0 <= k < |reports| && 0 <= i < reports[k].pending && n == PendingNode(reports[k].group, i);
        if k == |reports| - 1 {
          assert NodesOf(last)[i] == n;
        } else {
          assert init[k] == reports[k];
        }
      }
      if n in AllNodes(init) {
        var k, i: int :| 0 <= k < |init| && 0 <= i < init[k].pending && n == PendingNode(init[k].group, i);
        assert init[k] == reports[k];
      }
    }
  }

  predicate DistinctNames(nodes: seq<InflightNode>) {
    forall i, j :: 0 <= i < j < |nodes| ==> nodes[i].name != nodes[j].name
  }

  predicate DistinctGroups(reports: seq<Report>) {
    forall i, j :: 0 <= i < j < |reports| && reports[i].pending > 0 && reports[j].pending > 0
      ==> reports[i].group != reports[j].group
  }

  /** Names are pairwise distinct if and only if no group reports pending nodes twice. */
  lemma {:induction false} DistinctIff(reports: seq<Report>)
    ensures DistinctNames(AllNodes(reports)) <==> DistinctGroups(reports)
  {
    if reports != [] {
      var init, last := reports[..|reports| - 1], reports[|reports| - 1];
      DistinctIff(init);
      var a, b := AllNodes(init), NodesOf(last);
      LastDistinct(a, last);
      ClashIff(init, last);
      assert forall i :: 0 <= i < |init| ==> init[i] == reports[i];
    }
  }

  /** Names of one report never clash with each other. */
  lemma LastDistinct(a: seq<InflightNode>, last: Report)
    ensures DistinctNames(a + NodesOf(last)) <==>
      DistinctNames(a) && forall n, m :: n in a && m in NodesOf(last) ==> n.name != m.name
  {
    var b := NodesOf(last);
    var all := a + b;
    forall i, j | 0 <= i < j < |b| ensures b[i].name != b[j].name {
      if b[i].name == b[j].name {
        PendingNameInjective(last.group, i, last.group, j);
      }
    }
    if DistinctNames(all) {
      assert forall i :: 0 <= i < |a| ==> all[i] == a[i];
      forall n, m | n in a && m in b ensures n.name != m.name {
        var i :| 0 <= i < |a| && a[i] == n;
        var j :| 0 <= j < |b| && b[j] == m;
        assert all[i] == n && all[|a| + j] == m;
      }
    }
    if DistinctNames(a) && forall n, m :: n in a && m in b ==> n.name != m.name {
      forall i, j | 0 <= i < j < |all| ensures all[i].name != all[j].name {
        if i >= |a| {
          assert b[i - |a|].name != b[j - |a|].name;
        } else if j >= |a| {
          assert a[i] in a && b[j - |a|] in b;
        }
      }
    }
  }

  predicate Reported(init: seq<Report>, last: Report) {
    exists k :: 0 <= k < |init| && init[k].pending > 0 && last.pending > 0 && init[k].group == last.group
  }

  lemma SameGroupClashes(init: seq<Report>, last: Report)
    requires Reported(init, last)
    ensures exists n, m :: n in AllNodes(init) && m in NodesOf(last) && n.name == m.name
  {
    var k :| 0 <= k < |init| && init[k].pending > 0 && last.pending > 0 && init[k].group == last.group;
    var n := PendingNode(init[k].group, 0);
    AllNodesNames(init, n);
    assert NodesOf(last)[0] == n;
    assert n in AllNodes(init) && n in NodesOf(last);
  }

  lemma OtherGroupsDoNot(init: seq<Report>, last: Report, n: InflightNode, m: InflightNode)
    requires n in AllNodes(init) && m in NodesOf(last) && n.name == m.name
    ensures Reported(init, last)
  {
    AllNodesNames(init, n);
    var k, i: int :| 0 <= k < |init| && 0 <= i < init[k].pending && n == PendingNode(init[k].group, i);
    var j :| 0 <= j < |NodesOf(last)| && NodesOf(last)[j] == m;
    PendingNameInjective(init[k].group, i, last.group, j);
  }

  lemma ClashIff(init: seq<Report>, last: Report)
    ensures (forall n, m :: n in AllNodes(init) && m in NodesOf(last) ==> n.name != m.name) <==> !Reported(init, last)
  {
    if Reported(init, last) {
      SameGroupClashes(init, last);
    }
    forall n, m | n in AllNodes(init) && m in NodesOf(last) && n.name == m.name ensures Reported(init, last) {
      OtherGroupsDoNot(init, last, n, m);
    }
  }

  /** Any status text: the parse yields the sum of max(0, target - ready) nodes over its reports,
      and their names are distinct exactly when no group reports pending nodes twice. */
  lemma ParseCounts(status: string)
    ensures var reports := ReportsIn(status);
      && |AllNodes(reports)| == TotalPending(reports)
      && (DistinctNames(AllNodes(reports)) <==> DistinctGroups(reports))
  {
    var reports := ReportsIn(status);
    AllNodesCount(reports);
    DistinctIff(reports);
  }
}

/** The status text the Cluster Autoscaler writes, and the parser as its inverse. */
module StatusFormat {
  import opened Quantities
  import opened Objects
  import opened Text
  import opened AutoscalerStatus

  datatype Group = Group(name: string, ready: nat, target: nat)

  const NAME := "Name: "
  const READY := "Health: ready="
  const TARGET := "cloudProviderTarget="

  function ReadyPart(g: Group): string {
    READY + Decimal(g.ready)
  }

  function TargetPart(g: Group): string {
    TARGET + Decimal(g.target)
  }

  function HealthLine(g: Group): string {
    ReadyPart(g) + [','] + ([' '] + TargetPart(g))
  }

  /** Two lines per group, indented by `pad`. */
  function RenderGroup(g: Group, pad: string, rest: string): string {
    pad + NAME + g.name + ['\n'] + (pad + HealthLine(g) + ['\n'] + rest)
  }

  function Render(groups: seq<Group>, pad: string): string {
    if groups == [] then "" else RenderGroup(groups[0], pad, Render(groups[1..], pad))
  }

  predicate Trimmed(s: string) {
    s != "" && !IsSpace(s[0]) && !IsSpace(s[|s| - 1])
  }

  predicate Blank(pad: string) {
    forall i :: 0 <= i < |pad| ==> IsSpace(pad[i]) && pad[i] != '\n'
  }

  predicate WellFormed(g: Group) {
    Trimmed(g.name) && '\n' !in g.name && g.ready <= MAX_INT64 && g.target <= MAX_INT64
  }

  function Expected(groups: seq<Group>): seq<Report> {
    seq(|groups|, i requires 0 <= i < |groups| => Report(groups[i].name, groups[i].target - groups[i].ready))
  }

  lemma {:induction false} SplitNonEmpty(s: string, sep: char)
    ensures |Split(s, sep)| > 0
  {
    if s != "" {
      SplitNonEmpty(s[1..], sep);
    }
  }

  lemma {:induction false} SplitJoin(x: string, sep: char, y: string)
    ensures Split(x + [sep] + y, sep) == Split(x, sep) + Split(y, sep)
  {
    var all := x + [sep] + y;
    if x == "" {
      assert all[0] == sep && all[1..] == y;
      assert Split(x, sep) == [""];
    } else {
      assert all[0] == x[0] && all[1..] == x[1..] + [sep] + y;
      SplitJoin(x[1..], sep, y);
      SplitNonEmpty(x[1..], sep);
    }
  }

  lemma {:induction false} SplitNone(x: string, sep: char)
    requires sep !in x
    ensures Split(x, sep) == [x]
  {
    if x != "" {
      SplitNone(x[1..], sep);
      assert [x[0]] + x[1..] == x;
      assert x[0] in x;
    }
  }

  lemma {:induction false} TrimPad(pad: string, x: string)
    requires Blank(pad) && Trimmed(x)
    ensures TrimSpace(pad + x) == x
  {
    if pad == "" {
      assert pad + x == x;
    } else {
      assert (pad + x)[1..] == pad[1..] + x;
      TrimPad(pad[1..], x);
      assert TrimLeft(pad + x) == TrimLeft(pad[1..] + x);
    }
  }

  lemma {:induction false} IndexAt(a: string, sub: string, rest: string)
    requires sub != "" && sub[0] !in a
    ensures Index(a + sub + rest, sub) == |a|
  {
    var s := a + sub + rest;
    if a == "" {
      assert s[..|sub|] == sub;
    } else {
      assert s[0] == a[0] && a[0] in a;
      assert s[1..] == a[1..] + sub + rest;
      IndexAt(a[1..], sub, rest);
    }
  }

  lemma {:induction false} NotContained(s: string, sub: string, k: nat)
    requires k < |sub| && sub[k] !in s
    ensures Index(s, sub) == -1
  {
    if sub <= s {
      PrefixMember(s, sub, k);
      assert false;
    } else if s != "" {
      NotContained(s[1..], sub, k);
    }
  }

  lemma PrefixMember(s: string, sub: string, k: nat)
    requires sub <= s && k < |sub|
    ensures sub[k] in s
  {
    assert s[k] == sub[k];
  }

  lemma DecimalTrimmed(n: nat)
    ensures Trimmed(Decimal(n)) && TrimSpace(Decimal(n)) == Decimal(n)
  {
    var d := Decimal(n);
    assert IsDigit(d[0]) && IsDigit(d[|d| - 1]);
    TrimPad("", d);
    assert "" + d == d;
  }

  lemma DigitsLack(n: nat, c: char)
    requires !IsDigit(c)
    ensures c !in Decimal(n)
  {
  }

  lemma ReadyPartTrimmed(g: Group)
    ensures TrimSpace(ReadyPart(g)) == ReadyPart(g)
  {
    var p, d := ReadyPart(g), Decimal(g.ready);
    DecimalTrimmed(g.ready);
    assert p[0] == 'H' && p[|p| - 1] == d[|d| - 1];
    TrimPad("", p);
    assert "" + p == p;
  }

  lemma ReadyPartValue(g: Group)
    ensures Contains(ReadyPart(g), "ready=") && ExtractValue(ReadyPart(g), "ready=") == Decimal(g.ready)
  {
    var p, d := ReadyPart(g), Decimal(g.ready);
    var head, sub := READY[..8], READY[8..];
    assert sub == "ready=";
    assert p == head + sub + d;
    IndexAt(head, sub, d);
    assert p[8 + |sub|..] == d;
    DecimalTrimmed(g.ready);
  }

  lemma ReadyPartLacksTarget(g: Group)
    ensures !Contains(ReadyPart(g), "cloudProviderTarget=")
  {
    DigitsLack(g.ready, 'c');
    assert 'c' !in READY;
    NotContained(ReadyPart(g), "cloudProviderTarget=", 0);
  }

  lemma TargetPartParses(g: Group)
    requires WellFormed(g)
    ensures TrimSpace([' '] + TargetPart(g)) == TargetPart(g)
    ensures !Contains(TargetPart(g), "ready=")
    ensures Contains(TargetPart(g), "cloudProviderTarget=")
    ensures ParseInt(ExtractValue(TargetPart(g), "cloudProviderTarget=")).0 == g.target
  {
    var p, d := TargetPart(g), Decimal(g.target);
    DecimalTrimmed(g.target);
    assert p[0] == 'c' && p[|p| - 1] == d[|d| - 1];
    TrimPad([' '], p);
    DigitsLack(g.target, 'y');
    assert 'y' !in TARGET;
    assert "ready="[4] == 'y';
    NotContained(p, "ready=", 4);
    IndexAt("", TARGET, d);
    assert "" + TARGET + d == p;
    assert p[|TARGET|..] == d;
    ParseDecimal(g.target);
  }

  lemma HealthLineSplits(g: Group)
    ensures Split(HealthLine(g), ',') == [ReadyPart(g), [' '] + TargetPart(g)]
  {
    var a, b := ReadyPart(g), [' '] + TargetPart(g);
    DigitsLack(g.ready, ',');
    DigitsLack(g.target, ',');
    assert ',' !in READY && ',' !in TARGET;
    SplitNone(a, ',');
    SplitNone(b, ',');
    SplitJoin(a, ',', b);
  }

  lemma SecondPart(g: Group, ready: int)
    requires WellFormed(g)
    ensures HealthFrom([[' '] + TargetPart(g)], ready, 0) == (ready, g.target)
  {
    TargetPartParses(g);
    assert [[' '] + TargetPart(g)][1..] == [];
  }

  lemma FirstPart(g: Group, b: string)
    requires WellFormed(g)
    ensures HealthFrom([ReadyPart(g), b], 0, 0) == HealthFrom([b], g.ready, 0)
  {
    ReadyPartTrimmed(g);
    ReadyPartValue(g);
    ReadyPartLacksTarget(g);
    ParseDecimal(g.ready);
    assert [ReadyPart(g), b][1..] == [b];
  }

  lemma HealthLineParses(g: Group)
    requires WellFormed(g)
    ensures PendingIn(HealthLine(g)) == g.target - g.ready
  {
    HealthLineSplits(g);
    FirstPart(g, [' '] + TargetPart(g));
    SecondPart(g, g.ready);
  }

  lemma HealthLineShape(g: Group)
    ensures Trimmed(HealthLine(g)) && "Health:" <= HealthLine(g) && !("Name:" <= HealthLine(g))
    ensures '\n' !in HealthLine(g)
  {
    var l, d := HealthLine(g), Decimal(g.target);
    DecimalTrimmed(g.target);
    assert l[0] == 'H';
    assert l[|l| - 1] == d[|d| - 1];
    assert l[..7] == READY[..7] == "Health:";
    assert "Name:"[0] == 'N';
    DigitsLack(g.ready, '\n');
    DigitsLack(g.target, '\n');
    assert '\n' !in READY && '\n' !in TARGET;
  }

  lemma NameLineShape(name: string, pad: string)
    requires Trimmed(name) && Blank(pad)
    ensures var line := TrimSpace(pad + NAME + name);
      "Name:" <= line && TrimSpace(line[5..]) == name
  {
    var x := NAME + name;
    assert x[0] == 'N' && x[|x| - 1] == name[|name| - 1];
    assert pad + NAME + name == pad + x;
    TrimPad(pad, x);
    assert x[..5] == "Name:";
    assert x[5..] == [' '] + name;
    TrimPad([' '], name);
  }

  lemma HealthClassified(g: Group, pad: string)
    requires WellFormed(g) && Blank(pad)
    ensures Classify(pad + HealthLine(g)) == HealthOf(g.target - g.ready)
  {
    HealthLineShape(g);
    HealthLineParses(g);
    ClassifyHealth(pad, HealthLine(g));
  }

  lemma ClassifyHealth(pad: string, line: string)
    requires Blank(pad) && Trimmed(line) && "Health:" <= line && !("Name:" <= line)
    ensures Classify(pad + line) == HealthOf(PendingIn(line))
  {
    TrimPad(pad, line);
  }

  lemma NameClassified(name: string, pad: string)
    requires Trimmed(name) && Blank(pad)
    ensures Classify(pad + NAME + name) == NameOf(name)
  {
    NameLineShape(name, pad);
  }

  /** Two classified lines, whatever they look like, make one report. */
  lemma TwoLinesReport(n: string, h: string, rest: seq<string>, group: string, pending: int)
    requires Classify(n) == NameOf(group) && Classify(h) == HealthOf(pending) && group != ""
    ensures ReportsFrom([n, h] + rest, "") == [Report(group, pending)] + ReportsFrom(rest, "")
  {
    var lines := [n, h] + rest;
    assert lines[1..] == [h] + rest && ([h] + rest)[1..] == rest;
    assert ReportsFrom([h] + rest, group) == [Report(group, pending)] + ReportsFrom(rest, "");
  }

  lemma GroupReports(g: Group, pad: string, rest: seq<string>)
    requires WellFormed(g) && Blank(pad)
    ensures ReportsFrom([pad + NAME + g.name, pad + HealthLine(g)] + rest, "") ==
            [Report(g.name, g.target - g.ready)] + ReportsFrom(rest, "")
  {
    NameClassified(g.name, pad);
    HealthClassified(g, pad);
    TwoLinesReport(pad + NAME + g.name, pad + HealthLine(g), rest, g.name, g.target - g.ready);
  }

  lemma BlankLacksNewline(pad: string, x: string)
    requires Blank(pad) && '\n' !in x
    ensures '\n' !in pad + x
  {
  }

  lemma RenderSplits(g: Group, pad: string, rest: string)
    requires WellFormed(g) && Blank(pad)
    ensures Split(RenderGroup(g, pad, rest), '\n') ==
            [pad + NAME + g.name, pad + HealthLine(g)] + Split(rest, '\n')
  {
    var n, h := pad + NAME + g.name, pad + HealthLine(g);
    assert '\n' !in NAME + g.name by { assert '\n' !in NAME; }
    BlankLacksNewline(pad, NAME + g.name);
    assert n == pad + (NAME + g.name);
    HealthLineShape(g);
    BlankLacksNewline(pad, HealthLine(g));
    SplitNone(n, '\n');
    SplitNone(h, '\n');
    SplitJoin(h, '\n', rest);
    SplitJoin(n, '\n', h + ['\n'] + rest);
    assert [n] + ([h] + Split(rest, '\n')) == [n, h] + Split(rest, '\n');
  }

  /** ROUND TRIP. Every well-formed status text, indented any way, is read back as the groups it
      was written from, pending counts included. */
  lemma {:induction false} RenderParses(groups: seq<Group>, pad: string)
    requires forall g :: g in groups ==> WellFormed(g)
    requires Blank(pad)
    ensures ReportsIn(Render(groups, pad)) == Expected(groups)
  {
    if groups == [] {
      NothingReported(pad);
    } else {
      assert groups[0] in groups;
      RenderParses(groups[1..], pad);
      GroupStep(groups[0], pad, Render(groups[1..], pad));
      ExpectedCons(groups);
    }
  }

  lemma GroupStep(g: Group, pad: string, rest: string)
    requires WellFormed(g) && Blank(pad)
    ensures ReportsIn(RenderGroup(g, pad, rest)) == [Report(g.name, g.target - g.ready)] + ReportsIn(rest)
  {
    RenderSplits(g, pad, rest);
    GroupReports(g, pad, Split(rest, '\n'));
  }

  lemma NothingReported(pad: string)
    ensures ReportsIn(Render([], pad)) == []
  {
    assert Split("", '\n') == [""];
    assert TrimSpace("") == "";
    assert [""][1..] == [];
  }

  lemma ExpectedCons(groups: seq<Group>)
    requires groups != []
    ensures Expected(groups) == [Report(groups[0].name, groups[0].target - groups[0].ready)] + Expected(groups[1..])
  {
  }

  /** The node is number i of those the group still waits for. */
  predicate IsPendingOf(n: InflightNode, g: Group, i: int) {
    0 <= i < g.target - g.ready && n == InflightNode(g.name + "-pending-" + Decimal(i), map[], map[], "")
  }

  lemma PendingOfGroups(groups: seq<Group>, n: InflightNode)
    ensures n in AllNodes(Expected(groups)) <==> exists g, i: int :: g in groups && IsPendingOf(n, g, i)
  {
    var reports := Expected(groups);
    AllNodesNames(reports, n);
    if n in AllNodes(reports) {
      var k, i: int :| 0 <= k < |reports| && 0 <= i < reports[k].pending && n == PendingNode(reports[k].group, i);
      assert groups[k] in groups && IsPendingOf(n, groups[k], i);
    }
    if exists g, i: int :: g in groups && IsPendingOf(n, g, i) {
      var g, i: int :| g in groups && IsPendingOf(n, g, i);
      var k :| 0 <= k < |groups| && groups[k] == g;
      assert reports[k] == Report(g.name, g.target - g.ready);
      assert 0 <= i < reports[k].pending && n == PendingNode(reports[k].group, i);
    }
  }

  /** So the detector reports, for every group, exactly the nodes numbered below target - ready,
      none when that is not positive, and all names differ. */
  lemma DetectsPending(groups: seq<Group>, pad: string)
    requires forall g :: g in groups ==> WellFormed(g)
    requires forall i, j :: 0 <= i < j < |groups| ==> groups[i].name != groups[j].name
    requires Blank(pad)
    ensures var nodes := AllNodes(ReportsIn(Render(groups, pad)));
      && |nodes| == TotalPending(Expected(groups)) && DistinctNames(nodes)
      && forall n :: n in nodes <==> exists g, i: int :: g in groups && IsPendingOf(n, g, i)
  {
    RenderParses(groups, pad);
    AllNodesCount(Expected(groups));
    DistinctIff(Expected(groups));
    forall n
      ensures n in AllNodes(Expected(groups)) <==> exists g, i: int :: g in groups && IsPendingOf(n, g, i)
    {
      PendingOfGroups(groups, n);
    }
  }
}

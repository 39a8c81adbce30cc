/** The node ledger: existing nodes, in-flight nodes and reservations.
    Functions over `State` say what each operation means at a given width;
    the class `NodeLedger` is the mutable ledger, computing in int64. */
module Ledger {
  import opened Quantities
  import opened Scheduling

  datatype Entry = Entry(
    allocatable: Amounts,
    used: Amounts,
    reserved: Amounts,
    labels: map<string, string>,
    taints: seq<Taint>)

  datatype State = State(nodes: map<string, Entry>, inflight: map<string, Entry>)

  /** What a search answers: nothing, or a name and the side it was found on. */
  datatype Fit = NoFit | FitOn(name: string, inflight: bool)

  const EMPTY: State := State(map[], map[])

  function FreshEntry(allocatable: Amounts, labels: map<string, string>, taints: seq<Taint>): Entry {
    Entry(allocatable, map[], map[], labels, taints)
  }

  function Available(w: Width, e: Entry, r: string): int {
    Sub(w, Sub(w, Get(e.allocatable, r), Get(e.used, r)), Get(e.reserved, r))
  }

  predicate Fits(w: Width, e: Entry, demand: Amounts) {
    forall r :: r in demand ==> Available(w, e, r) >= demand[r]
  }

  predicate Matches(e: Entry, c: Option<Constraints>) {
    c.Some? ==>
      && ToleratesAll(c.value.tolerations, e.taints)
      && SelectorMatches(c.value.nodeSelector, e.labels)
  }

  /** What would be left of each demanded resource. */
  function Leftovers(w: Width, e: Entry, demand: Amounts): Amounts {
    map r | r in demand :: Available(w, e, r) - demand[r]
  }

  ghost function Slack(w: Width, e: Entry, demand: Amounts): int {
    Norm(w, MapSum(Leftovers(w, e, demand)))
  }

  predicate Has(s: State, name: string, inflight: bool) {
    if inflight then name in s.inflight else name in s.nodes
  }

  function EntryAt(s: State, name: string, inflight: bool): Entry
    requires Has(s, name, inflight)
  {
    if inflight then s.inflight[name] else s.nodes[name]
  }

  /** An entry a search may choose. In int64 a slack equal to the initial
      sentinel never beats it, so such an entry is passed over. */
  ghost predicate Choosable(w: Width, e: Entry, demand: Amounts, c: Option<Constraints>) {
    && Matches(e, c)
    && Fits(w, e, demand)
    && (w.Int64? ==> Slack(w, e, demand) < MAX_INT64)
  }

  ghost predicate Candidate(w: Width, s: State, demand: Amounts, c: Option<Constraints>, name: string, inflight: bool) {
    Has(s, name, inflight) && Choosable(w, EntryAt(s, name, inflight), demand, c)
  }

  /** Tightest candidate; an in-flight one only when strictly tighter than every existing one. */
  ghost predicate IsBest(w: Width, s: State, demand: Amounts, c: Option<Constraints>, name: string, inflight: bool) {
    && Candidate(w, s, demand, c, name, inflight)
    && forall n, i :: Candidate(w, s, demand, c, n, i) ==>
      var mine := Slack(w, EntryAt(s, name, inflight), demand);
      var other := Slack(w, EntryAt(s, n, i), demand);
      mine <= other && (inflight && !i ==> mine < other)
  }

  /** The answers FindFit may give, over every iteration order of the two maps. */
  ghost predicate FindFitAnswers(w: Width, s: State, demand: Amounts, c: Option<Constraints>, fit: Fit) {
    match fit
    case FitOn(name, inflight) => name != "" && IsBest(w, s, demand, c, name, inflight)
    case NoFit =>
      || (forall n, i :: !Candidate(w, s, demand, c, n, i))
      || (exists i :: IsBest(w, s, demand, c, "", i))
  }

  /** An answer names an entry that may take the pod. */
  lemma AnswerAdmits(w: Width, s: State, demand: Amounts, c: Option<Constraints>, fit: Fit)
    requires FindFitAnswers(w, s, demand, c, fit) && fit.FitOn?
    ensures fit.name != "" && Has(s, fit.name, fit.inflight)
    ensures var e := EntryAt(s, fit.name, fit.inflight); c.Some? ==> Admits(e.labels, e.taints, c.value)
  {
    if c.Some? {
      var e := EntryAt(s, fit.name, fit.inflight);
      ChecksAdmit(e.labels, e.taints, c.value);
    }
  }

  /** FindFitExisting is FindFit on the existing nodes alone. */
  function ExistingOnly(s: State): State {
    State(s.nodes, map[])
  }

  predicate HasEntry(s: State, name: string) {
    name in s.nodes || name in s.inflight
  }

  /** Existing nodes hide in-flight ones of the same name. */
  function FindEntry(s: State, name: string): Entry
    requires HasEntry(s, name)
  {
    if name in s.nodes then s.nodes[name] else s.inflight[name]
  }

  function SetEntry(s: State, name: string, e: Entry): State {
    if name in s.nodes then s.(nodes := s.nodes[name := e])
    else s.(inflight := s.inflight[name := e])
  }

  predicate CanReserve(w: Width, s: State, name: string, demand: Amounts) {
    HasEntry(s, name) && Fits(w, FindEntry(s, name), demand)
  }

  function AddReservation(w: Width, e: Entry, demand: Amounts): Entry {
    e.(reserved := Plus(w, e.reserved, demand))
  }

  function Reserved(w: Width, s: State, name: string, demand: Amounts): State
    requires HasEntry(s, name)
  {
    SetEntry(s, name, AddReservation(w, FindEntry(s, name), demand))
  }

  /** In-place `m[r] -= d[r]`, clamped at zero, for every r of d. */
  function Minus(w: Width, m: Amounts, d: Amounts): Amounts {
    map r | r in m.Keys + d.Keys ::
      if r in d then var left := Sub(w, Get(m, r), d[r]); if left < 0 then 0 else left
      else m[r]
  }

  function Freed(w: Width, s: State, name: string, demand: Amounts): State {
    if HasEntry(s, name) then
      var e := FindEntry(s, name);
      SetEntry(s, name, e.(reserved := Minus(w, e.reserved, demand)))
    else s
  }

  predicate HasPrefix(s: string, prefix: string) {
    prefix <= s
  }

  predicate HasInflightSignalIn(s: State, prefix: string) {
    exists k :: k in s.inflight && HasPrefix(k, prefix) && s.inflight[k].allocatable == map[]
  }

  function WithoutPrefix(m: map<string, Entry>, prefix: string): map<string, Entry> {
    map k | k in m && !HasPrefix(k, prefix) :: m[k]
  }

  function SnapshotMap(m: map<string, Entry>): map<string, Amounts> {
    map k | k in m && m[k].reserved != map[] :: m[k].reserved
  }

  /** Non-empty reservations by name; an in-flight entry hides a node of the same name. */
  function Snapshot(s: State): map<string, Amounts> {
    SnapshotMap(s.nodes) + SnapshotMap(s.inflight)
  }

  function RestoreMap(m: map<string, Entry>, snap: map<string, Amounts>): map<string, Entry> {
    map k | k in m :: if k in snap then m[k].(reserved := snap[k]) else m[k]
  }

  function Restored(s: State, snap: map<string, Amounts>): State {
    State(RestoreMap(s.nodes, snap), RestoreMap(s.inflight, snap))
  }

  lemma SlackStep(done: Amounts, r: string, avail: int, qty: int)
    requires r !in done
    ensures Add(Int64, Wrap(MapSum(done)), Sub(Int64, avail, qty)) == Wrap(MapSum(done[r := avail - qty]))
  {
    MapSumInsert(done, r, avail - qty);
    WrapAbsorbs(MapSum(done), avail - qty);
  }

  /** One entry against a demand: the body of both search loops. */
  method CheckEntry(e: Entry, demand: Amounts, c: Option<Constraints>) returns (fits: bool, totalSlack: int)
    ensures fits == (Matches(e, c) && Fits(Int64, e, demand))
    ensures fits ==> totalSlack == Slack(Int64, e, demand)
  {
    totalSlack := 0;
    if !Matches(e, c) {
      return false, 0;
    }
    var todo := demand.Keys;
    ghost var left := Leftovers(Int64, e, demand);
    ghost var done: Amounts := map[];
    while todo != {}
      invariant todo <= demand.Keys
      invariant forall r :: r in done <==> r in demand && r !in todo
      invariant forall r :: r in done ==> done[r] == left[r]
      invariant totalSlack == Wrap(MapSum(done))
      invariant forall r :: r in demand && r !in todo ==> Available(Int64, e, r) >= demand[r]
      decreases |todo|
    {
      var r :| r in todo;
      todo := todo - {r};
      var avail := Available(Int64, e, r);
      if avail < demand[r] {
        return false, 0;
      }
      SlackStep(done, r, avail, demand[r]);
      done := done[r := avail - demand[r]];
      totalSlack := Add(Int64, totalSlack, Sub(Int64, avail, demand[r]));
    }
    assert done == left;
    fits := true;
  }

  /** `all` has been written over `before`, except for the keys still to do. */
  ghost predicate Merged<V>(snap: map<string, V>, before: map<string, V>, all: map<string, V>, todo: set<string>) {
    && (forall k :: k in snap <==> k in before || (k in all && k !in todo))
    && (forall k :: k in snap ==> snap[k] == if k in all && k !in todo then all[k] else before[k])
  }

  lemma MergedMore<V>(snap: map<string, V>, before: map<string, V>, all: map<string, V>, todo: set<string>, name: string)
    requires Merged(snap, before, all, todo) && name in todo
    ensures Merged(if name in all then snap[name := all[name]] else snap, before, all, todo - {name})
  {
  }

  lemma MergedAll<V>(snap: map<string, V>, before: map<string, V>, all: map<string, V>)
    requires Merged(snap, before, all, {})
    ensures snap == before + all
  {
  }

  /** The reservations of one entry map, added to a snapshot under construction. */
  method CollectReservations(before: map<string, Amounts>, m: map<string, Entry>) returns (snap: map<string, Amounts>)
    ensures snap == before + SnapshotMap(m)
  {
    snap := before;
    ghost var all := SnapshotMap(m);
    var todo := m.Keys;
    while todo != {}
      invariant todo <= m.Keys
      invariant Merged(snap, before, all, todo)
      decreases |todo|
    {
      var name :| name in todo;
      MergedMore(snap, before, all, todo, name);
      todo := todo - {name};
      if m[name].reserved != map[] {
        snap := snap[name := m[name].reserved];
      }
    }
    MergedAll(snap, before, all);
  }

  /** Entries absent from `m` are dropped silently. */
  method RestoreInPlace(before: map<string, Entry>, snap: map<string, Amounts>) returns (m: map<string, Entry>)
    ensures m == RestoreMap(before, snap)
  {
    m := before;
    ghost var after := RestoreMap(before, snap);
    var todo := snap.Keys;
    while todo != {}
      invariant todo <= snap.Keys
      invariant m.Keys == before.Keys
      invariant forall k :: k in m ==> m[k] == if k in todo then before[k] else after[k]
      decreases |todo|
    {
      var name :| name in todo;
      todo := todo - {name};
      if name in m {
        m := m[name := m[name].(reserved := snap[name])];
      }
    }
  }

  function Combined(f: (int, int) -> int, m: Amounts, d: Amounts): Amounts {
    map r | r in m.Keys + d.Keys :: if r in d then f(Get(m, r), d[r]) else m[r]
  }

  /** `m[r] = f(m[r], d[r])` for every r of d, in any order. */
  method CombineInPlace(f: (int, int) -> int, before: Amounts, demand: Amounts) returns (reserved: Amounts)
    ensures reserved == Combined(f, before, demand)
  {
    reserved := before;
    var todo := demand.Keys;
    while todo != {}
      invariant todo <= demand.Keys
      invariant forall r :: r in reserved <==> r in before || (r in demand && r !in todo)
      invariant forall r :: r in reserved ==>
        reserved[r] == if r in demand && r !in todo then f(Get(before, r), demand[r]) else before[r]
      decreases |todo|
    {
      var res :| res in todo;
      todo := todo - {res};
      reserved := reserved[res := f(Get(reserved, res), demand[res])];
    }
  }

  method HasRoom(n: Entry, demand: Amounts) returns (room: bool)
    ensures room == Fits(Int64, n, demand)
  {
    var todo := demand.Keys;
    while todo != {}
      invariant todo <= demand.Keys
      invariant forall r :: r in demand && r !in todo ==> Available(Int64, n, r) >= demand[r]
      decreases |todo|
    {
      var res :| res in todo;
      todo := todo - {res};
      if Available(Int64, n, res) < demand[res] {
        return false;
      }
    }
    room := true;
  }

  /** One search loop: every entry of `m`, in any order, against the best so far.
      `moved` says whether any entry of `m` took the lead. */
  method ScanEntries(m: map<string, Entry>, inflight: bool, demand: Amounts, c: Option<Constraints>,
                     name0: string, slack0: int, inflight0: bool)
    returns (bestName: string, bestSlack: int, bestInflight: bool, ghost moved: bool)
    requires inflight0 ==> inflight
    requires slack0 <= MAX_INT64
    ensures forall n :: n in m && Choosable(Int64, m[n], demand, c) ==> bestSlack <= Slack(Int64, m[n], demand)
    ensures !moved ==> bestName == name0 && bestSlack == slack0 && bestInflight == inflight0
    ensures moved ==>
      && bestSlack < slack0
      && bestInflight == inflight
      && bestName in m && Choosable(Int64, m[bestName], demand, c) && bestSlack == Slack(Int64, m[bestName], demand)
  {
    bestName, bestSlack, bestInflight, moved := name0, slack0, inflight0, false;
    ghost var rank := map n | n in m && Choosable(Int64, m[n], demand, c) :: Slack(Int64, m[n], demand);
    var todo := m.Keys;
    while todo != {}
      invariant todo <= m.Keys
      invariant forall n :: n in rank && n !in todo ==> bestSlack <= rank[n]
      invariant !moved ==> bestName == name0 && bestSlack == slack0 && bestInflight == inflight0
      invariant moved ==> bestSlack < slack0 && bestInflight == inflight && bestName in rank && bestSlack == rank[bestName]
      decreases |todo|
    {
      var name :| name in todo;
      todo := todo - {name};
      var fits, totalSlack := CheckEntry(m[name], demand, c);
      assert name in rank <==> fits && totalSlack < MAX_INT64;
      if fits && (totalSlack < bestSlack || (totalSlack == bestSlack && !inflight && bestInflight)) {
        bestName, bestSlack, bestInflight, moved := name, totalSlack, inflight, true;
      }
    }
    assert forall n :: n in m && Choosable(Int64, m[n], demand, c) ==> n in rank;
  }

  class NodeLedger {
    var nodes: map<string, Entry>
    var inflight: map<string, Entry>

    ghost function View(): State
      reads this
    {
      State(nodes, inflight)
    }

    constructor ()
      ensures View() == EMPTY
    {
      nodes, inflight := map[], map[];
    }

    method AddNode(name: string, allocatable: Amounts, labels: map<string, string>, taints: seq<Taint>)
      modifies this
      ensures View() == old(View()).(nodes := old(nodes)[name := FreshEntry(allocatable, labels, taints)])
    {
      nodes := nodes[name := FreshEntry(allocatable, labels, taints)];
    }

    method AddInflightNode(name: string, allocatable: Amounts, labels: map<string, string>, taints: seq<Taint>)
      modifies this
      ensures View() == old(View()).(inflight := old(inflight)[name := FreshEntry(allocatable, labels, taints)])
    {
      inflight := inflight[name := FreshEntry(allocatable, labels, taints)];
    }

    method ClearNodes()
      modifies this
      ensures View() == old(View()).(nodes := map[])
    {
      nodes := map[];
    }

    method RemoveInflightNode(name: string)
      modifies this
      ensures View() == old(View()).(inflight := old(inflight) - {name})
    {
      inflight := inflight - {name};
    }

    method ClearInflightByPrefix(prefix: string)
      modifies this
      ensures View() == old(View()).(inflight := WithoutPrefix(old(inflight), prefix))
    {
      var todo := inflight.Keys;
      while todo != {}
        invariant nodes == old(nodes)
        invariant todo <= old(inflight).Keys
        invariant inflight == map k | k in old(inflight) && (k in todo || !HasPrefix(k, prefix)) :: old(inflight)[k]
        decreases |todo|
      {
        var name :| name in todo;
        todo := todo - {name};
        if HasPrefix(name, prefix) {
          inflight := inflight - {name};
        }
      }
    }

    method UpdateUsage(name: string, used: Amounts)
      modifies this
      ensures View() == old(View()).(nodes :=
                if name in old(nodes) then old(nodes)[name := old(nodes)[name].(used := used)] else old(nodes))
    {
      if name in nodes {
        nodes := nodes[name := nodes[name].(used := used)];
      }
    }

    method SnapshotReservations() returns (snap: map<string, Amounts>)
      ensures snap == Snapshot(View())
    {
      snap := CollectReservations(map[], nodes);
      snap := CollectReservations(snap, inflight);
    }

    method RestoreReservations(snap: map<string, Amounts>)
      modifies this
      ensures View() == Restored(old(View()), snap)
    {
      nodes := RestoreInPlace(nodes, snap);
      inflight := RestoreInPlace(inflight, snap);
    }

    /** All or nothing: every resource is checked before any is taken. */
    method Reserve(nodeName: string, demand: Amounts) returns (ok: bool)
      modifies this
      ensures ok == CanReserve(Int64, old(View()), nodeName, demand)
      ensures View() == if ok then Reserved(Int64, old(View()), nodeName, demand) else old(View())
    {
      if nodeName !in nodes && nodeName !in inflight {
        return false;
      }
      var onNode := nodeName in nodes;
      var n := if onNode then nodes[nodeName] else inflight[nodeName];
      var room := HasRoom(n, demand);
      if !room {
        return false;
      }
      var reserved := CombineInPlace((x, y) => Add(Int64, x, y), n.reserved, demand);
      assert reserved == Plus(Int64, n.reserved, demand);
      n := n.(reserved := reserved);
      if onNode {
        nodes := nodes[nodeName := n];
      } else {
        inflight := inflight[nodeName := n];
      }
      ok := true;
    }

    method ReleaseReservation(nodeName: string, demand: Amounts)
      modifies this
      ensures View() == Freed(Int64, old(View()), nodeName, demand)
    {
      if nodeName !in nodes && nodeName !in inflight {
        return;
      }
      var onNode := nodeName in nodes;
      var n := if onNode then nodes[nodeName] else inflight[nodeName];
      var reserved := CombineInPlace(
        (x, y) => var left := Sub(Int64, x, y); if left < 0 then 0 else left, n.reserved, demand);
      assert reserved == Minus(Int64, n.reserved, demand);
      n := n.(reserved := reserved);
      if onNode {
        nodes := nodes[nodeName := n];
      } else {
        inflight := inflight[nodeName := n];
      }
    }

    method FindFit(demand: Amounts, c: Option<Constraints>) returns (fit: Fit)
      ensures FindFitAnswers(Int64, View(), demand, c, fit)
      ensures fit.FitOn? ==> Has(View(), fit.name, fit.inflight)
      ensures fit.FitOn? && c.Some? ==>
        var e := EntryAt(View(), fit.name, fit.inflight); Admits(e.labels, e.taints, c.value)
    {
      var name, slack, inf, movedN := ScanEntries(nodes, false, demand, c, "", MAX_INT64, false);
      ghost var nodeSlack := slack;
      var bestName, bestSlack, bestInflight, movedF := ScanEntries(inflight, true, demand, c, name, slack, inf);
      if movedN || movedF {
        assert IsBest(Int64, View(), demand, c, bestName, bestInflight);
      }
      fit := if bestName == "" then NoFit else FitOn(bestName, bestInflight);
      if fit.FitOn? {
        AnswerAdmits(Int64, View(), demand, c, fit);
      }
    }

    method FindFitExisting(demand: Amounts, c: Option<Constraints>) returns (fit: Fit)
      ensures FindFitAnswers(Int64, ExistingOnly(View()), demand, c, fit)
      ensures fit.FitOn? ==> !fit.inflight && fit.name in nodes
      ensures fit.FitOn? && c.Some? ==> Admits(nodes[fit.name].labels, nodes[fit.name].taints, c.value)
    {
      var bestName, bestSlack, _, moved := ScanEntries(nodes, false, demand, c, "", MAX_INT64, false);
      if moved {
        assert IsBest(Int64, ExistingOnly(View()), demand, c, bestName, false);
      }
      fit := if bestName == "" then NoFit else FitOn(bestName, false);
      if fit.FitOn? {
        AnswerAdmits(Int64, ExistingOnly(View()), demand, c, fit);
      }
    }

    method HasInflightSignal(prefix: string) returns (signal: bool)
      ensures signal == HasInflightSignalIn(View(), prefix)
    {
      var todo := inflight.Keys;
      while todo != {}
        invariant todo <= inflight.Keys
        invariant forall k :: k in inflight && k !in todo && HasPrefix(k, prefix) ==> inflight[k].allocatable != map[]
        decreases |todo|
      {
        var name :| name in todo;
        todo := todo - {name};
        if HasPrefix(name, prefix) && inflight[name].allocatable == map[] {
          return true;
        }
      }
      signal := false;
    }
  }
}

/** The search as the two loops it is, over maps visited in some order; the answers the search
    relation admits are exactly those some order gives. */
module SearchOrder {
  import opened Quantities
  import opened Scheduling
  import opened Ledger
  import opened RuleLoop

  /** The best entry so far. None stands for the initial sentinel. */
  datatype Lead = NoLead | Lead(name: string, slack: int, inflight: bool)

  /** The test that moves the lead: strictly tighter, or an existing node tying with an in-flight
      one. In int64 the first entry must beat MaxInt64. */
  predicate Beats(w: Width, slack: int, inflight: bool, lead: Lead) {
    match lead
    case NoLead => w.Int64? ==> slack < MAX_INT64
    case Lead(_, best, bestInflight) => slack < best || (slack == best && !inflight && bestInflight)
  }

  /** One call of the loop body. */
  ghost function Visit(w: Width, e: Entry, name: string, inflight: bool, demand: Amounts, c: Option<Constraints>, lead: Lead): Lead {
    if Matches(e, c) && Fits(w, e, demand) && Beats(w, Slack(w, e, demand), inflight, lead)
    then Lead(name, Slack(w, e, demand), inflight) else lead
  }

  /** One loop, over the keys of a map in the given order. */
  ghost function Scan(w: Width, m: map<string, Entry>, inflight: bool, demand: Amounts, c: Option<Constraints>,
                      order: seq<string>, lead: Lead): Lead
    requires forall k :: k in order ==> k in m
  {
    if order == [] then lead
    else Scan(w, m, inflight, demand, c, order[1..], Visit(w, m[order[0]], order[0], inflight, demand, c, lead))
  }

  /** Every key once, in some order. */
  ghost predicate Orders(order: seq<string>, m: map<string, Entry>) {
    && (forall k :: k in order <==> k in m)
    && forall i, j :: 0 <= i < j < |order| ==> order[i] != order[j]
  }

  /** The answer for the last lead; an empty best name reads as failure. */
  function FitOf(lead: Lead): Fit {
    if lead.NoLead? || lead.name == "" then NoFit else FitOn(lead.name, lead.inflight)
  }

  /** FindFit with the orders in which its two loops visit their maps. */
  ghost function FindFitInOrder(w: Width, s: State, demand: Amounts, c: Option<Constraints>,
                                nodeOrder: seq<string>, inflightOrder: seq<string>): Fit
    requires Orders(nodeOrder, s.nodes) && Orders(inflightOrder, s.inflight)
  {
    FitOf(Scan(w, s.inflight, true, demand, c, inflightOrder, Scan(w, s.nodes, false, demand, c, nodeOrder, NoLead)))
  }

  /** No entry of the map moves the lead. */
  ghost predicate Unbeaten(w: Width, m: map<string, Entry>, inflight: bool, demand: Amounts, c: Option<Constraints>, lead: Lead) {
    forall k :: k in m && Choosable(w, m[k], demand, c) ==> !Beats(w, Slack(w, m[k], demand), inflight, lead)
  }

  lemma VisitChoosable(w: Width, e: Entry, name: string, inflight: bool, demand: Amounts, c: Option<Constraints>, lead: Lead)
    requires lead.Lead? && w.Int64? ==> lead.slack < MAX_INT64
    ensures Visit(w, e, name, inflight, demand, c, lead) != lead ==> Choosable(w, e, demand, c)
    ensures Choosable(w, e, demand, c) && Beats(w, Slack(w, e, demand), inflight, lead) ==>
            Visit(w, e, name, inflight, demand, c, lead) == Lead(name, Slack(w, e, demand), inflight)
  {
  }

  lemma {:induction false} UnbeatenStays(w: Width, m: map<string, Entry>, inflight: bool, demand: Amounts, c: Option<Constraints>,
                                         order: seq<string>, lead: Lead)
    requires forall k :: k in order ==> k in m
    requires lead.Lead? && w.Int64? ==> lead.slack < MAX_INT64
    requires Unbeaten(w, m, inflight, demand, c, lead)
    ensures Scan(w, m, inflight, demand, c, order, lead) == lead
    decreases |order|
  {
    if order != [] {
      assert order[0] in order;
      VisitChoosable(w, m[order[0]], order[0], inflight, demand, c, lead);
      UnbeatenStays(w, m, inflight, demand, c, order[1..], lead);
    }
  }

  /** The lead is a choosable entry of the map under its own slack. */
  ghost predicate IsEntry(w: Width, m: map<string, Entry>, inflight: bool, demand: Amounts, c: Option<Constraints>, lead: Lead) {
    && lead.Lead? && lead.inflight == inflight && lead.name in m
    && Choosable(w, m[lead.name], demand, c) && lead.slack == Slack(w, m[lead.name], demand)
  }

  /** At least as good a lead: never a larger slack, and an existing node is not given up for a tie. */
  predicate NoWorse(lead: Lead, before: Lead) {
    before.Lead? ==> lead.Lead? && lead.slack <= before.slack && (lead.slack == before.slack && lead.inflight ==> before.inflight)
  }

  /** After a loop the lead is the earlier one or an entry of the map, and no visited entry beats it. */
  lemma {:induction false} ScanLeads(w: Width, m: map<string, Entry>, inflight: bool, demand: Amounts, c: Option<Constraints>,
                                     order: seq<string>, lead: Lead)
    requires forall k :: k in order ==> k in m
    requires lead.Lead? ==> (w.Int64? ==> lead.slack < MAX_INT64) && (lead.inflight ==> inflight)
    ensures var last := Scan(w, m, inflight, demand, c, order, lead);
      && (last == lead || IsEntry(w, m, inflight, demand, c, last))
      && NoWorse(last, lead)
      && forall k :: k in order && Choosable(w, m[k], demand, c) ==> !Beats(w, Slack(w, m[k], demand), inflight, last)
    decreases |order|
  {
    if order != [] {
      var k := order[0];
      assert k in order;
      var next := Visit(w, m[k], k, inflight, demand, c, lead);
      VisitChoosable(w, m[k], k, inflight, demand, c, lead);
      ScanLeads(w, m, inflight, demand, c, order[1..], next);
      var last := Scan(w, m, inflight, demand, c, order[1..], next);
      forall j | j in order && Choosable(w, m[j], demand, c) ensures !Beats(w, Slack(w, m[j], demand), inflight, last) {
        if j !in order[1..] {
          assert j == k;
        }
      }
    }
  }

  /** A whole loop: no entry of the map beats its lead. */
  lemma LoopLeads(w: Width, m: map<string, Entry>, inflight: bool, demand: Amounts, c: Option<Constraints>,
                  order: seq<string>, lead: Lead)
    requires Orders(order, m)
    requires lead.Lead? ==> (w.Int64? ==> lead.slack < MAX_INT64) && (lead.inflight ==> inflight)
    ensures var last := Scan(w, m, inflight, demand, c, order, lead);
      && (last == lead || IsEntry(w, m, inflight, demand, c, last))
      && NoWorse(last, lead)
      && Unbeaten(w, m, inflight, demand, c, last)
  {
    ScanLeads(w, m, inflight, demand, c, order, lead);
  }

  lemma {:induction false} SomeOrder(m: map<string, Entry>) returns (order: seq<string>)
    ensures Orders(order, m)
    decreases |m|, 1
  {
    order := [];
    if m != map[] {
      var k :| k in m;
      order := OrderFrom(m, k);
    }
  }

  lemma OrderFrom(m: map<string, Entry>, k: string) returns (order: seq<string>)
    requires k in m
    ensures Orders(order, m) && order[0] == k
    decreases |m|, 0
  {
    assert |m - {k}| < |m| by { assert (m - {k}).Keys == m.Keys - {k}; }
    var rest := SomeOrder(m - {k});
    order := [k] + rest;
    assert k !in rest;
    assert forall j :: 0 < j < |order| ==> order[j] == rest[j - 1] && order[j] in rest;
  }

  lemma BestLead(w: Width, s: State, demand: Amounts, c: Option<Constraints>, name: string, inflight: bool, lead: Lead)
    requires IsBest(w, s, demand, c, name, inflight)
    requires lead == Lead(name, Slack(w, EntryAt(s, name, inflight), demand), inflight)
    ensures Unbeaten(w, s.inflight, true, demand, c, lead)
    ensures Unbeaten(w, s.nodes, false, demand, c, lead)
  {
    forall k | k in s.inflight && Choosable(w, s.inflight[k], demand, c)
      ensures !Beats(w, Slack(w, s.inflight[k], demand), true, lead)
    {
      assert Candidate(w, s, demand, c, k, true);
    }
    forall k | k in s.nodes && Choosable(w, s.nodes[k], demand, c)
      ensures !Beats(w, Slack(w, s.nodes[k], demand), false, lead)
    {
      assert Candidate(w, s, demand, c, k, false);
    }
  }

  /** A best existing node is found by visiting it first. */
  lemma NodeAttained(w: Width, s: State, demand: Amounts, c: Option<Constraints>, name: string)
    returns (nodeOrder: seq<string>, inflightOrder: seq<string>)
    requires name != "" && IsBest(w, s, demand, c, name, false)
    ensures Orders(nodeOrder, s.nodes) && Orders(inflightOrder, s.inflight)
    ensures FindFitInOrder(w, s, demand, c, nodeOrder, inflightOrder) == FitOn(name, false)
  {
    nodeOrder := OrderFrom(s.nodes, name);
    inflightOrder := SomeOrder(s.inflight);
    var lead := Lead(name, Slack(w, s.nodes[name], demand), false);
    VisitChoosable(w, s.nodes[name], name, false, demand, c, NoLead);
    BestLead(w, s, demand, c, name, false, lead);
    UnbeatenStays(w, s.nodes, false, demand, c, nodeOrder[1..], lead);
    UnbeatenStays(w, s.inflight, true, demand, c, inflightOrder, lead);
  }

  /** A best in-flight entry is strictly tighter than whatever the first loop left, so visiting it first
      in the second loop finds it. */
  lemma InflightAttained(w: Width, s: State, demand: Amounts, c: Option<Constraints>, name: string)
    returns (nodeOrder: seq<string>, inflightOrder: seq<string>)
    requires name != "" && IsBest(w, s, demand, c, name, true)
    ensures Orders(nodeOrder, s.nodes) && Orders(inflightOrder, s.inflight)
    ensures FindFitInOrder(w, s, demand, c, nodeOrder, inflightOrder) == FitOn(name, true)
  {
    nodeOrder := SomeOrder(s.nodes);
    inflightOrder := OrderFrom(s.inflight, name);
    var before := Scan(w, s.nodes, false, demand, c, nodeOrder, NoLead);
    ScanLeads(w, s.nodes, false, demand, c, nodeOrder, NoLead);
    var lead := Lead(name, Slack(w, s.inflight[name], demand), true);
    if before.Lead? {
      assert Candidate(w, s, demand, c, before.name, false);
    }
    assert Candidate(w, s, demand, c, name, true);
    VisitChoosable(w, s.inflight[name], name, true, demand, c, before);
    BestLead(w, s, demand, c, name, true, lead);
    UnbeatenStays(w, s.inflight, true, demand, c, inflightOrder[1..], lead);
  }

  lemma NoneAttained(w: Width, s: State, demand: Amounts, c: Option<Constraints>)
    returns (nodeOrder: seq<string>, inflightOrder: seq<string>)
    requires forall n, i :: !Candidate(w, s, demand, c, n, i)
    ensures Orders(nodeOrder, s.nodes) && Orders(inflightOrder, s.inflight)
    ensures FindFitInOrder(w, s, demand, c, nodeOrder, inflightOrder) == NoFit
  {
    nodeOrder := SomeOrder(s.nodes);
    inflightOrder := SomeOrder(s.inflight);
    forall k | k in s.nodes ensures !Choosable(w, s.nodes[k], demand, c) {
      assert !Candidate(w, s, demand, c, k, false);
    }
    forall k | k in s.inflight ensures !Choosable(w, s.inflight[k], demand, c) {
      assert !Candidate(w, s, demand, c, k, true);
    }
    UnbeatenStays(w, s.nodes, false, demand, c, nodeOrder, NoLead);
    UnbeatenStays(w, s.inflight, true, demand, c, inflightOrder, NoLead);
  }

  /** Whatever the orders, the answer is one the relation admits. */
  lemma OrderIsAdmitted(w: Width, s: State, demand: Amounts, c: Option<Constraints>, nodeOrder: seq<string>, inflightOrder: seq<string>)
    requires Orders(nodeOrder, s.nodes) && Orders(inflightOrder, s.inflight)
    ensures FindFitAnswers(w, s, demand, c, FindFitInOrder(w, s, demand, c, nodeOrder, inflightOrder))
  {
    var first := Scan(w, s.nodes, false, demand, c, nodeOrder, NoLead);
    LoopLeads(w, s.nodes, false, demand, c, nodeOrder, NoLead);
    var last := Scan(w, s.inflight, true, demand, c, inflightOrder, first);
    LoopLeads(w, s.inflight, true, demand, c, inflightOrder, first);
    LastLeadAnswers(w, s, demand, c, first, last);
  }

  lemma LastLeadAnswers(w: Width, s: State, demand: Amounts, c: Option<Constraints>, first: Lead, last: Lead)
    requires first.Lead? ==> IsEntry(w, s.nodes, false, demand, c, first)
    requires last == first || IsEntry(w, s.inflight, true, demand, c, last)
    requires NoWorse(last, first)
    requires Unbeaten(w, s.nodes, false, demand, c, first) && Unbeaten(w, s.inflight, true, demand, c, last)
    ensures FindFitAnswers(w, s, demand, c, FitOf(last))
  {
    if last.Lead? {
      LeadIsBest(w, s, demand, c, first, last);
    } else {
      NoLeadNoCandidate(w, s, demand, c);
    }
  }

  lemma NoLeadNoCandidate(w: Width, s: State, demand: Amounts, c: Option<Constraints>)
    requires Unbeaten(w, s.nodes, false, demand, c, NoLead) && Unbeaten(w, s.inflight, true, demand, c, NoLead)
    ensures forall n, i :: !Candidate(w, s, demand, c, n, i)
  {
  }

  lemma LeadIsBest(w: Width, s: State, demand: Amounts, c: Option<Constraints>, first: Lead, last: Lead)
    requires first.Lead? ==> IsEntry(w, s.nodes, false, demand, c, first)
    requires last == first || IsEntry(w, s.inflight, true, demand, c, last)
    requires last.Lead? && NoWorse(last, first)
    requires Unbeaten(w, s.nodes, false, demand, c, first) && Unbeaten(w, s.inflight, true, demand, c, last)
    ensures IsBest(w, s, demand, c, last.name, last.inflight)
  {
    assert Candidate(w, s, demand, c, last.name, last.inflight);
    forall n, i | Candidate(w, s, demand, c, n, i)
      ensures last.slack <= Slack(w, EntryAt(s, n, i), demand)
      ensures last.inflight && !i ==> last.slack < Slack(w, EntryAt(s, n, i), demand)
    {
    }
  }

  ghost predicate SomeOrderGives(w: Width, s: State, demand: Amounts, c: Option<Constraints>, fit: Fit) {
    exists nodeOrder, inflightOrder ::
      && Orders(nodeOrder, s.nodes) && Orders(inflightOrder, s.inflight)
      && FindFitInOrder(w, s, demand, c, nodeOrder, inflightOrder) == fit
  }

  /** Some order finds an entry exactly when it is a best fit. */
  lemma FoundInSomeOrder(w: Width, s: State, demand: Amounts, c: Option<Constraints>, name: string, inflight: bool)
    requires name != ""
    ensures SomeOrderGives(w, s, demand, c, FitOn(name, inflight)) <==> IsBest(w, s, demand, c, name, inflight)
  {
    if IsBest(w, s, demand, c, name, inflight) {
      if inflight {
        var nodeOrder, inflightOrder := InflightAttained(w, s, demand, c, name);
      } else {
        var nodeOrder, inflightOrder := NodeAttained(w, s, demand, c, name);
      }
    }
    if nodeOrder, inflightOrder :|
         && Orders(nodeOrder, s.nodes) && Orders(inflightOrder, s.inflight)
         && FindFitInOrder(w, s, demand, c, nodeOrder, inflightOrder) == FitOn(name, inflight) {
      OrderIsAdmitted(w, s, demand, c, nodeOrder, inflightOrder);
    }
  }

  /** THE SEARCH RELATION IS THE SEARCH. For non-empty names, an answer is admitted if and only if the
      loops give it under some iteration order of the two maps. */
  lemma AnswersAreOrders(w: Width, s: State, demand: Amounts, c: Option<Constraints>, fit: Fit)
    requires NamesNonEmpty(s)
    ensures FindFitAnswers(w, s, demand, c, fit) <==> SomeOrderGives(w, s, demand, c, fit)
  {
    if FindFitAnswers(w, s, demand, c, fit) {
      if fit.NoFit? {
        FoundIffFits(w, s, demand, c, fit);
        var nodeOrder, inflightOrder := NoneAttained(w, s, demand, c);
      } else {
        FoundInSomeOrder(w, s, demand, c, fit.name, fit.inflight);
      }
    }
    if nodeOrder, inflightOrder :|
         && Orders(nodeOrder, s.nodes) && Orders(inflightOrder, s.inflight)
         && FindFitInOrder(w, s, demand, c, nodeOrder, inflightOrder) == fit {
      OrderIsAdmitted(w, s, demand, c, nodeOrder, inflightOrder);
    }
  }
}

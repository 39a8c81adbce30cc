/** Rules evaluated concurrently: each ledger call is one atomic step, a search and the Reserve
    that follows it are two, and any other client may come in between. */
module Interleaving {
  import opened Quantities
  import opened Scheduling
  import opened Objects
  import opened Ledger
  import opened Rules
  import opened Rebuild
  import opened RuleLoop
  import opened Safety
  import opened Scenarios

  datatype Client =
    | Idle(rule: string, pod: Pod, profile: Profile)
    | Searched(rule: string, pod: Pod, profile: Profile, fit: Fit)
    | Done(rule: string, pod: Pod, profile: Profile, v: Verdict)

  datatype System = System(ledger: State, clients: seq<Client>)

  function ClientDemand(c: Client): Amounts {
    PodDemand(Unbounded, c.pod, c.profile)
  }

  /** The part of the ledger a client's rule searches. */
  function Searchable(c: Client, s: State): State {
    if c.rule == NODE_READY then s else ExistingOnly(s)
  }

  /** One atomic step of a client: its search, or what it does with the answer, on the ledger
      as it then is. */
  ghost predicate Moves(c: Client, s: State, c': Client, s': State) {
    match c
    case Idle(rule, pod, profile) =>
      && s' == s
      && if ClientDemand(c) == map[] then c' == Done(rule, pod, profile, Verdict(true, "", None))
         else exists fit ::
           && FindFitAnswers(Unbounded, Searchable(c, s), ClientDemand(c), ConstraintsOf(pod), fit)
           && c' == Searched(rule, pod, profile, fit)
    case Searched(rule, pod, profile, fit) =>
      && s' == Acted(c, s).0
      && c' == Done(rule, pod, profile, Acted(c, s).1)
    case Done(_, _, _, _) => false
  }

  function Acted(c: Client, s: State): (State, Verdict)
    requires c.Searched?
  {
    if c.rule == NODE_READY then NodeReadyAfter(Unbounded, s, ClientDemand(c), ProfilePrefix(c.profile), c.fit)
    else PackingAfter(Unbounded, s, ClientDemand(c), c.fit)
  }

  /** An execution: any client may move next. */
  datatype Trace = Init(first: System) | Then(prev: Trace, i: nat, now: System)

  function Now(t: Trace): System {
    if t.Init? then t.first else t.now
  }

  function FirstOf(t: Trace): System {
    if t.Init? then t.first else FirstOf(t.prev)
  }

  ghost predicate IsTrace(t: Trace) {
    match t
    case Init(sys) => forall c :: c in sys.clients ==> c.Idle?
    case Then(prev, i, now) =>
      var before := Now(prev);
      && IsTrace(prev)
      && i < |before.clients| && |now.clients| == |before.clients|
      && now.clients == before.clients[i := now.clients[i]]
      && Moves(before.clients[i], before.ledger, now.clients[i], now.ledger)
  }

  /** A step leaves the ledger alone or makes one reservation that fits at that moment. */
  lemma MoveReserves(c: Client, s: State, c': Client, s': State)
    requires Moves(c, s, c', s')
    ensures !c.Done? && c'.pod == c.pod && c'.profile == c.profile
    ensures if c'.Done? && c'.v.grant.Some? then
              CanReserve(Unbounded, s, c'.v.grant.value, ClientDemand(c)) && s' == Reserved(Unbounded, s, c'.v.grant.value, ClientDemand(c))
            else s' == s
  {
    if c.Searched? && c.fit.FitOn? && CanReserve(Unbounded, s, c.fit.name, ClientDemand(c)) {
      assert s' == s || s' == Reserved(Unbounded, s, c.fit.name, ClientDemand(c));
    }
  }

  lemma ReserveKeepsNonNegative(s: State, name: string, demand: Amounts, n: string, i: bool, r: string)
    requires CanReserve(Unbounded, s, name, demand) && Has(s, n, i)
    ensures var s' := Reserved(Unbounded, s, name, demand);
      && Has(s', n, i)
      && (Available(Unbounded, EntryAt(s, n, i), r) >= 0 ==> Available(Unbounded, EntryAt(s', n, i), r) >= 0)
  {
    if r in demand {
      assert Available(Unbounded, FindEntry(s, name), r) >= demand[r];
    }
  }

  /** INTERLEAVING SAFETY. However the calls of any number of clients interleave, no available
      amount that was non-negative becomes negative, because Reserve checks again. */
  lemma {:induction false} NeverOversubscribed(t: Trace, n: string, i: bool, r: string)
    requires IsTrace(t)
    requires Has(FirstOf(t).ledger, n, i) && Available(Unbounded, EntryAt(FirstOf(t).ledger, n, i), r) >= 0
    ensures Has(Now(t).ledger, n, i) && Available(Unbounded, EntryAt(Now(t).ledger, n, i), r) >= 0
  {
    if t.Then? {
      NeverOversubscribed(t.prev, n, i, r);
      var c, s, c', s' := Now(t.prev).clients[t.i], Now(t.prev).ledger, t.now.clients[t.i], t.now.ledger;
      MoveReserves(c, s, c', s');
      if s' != s {
        ReserveKeepsNonNegative(s, c'.v.grant.value, ClientDemand(c), n, i, r);
      }
    }
  }

  /** What finished clients hold on an entry. */
  function Claims(clients: seq<Client>, name: string, r: string): int {
    if clients == [] then 0
    else Claims(clients[..|clients| - 1], name, r) + Claim(clients[|clients| - 1], name, r)
  }

  function Claim(c: Client, name: string, r: string): int {
    if c.Done? && c.v.grant == Some(name) then Get(ClientDemand(c), r) else 0
  }

  lemma {:induction false} ClaimsUpdate(clients: seq<Client>, i: nat, c: Client, name: string, r: string)
    requires i < |clients|
    ensures Claims(clients[i := c], name, r) == Claims(clients, name, r) - Claim(clients[i], name, r) + Claim(c, name, r)
    decreases |clients|
  {
    var init := clients[..|clients| - 1];
    if i < |clients| - 1 {
      ClaimsUpdate(init, i, c, name, r);
      assert clients[i := c][..|clients| - 1] == init[i := c];
    } else {
      assert clients[i := c][..|clients| - 1] == init;
    }
  }

  lemma {:induction false} IdleClaimNothing(clients: seq<Client>, name: string, r: string)
    requires forall c :: c in clients ==> c.Idle?
    ensures Claims(clients, name, r) == 0
  {
    if clients != [] {
      IdleClaimNothing(clients[..|clients| - 1], name, r);
      assert clients[|clients| - 1] in clients;
    }
  }

  /** Reservations grow by exactly what the finished clients were granted: no update is lost,
      and no client is granted twice. */
  lemma {:induction false} ClaimsAreReserved(t: Trace, name: string, r: string)
    requires IsTrace(t) && HasEntry(FirstOf(t).ledger, name)
    ensures HasEntry(Now(t).ledger, name)
    ensures Get(FindEntry(Now(t).ledger, name).reserved, r) ==
            Get(FindEntry(FirstOf(t).ledger, name).reserved, r) + Claims(Now(t).clients, name, r)
  {
    match t
    case Init(sys) => IdleClaimNothing(sys.clients, name, r);
    case Then(prev, i, now) =>
      ClaimsAreReserved(prev, name, r);
      var c, s, c', s' := Now(prev).clients[i], Now(prev).ledger, now.clients[i], now.ledger;
      MoveReserves(c, s, c', s');
      ClaimsUpdate(Now(prev).clients, i, c', name, r);
      if c'.Done? && c'.v.grant.Some? {
        FindEntryAfterReserve(s, c'.v.grant.value, ClientDemand(c), name, r);
      }
  }

  lemma {:induction false} FrameKept(t: Trace, name: string)
    requires IsTrace(t) && HasEntry(FirstOf(t).ledger, name)
    ensures HasEntry(Now(t).ledger, name)
    ensures FindEntry(Now(t).ledger, name) ==
            FindEntry(FirstOf(t).ledger, name).(reserved := FindEntry(Now(t).ledger, name).reserved)
  {
    if t.Then? {
      FrameKept(t.prev, name);
      var c, s, c', s' := Now(t.prev).clients[t.i], Now(t.prev).ledger, t.now.clients[t.i], t.now.ledger;
      MoveReserves(c, s, c', s');
      if s' != s {
        FindEntryAfterReserve(s, c'.v.grant.value, ClientDemand(c), name, "");
      }
    }
  }

  /** Together the clients are never granted more on an entry than it had available at first. */
  lemma ClaimsFit(t: Trace, name: string, r: string)
    requires IsTrace(t) && HasEntry(FirstOf(t).ledger, name)
    requires Available(Unbounded, FindEntry(FirstOf(t).ledger, name), r) >= 0
    ensures Claims(Now(t).clients, name, r) <= Available(Unbounded, FindEntry(FirstOf(t).ledger, name), r)
  {
    ClaimsAreReserved(t, name, r);
    FrameKept(t, name);
    NeverOversubscribed(t, name, name !in FirstOf(t).ledger.nodes, r);
    SidesKept(t, name);
  }

  lemma {:induction false} SidesKept(t: Trace, name: string)
    requires IsTrace(t)
    ensures name in Now(t).ledger.nodes <==> name in FirstOf(t).ledger.nodes
  {
    if t.Then? {
      SidesKept(t.prev, name);
      MoveReserves(Now(t.prev).clients[t.i], Now(t.prev).ledger, t.now.clients[t.i], t.now.ledger);
    }
  }

  /** One more step of a trace. */
  lemma Extend(t: Trace, i: nat, c': Client, s': State) returns (t': Trace)
    requires IsTrace(t) && i < |Now(t).clients| && Moves(Now(t).clients[i], Now(t).ledger, c', s')
    ensures IsTrace(t') && FirstOf(t') == FirstOf(t)
    ensures Now(t') == System(s', Now(t).clients[i := c'])
  {
    t' := Then(t, i, System(s', Now(t).clients[i := c']));
  }

  lemma SignalStays(s: State, name: string, demand: Amounts, prefix: string)
    requires HasEntry(s, name) && HasInflightSignalIn(s, prefix)
    ensures HasInflightSignalIn(Reserved(Unbounded, s, name, demand), prefix)
  {
    var k :| k in s.inflight && HasPrefix(k, prefix) && s.inflight[k].allocatable == map[];
    assert k in Reserved(Unbounded, s, name, demand).inflight;
  }

  /** An in-flight entry that both clients' searches may answer, with room for the rival's pod but
      then none for the victim's. */
  ghost predicate Contested(s: State, victim: Client, rival: Client, name: string) {
    && HasEntry(s, name)
    && FindFitAnswers(Unbounded, Searchable(victim, s), ClientDemand(victim), ConstraintsOf(victim.pod), FitOn(name, true))
    && FindFitAnswers(Unbounded, Searchable(rival, s), ClientDemand(rival), ConstraintsOf(rival.pod), FitOn(name, true))
    && !CanReserve(Unbounded, Reserved(Unbounded, s, name, ClientDemand(rival)), name, ClientDemand(victim))
  }

  predicate PassedThrough(c: Client) {
    c.Done? && c.v.release && c.v.target == ""
  }

  /** The same client, however far it has come. */
  predicate SameClient(c: Client, c': Client) {
    c'.rule == c.rule && c'.pod == c.pod && c'.profile == c.profile
  }

  ghost predicate AnswerIn(c: Client, s: State, fit: Fit) {
    FindFitAnswers(Unbounded, Searchable(c, s), ClientDemand(c), ConstraintsOf(c.pod), fit)
  }

  /** The rival took `name`, which its search on the first ledger had answered. */
  ghost predicate Took(s: State, rival: Client, name: string, inflight: bool, now: State) {
    && HasEntry(s, name) && AnswerIn(rival, s, FitOn(name, inflight))
    && now == Reserved(Unbounded, s, name, ClientDemand(rival))
  }

  /** What every state of a two-client race keeps until the victim is done. */
  ghost predicate Racing(s: State, victim: Client, rival: Client, sys: System) {
    && |sys.clients| == 2
    && SameClient(victim, sys.clients[0]) && SameClient(rival, sys.clients[1])
    && (!sys.clients[1].Done? ==> !sys.clients[0].Done? ==> sys.ledger == s)
    && (!sys.clients[0].Done? ==> sys.ledger == s || exists m, i :: Took(s, rival, m, i, sys.ledger))
    && (!sys.clients[0].Done? && sys.clients[1].Searched? ==> AnswerIn(rival, s, sys.clients[1].fit))
    && (sys.clients[0].Searched? ==> AnswerIn(victim, s, sys.clients[0].fit) || AnswerIn(victim, sys.ledger, sys.clients[0].fit))
    && (PassedThrough(sys.clients[0]) ==> exists name :: Contested(s, victim, rival, name))
  }

  lemma OtherGrantKeepsRoom(s: State, m: string, d: Amounts, name: string, demand: Amounts)
    requires HasEntry(s, m) && m != name && CanReserve(Unbounded, s, name, demand)
    ensures CanReserve(Unbounded, Reserved(Unbounded, s, m, d), name, demand)
  {
    assert FindEntry(Reserved(Unbounded, s, m, d), name) == FindEntry(s, name);
  }

  /** An answer found on this very ledger can be reserved, whichever rule searched. */
  lemma AnswerHasRoom(c: Client, s: State, fit: Fit)
    requires WellKeyed(s) && AnswerIn(c, s, fit) && fit.FitOn?
    ensures CanReserve(Unbounded, s, fit.name, ClientDemand(c)) && Has(s, fit.name, fit.inflight)
  {
    ReserveAfterFindSucceeds(Unbounded, s, ClientDemand(c), ConstraintsOf(c.pod), fit);
  }

  lemma TookWellKeyed(s: State, rival: Client, m: string, i: bool, now: State)
    requires WellKeyed(s) && Took(s, rival, m, i, now)
    ensures WellKeyed(now)
  {
    ReservedFrame(Unbounded, s, m, ClientDemand(rival));
    FrameWellKeyed(s, now);
  }

  /** A victim whose search answered an in-flight entry loses it only to the rival's reservation. */
  lemma LostSlot(s: State, victim: Client, rival: Client, m: string, i: bool, now: State, name: string)
    requires WellKeyed(s) && Took(s, rival, m, i, now)
    requires AnswerIn(victim, s, FitOn(name, true)) && !CanReserve(Unbounded, now, name, ClientDemand(victim))
    ensures Contested(s, victim, rival, name)
  {
    AnswerHasRoom(victim, s, FitOn(name, true));
    AnswerHasRoom(rival, s, FitOn(m, i));
    if m != name {
      OtherGrantKeepsRoom(s, m, ClientDemand(rival), name, ClientDemand(victim));
    }
    assert m == name && name !in s.nodes;
  }

  /** Acting on an answer of the ledger as it is never passes the pod through while a signal lasts. */
  lemma SoundActor(c: Client, s: State)
    requires WellKeyed(s) && c.Searched? && c.rule == NODE_READY && AnswerIn(c, s, c.fit)
    requires HasInflightSignalIn(s, ProfilePrefix(c.profile))
    ensures !(Acted(c, s).1.release && Acted(c, s).1.target == "")
  {
    if c.fit.FitOn? {
      AnswerHasRoom(c, s, c.fit);
    }
  }

  lemma VictimActs(s: State, victim: Client, rival: Client, c: Client, now: State)
    requires WellKeyed(s) && victim.rule == NODE_READY && c.Searched? && SameClient(victim, c)
    requires HasInflightSignalIn(s, ProfilePrefix(victim.profile))
    requires now == s || exists m, i :: Took(s, rival, m, i, now)
    requires AnswerIn(victim, s, c.fit) || AnswerIn(victim, now, c.fit)
    requires Acted(c, now).1.release && Acted(c, now).1.target == ""
    ensures Contested(s, victim, rival, c.fit.name)
  {
    assert AnswerIn(c, s, c.fit) == AnswerIn(victim, s, c.fit) && AnswerIn(c, now, c.fit) == AnswerIn(victim, now, c.fit);
    if now == s {
      SoundActor(c, s);
    } else {
      var m, i :| Took(s, rival, m, i, now);
      TookWellKeyed(s, rival, m, i, now);
      SignalStays(s, m, ClientDemand(rival), ProfilePrefix(victim.profile));
      if AnswerIn(c, now, c.fit) {
        SoundActor(c, now);
      } else {
        LostSlot(s, victim, rival, m, i, now, c.fit.name);
      }
    }
  }

  lemma VictimMoves(s: State, victim: Client, rival: Client, before: System, now: System)
    requires WellKeyed(s) && victim.rule == NODE_READY && ClientDemand(victim) != map[]
    requires HasInflightSignalIn(s, ProfilePrefix(victim.profile))
    requires Racing(s, victim, rival, before) && |now.clients| == 2 && now.clients[1] == before.clients[1]
    requires Moves(before.clients[0], before.ledger, now.clients[0], now.ledger)
    ensures Racing(s, victim, rival, now)
  {
    if before.clients[0].Searched? {
      VictimFinishes(s, victim, rival, before, now);
    }
  }

  lemma VictimFinishes(s: State, victim: Client, rival: Client, before: System, now: System)
    requires WellKeyed(s) && victim.rule == NODE_READY
    requires HasInflightSignalIn(s, ProfilePrefix(victim.profile))
    requires Racing(s, victim, rival, before) && |now.clients| == 2 && now.clients[1] == before.clients[1]
    requires before.clients[0].Searched? && Moves(before.clients[0], before.ledger, now.clients[0], now.ledger)
    ensures Racing(s, victim, rival, now)
  {
    if PassedThrough(now.clients[0]) {
      VictimActs(s, victim, rival, before.clients[0], before.ledger);
    }
  }

  lemma RivalMoves(s: State, victim: Client, rival: Client, before: System, now: System)
    requires Racing(s, victim, rival, before) && |now.clients| == 2 && now.clients[0] == before.clients[0]
    requires Moves(before.clients[1], before.ledger, now.clients[1], now.ledger)
    ensures Racing(s, victim, rival, now)
  {
    if before.clients[1].Searched? {
      RivalFinishes(s, victim, rival, before, now);
    }
  }

  lemma RivalFinishes(s: State, victim: Client, rival: Client, before: System, now: System)
    requires Racing(s, victim, rival, before) && |now.clients| == 2 && now.clients[0] == before.clients[0]
    requires before.clients[1].Searched? && Moves(before.clients[1], before.ledger, now.clients[1], now.ledger)
    ensures Racing(s, victim, rival, now)
  {
    var c, c' := before.clients[1], now.clients[1];
    MoveReserves(c, before.ledger, c', now.ledger);
    if !before.clients[0].Done? && now.ledger != before.ledger {
      assert Took(s, rival, c.fit.name, c.fit.inflight, now.ledger);
    }
  }

  lemma RaceStep(t: Trace, s: State, victim: Client, rival: Client)
    requires IsTrace(t) && t.Then? && Racing(s, victim, rival, Now(t.prev))
    requires WellKeyed(s) && victim.rule == NODE_READY && ClientDemand(victim) != map[]
    requires HasInflightSignalIn(s, ProfilePrefix(victim.profile))
    ensures Racing(s, victim, rival, t.now)
  {
    if t.i == 0 {
      VictimMoves(s, victim, rival, Now(t.prev), t.now);
    } else {
      RivalMoves(s, victim, rival, Now(t.prev), t.now);
    }
  }

  lemma {:induction false} RaceInvariant(t: Trace, s: State, victim: Client, rival: Client)
    requires IsTrace(t) && FirstOf(t) == System(s, [victim, rival])
    requires WellKeyed(s) && victim.rule == NODE_READY && ClientDemand(victim) != map[]
    requires HasInflightSignalIn(s, ProfilePrefix(victim.profile))
    ensures Racing(s, victim, rival, Now(t))
  {
    if t.Then? {
      RaceInvariant(t.prev, s, victim, rival);
      RaceStep(t, s, victim, rival);
    } else {
      assert victim in Now(t).clients && rival in Now(t).clients;
    }
  }

  /** Both search, the rival reserves, the victim is left with nothing. */
  lemma ContestedRace(s: State, victim: Client, rival: Client, name: string) returns (t: Trace)
    requires WellKeyed(s) && victim.Idle? && rival.Idle? && victim.rule == NODE_READY && ClientDemand(victim) != map[]
    requires Contested(s, victim, rival, name)
    ensures IsTrace(t) && FirstOf(t) == System(s, [victim, rival])
    ensures |Now(t).clients| == 2 && PassedThrough(Now(t).clients[0])
  {
    var found := Searched(NODE_READY, victim.pod, victim.profile, FitOn(name, true));
    var taking := Searched(rival.rule, rival.pod, rival.profile, FitOn(name, true));
    t := Init(System(s, [victim, rival]));
    t := Extend(t, 0, found, s);
    RivalSearches(s, victim, rival, name);
    t := Extend(t, 1, taking, s);
    ReserveAfterFindSucceeds(Unbounded, s, ClientDemand(rival), ConstraintsOf(rival.pod), FitOn(name, true));
    var s1 := Reserved(Unbounded, s, name, ClientDemand(rival));
    var held := Done(rival.rule, rival.pod, rival.profile, Acted(taking, s).1);
    t := Extend(t, 1, held, s1);
    t := Extend(t, 0, Done(NODE_READY, victim.pod, victim.profile, Verdict(true, "", None)), s1);
  }

  lemma RivalSearches(s: State, victim: Client, rival: Client, name: string)
    requires WellKeyed(s) && rival.Idle? && victim.rule == NODE_READY && Contested(s, victim, rival, name)
    ensures Moves(rival, s, Searched(rival.rule, rival.pod, rival.profile, FitOn(name, true)), s)
  {
    ReserveAfterFindSucceeds(Unbounded, s, ClientDemand(victim), ConstraintsOf(victim.pod), FitOn(name, true));
    if ClientDemand(rival) == map[] {
      assert false;
    }
  }

  ghost predicate CanPassThrough(s: State, victim: Client, rival: Client) {
    exists t :: IsTrace(t) && FirstOf(t) == System(s, [victim, rival]) && |Now(t).clients| == 2 && PassedThrough(Now(t).clients[0])
  }

  /** SINGLE-FLIGHT UNDER CONCURRENCY, EXACTLY. With a node of unknown capacity pending, a client of
      WaitForNodeReady racing any other client can be released unpinned if and only if some
      in-flight entry answers both searches and has no room left for it once the other has reserved. */
  lemma RaceIff(s: State, victim: Client, rival: Client)
    requires WellKeyed(s) && victim.Idle? && rival.Idle? && victim.rule == NODE_READY && ClientDemand(victim) != map[]
    requires HasInflightSignalIn(s, ProfilePrefix(victim.profile))
    ensures CanPassThrough(s, victim, rival) <==> exists name :: Contested(s, victim, rival, name)
  {
    if t :| IsTrace(t) && FirstOf(t) == System(s, [victim, rival]) && |Now(t).clients| == 2 && PassedThrough(Now(t).clients[0]) {
      RaceInvariant(t, s, victim, rival);
    }
    if name :| Contested(s, victim, rival, name) {
      var t := ContestedRace(s, victim, rival, name);
    }
  }

  lemma OnlyFit(s: State, a: string, demand: Amounts, c: Option<Constraints>)
    requires s.nodes == map[] && a in s.inflight && a != ""
    requires Matches(s.inflight[a], c) && Fits(Unbounded, s.inflight[a], demand)
    requires forall k :: k in s.inflight && k != a ==> !Fits(Unbounded, s.inflight[k], demand)
    ensures FindFitAnswers(Unbounded, s, demand, c, FitOn(a, true))
  {
    forall n, i | Candidate(Unbounded, s, demand, c, n, i) ensures n == a && i {
    }
  }

  /** An entry offering an amount of one resource; no amount at all when nothing is known. */
  function Offer(allocatable: Amounts): Entry {
    FreshEntry(allocatable, map[], [])
  }

  lemma OfferHasOneSlot(r: string, qty: int)
    requires qty > 0
    ensures Fits(Unbounded, Offer(map[r := qty]), map[r := qty])
    ensures !Fits(Unbounded, Offer(map[]), map[r := qty])
    ensures !Fits(Unbounded, AddReservation(Unbounded, Offer(map[r := qty]), map[r := qty]), map[r := qty])
  {
    OneResourceFits(Offer(map[r := qty]), r, qty);
    OneResourceFits(Offer(map[]), r, qty);
    OneResourceFits(AddReservation(Unbounded, Offer(map[r := qty]), map[r := qty]), r, qty);
  }

  /** Such a ledger: one in-flight entry with room for exactly one pod, one of unknown capacity, and
      two replicas racing. */
  lemma LastSlot(a: string, b: string, pod: Pod, profile: Profile, r: string, qty: int) returns (s: State)
    requires HasPrefix(b, ProfilePrefix(profile)) && a != b && a != ""
    requires PodDemand(Unbounded, pod, profile) == map[r := qty] && qty > 0
    requires pod.tolerations == [] && pod.nodeSelector == map[]
    ensures HasInflightSignalIn(s, ProfilePrefix(profile)) && s.nodes == map[] && s.inflight.Keys == {a, b}
    ensures Contested(s, Idle(NODE_READY, pod, profile), Idle(NODE_READY, pod, profile), a)
  {
    var demand := PodDemand(Unbounded, pod, profile);
    s := State(map[], map[b := Offer(map[])][a := Offer(demand)]);
    assert b in s.inflight && s.inflight[b].allocatable == map[];
    OfferHasOneSlot(r, qty);
    assert Matches(Offer(demand), ConstraintsOf(pod));
    OnlyFit(s, a, demand, ConstraintsOf(pod));
    assert FindEntry(Reserved(Unbounded, s, a, demand), a) == AddReservation(Unbounded, Offer(demand), demand);
  }
}

/** How long the hold loop lasts: every repetition takes one round of what is left, on an existing
    or an in-flight node, and the first one that finds none left ends the waiting. */
module Exhaustion {
  import opened Quantities
  import opened Scheduling
  import opened Objects
  import opened Ledger
  import opened Rules
  import opened Sync
  import opened Reconcile
  import opened Rebuild
  import opened RuleLoop
  import opened HoldLoop
  import opened Searches
  import opened Scenarios

  /** How often a demand can be reserved on an entry, one reservation after the other. Some demanded
      resource is positive, so the entry runs out. */
  function Rounds(e: Entry, demand: Amounts, r: string): nat
    requires r in demand && demand[r] > 0
    decreases if Available(Unbounded, e, r) < 0 then 0 else Available(Unbounded, e, r)
  {
    if Fits(Unbounded, e, demand) then
      assert Available(Unbounded, e, r) >= demand[r];
      Rounds(AddReservation(Unbounded, e, demand), demand, r) + 1
    else 0
  }

  /** What n reservations in a row need of one resource: n times a positive amount. */
  function Needed(n: nat, qty: int): int {
    if qty > 0 then n * qty else qty
  }

  predicate Covers(e: Entry, demand: Amounts, n: nat) {
    forall q :: q in demand ==> Available(Unbounded, e, q) >= Needed(n, demand[q])
  }

  /** The rounds in closed form: the largest number of demands that every resource covers. */
  lemma {:induction false} RoundsCover(e: Entry, demand: Amounts, r: string, n: nat)
    requires r in demand && demand[r] > 0
    ensures n <= Rounds(e, demand, r) <==> n == 0 || Covers(e, demand, n)
    decreases n
  {
    if n > 0 {
      if Fits(Unbounded, e, demand) {
        RoundsCover(AddReservation(Unbounded, e, demand), demand, r, n - 1);
        CoversOneLess(e, demand, n);
      } else {
        var q :| q in demand && Available(Unbounded, e, q) < demand[q];
        assert demand[q] > 0 ==> n * demand[q] >= demand[q];
      }
    }
  }

  lemma CoversOneLess(e: Entry, demand: Amounts, n: nat)
    requires n > 0 && Fits(Unbounded, e, demand)
    ensures Covers(e, demand, n) <==> n == 1 || Covers(AddReservation(Unbounded, e, demand), demand, n - 1)
  {
    var e' := AddReservation(Unbounded, e, demand);
    forall q | q in demand
      ensures Available(Unbounded, e', q) == Available(Unbounded, e, q) - demand[q]
      ensures demand[q] > 0 ==> Needed(n, demand[q]) == Needed(n - 1, demand[q]) + demand[q]
    {
      if demand[q] > 0 {
        assert n * demand[q] == (n - 1) * demand[q] + demand[q];
      }
    }
  }

  function RoomOf(e: Entry, demand: Amounts, c: Option<Constraints>, r: string): nat
    requires r in demand && demand[r] > 0
  {
    if Matches(e, c) then Rounds(e, demand, r) else 0
  }

  function RoomMap(m: map<string, Entry>, demand: Amounts, c: Option<Constraints>, r: string): Amounts
    requires r in demand && demand[r] > 0
  {
    map k | k in m :: RoomOf(m[k], demand, c, r)
  }

  /** The rounds left over all entries of one map that meet the constraints. */
  ghost function Room(m: map<string, Entry>, demand: Amounts, c: Option<Constraints>, r: string): int
    requires r in demand && demand[r] > 0
  {
    MapSum(RoomMap(m, demand, c, r))
  }

  /** No room is left on a side exactly when it has no candidate. */
  lemma NoRoomIff(s: State, demand: Amounts, c: Option<Constraints>, r: string, i: bool)
    requires r in demand && demand[r] > 0
    ensures var m := if i then s.inflight else s.nodes;
      && Room(m, demand, c, r) >= 0
      && (Room(m, demand, c, r) == 0 <==> forall n :: !Candidate(Unbounded, s, demand, c, n, i))
  {
    var m := if i then s.inflight else s.nodes;
    var rooms := RoomMap(m, demand, c, r);
    MapSumNonNegative(rooms);
    forall k ensures k in rooms && rooms[k] != 0 <==> Candidate(Unbounded, s, demand, c, k, i) {
      if k in m {
        assert RoomOf(m[k], demand, c, r) != 0 <==> Matches(m[k], c) && Fits(Unbounded, m[k], demand);
      }
    }
  }

  /** A grant takes one round from its own entry's side. */
  lemma GrantTakesRound(m: map<string, Entry>, m': map<string, Entry>, name: string, demand: Amounts, c: Option<Constraints>, r: string)
    requires r in demand && demand[r] > 0
    requires name in m && Matches(m[name], c) && Fits(Unbounded, m[name], demand)
    requires m' == m[name := AddReservation(Unbounded, m[name], demand)]
    ensures Room(m', demand, c, r) == Room(m, demand, c, r) - 1
  {
    assert RoomOf(m'[name], demand, c, r) == RoomOf(m[name], demand, c, r) - 1;
    DropOne(RoomMap(m, demand, c, r), RoomMap(m', demand, c, r), name);
  }

  /** The rounds left on existing and on in-flight entries. */
  datatype Rooms = Rooms(nodes: int, inflight: int)

  ghost function RoomsOf(s: State, demand: Amounts, c: Option<Constraints>, r: string): Rooms
    requires r in demand && demand[r] > 0
  {
    Rooms(Room(s.nodes, demand, c, r), Room(s.inflight, demand, c, r))
  }

  /** One evaluation, from rooms `a` to rooms `a'`: a round is taken while there is any, from the side
      it is found on; with none left the ledger is untouched and only a node of unknown capacity
      still holds the pod. */
  predicate TakesRound(s: State, s': State, out: Outcome, grants: seq<string>, a: Rooms, a': Rooms, signal: bool) {
    if a.nodes + a.inflight > 0 then
      && |grants| == 1
      && (|| (out == Held(NODE_READY) && grants[0] in s.inflight && a' == a.(inflight := a.inflight - 1))
          || (out == Released("capacity", grants[0]) && grants[0] in s.nodes && a' == a.(nodes := a.nodes - 1)))
    else
      && grants == [] && s' == s && a' == a
      && out == (if signal then Held(NODE_READY) else Released("capacity", ""))
  }

  lemma EvaluationTakesRound(s: State, pod: Pod, profile: Profile, s': State, d: Decision, grants: seq<string>, r: string)
    requires WellKeyed(s) && "" !in s.nodes && profile.rules == [NODE_READY]
    requires r in PodDemand(Unbounded, pod, profile) && PodDemand(Unbounded, pod, profile)[r] > 0
    requires Decides(Unbounded, s, pod, profile, profile.rules, "", s', d, grants)
    ensures var demand, c := PodDemand(Unbounded, pod, profile), ConstraintsOf(pod);
      TakesRound(s, s', OutcomeOf(d), grants, RoomsOf(s, demand, c, r), RoomsOf(s', demand, c, r),
                 HasInflightSignalIn(s, ProfilePrefix(profile)))
  {
    var demand, c := PodDemand(Unbounded, pod, profile), ConstraintsOf(pod);
    var s1, v, rest := Unroll(Unbounded, s, pod, profile, profile.rules, "", s', d, grants);
    var fit := NodeReadyAnswer(Unbounded, s, pod, profile, s1, v);
    if fit.FitOn? {
      FoundTakesRound(s, demand, c, r, fit);
    } else {
      NotFoundNoRoom(s, demand, c, r, fit);
    }
  }

  lemma NotFoundNoRoom(s: State, demand: Amounts, c: Option<Constraints>, r: string, fit: Fit)
    requires WellKeyed(s) && "" !in s.nodes && r in demand && demand[r] > 0
    requires FindFitAnswers(Unbounded, s, demand, c, fit) && fit.NoFit?
    ensures RoomsOf(s, demand, c, r) == Rooms(0, 0)
  {
    FoundIffFits(Unbounded, s, demand, c, fit);
    NoRoomIff(s, demand, c, r, false);
    NoRoomIff(s, demand, c, r, true);
  }

  lemma FoundTakesRound(s: State, demand: Amounts, c: Option<Constraints>, r: string, fit: Fit)
    requires WellKeyed(s) && r in demand && demand[r] > 0
    requires FindFitAnswers(Unbounded, s, demand, c, fit) && fit.FitOn?
    ensures Has(s, fit.name, fit.inflight) && HasEntry(s, fit.name)
    ensures var a := RoomsOf(s, demand, c, r);
      && a.nodes + a.inflight > 0
      && RoomsOf(Reserved(Unbounded, s, fit.name, demand), demand, c, r) ==
         if fit.inflight then a.(inflight := a.inflight - 1) else a.(nodes := a.nodes - 1)
  {
    ReserveAfterFindSucceeds(Unbounded, s, demand, c, fit);
    assert Candidate(Unbounded, s, demand, c, fit.name, fit.inflight);
    NoRoomIff(s, demand, c, r, false);
    NoRoomIff(s, demand, c, r, true);
    var s' := Reserved(Unbounded, s, fit.name, demand);
    if fit.inflight {
      GrantTakesRound(s.inflight, s'.inflight, fit.name, demand, c, r);
    } else {
      GrantTakesRound(s.nodes, s'.nodes, fit.name, demand, c, r);
    }
  }

  /** Repetitions that were pinned, and repetitions that were held with a reservation. */
  function PinCount(h: Repeat): nat {
    if h.Begin? then 0 else PinCount(h.prev) + if h.grants != [] && h.out.Released? then 1 else 0
  }

  function WaitCount(h: Repeat): nat {
    if h.Begin? then 0 else WaitCount(h.prev) + if h.grants != [] && h.out.Held? then 1 else 0
  }

  /** What each repetition does: as many as there were rounds at first take one each, all later ones none. */
  predicate Exhausts(h: Repeat, before: State, first: Rooms, signal: bool) {
    h.Again? ==>
      if Times(h) <= first.nodes + first.inflight then
        && |h.grants| == 1
        && (|| (h.out == Held(NODE_READY) && h.grants[0] in before.inflight)
            || (h.out == Released("capacity", h.grants[0]) && h.grants[0] in before.nodes))
      else
        && h.grants == [] && h.after == before
        && h.out == (if signal then Held(NODE_READY) else Released("capacity", ""))
  }

  /** Rooms shrink by exactly the pods pinned and the holds made, until none is left. */
  predicate OnAccount(h: Repeat, first: Rooms, now: Rooms) {
    && now.nodes == first.nodes - PinCount(h) >= 0
    && now.inflight == first.inflight - WaitCount(h) >= 0
    && PinCount(h) + WaitCount(h) == (if Times(h) <= first.nodes + first.inflight then Times(h) else first.nodes + first.inflight)
  }

  lemma AccountStep(h: Repeat, before: State, first: Rooms, a: Rooms, a': Rooms, signal: bool)
    requires h.Again? && OnAccount(h.prev, first, a) && a'.nodes >= 0 && a'.inflight >= 0
    requires TakesRound(before, h.after, h.out, h.grants, a, a', signal)
    ensures OnAccount(h, first, a') && Exhausts(h, before, first, signal)
  {
  }

  /** The ledger the last repetition started from, after its sync. */
  function Before(h: Repeat, pod: Pod, profile: Profile, cluster: Cluster): State
    requires Listed(cluster)
  {
    if h.Begin? then Current(h, pod, profile, cluster) else Current(h.prev, pod, profile, cluster)
  }

  lemma StepTakesRound(h: Repeat, pod: Pod, profile: Profile, cluster: Cluster, r: string)
    requires h.Again? && IsRepeat(h, pod, profile, cluster) && Listed(cluster)
    requires profile.rules == [NODE_READY]
    requires r in PodDemand(Unbounded, pod, profile) && PodDemand(Unbounded, pod, profile)[r] > 0
    requires "" !in Rebuilt(Unbounded, First(h), profile, pod, cluster).nodes
    ensures var demand, c := PodDemand(Unbounded, pod, profile), ConstraintsOf(pod);
      var t := Current(h.prev, pod, profile, cluster);
      TakesRound(t, h.after, h.out, h.grants, RoomsOf(t, demand, c, r), RoomsOf(h.after, demand, c, r),
                 HasInflightSignalIn(Rebuilt(Unbounded, First(h), profile, pod, cluster), ProfilePrefix(profile)))
  {
    var t := Current(h.prev, pod, profile, cluster);
    RepeatStable(h.prev, pod, profile, cluster);
    var d := StepFromRebuilt(LedgerAfter(h.prev), h.req, h.out, h.grants, h.after);
    AlikeRebuilt(LedgerAfter(h.prev), pod, h.req.pod.value, profile, cluster);
    SignalFrame(Rebuilt(Unbounded, First(h), profile, pod, cluster), t, ProfilePrefix(profile));
    assert ConstraintsOf(pod) == ConstraintsOf(h.req.pod.value);
    EvaluationTakesRound(t, h.req.pod.value, profile, h.after, d, h.grants, r);
  }

  /** THE HOLD LOOP, EXACTLY. Under WaitForNodeReady alone, on an unchanged cluster, pods with some
      positive demand are granted a round each until the rounds of all matching entries are used up;
      from then on every one is passed through unpinned, or held if a node of unknown capacity is
      pending. Rooms shrink by exactly the pods pinned and the holds made. */
  lemma {:induction false} RoomIsExhausted(h: Repeat, pod: Pod, profile: Profile, cluster: Cluster, r: string)
    requires IsRepeat(h, pod, profile, cluster) && Listed(cluster)
    requires profile.rules == [NODE_READY]
    requires r in PodDemand(Unbounded, pod, profile) && PodDemand(Unbounded, pod, profile)[r] > 0
    requires "" !in Rebuilt(Unbounded, First(h), profile, pod, cluster).nodes
    ensures var demand, c := PodDemand(Unbounded, pod, profile), ConstraintsOf(pod);
      var t := Rebuilt(Unbounded, First(h), profile, pod, cluster);
      var first := RoomsOf(t, demand, c, r);
      && OnAccount(h, first, RoomsOf(Current(h, pod, profile, cluster), demand, c, r))
      && Exhausts(h, Before(h, pod, profile, cluster), first, HasInflightSignalIn(t, ProfilePrefix(profile)))
  {
    var demand, c := PodDemand(Unbounded, pod, profile), ConstraintsOf(pod);
    var t, now := Rebuilt(Unbounded, First(h), profile, pod, cluster), Current(h, pod, profile, cluster);
    RoomsNonNegative(now, demand, c, r);
    if h.Again? {
      RoomIsExhausted(h.prev, pod, profile, cluster, r);
      StepTakesRound(h, pod, profile, cluster, r);
      var before := Current(h.prev, pod, profile, cluster);
      AccountStep(h, before, RoomsOf(t, demand, c, r), RoomsOf(before, demand, c, r), RoomsOf(now, demand, c, r),
                  HasInflightSignalIn(t, ProfilePrefix(profile)));
    }
  }

  lemma RoomsNonNegative(s: State, demand: Amounts, c: Option<Constraints>, r: string)
    requires r in demand && demand[r] > 0
    ensures RoomsOf(s, demand, c, r).nodes >= 0 && RoomsOf(s, demand, c, r).inflight >= 0
  {
    NoRoomIff(s, demand, c, r, false);
    NoRoomIff(s, demand, c, r, true);
  }

  /** With no existing node that fits and none of unknown capacity pending, the n-th repetition is
      held exactly while n is within the rounds of the in-flight entries the pod matches; every
      later one is passed through unpinned, whether or not a node has arrived. */
  lemma HeldIff(h: Repeat, pod: Pod, profile: Profile, cluster: Cluster, r: string)
    requires h.Again? && IsRepeat(h, pod, profile, cluster) && Listed(cluster)
    requires profile.rules == [NODE_READY]
    requires r in PodDemand(Unbounded, pod, profile) && PodDemand(Unbounded, pod, profile)[r] > 0
    requires var t := Rebuilt(Unbounded, First(h), profile, pod, cluster);
      && "" !in t.nodes
      && !HasInflightSignalIn(t, ProfilePrefix(profile))
      && forall n :: !Candidate(Unbounded, t, PodDemand(Unbounded, pod, profile), ConstraintsOf(pod), n, false)
    ensures var total := Room(Rebuilt(Unbounded, First(h), profile, pod, cluster).inflight,
                              PodDemand(Unbounded, pod, profile), ConstraintsOf(pod), r);
      && (h.out == Held(NODE_READY) <==> Times(h) <= total)
      && (h.out == Released("capacity", "") && h.grants == [] && h.after == Before(h, pod, profile, cluster) <==> Times(h) > total)
  {
    var demand, c := PodDemand(Unbounded, pod, profile), ConstraintsOf(pod);
    NoRoomIff(Rebuilt(Unbounded, First(h), profile, pod, cluster), demand, c, r, false);
    RoomIsExhausted(h, pod, profile, cluster, r);
  }

  lemma {:induction false} RoundsWithinSlots(e: Entry, demand: Amounts, r: string)
    requires r in demand && demand[r] > 0
    ensures Rounds(e, demand, r) <= SlotCount(Available(Unbounded, e, r), demand[r])
    decreases Rounds(e, demand, r)
  {
    if Fits(Unbounded, e, demand) {
      var e' := AddReservation(Unbounded, e, demand);
      assert Available(Unbounded, e', r) == Available(Unbounded, e, r) - demand[r];
      RoundsWithinSlots(e', demand, r);
    }
  }

  lemma RoomWithinSlots(s: State, demand: Amounts, c: Option<Constraints>, r: string)
    requires r in demand && demand[r] > 0
    ensures Room(s.inflight, demand, c, r) <= Slots(s, r, demand[r])
  {
    var rooms, slots := RoomMap(s.inflight, demand, c, r), SlotMap(s, r, demand[r]);
    forall k | k in rooms ensures rooms[k] <= slots[k] {
      RoundsWithinSlots(s.inflight[k], demand, r);
    }
    MapSumMonotone(rooms, slots);
  }

  /** In the measure's own terms: every repetition is released, or is one of at most as many holds as
      the sum over in-flight entries of floor(available/demand), for any positively demanded resource. */
  lemma AtMostSlotsHolds(h: Repeat, pod: Pod, profile: Profile, cluster: Cluster, r: string)
    requires h.Again? && IsRepeat(h, pod, profile, cluster) && Listed(cluster)
    requires profile.rules == [NODE_READY]
    requires r in PodDemand(Unbounded, pod, profile) && PodDemand(Unbounded, pod, profile)[r] > 0
    requires var t := Rebuilt(Unbounded, First(h), profile, pod, cluster);
      "" !in t.nodes && !HasInflightSignalIn(t, ProfilePrefix(profile))
    ensures var t, qty := Rebuilt(Unbounded, First(h), profile, pod, cluster), PodDemand(Unbounded, pod, profile)[r];
      && WaitCount(h) <= Slots(t, r, qty)
      && (h.out.Released? || WaitCount(h) == WaitCount(h.prev) + 1)
  {
    var t := Rebuilt(Unbounded, First(h), profile, pod, cluster);
    var demand, c := PodDemand(Unbounded, pod, profile), ConstraintsOf(pod);
    RoomIsExhausted(h, pod, profile, cluster, r);
    HoldsOnAccount(h, Before(h, pod, profile, cluster), RoomsOf(t, demand, c, r),
                   RoomsOf(Current(h, pod, profile, cluster), demand, c, r));
    RoomWithinSlots(t, demand, c, r);
  }

  lemma HoldsOnAccount(h: Repeat, before: State, first: Rooms, now: Rooms)
    requires h.Again? && OnAccount(h, first, now) && Exhausts(h, before, first, false)
    ensures WaitCount(h) <= first.inflight
    ensures h.out.Released? || WaitCount(h) == WaitCount(h.prev) + 1
  {
  }

  /** Any number of repetitions is possible. */
  lemma {:induction false} Repetitions(s: State, req: Request, times: nat) returns (h: Repeat)
    requires WellKeyed(s) && NamesValid(req.cluster) && RunsRules(req)
    ensures IsRepeat(h, req.pod.value, req.profile.value, req.cluster)
    ensures First(h) == s && Times(h) == times
    decreases times
  {
    h := Begin(s);
    if times > 0 {
      var prev := Repetitions(s, req, times - 1);
      var after, out, grants := ReconcileExists(Unbounded, LedgerAfter(prev), req);
      h := Again(prev, req, out, grants, after);
    }
  }

  lemma SoleRoom(key: string, e: Entry, demand: Amounts, c: Option<Constraints>, r: string)
    requires r in demand && demand[r] > 0 && Matches(e, c)
    ensures Room(map[key := e], demand, c, r) == Rounds(e, demand, r)
  {
    var rooms := RoomMap(map[key := e], demand, c, r);
    assert rooms == map[][key := Rounds(e, demand, r)];
    MapSumInsert(map[], key, Rounds(e, demand, r));
  }

  lemma RoundsOfMultiple(r: string, qty: int, k: nat)
    requires qty > 0
    ensures Rounds(FreshEntry(map[r := k * qty], map[], []), map[r := qty], r) == k
  {
    var e, demand := FreshEntry(map[r := k * qty], map[], []), map[r := qty];
    assert r in demand && Available(Unbounded, e, r) == k * qty;
    RoundsCover(e, demand, r, k);
    RoundsCover(e, demand, r, k + 1);
    assert (k + 1) * qty == k * qty + qty;
    assert r in demand && Needed(k + 1, demand[r]) > Available(Unbounded, e, r);
  }

  /** Such a pod: a coming node has room for exactly k of it, as the profile's template says, and stays
      on its way; the pod is held k times, reserving again each time, and then passed through with
      the node still pending. */
  lemma PassedThroughTooEarly(profile: Profile, n: string, r: string, qty: int, k: nat, pods: seq<Pod>) returns (h: Repeat)
    requires qty > 0 && k > 0 && profile == WaitingProfile(profile.name, r, [PoolTemplate(r, k * qty)])
    ensures IsRepeat(h, AskingPod(profile, r, qty), profile, Scene([], pods, [ComingNode(n)])) && First(h) == EMPTY
    ensures Times(h) == k + 1 && AllHeldByNodeReady(h.prev) && h.out == Released("capacity", "")
    ensures h.after.nodes == map[] && h.after.inflight.Keys == {InflightKey(profile, n)}
  {
    var cluster := Scene([], pods, [ComingNode(n)]);
    AskingRuns(profile, r, qty, cluster);
    AskedDemand(profile, r, qty);
    ComingRoom(profile, n, r, qty, k, pods);
    h := HeldWhilePending(Asking(profile, r, qty, cluster), r);
  }

  lemma HeldWhilePending(req: Request, r: string) returns (h: Repeat)
    requires NamesValid(req.cluster) && RunsRules(req) && req.profile.value.rules == [NODE_READY]
    requires var demand := PodDemand(Unbounded, req.pod.value, req.profile.value); r in demand && demand[r] > 0
    requires var t := Rebuilt(Unbounded, EMPTY, req.profile.value, req.pod.value, req.cluster);
      t.nodes == map[] && !HasInflightSignalIn(t, ProfilePrefix(req.profile.value))
    ensures IsRepeat(h, req.pod.value, req.profile.value, req.cluster) && First(h) == EMPTY
    ensures var t := Rebuilt(Unbounded, EMPTY, req.profile.value, req.pod.value, req.cluster);
      && Times(h) == Room(t.inflight, PodDemand(Unbounded, req.pod.value, req.profile.value), ConstraintsOf(req.pod.value), r) + 1
      && h.Again? && AllHeldByNodeReady(h.prev) && h.out == Released("capacity", "")
      && h.after.nodes == map[] && h.after.inflight.Keys == t.inflight.Keys
  {
    var pod, profile, cluster := req.pod.value, req.profile.value, req.cluster;
    var demand, c, t := PodDemand(Unbounded, pod, profile), ConstraintsOf(pod), Rebuilt(Unbounded, EMPTY, profile, pod, cluster);
    RoomsNonNegative(t, demand, c, r);
    h := Repetitions(EMPTY, req, Room(t.inflight, demand, c, r) + 1);
    HeldThenPassed(h, pod, profile, cluster, r);
    assert h.after.nodes.Keys == t.nodes.Keys;
  }

  lemma HeldThenPassed(h: Repeat, pod: Pod, profile: Profile, cluster: Cluster, r: string)
    requires IsRepeat(h, pod, profile, cluster) && Listed(cluster)
    requires profile.rules == [NODE_READY]
    requires r in PodDemand(Unbounded, pod, profile) && PodDemand(Unbounded, pod, profile)[r] > 0
    requires var t := Rebuilt(Unbounded, First(h), profile, pod, cluster);
      && t.nodes == map[] && !HasInflightSignalIn(t, ProfilePrefix(profile))
      && Times(h) == Room(t.inflight, PodDemand(Unbounded, pod, profile), ConstraintsOf(pod), r) + 1
    ensures h.Again? && AllHeldByNodeReady(h.prev) && h.out == Released("capacity", "")
    ensures SameFrame(Rebuilt(Unbounded, First(h), profile, pod, cluster), h.after)
  {
    RoomsNonNegative(Rebuilt(Unbounded, First(h), profile, pod, cluster), PodDemand(Unbounded, pod, profile), ConstraintsOf(pod), r);
    HeldUpTo(h.prev, pod, profile, cluster, r);
    HeldIff(h, pod, profile, cluster, r);
    RepeatStable(h, pod, profile, cluster);
  }

  lemma ComingRoom(profile: Profile, n: string, r: string, qty: int, k: nat, pods: seq<Pod>)
    requires qty > 0 && k > 0 && profile == WaitingProfile(profile.name, r, [PoolTemplate(r, k * qty)])
    ensures var pod := AskingPod(profile, r, qty);
      var t := Rebuilt(Unbounded, EMPTY, profile, pod, Scene([], pods, [ComingNode(n)]));
      && t.nodes == map[] && t.inflight.Keys == {InflightKey(profile, n)}
      && !HasInflightSignalIn(t, ProfilePrefix(profile))
      && Room(t.inflight, map[r := qty], ConstraintsOf(pod), r) == k
  {
    var cluster, pod, key := Scene([], pods, [ComingNode(n)]), AskingPod(profile, r, qty), InflightKey(profile, n);
    SceneDetects([], pods, [ComingNode(n)]);
    NodesUnseen(EMPTY, profile, pod, cluster);
    DetectedSeen(EMPTY, profile, pod, cluster, ComingNode(n));
    ComingEntry(n, pod, profile, r, k * qty);
    var t, e := Rebuilt(Unbounded, EMPTY, profile, pod, cluster), FreshEntry(map[r := k * qty], map[], []);
    assert t.inflight == map[key := e];
    assert r in e.allocatable;
    SoleRoom(key, e, map[r := qty], ConstraintsOf(pod), r);
    RoundsOfMultiple(r, qty, k);
  }

  lemma {:induction false} HeldUpTo(h: Repeat, pod: Pod, profile: Profile, cluster: Cluster, r: string)
    requires IsRepeat(h, pod, profile, cluster) && Listed(cluster)
    requires profile.rules == [NODE_READY]
    requires r in PodDemand(Unbounded, pod, profile) && PodDemand(Unbounded, pod, profile)[r] > 0
    requires var t := Rebuilt(Unbounded, First(h), profile, pod, cluster);
      && t.nodes == map[] && !HasInflightSignalIn(t, ProfilePrefix(profile))
      && Times(h) <= Room(t.inflight, PodDemand(Unbounded, pod, profile), ConstraintsOf(pod), r)
    ensures AllHeldByNodeReady(h)
  {
    if h.Again? {
      HeldUpTo(h.prev, pod, profile, cluster, r);
      HeldIff(h, pod, profile, cluster, r);
    }
  }
}

/** Snapshot planning: order by owner, priority and id, then cut to the budget
    (GameLogic/src/ReplicationPlanner.cpp). */
module Planner {
  import opened Basics
  import opened Replication

  datatype Config = Config(maxEntities: nat, prioritizeHigherFirst: bool, keepOwnerFirst: bool)
  datatype Stats = Stats(input: nat, output: nat, high: nat, medium: nat, low: nat, dropped: nat)
  datatype Planned = Planned(snapshot: Snapshot, stats: Stats)

  function Rank(p: Priority): nat {
    match p
    case High => 3
    case Medium => 2
    case Low => 1
  }

  /** The comparator handed to the sort: true when `a` must come before `b`. */
  predicate Before(config: Config, observer: ClientId, a: EntityState, b: EntityState) {
    var aOwned := a.replica.owner == observer;
    var bOwned := b.replica.owner == observer;
    if config.keepOwnerFirst && aOwned != bOwned then aOwned
    else if Rank(a.replica.priority) != Rank(b.replica.priority)
    then Rank(a.replica.priority) > Rank(b.replica.priority)
    else a.Id() < b.Id()
  }

  ghost predicate Sorted(config: Config, observer: ClientId, s: seq<EntityState>) {
    forall i, j :: 0 <= i < j < |s| ==> !Before(config, observer, s[j], s[i])
  }

  /** Insert after every element that need not come later: the stable position. */
  function Insert(config: Config, observer: ClientId, e: EntityState, s: seq<EntityState>): seq<EntityState> {
    if s == [] then [e]
    else if Before(config, observer, e, s[0]) then [e] + s
    else [s[0]] + Insert(config, observer, e, s[1..])
  }

  function Sort(config: Config, observer: ClientId, s: seq<EntityState>): seq<EntityState> {
    if s == [] then []
    else Insert(config, observer, s[|s| - 1], Sort(config, observer, s[..|s| - 1]))
  }

  function Ordered(config: Config, observer: ClientId, s: seq<EntityState>): seq<EntityState> {
    if config.prioritizeHigherFirst then Sort(config, observer, s) else s
  }

  function Budgeted(config: Config, s: seq<EntityState>): seq<EntityState> {
    if config.maxEntities > 0 && |s| > config.maxEntities then s[..config.maxEntities] else s
  }

  function Kept(config: Config, observer: ClientId, s: seq<EntityState>): seq<EntityState> {
    Budgeted(config, Ordered(config, observer, s))
  }

  function Count(s: seq<EntityState>, p: Priority): nat {
    if s == [] then 0
    else Count(s[..|s| - 1], p) + (if s[|s| - 1].replica.priority == p then 1 else 0)
  }

  function PlanOf(config: Config, observer: ClientId, snapshot: Snapshot): Planned {
    var kept := Kept(config, observer, snapshot.entities);
    KeptSize(config, observer, snapshot.entities);
    Planned(snapshot.(entities := kept),
            Stats(|snapshot.entities|, |kept|, Count(kept, High), Count(kept, Medium), Count(kept, Low),
                  |snapshot.entities| - |kept|))
  }

  // --- the sort ---

  lemma {:induction false} InsertIsPermutation(config: Config, observer: ClientId, e: EntityState, s: seq<EntityState>)
    ensures multiset(Insert(config, observer, e, s)) == multiset(s) + multiset{e}
  {
    if s != [] {
      assert s == [s[0]] + s[1..];
      if !Before(config, observer, e, s[0]) {
        InsertIsPermutation(config, observer, e, s[1..]);
      }
    }
  }

  lemma {:induction false} InsertKeepsSorted(config: Config, observer: ClientId, e: EntityState, s: seq<EntityState>)
    requires Sorted(config, observer, s)
    ensures Sorted(config, observer, Insert(config, observer, e, s))
  {
    if s != [] && !Before(config, observer, e, s[0]) {
      var rest := Insert(config, observer, e, s[1..]);
      InsertKeepsSorted(config, observer, e, s[1..]);
      InsertIsPermutation(config, observer, e, s[1..]);
      forall j | 0 <= j < |rest|
        ensures !Before(config, observer, rest[j], s[0])
      {
        assert rest[j] in multiset(rest);
        assert rest[j] == e || rest[j] in s[1..];
      }
    }
  }

  lemma {:induction false} SortIsSortedPermutation(config: Config, observer: ClientId, s: seq<EntityState>)
    ensures Sorted(config, observer, Sort(config, observer, s))
    ensures multiset(Sort(config, observer, s)) == multiset(s)
    ensures |Sort(config, observer, s)| == |s|
  {
    if s != [] {
      var front := s[..|s| - 1];
      SortIsSortedPermutation(config, observer, front);
      InsertKeepsSorted(config, observer, s[|s| - 1], Sort(config, observer, front));
      InsertIsPermutation(config, observer, s[|s| - 1], Sort(config, observer, front));
      assert s == front + [s[|s| - 1]];
      assert |multiset(Sort(config, observer, s))| == |multiset(s)|;
    }
  }

  lemma MembersHaveDistinctIds(s: seq<EntityState>, t: seq<EntityState>)
    requires DistinctIds(s) && multiset(s) == multiset(t)
    ensures DistinctIds(t)
    ensures forall a, b :: a in s && b in s && a.Id() == b.Id() ==> a == b
  {
    forall i, j | 0 <= i < j < |t|
      ensures t[i].Id() != t[j].Id()
    {
      MultisetAtTwoIndices(t, i, j);
      assert t[i] in multiset(s) && t[j] in multiset(s);
      var a :| 0 <= a < |s| && s[a] == t[i];
      var b :| 0 <= b < |s| && s[b] == t[j];
      if t[i] == t[j] {
        DistinctMultiplicity(s, t[i]);
      }
      assert a != b;
    }
  }

  lemma {:induction false} DistinctMultiplicity(s: seq<EntityState>, e: EntityState)
    requires DistinctIds(s)
    ensures multiset(s)[e] <= 1
  {
    if s != [] {
      var front := s[..|s| - 1];
      assert s == front + [s[|s| - 1]];
      DistinctMultiplicity(front, e);
      if e == s[|s| - 1] {
        assert e !in front;
        assert multiset(front)[e] == 0;
      }
    }
  }

  lemma MultisetAtTwoIndices(t: seq<EntityState>, i: nat, j: nat)
    requires i < j < |t|
    ensures t[i] in multiset(t) && t[j] in multiset(t)
    ensures t[i] == t[j] ==> multiset(t)[t[i]] >= 2
  {
    assert t == t[..i] + [t[i]] + t[i + 1..j] + [t[j]] + t[j + 1..];
  }

  lemma HeadIsFirst(config: Config, observer: ClientId, s: seq<EntityState>, e: EntityState)
    requires Sorted(config, observer, s) && e in s && DistinctIds(s)
    ensures e == s[0] || (!Before(config, observer, e, s[0]) && e.Id() != s[0].Id())
  {
  }

  lemma SameHead(config: Config, observer: ClientId, s: seq<EntityState>, t: seq<EntityState>)
    requires DistinctIds(s) && DistinctIds(t) && multiset(s) == multiset(t) && s != []
    requires Sorted(config, observer, s) && Sorted(config, observer, t)
    ensures t != [] && s[0] == t[0]
  {
    assert s[0] in multiset(t);
    assert t[0] in multiset(s);
    var i :| 0 <= i < |t| && t[i] == s[0];
    var j :| 0 <= j < |s| && s[j] == t[0];
    HeadIsFirst(config, observer, s, s[j]);
    HeadIsFirst(config, observer, t, t[i]);
  }

  lemma TailSorted(config: Config, observer: ClientId, s: seq<EntityState>)
    requires Sorted(config, observer, s) && DistinctIds(s) && s != []
    ensures Sorted(config, observer, s[1..]) && DistinctIds(s[1..])
  {
  }

  /** With distinct ids a sorted arrangement is unique. */
  lemma {:induction false} SortedIsUnique(config: Config, observer: ClientId, s: seq<EntityState>, t: seq<EntityState>)
    requires DistinctIds(s) && multiset(s) == multiset(t)
    requires Sorted(config, observer, s) && Sorted(config, observer, t)
    ensures s == t
  {
    if s == [] {
      assert |multiset(s)| == |multiset(t)|;
    } else {
      MembersHaveDistinctIds(s, t);
      SameHead(config, observer, s, t);
      TailSorted(config, observer, s);
      TailSorted(config, observer, t);
      hide Sorted;
      assert s == [s[0]] + s[1..] && t == [t[0]] + t[1..];
      assert multiset(s[1..]) == multiset(s) - multiset{s[0]};
      assert multiset(t[1..]) == multiset(t) - multiset{t[0]};
      SortedIsUnique(config, observer, s[1..], t[1..]);
    }
  }

  // --- what a plan promises ---

  /** The order in which the simulation lists entities does not matter. */
  lemma PlanIgnoresInputOrder(config: Config, observer: ClientId, a: Snapshot, b: Snapshot)
    requires config.prioritizeHigherFirst
    requires DistinctIds(a.entities) && multiset(a.entities) == multiset(b.entities)
    requires a.(entities := []) == b.(entities := [])
    ensures PlanOf(config, observer, a) == PlanOf(config, observer, b)
  {
    var s, t := Sort(config, observer, a.entities), Sort(config, observer, b.entities);
    SortIsSortedPermutation(config, observer, a.entities);
    SortIsSortedPermutation(config, observer, b.entities);
    MembersHaveDistinctIds(a.entities, s);
    SortedIsUnique(config, observer, s, t);
  }

  ghost predicate Higher(a: Priority, b: Priority) {
    (a == High && b != High) || (a == Medium && b == Low)
  }

  /** The order of a plan in words: the observer's own first, if so configured; then high
      over medium over low; then the smaller id. */
  ghost predicate Outranks(config: Config, observer: ClientId, a: EntityState, b: EntityState) {
    var alike := !config.keepOwnerFirst || (a.replica.owner == observer <==> b.replica.owner == observer);
    || (!alike && a.replica.owner == observer)
    || (alike && Higher(a.replica.priority, b.replica.priority))
    || (alike && a.replica.priority == b.replica.priority && a.Id() < b.Id())
  }

  lemma BeforeIsOutranks(config: Config, observer: ClientId, a: EntityState, b: EntityState)
    requires a.Id() != b.Id()
    ensures Before(config, observer, a, b) <==> Outranks(config, observer, a, b)
    ensures Before(config, observer, a, b) <==> !Before(config, observer, b, a)
  {
  }

  /** Every kept entity outranks every dropped one: the plan is the top of the order. */
  lemma PlanKeepsTheTop(config: Config, observer: ClientId, entities: seq<EntityState>, kept: EntityState, dropped: EntityState)
    requires config.prioritizeHigherFirst && DistinctIds(entities)
    requires kept in Kept(config, observer, entities)
    requires dropped in entities && dropped !in Kept(config, observer, entities)
    ensures Outranks(config, observer, kept, dropped)
    ensures kept in entities
    ensures |Kept(config, observer, entities)| == config.maxEntities
  {
    var s := Sort(config, observer, entities);
    SortIsSortedPermutation(config, observer, entities);
    MembersHaveDistinctIds(entities, s);
    assert dropped in multiset(s);
    var j :| 0 <= j < |s| && s[j] == dropped;
    var i :| 0 <= i < |Kept(config, observer, entities)| && Kept(config, observer, entities)[i] == kept;
    assert s[i] == kept;
    assert kept in multiset(entities);
    BeforeIsOutranks(config, observer, kept, dropped);
  }

  /** The plan lists the kept entities in rank order, and cuts only what is over budget;
      without prioritising it is the input's front. Nothing else of the snapshot changes. */
  lemma PlanIsRanked(config: Config, observer: ClientId, snapshot: Snapshot)
    requires DistinctIds(snapshot.entities)
    ensures var kept := PlanOf(config, observer, snapshot).snapshot.entities;
            && PlanOf(config, observer, snapshot).snapshot == snapshot.(entities := kept)
            && |kept| == (if 0 < config.maxEntities < |snapshot.entities| then config.maxEntities else |snapshot.entities|)
            && (config.prioritizeHigherFirst ==> forall i, j :: 0 <= i < j < |kept| ==> Outranks(config, observer, kept[i], kept[j]))
            && (!config.prioritizeHigherFirst ==> kept <= snapshot.entities)
  {
    var s := Ordered(config, observer, snapshot.entities);
    SortIsSortedPermutation(config, observer, snapshot.entities);
    MembersHaveDistinctIds(snapshot.entities, s);
    hide Before, Sort, Outranks;
    var kept := PlanOf(config, observer, snapshot).snapshot.entities;
    forall i, j | 0 <= i < j < |kept| && config.prioritizeHigherFirst
      ensures Outranks(config, observer, kept[i], kept[j])
    {
      assert kept[i] == s[i] && kept[j] == s[j];
      assert !Before(config, observer, s[j], s[i]);
      BeforeIsOutranks(config, observer, s[j], s[i]);
      BeforeIsOutranks(config, observer, s[i], s[j]);
    }
  }

  lemma KeptSize(config: Config, observer: ClientId, entities: seq<EntityState>)
    ensures |Kept(config, observer, entities)|
         == if config.maxEntities > 0 then Min(|entities|, config.maxEntities) else |entities|
  {
    SortIsSortedPermutation(config, observer, entities);
  }

  /** Within the budget nothing is dropped. */
  lemma PlanKeepsAll(config: Config, observer: ClientId, entities: seq<EntityState>, e: EntityState)
    requires config.maxEntities == 0 || |entities| <= config.maxEntities
    requires e in entities
    ensures e in Kept(config, observer, entities)
  {
    SortIsSortedPermutation(config, observer, entities);
    assert e in multiset(Ordered(config, observer, entities));
    hide Sort;
  }

  /** Planning only selects: the kept entities are input entities, once each. */
  lemma PlanSelects(config: Config, observer: ClientId, entities: seq<EntityState>)
    requires DistinctIds(entities)
    ensures DistinctIds(Kept(config, observer, entities))
    ensures forall e :: e in Kept(config, observer, entities) ==> e in entities
  {
    var s := Ordered(config, observer, entities);
    SortIsSortedPermutation(config, observer, entities);
    MembersHaveDistinctIds(entities, s);
    forall e | e in s ensures e in entities {
      assert e in multiset(s);
    }
  }

  /** Which of the listed entities have a priority. */
  function WithPriority(s: seq<EntityState>, p: Priority): set<nat> {
    set k: nat | k < |s| && s[k].replica.priority == p
  }

  lemma {:induction false} CountIsNumber(s: seq<EntityState>, p: Priority)
    ensures Count(s, p) == |WithPriority(s, p)|
  {
    if s != [] {
      var front, last := s[..|s| - 1], |s| - 1;
      CountIsNumber(front, p);
      if s[last].replica.priority == p {
        assert WithPriority(s, p) == WithPriority(front, p) + {last};
      } else {
        assert WithPriority(s, p) == WithPriority(front, p);
      }
    }
  }

  lemma {:induction false} CountsSum(s: seq<EntityState>)
    ensures Count(s, High) + Count(s, Medium) + Count(s, Low) == |s|
  {
    if s != [] {
      CountsSum(s[..|s| - 1]);
    }
  }

  /** The statistics add up: each counter is the number of planned entities it names. */
  lemma PlanStatsAddUp(config: Config, observer: ClientId, snapshot: Snapshot)
    ensures var planned := PlanOf(config, observer, snapshot);
            var kept := planned.snapshot.entities;
            && planned.stats.high == |WithPriority(kept, High)| && planned.stats.medium == |WithPriority(kept, Medium)|
            && planned.stats.low == |WithPriority(kept, Low)|
            && planned.stats.high + planned.stats.medium + planned.stats.low == planned.stats.output == |kept|
            && planned.stats.output + planned.stats.dropped == planned.stats.input == |snapshot.entities|
  {
    var kept := Kept(config, observer, snapshot.entities);
    CountsSum(kept);
    CountIsNumber(kept, High);
    CountIsNumber(kept, Medium);
    CountIsNumber(kept, Low);
    hide Kept, WithPriority;
  }

  /** With owner-first, any budget keeps an entity the observer owns if there is one,
      at the front; a single owned entity is that one. */
  lemma PlanKeepsOwner(config: Config, observer: ClientId, entities: seq<EntityState>, own: EntityState)
    requires config.prioritizeHigherFirst && config.keepOwnerFirst
    requires own in entities && own.replica.owner == observer
    ensures var kept := Kept(config, observer, entities);
            && kept != [] && kept[0].replica.owner == observer
            && ((forall e :: e in entities && e.replica.owner == observer ==> e == own) ==> kept[0] == own)
  {
    var s := Sort(config, observer, entities);
    SortIsSortedPermutation(config, observer, entities);
    assert own in multiset(s);
    var i :| 0 <= i < |s| && s[i] == own;
    assert i == 0 || !Before(config, observer, s[i], s[0]);
    assert s[0] in multiset(entities);
  }

  function CountOne(stats: Stats, p: Priority): Stats {
    match p
    case High => stats.(high := stats.high + 1)
    case Medium => stats.(medium := stats.medium + 1)
    case Low => stats.(low := stats.low + 1)
  }

  function StatsFor(input: nat, dropped: nat, output: nat, counted: seq<EntityState>): Stats {
    Stats(input, output, Count(counted, High), Count(counted, Medium), Count(counted, Low), dropped)
  }

  lemma CountOneIsStatsFor(input: nat, dropped: nat, output: nat, entities: seq<EntityState>, i: nat)
    requires i < |entities|
    ensures CountOne(StatsFor(input, dropped, output, entities[..i]), entities[i].replica.priority)
         == StatsFor(input, dropped, output, entities[..i + 1])
  {
    assert entities[..i + 1][..i] == entities[..i];
  }

  method Plan(config: Config, observer: ClientId, snapshot: Snapshot) returns (planned: Planned)
    ensures planned == PlanOf(config, observer, snapshot)
  {
    var entities := snapshot.entities;
    if config.prioritizeHigherFirst {
      entities := StableSort(config, observer, entities);
    }
    if config.maxEntities > 0 && |entities| > config.maxEntities {
      entities := entities[..config.maxEntities];
    }
    KeptSize(config, observer, snapshot.entities);
    hide Sort;
    var input, output := |snapshot.entities|, |entities|;
    var stats := Stats(input, output, 0, 0, 0, input - output);
    var i := 0;
    while i < output
      invariant i <= output
      invariant stats == StatsFor(input, input - output, output, entities[..i])
    {
      CountOneIsStatsFor(input, input - output, output, entities, i);
      stats := CountOne(stats, entities[i].replica.priority);
      i := i + 1;
    }
    assert entities[..output] == entities;
    planned := Planned(snapshot.(entities := entities), stats);
  }

  /** The library's stable sort, as insertion of one element after another. */
  method StableSort(config: Config, observer: ClientId, s: seq<EntityState>) returns (sorted: seq<EntityState>)
    ensures sorted == Sort(config, observer, s)
  {
    sorted := [];
    var i := 0;
    while i < |s|
      invariant i <= |s|
      invariant sorted == Sort(config, observer, s[..i])
    {
      assert s[..i + 1][..i] == s[..i];
      sorted := Insert(config, observer, s[i], sorted);
      i := i + 1;
    }
    assert s[..|s|] == s;
  }
}

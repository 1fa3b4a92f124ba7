/** `prioritizeAllTasks` and the first `/breakdown` handler of the task prioritizer server
    (taskprioritizer/server.js): every accumulated group's subtasks are flattened, retagged
    with their group's task, and sorted by quadrant weight and then by an energy-dependent
    rule on the estimated minutes. */
module TaskPrioritizer {
  import opened Basics
  import opened JsText
  import opened Quadrants
  import opened TaskParser
  import opened StableSort

  /** One entry of `allTasks`: the request's task and the subtasks parsed for it. */
  datatype TaskGroup = TaskGroup(task: Option<string>, subtasks: seq<Subtask>)

  /** `taskGroup.subtasks.map(...)`: each subtask with `mainTask` overwritten by the group's task. */
  function Retag(g: TaskGroup): seq<Subtask>
  {
    seq(|g.subtasks|, i requires 0 <= i < |g.subtasks| => g.subtasks[i].(mainTask := g.task))
  }

  /** `allTasks.flatMap(...)`: the retagged subtasks of every group, group by group. */
  function Flatten(groups: seq<TaskGroup>): seq<Subtask>
    decreases groups
  {
    if groups == [] then [] else Retag(groups[0]) + Flatten(groups[1..])
  }

  function QuadrantOf(t: Subtask): Quadrant
  {
    ServerQuadrant(t.importance, t.urgency)
  }

  /** `parseInt(t.estimated_time)`; `None` is NaN, which a missing field also gives. */
  function Minutes(t: Subtask): Option<int>
  {
    if t.estimatedTime.Some? then ParseInt(t.estimatedTime.value) else None
  }

  /** `x - y` on parsed minutes, where a NaN result counts as 0 as the sort's comparison
      of a NaN comparator value does. */
  function Difference(x: Option<int>, y: Option<int>): int
  {
    if x.Some? && y.Some? then x.value - y.value else 0
  }

  /** The comparator passed to `sort`: positive means `a` goes after `b`. */
  function Compare(energy: int, a: Subtask, b: Subtask): int
  {
    var wa := Weight(QuadrantOf(a));
    var wb := Weight(QuadrantOf(b));
    if wa != wb then wb - wa
    else if energy <= 3 then Difference(Minutes(a), Minutes(b))
    else if energy >= 8 then Difference(Minutes(b), Minutes(a))
    else 0
  }

  /** The comparator as the function value handed to the sort. */
  function Comparator(energy: int): (Subtask, Subtask) -> int
  {
    (a, b) => Compare(energy, a, b)
  }

  /** `flattenedTasks.sort(comparator)`. */
  function Ranked(energy: int, s: seq<Subtask>): seq<Subtask>
  {
    Sort(Comparator(energy), s)
  }

  /** The quadrant weight of a subtask, the sort's first key. */
  function Priority(t: Subtask): int
  {
    Weight(QuadrantOf(t))
  }

  // ----- properties of the order -----

  /** Sorting keeps every subtask, as often as it occurs, and adds none. */
  lemma RankedPermutation(energy: int, s: seq<Subtask>)
    ensures multiset(Ranked(energy, s)) == multiset(s)
  {
    SortPermutation(Comparator(energy), s);
  }

  lemma CompareRespectsPriority(energy: int)
    ensures RespectsKey(Comparator(energy), Priority)
  {
  }

  /** The result is ordered by quadrant: do, then decide, then delegate, then delete. */
  lemma RankedByQuadrant(energy: int, s: seq<Subtask>)
    ensures KeyDescending(Priority, Ranked(energy, s))
  {
    CompareRespectsPriority(energy);
    SortKeyDescending(Comparator(energy), Priority, s);
  }

  /** Every estimated time parses to a number. */
  predicate AllTimed(s: seq<Subtask>)
  {
    forall i :: 0 <= i < |s| ==> Minutes(s[i]).Some?
  }

  lemma CompareAntisymmetric(energy: int, a: Subtask, b: Subtask)
    ensures Compare(energy, a, b) == -Compare(energy, b, a)
  {
  }

  lemma CompareTransitive(energy: int, a: Subtask, b: Subtask, c: Subtask)
    requires (4 <= energy <= 7) || (Minutes(a).Some? && Minutes(b).Some? && Minutes(c).Some?)
    requires Compare(energy, a, b) <= 0 && Compare(energy, b, c) <= 0
    ensures Compare(energy, a, c) <= 0
  {
  }

  /** The comparator is consistent at medium energy, and at any energy once every time
      parses; a NaN time at low or high energy can break transitivity. */
  lemma CompareConsistent(energy: int, s: seq<Subtask>)
    requires (4 <= energy <= 7) || AllTimed(s)
    ensures Consistent(Comparator(energy), s)
  {
    var cmp := Comparator(energy);
    forall a, b | a in s && b in s
      ensures cmp(a, b) == -cmp(b, a)
    {
      CompareAntisymmetric(energy, a, b);
    }
    forall a, b, c | a in s && b in s && c in s && cmp(a, b) <= 0 && cmp(b, c) <= 0
      ensures cmp(a, c) <= 0
    {
      CompareTransitive(energy, a, b, c);
    }
  }

  /** A NaN time makes the comparator inconsistent: at low energy an unparseable task ties
      with both a 10-minute and a 30-minute task of its quadrant, which do not tie. */
  lemma NaNBreaksTransitivity()
    ensures var short := Subtask("short", Some("10"), Some("high"), Some("high"), None);
      var vague := Subtask("vague", Some("soon"), Some("high"), Some("high"), None);
      var long := Subtask("long", Some("30"), Some("high"), Some("high"), None);
      && Compare(2, long, vague) == 0 && Compare(2, vague, short) == 0 && Compare(2, long, short) > 0
  {
    var short := Subtask("short", Some("10"), Some("high"), Some("high"), None);
    var vague := Subtask("vague", Some("soon"), Some("high"), Some("high"), None);
    var long := Subtask("long", Some("30"), Some("high"), Some("high"), None);
    assert NatToString(10) == "10" && NatToString(30) == "30";
    MinutesOf(10, short);
    MinutesOf(30, long);
    SoonIsNaN(vague);
    assert QuadrantOf(short) == QuadrantOf(vague) == QuadrantOf(long);
  }

  lemma SoonIsNaN(t: Subtask)
    requires t.estimatedTime == Some("soon")
    ensures Minutes(t) == None
  {
    assert TrimStart("soon") == "soon";
    assert DigitPrefix("soon", 10) == "";
  }

  /** A subtask whose estimated time is the decimal numeral of `n` takes `n` minutes. */
  lemma MinutesOf(n: nat, t: Subtask)
    requires t.estimatedTime == Some(NatToString(n))
    ensures Minutes(t) == Some(n)
  {
    ParseIntNumeral(n, "");
    assert NatToString(n) + "" == NatToString(n);
  }

  /** With every time parsed, tasks of one quadrant are shortest first at energy 3 or
      less and longest first at energy 8 or more. */
  lemma TieRule(energy: int, s: seq<Subtask>)
    requires AllTimed(s)
    ensures var r := Ranked(energy, s);
      forall i, j :: 0 <= i < j < |r| && QuadrantOf(r[i]) == QuadrantOf(r[j]) ==>
        && Minutes(r[i]).Some? && Minutes(r[j]).Some?
        && (energy <= 3 ==> Minutes(r[i]).value <= Minutes(r[j]).value)
        && (energy >= 8 ==> Minutes(r[i]).value >= Minutes(r[j]).value)
  {
    var cmp := Comparator(energy);
    var r := Ranked(energy, s);
    CompareConsistent(energy, s);
    SortOrdered(cmp, s);
    forall i, j | 0 <= i < j < |r| && QuadrantOf(r[i]) == QuadrantOf(r[j])
      ensures Minutes(r[i]).Some? && Minutes(r[j]).Some?
      ensures energy <= 3 ==> Minutes(r[i]).value <= Minutes(r[j]).value
      ensures energy >= 8 ==> Minutes(r[i]).value >= Minutes(r[j]).value
    {
      SortMembers(cmp, s, i);
      SortMembers(cmp, s, j);
      assert cmp(r[i], r[j]) <= 0;
    }
  }

  /** At medium energy (4 to 7) the tasks of each quadrant keep their input order. */
  lemma MediumEnergyKeepsOrder(energy: int, s: seq<Subtask>, q: Quadrant)
    requires 4 <= energy <= 7
    ensures Filter(Ranked(energy, s), t => QuadrantOf(t) == q) == Filter(s, t => QuadrantOf(t) == q)
  {
    SortStable(Comparator(energy), s, t => QuadrantOf(t) == q);
  }

  /** Where the comparator is consistent (medium energy, or every time parses), tasks of
      one quadrant with the same parsed minutes keep their input order. */
  lemma EqualTimesKeepOrder(energy: int, s: seq<Subtask>, q: Quadrant, m: Option<int>)
    requires (4 <= energy <= 7) || AllTimed(s)
    ensures var same := (t: Subtask) => QuadrantOf(t) == q && Minutes(t) == m;
      Filter(Ranked(energy, s), same) == Filter(s, same)
  {
    SortStable(Comparator(energy), s, t => QuadrantOf(t) == q && Minutes(t) == m);
  }

  // ----- the accumulator and the handler -----

  lemma {:induction false} FlattenAppend(a: seq<TaskGroup>, b: seq<TaskGroup>)
    ensures Flatten(a + b) == Flatten(a) + Flatten(b)
    decreases a
  {
    if a != [] {
      assert (a + b)[1..] == a[1..] + b;
      FlattenAppend(a[1..], b);
    } else {
      assert a + b == b;
    }
  }

  /** Every flattened subtask carries the task of the group it came from. */
  lemma {:induction false} FlattenMainTasks(groups: seq<TaskGroup>)
    ensures forall t :: t in Flatten(groups) ==> exists k :: 0 <= k < |groups| && t.mainTask == groups[k].task
    decreases groups
  {
    if groups != [] {
      FlattenMainTasks(groups[1..]);
      forall t | t in Retag(groups[0])
        ensures t.mainTask == groups[0].task
      {
        var i :| 0 <= i < |Retag(groups[0])| && Retag(groups[0])[i] == t;
      }
      forall t | t in Flatten(groups[1..])
        ensures exists k :: 0 <= k < |groups| && t.mainTask == groups[k].task
      {
        var k :| 0 <= k < |groups[1..]| && t.mainTask == groups[1..][k].task;
        assert groups[1..][k] == groups[k + 1];
      }
    }
  }

  /** A subtask as the parser returns it: all four key fields set, importance and urgency
      in lower case. */
  predicate Lowered(t: Subtask)
  {
    Complete(t) && IsLower(t.importance.value) && IsLower(t.urgency.value)
  }

  predicate AllLowered(s: seq<Subtask>)
  {
    forall i :: 0 <= i < |s| ==> Lowered(s[i])
  }

  /** Retagging and sorting keep every subtask as the parser left it, apart from `mainTask`. */
  lemma {:induction false} FlattenLowered(groups: seq<TaskGroup>)
    requires forall k :: 0 <= k < |groups| ==> AllLowered(groups[k].subtasks)
    ensures AllLowered(Flatten(groups))
    decreases groups
  {
    if groups != [] {
      FlattenLowered(groups[1..]);
      assert AllLowered(Retag(groups[0]));
    }
  }

  lemma RankedLowered(energy: int, s: seq<Subtask>)
    requires AllLowered(s)
    ensures AllLowered(Ranked(energy, s))
  {
    forall k | 0 <= k < |Ranked(energy, s)|
      ensures Lowered(Ranked(energy, s)[k])
    {
      SortMembers(Comparator(energy), s, k);
    }
  }

  /** The outcome of `POST /breakdown`. */
  datatype Response =
    | Breakdown(breakdown: seq<Subtask>)
    | Failure(status: int, error: string)

  const ProcessingError := "An error occurred while processing the task"

  /** The module-level `allTasks` accumulator and the handler that grows it. */
  class TaskBoard {
    var allTasks: seq<TaskGroup>

    /** Every accumulated subtask came from the parser. */
    ghost predicate Valid()
      reads this
    {
      forall k :: 0 <= k < |allTasks| ==> AllLowered(allTasks[k].subtasks)
    }

    constructor()
      ensures allTasks == [] && Valid()
    {
      allTasks := [];
    }

    /** `allTasks.push({ task, subtasks })`. */
    method Add(group: TaskGroup)
      requires Valid() && AllLowered(group.subtasks)
      modifies this
      ensures Valid()
      ensures allTasks == old(allTasks) + [group]
    {
      allTasks := allTasks + [group];
    }

    /** `prioritizeAllTasks(energyLevel)`: reads the accumulator, changes nothing. */
    method Prioritize(energy: int) returns (r: seq<Subtask>)
      ensures r == Ranked(energy, Flatten(allTasks))
      ensures multiset(r) == multiset(Flatten(allTasks)) && KeyDescending(Priority, r)
    {
      var flattened := Flatten(allTasks);
      var a := new Subtask[|flattened|](i requires 0 <= i < |flattened| => flattened[i]);
      assert a[..] == flattened;
      SortInPlace(a, Comparator(energy));
      r := a[..];
      RankedPermutation(energy, flattened);
      RankedByQuadrant(energy, flattened);
    }

    /** The first `/breakdown` handler. The model's reply is a parameter: `None` when the
        call to the language model failed, which `breakdownTask` turns into an error and
        the handler into a 500 response that leaves the accumulator as it was. */
    method HandleBreakdown(task: Option<string>, energy: int, reply: Option<Content>)
      returns (response: Response)
      requires Valid()
      modifies this
      ensures Valid()
      ensures reply.None? ==> response == Failure(500, ProcessingError) && allTasks == old(allTasks)
      ensures reply.Some? ==>
        && allTasks == old(allTasks) + [TaskGroup(task, Parsed(reply.value, task))]
        && response == Breakdown(Ranked(energy, Flatten(allTasks)))
      ensures response.Breakdown? ==> AllLowered(response.breakdown)
    {
      if reply.None? {
        return Failure(500, ProcessingError);
      }
      var breakdown := ParseTextResponse(reply.value, task);
      ParsedSubtasksComplete(reply.value, task);
      Add(TaskGroup(task, breakdown));
      var prioritized := Prioritize(energy);
      FlattenLowered(allTasks);
      RankedLowered(energy, Flatten(allTasks));
      response := Breakdown(prioritized);
    }
  }

  /** Every prioritized subtask carries the task of one of the accumulated groups. */
  lemma RankedMainTasks(energy: int, groups: seq<TaskGroup>)
    ensures forall t :: t in Ranked(energy, Flatten(groups)) ==>
      exists k :: 0 <= k < |groups| && t.mainTask == groups[k].task
  {
    RankedPermutation(energy, Flatten(groups));
    FlattenMainTasks(groups);
    forall t | t in Ranked(energy, Flatten(groups))
      ensures t in Flatten(groups)
    {
      assert t in multiset(Ranked(energy, Flatten(groups)));
    }
  }

  /** After a successful request the breakdown holds exactly the earlier subtasks plus the
      new group's, retagged with the request's task. */
  lemma BreakdownAddsGroup(energy: int, before: seq<TaskGroup>, g: TaskGroup)
    ensures multiset(Ranked(energy, Flatten(before + [g])))
            == multiset(Flatten(before)) + multiset(Retag(g))
  {
    RankedPermutation(energy, Flatten(before + [g]));
    FlattenAppend(before, [g]);
    assert Flatten([g]) == Retag(g) + Flatten([]);
  }

  // ----- a concrete run -----

  const Skippable := Subtask("skip", Some("5"), Some("low"), Some("low"), None)
  const LongUrgent := Subtask("long", Some("30"), Some("high"), Some("high"), None)
  const ShortUrgent := Subtask("short", Some("10"), Some("high"), Some("high"), None)

  lemma LowEnergyComparisons()
    ensures Compare(2, Skippable, LongUrgent) > 0
    ensures Compare(2, Skippable, ShortUrgent) > 0
    ensures Compare(2, LongUrgent, ShortUrgent) > 0
  {
    assert NatToString(10) == "10" && NatToString(30) == "30";
    MinutesOf(10, ShortUrgent);
    MinutesOf(30, LongUrgent);
  }

  /** At low energy a short "do" task goes before a long one, and both go before a
      "delete" task that the input lists first. */
  lemma LowEnergyExample()
    ensures Ranked(2, [Skippable, LongUrgent, ShortUrgent]) == [ShortUrgent, LongUrgent, Skippable]
  {
    LowEnergyComparisons();
    SortReversesThree(Comparator(2), Skippable, LongUrgent, ShortUrgent);
  }

  /** Three elements, each put after every later one, come out reversed. */
  lemma SortReversesThree<T>(cmp: (T, T) -> int, a: T, b: T, c: T)
    requires cmp(a, b) > 0 && cmp(a, c) > 0 && cmp(b, c) > 0
    ensures Sort(cmp, [a, b, c]) == [c, b, a]
  {
    assert [a, b, c][..2] == [a, b] && [a, b][..1] == [a] && [a][..0] == [];
    assert [b, a][..1] == [b] && [b][..0] == [];
    assert Sort(cmp, [a]) == Insert(cmp, [], a) == [a];
    assert Sort(cmp, [a, b]) == Insert(cmp, [a], b) == [b, a];
    assert Insert(cmp, [b, a], c) == Insert(cmp, [b], c) + [a] == [c, b, a];
  }
}

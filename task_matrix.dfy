/** The browser side of the task prioritizer (taskprioritizer/public/index.js): the tasks of
    the last breakdown, bucketed by the case-insensitive `getQuadrant` into the four quadrants
    of the matrix, and rendered one card per task. */
module TaskMatrix {
  import opened Basics
  import opened JsText
  import opened Quadrants
  import opened TaskParser
  import opened StableSort
  import opened TaskPrioritizer

  /** `getQuadrant` calls `toLowerCase` on both fields, which throws when one is missing. */
  predicate Classifiable(t: Subtask)
  {
    t.importance.Some? && t.urgency.Some?
  }

  predicate AllClassifiable(tasks: seq<Subtask>)
  {
    forall i :: 0 <= i < |tasks| ==> Classifiable(tasks[i])
  }

  function ClientQuadrantOf(t: Subtask): Quadrant
    requires Classifiable(t)
  {
    ClientQuadrant(t.importance.value, t.urgency.value)
  }

  /** Membership of the bucket `quadrants[q]`. */
  function InBucket(q: Quadrant): Subtask -> bool
  {
    t => Classifiable(t) && ClientQuadrantOf(t) == q
  }

  /** The `forEach` of `renderTaskMatrix`: each task is pushed onto the bucket of its quadrant. */
  method Bucket(tasks: seq<Subtask>)
    returns (doTasks: seq<Subtask>, decideTasks: seq<Subtask>, delegateTasks: seq<Subtask>, deleteTasks: seq<Subtask>)
    requires AllClassifiable(tasks)
    ensures doTasks == Filter(tasks, InBucket(Do))
    ensures decideTasks == Filter(tasks, InBucket(Decide))
    ensures delegateTasks == Filter(tasks, InBucket(Delegate))
    ensures deleteTasks == Filter(tasks, InBucket(Delete))
  {
    doTasks, decideTasks, delegateTasks, deleteTasks := [], [], [], [];
    var i := 0;
    while i < |tasks|
      invariant 0 <= i <= |tasks|
      invariant doTasks == Filter(tasks[..i], InBucket(Do))
      invariant decideTasks == Filter(tasks[..i], InBucket(Decide))
      invariant delegateTasks == Filter(tasks[..i], InBucket(Delegate))
      invariant deleteTasks == Filter(tasks[..i], InBucket(Delete))
    {
      var task := tasks[i];
      assert tasks[..i + 1] == tasks[..i] + [task];
      FilterAppend(tasks[..i], [task], InBucket(Do));
      FilterAppend(tasks[..i], [task], InBucket(Decide));
      FilterAppend(tasks[..i], [task], InBucket(Delegate));
      FilterAppend(tasks[..i], [task], InBucket(Delete));
      var quadrant := ClientQuadrant(task.importance.value, task.urgency.value);
      match quadrant {
        case Do => doTasks := doTasks + [task];
        case Decide => decideTasks := decideTasks + [task];
        case Delegate => delegateTasks := delegateTasks + [task];
        case Delete => deleteTasks := deleteTasks + [task];
      }
      i := i + 1;
    }
    assert tasks[..|tasks|] == tasks;
  }

  /** The elements that a total classifier puts in quadrant `q`. */
  function ByQuadrant<T>(cls: T -> Quadrant, q: Quadrant): T -> bool
  {
    t => cls(t) == q
  }

  /** A total classifier splits any sequence into four filters that hold each element
      exactly once. */
  lemma {:induction false} QuadrantPartition<T>(s: seq<T>, cls: T -> Quadrant)
    ensures multiset(Filter(s, ByQuadrant(cls, Do))) + multiset(Filter(s, ByQuadrant(cls, Decide)))
            + multiset(Filter(s, ByQuadrant(cls, Delegate))) + multiset(Filter(s, ByQuadrant(cls, Delete)))
            == multiset(s)
  {
    if s != [] {
      QuadrantPartition(s[1..], cls);
      assert s == [s[0]] + s[1..];
    }
  }

  /** A sequence ordered by descending quadrant weight is its four quadrant filters, from
      "do" to "delete", laid end to end. */
  lemma {:induction false} QuadrantRuns<T>(s: seq<T>, cls: T -> Quadrant)
    requires forall i, j :: 0 <= i < j < |s| ==> Weight(cls(s[i])) >= Weight(cls(s[j]))
    ensures Filter(s, ByQuadrant(cls, Do)) + Filter(s, ByQuadrant(cls, Decide))
            + Filter(s, ByQuadrant(cls, Delegate)) + Filter(s, ByQuadrant(cls, Delete)) == s
    decreases |s|
  {
    if s != [] {
      var first, rest := s[0], s[1..];
      var w := Weight(cls(first));
      assert forall k :: 0 <= k < |rest| ==> Weight(cls(rest[k])) <= w by {
        assert forall k :: 0 <= k < |rest| ==> rest[k] == s[k + 1];
      }
      QuadrantRuns(rest, cls);
      NoneAbove(rest, cls, w);
      RunsCons(first, Filter(rest, ByQuadrant(cls, Do)), Filter(rest, ByQuadrant(cls, Decide)),
        Filter(rest, ByQuadrant(cls, Delegate)), Filter(rest, ByQuadrant(cls, Delete)), 4 - w);
    }
  }

  /** No element of `s` is in a quadrant that outweighs all of theirs. */
  lemma NoneAbove<T>(s: seq<T>, cls: T -> Quadrant, w: int)
    requires forall k :: 0 <= k < |s| ==> Weight(cls(s[k])) <= w
    ensures w < 4 ==> Filter(s, ByQuadrant(cls, Do)) == []
    ensures w < 3 ==> Filter(s, ByQuadrant(cls, Decide)) == []
    ensures w < 2 ==> Filter(s, ByQuadrant(cls, Delegate)) == []
  {
    if w < 4 {
      FilterNone(s, ByQuadrant(cls, Do));
    }
    if w < 3 {
      FilterNone(s, ByQuadrant(cls, Decide));
    }
    if w < 2 {
      FilterNone(s, ByQuadrant(cls, Delegate));
    }
  }

  /** Putting `x` in front of run `j` of four runs, all earlier ones empty, puts it in
      front of their concatenation. */
  lemma RunsCons<T>(x: T, a: seq<T>, b: seq<T>, c: seq<T>, d: seq<T>, j: int)
    requires 0 <= j < 4
    requires (j >= 1 ==> a == []) && (j >= 2 ==> b == []) && (j >= 3 ==> c == [])
    ensures (if j == 0 then [x] + a else a) + (if j == 1 then [x] + b else b)
            + (if j == 2 then [x] + c else c) + (if j == 3 then [x] + d else d)
            == [x] + (a + b + c + d)
  {
  }

  /** The classifier of the buckets, made total for the proofs: it is only ever applied to
      classifiable tasks. */
  function BucketKey(t: Subtask): Quadrant
  {
    if Classifiable(t) then ClientQuadrantOf(t) else Delete
  }

  lemma BucketsAreByQuadrant(tasks: seq<Subtask>, q: Quadrant)
    requires AllClassifiable(tasks)
    ensures Filter(tasks, InBucket(q)) == Filter(tasks, ByQuadrant(BucketKey, q))
  {
    forall i | 0 <= i < |tasks|
      ensures InBucket(q)(tasks[i]) == ByQuadrant(BucketKey, q)(tasks[i])
    {
      var t := tasks[i];
      assert Classifiable(t);
      assert InBucket(q)(t) == (ClientQuadrantOf(t) == q);
      assert ByQuadrant(BucketKey, q)(t) == (BucketKey(t) == q);
    }
    FilterCongruent(tasks, InBucket(q), ByQuadrant(BucketKey, q));
  }

  /** Every task lands in exactly one bucket: together the buckets hold each task as often
      as `tasks` does, so their sizes add up to `tasks.length`. */
  lemma BucketsPartition(tasks: seq<Subtask>)
    requires AllClassifiable(tasks)
    ensures multiset(Filter(tasks, InBucket(Do))) + multiset(Filter(tasks, InBucket(Decide)))
            + multiset(Filter(tasks, InBucket(Delegate))) + multiset(Filter(tasks, InBucket(Delete)))
            == multiset(tasks)
    ensures |Filter(tasks, InBucket(Do))| + |Filter(tasks, InBucket(Decide))|
            + |Filter(tasks, InBucket(Delegate))| + |Filter(tasks, InBucket(Delete))| == |tasks|
  {
    BucketsAreByQuadrant(tasks, Do);
    BucketsAreByQuadrant(tasks, Decide);
    BucketsAreByQuadrant(tasks, Delegate);
    BucketsAreByQuadrant(tasks, Delete);
    QuadrantPartition(tasks, BucketKey);
  }

  /** On a task as the parser leaves it, the browser's quadrant is the server's. */
  lemma ClientAgreesWithServer(t: Subtask)
    requires Lowered(t)
    ensures Classifiable(t) && ClientQuadrantOf(t) == QuadrantOf(t)
  {
    ClientAgreesOnLowerCase(t.importance.value, t.urgency.value);
  }

  /** A breakdown from the server, whose tasks the parser produced and the server sorted by
      quadrant, falls into the four buckets in its own order: reading the matrix from "do" to
      "delete" gives back the server's list. */
  lemma BucketsFollowServerOrder(tasks: seq<Subtask>)
    requires AllLowered(tasks) && KeyDescending(Priority, tasks)
    ensures Filter(tasks, InBucket(Do)) + Filter(tasks, InBucket(Decide))
            + Filter(tasks, InBucket(Delegate)) + Filter(tasks, InBucket(Delete)) == tasks
  {
    forall i | 0 <= i < |tasks|
      ensures Classifiable(tasks[i]) && BucketKey(tasks[i]) == QuadrantOf(tasks[i])
    {
      ClientAgreesWithServer(tasks[i]);
    }
    forall q | q in [Do, Decide, Delegate, Delete]
      ensures Filter(tasks, InBucket(q)) == Filter(tasks, ByQuadrant(QuadrantOf, q))
    {
      BucketsAreByQuadrant(tasks, q);
      FilterCongruent(tasks, ByQuadrant(BucketKey, q), ByQuadrant(QuadrantOf, q));
    }
    QuadrantRuns(tasks, QuadrantOf);
  }

  // ----- cards -----

  /** One rendered card: the texts of its four lines (the HTML around them is markup). */
  datatype Card = Card(title: string, description: string, time: string, importance: string, urgency: string)

  /** `field || fallback` on a field that may be undefined. */
  function OrElse(field: Option<string>, fallback: string): string
  {
    if Truthy(field) then field.value else fallback
  }

  const NotSpecified := "Not specified"

  /** The card of one task, with a placeholder for every falsy field. */
  function CardOf(t: Subtask): Card
  {
    Card(OrElse(t.mainTask, "No main task"),
         OrElse(Some(t.description), "No description"),
         OrElse(t.estimatedTime, NotSpecified),
         OrElse(t.importance, NotSpecified),
         OrElse(t.urgency, NotSpecified))
  }

  /** `renderQuadrantTasks`: one card per task, in order. */
  function RenderQuadrantTasks(tasks: seq<Subtask>): seq<Card>
  {
    seq(|tasks|, i requires 0 <= i < |tasks| => CardOf(tasks[i]))
  }

  /** A task as the parser returns it shows its own description, time and levels; only the
      title can be a placeholder, and only when the request had no task. */
  lemma ParsedCardHasNoPlaceholder(t: Subtask)
    requires Lowered(t)
    ensures CardOf(t) == Card(OrElse(t.mainTask, "No main task"), t.description,
                              t.estimatedTime.value, t.importance.value, t.urgency.value)
    ensures CardOf(t).title == "No main task" <==> !Truthy(t.mainTask) || t.mainTask == Some("No main task")
  {
  }

  lemma RenderAppend(a: seq<Subtask>, b: seq<Subtask>)
    ensures RenderQuadrantTasks(a + b) == RenderQuadrantTasks(a) + RenderQuadrantTasks(b)
  {
  }

  // ----- the matrix -----

  /** A quadrant of the matrix: its heading and its cards. */
  datatype Section = Section(heading: string, cards: seq<Card>)

  /** The four sections of `renderTaskMatrix`, in page order. */
  function Matrix(tasks: seq<Subtask>): seq<Section>
  {
    [Section("Do (Important & Urgent)", RenderQuadrantTasks(Filter(tasks, InBucket(Do)))),
     Section("Decide (Important & Not Urgent)", RenderQuadrantTasks(Filter(tasks, InBucket(Decide)))),
     Section("Delegate (Not Important & Urgent)", RenderQuadrantTasks(Filter(tasks, InBucket(Delegate)))),
     Section("Delete (Not Important & Not Urgent)", RenderQuadrantTasks(Filter(tasks, InBucket(Delete))))]
  }

  /** The cards of a server breakdown, read section by section, are the cards of the
      breakdown in the server's order. */
  lemma MatrixShowsServerOrder(tasks: seq<Subtask>)
    requires AllLowered(tasks) && KeyDescending(Priority, tasks)
    ensures var m := Matrix(tasks);
      m[0].cards + m[1].cards + m[2].cards + m[3].cards == RenderQuadrantTasks(tasks)
  {
    BucketsFollowServerOrder(tasks);
    var d0, d1, d2, d3 := Filter(tasks, InBucket(Do)), Filter(tasks, InBucket(Decide)),
      Filter(tasks, InBucket(Delegate)), Filter(tasks, InBucket(Delete));
    RenderAppend(d0, d1);
    RenderAppend(d0 + d1, d2);
    RenderAppend(d0 + d1 + d2, d3);
  }

  /** The page's module-level `tasks` and the matrix rendered from it. */
  class TaskMatrixView {
    var tasks: seq<Subtask>
    var sections: seq<Section>

    /** `let tasks = []` and the initial render. */
    constructor()
      ensures tasks == [] && sections == Matrix([])
    {
      tasks := [];
      sections := Matrix([]);
    }

    /** `renderTaskMatrix()`. */
    method RenderTaskMatrix()
      requires AllClassifiable(tasks)
      modifies this
      ensures tasks == old(tasks) && sections == Matrix(tasks)
    {
      var doTasks, decideTasks, delegateTasks, deleteTasks := Bucket(tasks);
      sections := [Section("Do (Important & Urgent)", RenderQuadrantTasks(doTasks)),
                   Section("Decide (Important & Not Urgent)", RenderQuadrantTasks(decideTasks)),
                   Section("Delegate (Not Important & Urgent)", RenderQuadrantTasks(delegateTasks)),
                   Section("Delete (Not Important & Not Urgent)", RenderQuadrantTasks(deleteTasks))];
    }

    /** The handler of the `/breakdown` reply: an array `breakdown` replaces the tasks and is
        rendered; anything else (`None`) is only logged. */
    method ReceiveBreakdown(breakdown: Option<seq<Subtask>>)
      requires breakdown.Some? ==> AllClassifiable(breakdown.value)
      modifies this
      ensures breakdown.Some? ==> tasks == breakdown.value && sections == Matrix(tasks)
      ensures breakdown.None? ==> tasks == old(tasks) && sections == old(sections)
    {
      if breakdown.Some? {
        tasks := breakdown.value;
        RenderTaskMatrix();
      }
    }
  }

  /** What the server sends after a successful request can always be classified. */
  lemma ServerBreakdownClassifiable(tasks: seq<Subtask>)
    requires AllLowered(tasks)
    ensures AllClassifiable(tasks)
  {
  }
}

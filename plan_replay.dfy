/**
 * Replaying a chain of builder calls onto a filter record. Replaying a
 * record's tasks plan gives the record's canonical spelling, so replay is a
 * left inverse of the plan on canonical records; records that differ only
 * in spelling build the same plan. This is a reference definition
 * that lets the model state that the plan loses nothing; the store's own
 * row filtering is not modelled.
 */
module PlanReplay {
  import opened Wrappers
  import opened TasksApi

  /** The search term a search pattern embeds, if the text is such a pattern. */
  function SearchTerm(pattern: string): (term: Option<string>)
    ensures term.Some? ==> SearchPattern(term.value) == pattern
  {
    var fixed := |SearchPrefix| + |SearchMiddle| + |SearchSuffix|;
    if |pattern| < fixed then None
    else
      var candidate := pattern[|SearchPrefix|..|SearchPrefix| + (|pattern| - fixed) / 2];
      if SearchPattern(candidate) == pattern then Some(candidate) else None
  }

  /** The term a search pattern was built from is recovered from it. */
  lemma SearchTermOfPattern(term: string)
    ensures SearchTerm(SearchPattern(term)) == Some(term)
  {
    var pattern := SearchPattern(term);
    assert |pattern| == |SearchPrefix| + |SearchMiddle| + |SearchSuffix| + 2 * |term|;
    assert pattern[|SearchPrefix|..|SearchPrefix| + |term|] == term;
  }

  /** Distinct search terms give distinct patterns. */
  lemma SearchPatternInjective(a: string, b: string)
    ensures SearchPattern(a) == SearchPattern(b) <==> a == b
  {
    if SearchPattern(a) == SearchPattern(b) {
      SearchTermOfPattern(a);
      SearchTermOfPattern(b);
    }
  }

  /** The filter field a builder call narrows or orders by, written back. */
  function ApplyOp(filters: TaskFilters, op: QueryOp): TaskFilters
  {
    match op
    case Eq(column, v) =>
      if column == "priority" then filters.(priority := Some(v))
      else if column == "status" then filters.(status := Some(v))
      else filters
    case OrIlike(pattern) =>
      (match SearchTerm(pattern)
       case Some(term) => filters.(search := Some(term))
       case None => filters)
    case Gte(column, v) => if column == "due_date" then filters.(dueDateGte := Some(v)) else filters
    case Lte(column, v) => if column == "due_date" then filters.(dueDateLte := Some(v)) else filters
    case Order(column, ascending) => filters.(ordering := Some(OrderingDirective(column, ascending)))
  }

  /** Replays a chain of calls, first call first. */
  function Replay(ops: seq<QueryOp>, acc: TaskFilters): TaskFilters
    decreases |ops|
  {
    if ops == [] then acc else Replay(ops[1..], ApplyOp(acc, ops[0]))
  }

  lemma {:induction false} ReplayAppend(a: seq<QueryOp>, b: seq<QueryOp>, acc: TaskFilters)
    ensures Replay(a + b, acc) == Replay(b, Replay(a, acc))
    decreases |a|
  {
    if a == [] {
      assert a + b == b;
    } else {
      assert (a + b)[0] == a[0];
      assert (a + b)[1..] == a[1..] + b;
      ReplayAppend(a[1..], b, ApplyOp(acc, a[0]));
    }
  }

  lemma ReplayAtMostOne(ops: seq<QueryOp>, acc: TaskFilters)
    requires |ops| <= 1
    ensures Replay(ops, acc) == if ops == [] then acc else ApplyOp(acc, ops[0])
  {
  }

  /** A set field as it is, an unset one (absent or `''`) as absent. */
  function Normal(field: Option<string>): (n: Option<string>)
    ensures Truthy(n) == Truthy(field)
    ensures n.None? <==> !Truthy(field)
    ensures n.Some? ==> n == field
  {
    if Truthy(field) then field else None
  }

  /** The ordering directive the default order is written as. */
  const DefaultDirective := "-created_at"

  /**
   * The canonical spelling of a filter record: unset fields absent, and an
   * unset ordering written as the default directive it stands for.
   */
  function Canonical(filters: TaskFilters): TaskFilters
  {
    TaskFilters(
      Normal(filters.priority), Normal(filters.status), Normal(filters.search),
      Normal(filters.dueDateGte), Normal(filters.dueDateLte),
      Some(if Truthy(filters.ordering) then filters.ordering.value else DefaultDirective))
  }

  /** Replaying the tasks plan onto the empty record gives the canonical filters. */
  lemma ReplayPlan(filters: TaskFilters)
    ensures Replay(TaskPlan(filters), NoFilters) == Canonical(filters)
  {
    var p, s, q, g, l := PriorityCalls(filters), StatusCalls(filters), SearchCalls(filters),
                         DueFromCalls(filters), DueUntilCalls(filters);
    var o := [OrderFor(filters.ordering)];
    assert TaskPlan(filters) == p + s + q + g + l + o;
    ReplayAppend(p + s + q + g + l, o, NoFilters);
    ReplayAppend(p + s + q + g, l, NoFilters);
    ReplayAppend(p + s + q, g, NoFilters);
    ReplayAppend(p + s, q, NoFilters);
    ReplayAppend(p, s, NoFilters);
    var f1 := Replay(p, NoFilters);
    ReplayAtMostOne(p, NoFilters);
    var f2 := Replay(s, f1);
    ReplayAtMostOne(s, f1);
    var f3 := Replay(q, f2);
    ReplayAtMostOne(q, f2);
    if Truthy(filters.search) {
      SearchTermOfPattern(filters.search.value);
    }
    var f4 := Replay(g, f3);
    ReplayAtMostOne(g, f3);
    var f5 := Replay(l, f4);
    ReplayAtMostOne(l, f4);
    ReplayAtMostOne(o, f5);
    assert OrderingDirective("created_at", false) == DefaultDirective;
  }

  /** The plan depends on the canonical spelling only. */
  lemma PlanOfCanonical(filters: TaskFilters)
    ensures TaskPlan(Canonical(filters)) == TaskPlan(filters)
  {
  }

  /**
   * Two filter records build the same tasks query exactly when they spell
   * the same canonical filters.
   */
  lemma PlanDeterminesFilters(f: TaskFilters, g: TaskFilters)
    ensures TaskPlan(f) == TaskPlan(g) <==> Canonical(f) == Canonical(g)
  {
    if TaskPlan(f) == TaskPlan(g) {
      ReplayPlan(f);
      ReplayPlan(g);
    }
    if Canonical(f) == Canonical(g) {
      PlanOfCanonical(f);
      PlanOfCanonical(g);
    }
  }
}

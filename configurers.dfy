/**
 * Configurer handling in `PicoLifespanConfigurer`: dropping objects that do
 * not implement the `FastApiConfigurer` protocol, and splitting the rest
 * into inner (priority >= 0) and outer (priority < 0) groups, each in
 * ascending priority order.
 */
module Configurers {
  import opened Objects
  import opened Seqs
  import opened Priority

  /**
   * A candidate configurer: an identity, what `getattr(c, "priority", 0)`
   * finds, whether `isinstance(c, FastApiConfigurer)` holds (the runtime
   * protocol check), and whether its `configure_app` is callable.
   */
  datatype Candidate = Candidate(id: nat, priority: Lookup, conformsToProtocol: bool, configureAppCallable: bool)

  predicate IsValid(c: Candidate)
  {
    c.conformsToProtocol && c.configureAppCallable
  }

  /** `_priority_of(c)`, the sort key. */
  function Key(c: Candidate): int
  {
    PriorityOf(c.priority)
  }

  predicate IsInner(c: Candidate)
  {
    Key(c) >= 0
  }

  /**
   * `_validate_configurers`: keeps the valid candidates in order and logs a
   * warning for each other one; `warnings` lists the discarded candidates in
   * the order they were logged. It never fails.
   */
  method ValidateConfigurers(candidates: seq<Candidate>) returns (valid: seq<Candidate>, warnings: seq<Candidate>)
    ensures valid == Filter(candidates, IsValid)
    ensures warnings == Filter(candidates, Not(IsValid))
  {
    valid, warnings := [], [];
    for i := 0 to |candidates|
      invariant valid == Filter(candidates[..i], IsValid)
      invariant warnings == Filter(candidates[..i], Not(IsValid))
    {
      var c := candidates[i];
      assert candidates[..i + 1][..i] == candidates[..i];
      if c.conformsToProtocol && c.configureAppCallable {
        valid := valid + [c];
      } else {
        warnings := warnings + [c];
      }
    }
    assert candidates[..|candidates|] == candidates;
  }

  /** Every candidate is either kept or warned about, never both and never neither. */
  lemma ValidationLosesNothing(candidates: seq<Candidate>)
    ensures multiset(Filter(candidates, IsValid)) + multiset(Filter(candidates, Not(IsValid))) == multiset(candidates)
    ensures forall c :: c in Filter(candidates, IsValid) ==> IsValid(c)
    ensures forall c :: c in candidates && IsValid(c) ==> c in Filter(candidates, IsValid)
  {
    FilterPartition(candidates, IsValid);
    forall c | c in candidates && IsValid(c) ensures c in Filter(candidates, IsValid) {
      FilterCounts(candidates, IsValid, c);
      assert multiset(Filter(candidates, IsValid))[c] > 0;
    }
  }

  /** `_split_configurers_by_priority`: `sorted(key=_priority_of)`, then two comprehensions. */
  function SplitByPriority(configurers: seq<Candidate>): (r: (seq<Candidate>, seq<Candidate>))
    ensures forall c :: c in r.0 ==> Key(c) >= 0
    ensures forall c :: c in r.1 ==> Key(c) < 0
  {
    var sorted := SortBy(configurers, Key);
    FilterMembers(sorted, IsInner);
    FilterMembers(sorted, Not(IsInner));
    (Filter(sorted, IsInner), Filter(sorted, Not(IsInner)))
  }

  /**
   * The split is a partition of its input into an inner group (priority >= 0)
   * and an outer group (priority < 0), each ascending by priority, and
   * configurers of equal priority keep their input order.
   */
  lemma SplitByPriorityCorrect(configurers: seq<Candidate>)
    ensures var (inner, outer) := SplitByPriority(configurers);
            && multiset(inner + outer) == multiset(configurers)
            && SortedBy(inner, Key) && SortedBy(outer, Key)
            && (forall p :: Filter(inner + outer, KeyIs(Key, p)) == Filter(configurers, KeyIs(Key, p)))
  {
    var sorted := SortBy(configurers, Key);
    var (inner, outer) := SplitByPriority(configurers);
    FilterPartition(sorted, IsInner);
    SortByIsSorted(configurers, Key);
    FilterKeepsSorted(sorted, IsInner, Key);
    FilterKeepsSorted(sorted, Not(IsInner), Key);
    forall p ensures Filter(inner + outer, KeyIs(Key, p)) == Filter(configurers, KeyIs(Key, p)) {
      var same := KeyIs(Key, p);
      FilterAppend(inner, outer, same);
      SortByIsStable(configurers, Key, p);
      if p >= 0 {
        FilterOfFilter(sorted, IsInner, same);
        FilterOfFilterDisjoint(sorted, Not(IsInner), same);
      } else {
        FilterOfFilterDisjoint(sorted, IsInner, same);
        FilterOfFilter(sorted, Not(IsInner), same);
      }
    }
  }
}

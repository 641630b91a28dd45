/** The estimator's form record and the toggle its checkbox handlers apply to it. */
module Selection {
  import opened Arrays

  /** The form: one chosen id per single-choice group (`""` while none is chosen),
      the ticked feature and integration ids in ticking order, the page slider
      and the maintenance checkbox. */
  datatype CalculatorState = CalculatorState(
    projectType: string,
    features: seq<string>,
    timeline: string,
    complexity: string,
    pages: int,
    integrations: seq<string>,
    maintenance: bool)

  /** The form as the component mounts it: nothing chosen or ticked, five pages. */
  function Initial(): (s: CalculatorState)
    ensures Consistent(s)
  {
    CalculatorState("", [], "", "", 5, [], false)
  }

  /** What every reachable form satisfies: no id ticked twice, the slider within its 1..50 range. */
  predicate Consistent(s: CalculatorState)
    ensures Consistent(s) ==>
      forall x :: multiset(s.features)[x] <= 1 && multiset(s.integrations)[x] <= 1
  {
    NoDupCounts(s.features);
    NoDupCounts(s.integrations);
    NoDup(s.features) && NoDup(s.integrations) && 1 <= s.pages <= 50
  }

  /** `ids.includes(id) ? ids.filter(f => f !== id) : [...ids, id]`: flips whether `id` is ticked. */
  function Toggle(ids: seq<string>, id: string): (r: seq<string>)
    ensures id in r <==> id !in ids
    ensures forall x :: x != id ==> multiset(r)[x] == multiset(ids)[x]
  {
    if id in ids then
      var r := Without(ids, id);
      assert id !in multiset(r);
      r
    else ids + [id]
  }

  /** Ticking and then unticking an id returns the list exactly as it was. */
  lemma ToggleTwiceAbsent(ids: seq<string>, id: string)
    requires id !in ids
    ensures Toggle(Toggle(ids, id), id) == ids
  {
    WithoutAppended(ids, id);
  }

  /** Unticking and re-ticking an id keeps the same ids; only its position moves to the end. */
  lemma ToggleTwicePresent(ids: seq<string>, id: string)
    requires NoDup(ids) && id in ids
    ensures multiset(Toggle(Toggle(ids, id), id)) == multiset(ids)
    ensures Toggle(Toggle(ids, id), id) == Without(ids, id) + [id]
  {
    NoDupOccursOnce(ids, id);
  }

  /** Toggling never introduces a duplicate. */
  lemma ToggleKeepsNoDup(ids: seq<string>, id: string)
    requires NoDup(ids)
    ensures NoDup(Toggle(ids, id))
  {
    if id in ids {
      WithoutNoDup(ids, id);
    } else {
      var r := ids + [id];
      forall i, j | 0 <= i < j < |r| ensures r[i] != r[j] {
        if j == |ids| {
          assert r[i] == ids[i];
        }
      }
    }
  }
}

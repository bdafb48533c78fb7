/**
 * The caller's use of the answer: when it is truthy, show it and the total
 * `sum(item.get("calories", 0) for item in results)`.
 */
module Calories {

  import opened Wrappers
  import opened PyJson
  import Payload

  /**
   * One term of the sum, `item.get("calories", 0)`, as an integer; None when
   * the term raises: `item` is not a dict (no `get`), or its calories cannot
   * be added to an int. A Python bool adds as 0 or 1.
   */
  function CaloriesOf(item: Json): (c: Option<int>)
    // Only a dict has `get`, and only an int (or a bool) adds to the running int.
    ensures c.Some? <==>
      item.JObj? && ("calories" in item.fields ==> item.fields["calories"].JNum? || item.fields["calories"].JBool?)
    // The default 0 when the field is missing; the number itself when present.
    ensures item.JObj? && "calories" !in item.fields ==> c == Some(0)
    ensures item.JObj? && "calories" in item.fields && item.fields["calories"].JNum? ==> c == Some(item.fields["calories"].n)
    // Python adds True as 1 and False as 0.
    ensures item.JObj? && "calories" in item.fields && item.fields["calories"].JBool? ==>
      c == Some(if item.fields["calories"].b then 1 else 0)
  {
    match item
    case JObj(fields) =>
      if "calories" !in fields then Some(0)
      else (match fields["calories"]
            case JNum(n) => Some(n)
            case JBool(b) => Some(if b then 1 else 0)
            case _ => None)
    case _ => None
  }

  /** Integer addition that propagates a raised exception. */
  function Plus(a: Option<int>, b: Option<int>): (r: Option<int>)
    ensures r.Some? <==> a.Some? && b.Some?
    ensures r.Some? ==> r.value == a.value + b.value
  {
    if a.Some? && b.Some? then Some(a.value + b.value) else None
  }

  /** The total calories of a list of results; None when summing raises. */
  function TotalCalories(items: seq<Json>): (total: Option<int>)
    ensures total.Some? <==> forall i :: 0 <= i < |items| ==> CaloriesOf(items[i]).Some?
    ensures items == [] ==> total == Some(0)
  {
    if items == [] then Some(0)
    else Plus(CaloriesOf(items[0]), TotalCalories(items[1..]))
  }

  /** The total of one item is its calories, 0 when the field is missing. */
  lemma TotalSingle(item: Json)
    ensures TotalCalories([item]) == CaloriesOf(item)
    ensures item.JObj? && "calories" !in item.fields ==> TotalCalories([item]) == Some(0)
  {
    assert [item][1..] == [];
  }

  /** The total is additive: the total of two lists joined is the sum of their totals. */
  lemma {:induction false} TotalAppend(a: seq<Json>, b: seq<Json>)
    ensures TotalCalories(a + b) == Plus(TotalCalories(a), TotalCalories(b))
  {
    if a == [] {
      assert a + b == b;
    } else {
      assert (a + b)[0] == a[0];
      assert (a + b)[1..] == a[1..] + b;
      TotalAppend(a[1..], b);
    }
  }

  /** Non-negative estimates give a non-negative total. */
  lemma {:induction false} TotalNonNegative(items: seq<Json>)
    requires forall i :: 0 <= i < |items| ==> CaloriesOf(items[i]).Some? && CaloriesOf(items[i]).value >= 0
    ensures TotalCalories(items).Some? && TotalCalories(items).value >= 0
  {
    if items != [] {
      TotalNonNegative(items[1..]);
    }
  }

  /**
   * Whenever the backend honours the declared response schema, the total
   * can be computed: every admitted element is a dict whose calories, if
   * present, is a number.
   */
  lemma AdmittedHasTotal(items: seq<Json>)
    requires Payload.Admits(Payload.ResponseSchema, JArr(items), Payload.SchemaDepth)
    ensures TotalCalories(items).Some?
  {
    Payload.AdmitsElementwise(items);
    forall i | 0 <= i < |items|
      ensures CaloriesOf(items[i]).Some?
    {
      Payload.AdmitsEstimate(items[i]);
    }
  }

  /** What the page shows for the answer of one call. */
  datatype Report =
    | NoBreakdown                          // `if results:` is false: nothing shown
    | Breakdown(rows: seq<Json>, total: int)
    | Crashed                              // an exception reached the page: from the call or from the sum

  /** `if results:` ... `total_calories = sum(...)` */
  function Summarize(results: Option<Json>): (r: Report)
    ensures r.NoBreakdown? <==> !Truthy(results)
    ensures r.Breakdown? ==> results == Some(JArr(r.rows)) && r.rows != []
  {
    if !Truthy(results) then NoBreakdown
    else match results.value
      case JArr(items) =>
        (match TotalCalories(items) case Some(t) => Breakdown(items, t) case None => Crashed)
      case _ => Crashed  // iterating a dict, string or number gives no items with `get`
  }

  /**
   * A breakdown is shown exactly for a non-empty list whose every element
   * can be counted, and its total is the list's total.
   */
  lemma BreakdownExactly(results: Option<Json>)
    ensures Summarize(results).Breakdown? <==>
      results.Some? && results.value.JArr? && results.value.items != [] &&
      forall i :: 0 <= i < |results.value.items| ==> CaloriesOf(results.value.items[i]).Some?
    ensures Summarize(results).Breakdown? ==> Some(Summarize(results).total) == TotalCalories(results.value.items)
  {
  }
}

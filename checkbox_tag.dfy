/**
 * A category chip bound to the form's list of selected tags: it shows as
 * checked when the list holds its value, and a change event builds the new
 * list by appending (checked) or filtering out (unchecked) that value.
 */
module CheckboxTag {
  import opened Lists

  /** The chip's displayed state: `field.value.includes(value)`, true exactly when v occurs at least once. */
  function IsChecked(fieldValue: seq<string>, v: string): (r: bool)
    ensures r <==> multiset(fieldValue)[v] > 0
  {
    v in fieldValue
  }

  /** Checking appends, without removing an earlier copy of the value. */
  function Check(fieldValue: seq<string>, v: string): (r: seq<string>)
    ensures |r| == |fieldValue| + 1 && r[|fieldValue|] == v
    ensures r[..|fieldValue|] == fieldValue
    ensures multiset(r)[v] == multiset(fieldValue)[v] + 1
  {
    fieldValue + [v]
  }

  /** Unchecking drops every copy of the value and keeps the rest in order. */
  function Uncheck(fieldValue: seq<string>, v: string): (r: seq<string>)
    ensures !IsChecked(r, v)
    ensures forall w | w != v :: multiset(r)[w] == multiset(fieldValue)[w]
  {
    forall w | w != v ensures multiset(RemoveAll(fieldValue, v))[w] == multiset(fieldValue)[w] {
      RemoveAllCounts(fieldValue, v, w);
    }
    RemoveAll(fieldValue, v)
  }

  /** The new field value of a change event for the chip of value `v`. */
  function HandleCheckbox(fieldValue: seq<string>, checked: bool, v: string): (r: seq<string>)
    ensures IsChecked(r, v) <==> checked
    ensures checked ==> |r| == |fieldValue| + 1
    ensures !checked ==> |r| <= |fieldValue|
  {
    if checked then Check(fieldValue, v) else Uncheck(fieldValue, v)
  }

  /** Unchecking keeps the relative order of what stays: it distributes over concatenation. */
  lemma UncheckKeepsOrder(a: seq<string>, b: seq<string>, v: string)
    ensures Uncheck(a + b, v) == Uncheck(a, v) + Uncheck(b, v)
  {
    RemoveAllConcat(a, b, v);
  }

  lemma UncheckIdempotent(fieldValue: seq<string>, v: string)
    ensures Uncheck(Uncheck(fieldValue, v), v) == Uncheck(fieldValue, v)
  {
    RemoveAllIdempotent(fieldValue, v);
  }

  /** Checking a value that was not selected and then unchecking it restores the list. */
  lemma CheckThenUncheck(fieldValue: seq<string>, v: string)
    requires !IsChecked(fieldValue, v)
    ensures Uncheck(Check(fieldValue, v), v) == fieldValue
  {
    RemoveAllConcat(fieldValue, [v], v);
    RemoveAllAbsent(fieldValue, v);
  }
}

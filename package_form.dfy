/** The service selection of the medical-package form (pages/admin/components/MedicalPackageFormModal.tsx). */
module PackageForm {
  import opened Wrappers

  /** `ids.filter((id) => id !== x)`. */
  function Remove(ids: seq<string>, x: string): seq<string>
    decreases |ids|
  {
    if ids == [] then []
    else if ids[0] == x then Remove(ids[1..], x)
    else [ids[0]] + Remove(ids[1..], x)
  }

  /** Filtering drops every occurrence of `x` and keeps every other id exactly as often. */
  lemma {:induction false} RemoveCounts(ids: seq<string>, x: string)
    ensures x !in Remove(ids, x)
    ensures forall y :: y != x ==> multiset(Remove(ids, x))[y] == multiset(ids)[y]
    ensures |Remove(ids, x)| == |ids| - multiset(ids)[x]
    decreases |ids|
  {
    if ids != [] {
      RemoveCounts(ids[1..], x);
      assert ids == [ids[0]] + ids[1..];
    }
  }

  /** Filtering respects concatenation, so the remaining ids keep their order. */
  lemma {:induction false} RemoveConcat(a: seq<string>, b: seq<string>, x: string)
    ensures Remove(a + b, x) == Remove(a, x) + Remove(b, x)
    decreases |a|
  {
    if a == [] {
      assert a + b == b;
    } else {
      RemoveConcat(a[1..], b, x);
      assert (a + b)[1..] == a[1..] + b;
    }
  }

  /** Filtering out an id that does not occur changes nothing. */
  lemma {:induction false} RemoveAbsent(ids: seq<string>, x: string)
    requires x !in ids
    ensures Remove(ids, x) == ids
    decreases |ids|
  {
    if ids != [] {
      RemoveAbsent(ids[1..], x);
      assert ids == [ids[0]] + ids[1..];
    }
  }

  /** `handleServiceToggle`: the new `serviceIds`, a missing list counting as empty. */
  function Toggle(serviceIds: Option<seq<string>>, id: string): seq<string> {
    var current := serviceIds.GetOr([]);
    if id in current then Remove(current, id) else current + [id]
  }

  /** The checkbox of service `id`: `formData.serviceIds?.includes(id)`. */
  predicate Checked(serviceIds: Option<seq<string>>, id: string) {
    serviceIds.Some? && id in serviceIds.value
  }

  /** A toggle flips the toggled service's checkbox and leaves every other checkbox as it was. */
  lemma ToggleFlipsOnlyItsCheckbox(serviceIds: Option<seq<string>>, id: string, other: string)
    ensures Checked(Some(Toggle(serviceIds, id)), id) == !Checked(serviceIds, id)
    ensures other != id ==> Checked(Some(Toggle(serviceIds, id)), other) == Checked(serviceIds, other)
  {
    var current := serviceIds.GetOr([]);
    RemoveCounts(current, id);
    if other != id {
      assert other in Remove(current, id) <==> multiset(Remove(current, id))[other] > 0;
      assert other in current <==> multiset(current)[other] > 0;
    }
  }

  /** An absent id is appended at the end; a present one is removed everywhere, the rest in order. */
  lemma ToggleShape(serviceIds: Option<seq<string>>, id: string)
    ensures id !in serviceIds.GetOr([]) ==> Toggle(serviceIds, id) == serviceIds.GetOr([]) + [id]
    ensures id in serviceIds.GetOr([]) ==>
      id !in Toggle(serviceIds, id) && |Toggle(serviceIds, id)| < |serviceIds.GetOr([])|
  {
    var current := serviceIds.GetOr([]);
    if id in current {
      RemoveCounts(current, id);
      assert multiset(current)[id] > 0;
    }
  }

  /** Toggling an absent id twice restores the original list. */
  lemma ToggleTwiceRestores(serviceIds: Option<seq<string>>, id: string)
    requires id !in serviceIds.GetOr([])
    ensures Toggle(Some(Toggle(serviceIds, id)), id) == serviceIds.GetOr([])
  {
    var current := serviceIds.GetOr([]);
    RemoveConcat(current, [id], id);
    RemoveAbsent(current, id);
  }
}

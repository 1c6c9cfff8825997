/** Shared vocabulary of the three services: optional values, the
    first-match search every lookup uses, and the identifier discipline
    that each in-memory store keeps (ids handed out by a `nextId` counter). */
module Common {

  datatype Option<+T> = None | Some(value: T)

  /** Index of the first element of `s` that satisfies `p`, scanning from the
      front as `Array.prototype.find` does; `None` when no element does. */
  function FindIndex<T>(s: seq<T>, p: T -> bool): (r: Option<nat>)
    ensures r.Some? ==> r.value < |s| && p(s[r.value])
    ensures r.Some? ==> forall j :: 0 <= j < r.value ==> !p(s[j])
    ensures r.None? <==> forall j :: 0 <= j < |s| ==> !p(s[j])
  {
    if |s| == 0 then None
    else if p(s[0]) then Some(0)
    else match FindIndex(s[1..], p)
      case None => None
      case Some(i) => Some(i + 1)
  }

  /** The counter is at least 1 and the ids of a store's records, read
      through `idOf`, are all at least 1, all below the counter, and strictly
      increasing in list order. */
  ghost predicate IdsAscending<T>(s: seq<T>, idOf: T -> int, next: int)
  {
    && 1 <= next
    && (forall i :: 0 <= i < |s| ==> 1 <= idOf(s[i]) < next)
    && (forall i, j :: 0 <= i < j < |s| ==> idOf(s[i]) < idOf(s[j]))
  }

  /** Appending a record that carries the current counter value, and then
      advancing the counter, keeps the id discipline. */
  lemma AppendNextId<T>(s: seq<T>, idOf: T -> int, next: int, x: T)
    requires IdsAscending(s, idOf, next)
    requires idOf(x) == next
    ensures IdsAscending(s + [x], idOf, next + 1)
  {
  }

  /** Under the id discipline no two records share an id, and the counter's
      current value is not yet taken. */
  lemma AscendingIdsDistinct<T>(s: seq<T>, idOf: T -> int, next: int)
    requires IdsAscending(s, idOf, next)
    ensures forall i, j :: 0 <= i < |s| && 0 <= j < |s| && i != j ==> idOf(s[i]) != idOf(s[j])
    ensures forall i :: 0 <= i < |s| ==> idOf(s[i]) != next
  {
  }
}

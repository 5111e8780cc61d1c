/**
 Call ids of one reply. Providers may send blank or repeated ids; each call gets one that is its
 own before the batch enters the transcript. The random ids are a parameter.
 */
module CallIds {
  import opened Transcript

  /** The call keeps the id it came with: not blank, and not that of an earlier call. */
  ghost predicate KeepsId(calls: seq<Call>, blank: CallId -> bool, k: nat)
    requires k < |calls|
  {
    !blank(calls[k].id) && forall j :: 0 <= j < k ==> calls[j].id != calls[k].id
  }

  /** The random ids are new: never blank, all different, none of them in the batch. */
  ghost predicate Fresh(calls: seq<Call>, blank: CallId -> bool, random: nat -> CallId) {
    && (forall k :: !blank(random(k)))
    && (forall j, k :: j != k ==> random(j) != random(k))
    && (forall k, i :: 0 <= i < |calls| ==> random(k) != calls[i].id)
  }

  /** The batch with a new id for every call that cannot keep its own. */
  ghost function Renamed(calls: seq<Call>, blank: CallId -> bool, random: nat -> CallId): (r: seq<Call>)
    ensures |r| == |calls|
  {
    seq(|calls|, k requires 0 <= k < |calls| =>
      if KeepsId(calls, blank, k) then calls[k] else calls[k].(id := random(k)))
  }

  /** Every reply then has ids that are different and not blank. */
  lemma {:induction false} RenamedIsDistinct(calls: seq<Call>, blank: CallId -> bool, random: nat -> CallId)
    requires Fresh(calls, blank, random)
    ensures DistinctIds(Renamed(calls, blank, random))
    ensures forall k :: 0 <= k < |calls| ==> !blank(Renamed(calls, blank, random)[k].id)
  {
    var r := Renamed(calls, blank, random);
    forall j, k | 0 <= j < k < |r| ensures r[j].id != r[k].id {
      assert KeepsId(calls, blank, k) ==> calls[j].id != calls[k].id;
    }
  }

  /** A batch that needs nothing is left alone, so renaming twice is renaming once. */
  lemma {:induction false} RenamedOnce(calls: seq<Call>, blank: CallId -> bool, random: nat -> CallId, again: nat -> CallId)
    requires Fresh(calls, blank, random)
    ensures Renamed(Renamed(calls, blank, random), blank, again) == Renamed(calls, blank, random)
  {
    RenamedIsDistinct(calls, blank, random);
    var r := Renamed(calls, blank, random);
    forall k | 0 <= k < |r| ensures KeepsId(r, blank, k) {
    }
  }

  method EnsureUniqueCallIds(calls: array<Call>, blank: CallId -> bool, random: nat -> CallId)
    requires Fresh(calls[..], blank, random)
    modifies calls
    ensures calls[..] == Renamed(old(calls[..]), blank, random)
  {
    var seen := {};
    ghost var was := calls[..];
    for k := 0 to calls.Length
      invariant forall i :: 0 <= i < k ==> calls[i] == Renamed(was, blank, random)[i]
      invariant forall i :: k <= i < calls.Length ==> calls[i] == was[i]
      invariant forall i :: 0 <= i < k && !blank(was[i].id) ==> was[i].id in seen
      invariant forall x :: x in seen ==> (exists i :: 0 <= i < k && x == was[i].id) || (exists i :: 0 <= i < k && x == random(i))
    {
      var id := calls[k].id;
      if blank(id) || id in seen {
        calls[k] := calls[k].(id := random(k));
      }
      seen := seen + {calls[k].id};
    }
  }
}

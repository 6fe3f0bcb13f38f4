/** Counting of the detector's class ids and the `detect` target filter,
    the part of `YOLOStream.recv` that turns one frame's detections into a
    (persons, phones) pair. */
module Detection {

  /** Class ids of the detector's label set that the service tracks. */
  const PersonClass: int := 0
  const PhoneClass: int := 67

  datatype Counts = Counts(persons: nat, phones: nat)

  /** Both tracked classes present. */
  predicate BothPresent(c: Counts) {
    c.persons > 0 && c.phones > 0
  }

  /** Tallies one frame's class ids, visiting them in detector order; every
      id other than the two tracked ones is ignored. */
  function Count(ids: seq<int>): (c: Counts)
    ensures c.persons == multiset(ids)[PersonClass]
    ensures c.phones == multiset(ids)[PhoneClass]
    ensures c.persons + c.phones <= |ids|
  {
    if |ids| == 0 then Counts(0, 0)
    else
      var front := ids[..|ids| - 1];
      var cls := ids[|ids| - 1];
      assert ids == front + [cls];
      var c := Count(front);
      if cls == PersonClass then c.(persons := c.persons + 1)
      else if cls == PhoneClass then c.(phones := c.phones + 1)
      else c
  }

  /** A target value that keeps both counts: anything other than the two
      single-class targets, including "both" and unrecognised strings. */
  predicate TracksBoth(detect: string) {
    detect != "person" && detect != "phone"
  }

  /** The `detect` filter, applied after counting. */
  function ApplyTarget(detect: string, raw: Counts): (c: Counts)
    ensures detect == "person" ==> c.persons == raw.persons && c.phones == 0
    ensures detect == "phone" ==> c.persons == 0 && c.phones == raw.phones
    ensures TracksBoth(detect) ==> c == raw
    ensures BothPresent(c) <==> TracksBoth(detect) && BothPresent(raw)
  {
    if detect == "person" then raw.(phones := 0)
    else if detect == "phone" then raw.(persons := 0)
    else raw
  }

  /** Reference statement of the frame condition that arms the trigger:
      the target keeps both classes and each occurs among the ids. */
  predicate CoOccurs(detect: string, ids: seq<int>) {
    TracksBoth(detect) && PersonClass in multiset(ids) && PhoneClass in multiset(ids)
  }

  /** The filtered counts are both positive exactly when CoOccurs holds. */
  lemma FilteredCountsMatchCoOccurs(detect: string, ids: seq<int>)
    ensures BothPresent(ApplyTarget(detect, Count(ids))) <==> CoOccurs(detect, ids)
  {
  }

  /** A single-class target can never produce the co-occurrence, whatever
      the detector reports. */
  lemma {:induction false} SingleTargetNeverCoOccurs(detect: string, ids: seq<int>)
    requires detect == "person" || detect == "phone"
    ensures !BothPresent(ApplyTarget(detect, Count(ids)))
  {
  }
}

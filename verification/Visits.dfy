/** The evidence a visit must have before a report can be drafted from it. */
module Visits {

  datatype Requirement = Customer | Geolocation | BeforePhotos | AfterPhotosMatchingBefore | RawNotes

  /** What a visit has, with its attached photos counted by phase. */
  datatype Evidence = Evidence(hasCustomer: bool, hasGeolocation: bool, before: nat, after: nat)

  predicate Met(e: Evidence, r: Requirement) {
    match r
    case Customer => e.hasCustomer
    case Geolocation => e.hasGeolocation
    case BeforePhotos => e.before >= 1
    case AfterPhotosMatchingBefore => e.after >= 1 && e.after == e.before
    case RawNotes => true
  }

  /** The order in which missing requirements are reported. */
  const REPORTED: seq<Requirement> := [Customer, Geolocation, BeforePhotos, AfterPhotosMatchingBefore]

  function Unmet(e: Evidence, requirements: seq<Requirement>): seq<Requirement> {
    if requirements == [] then []
    else Unmet(e, requirements[..|requirements| - 1])
         + if Met(e, requirements[|requirements| - 1]) then [] else [requirements[|requirements| - 1]]
  }

  lemma {:induction false} UnmetMembers(e: Evidence, requirements: seq<Requirement>, r: Requirement)
    ensures r in Unmet(e, requirements) <==> r in requirements && !Met(e, r)
  {
    if requirements != [] {
      var front, last := requirements[..|requirements| - 1], requirements[|requirements| - 1];
      UnmetMembers(e, front, r);
      assert requirements == front + [last];
    }
  }

  /** One entry per requirement the visit does not meet, in reporting order. */
  method MissingRequirements(e: Evidence) returns (missing: seq<Requirement>)
    ensures missing == Unmet(e, REPORTED)
    ensures missing == [] <==> e.hasCustomer && e.hasGeolocation && e.before >= 1 && e.after == e.before
  {
    missing := [];
    if !e.hasCustomer {
      missing := missing + [Customer];
    }
    if !e.hasGeolocation {
      missing := missing + [Geolocation];
    }
    if !(e.before >= 1) {
      missing := missing + [BeforePhotos];
    }
    if !(e.after >= 1 && e.after == e.before) {
      missing := missing + [AfterPhotosMatchingBefore];
    }
    UnmetInOrder(e);
  }

  lemma UnmetInOrder(e: Evidence)
    ensures Unmet(e, REPORTED) ==
            (if e.hasCustomer then [] else [Customer]) + (if e.hasGeolocation then [] else [Geolocation])
            + (if e.before >= 1 then [] else [BeforePhotos])
            + (if e.after >= 1 && e.after == e.before then [] else [AfterPhotosMatchingBefore])
  {
    assert REPORTED == [Customer, Geolocation, BeforePhotos] + [AfterPhotosMatchingBefore];
    assert [] + [Customer] == [Customer] && [Customer] + [Geolocation] == [Customer, Geolocation];
    assert [Customer, Geolocation] + [BeforePhotos] == [Customer, Geolocation, BeforePhotos];
    UnmetAppend(e, [], Customer);
    UnmetAppend(e, [Customer], Geolocation);
    UnmetAppend(e, [Customer, Geolocation], BeforePhotos);
    UnmetAppend(e, [Customer, Geolocation, BeforePhotos], AfterPhotosMatchingBefore);
  }

  lemma UnmetAppend(e: Evidence, front: seq<Requirement>, last: Requirement)
    ensures Unmet(e, front + [last]) == Unmet(e, front) + if Met(e, last) then [] else [last]
  {
    assert (front + [last])[..|front|] == front;
  }
}

/**
 * The three lists of the donors page (app/bagiscilar/page.tsx): the groom's side, the bride's
 * side, and the donors on neither side.
 */
module DonorGroups {
  import opened Types

  /** `s.filter(p)`: the elements satisfying `p`, in their original order. */
  function Filter<T(!new)>(s: seq<T>, p: T -> bool): (r: seq<T>)
    ensures |r| <= |s|
    ensures forall x :: multiset(r)[x] == if p(x) then multiset(s)[x] else 0
    decreases |s|
  {
    if s == [] then []
    else
      var init := s[..|s| - 1];
      assert s == init + [s[|s| - 1]];
      Filter(init, p) + (if p(s[|s| - 1]) then [s[|s| - 1]] else [])
  }

  /** Filtering a concatenation filters each part in turn, so the original order is kept. */
  lemma {:induction false} FilterConcat<T(!new)>(a: seq<T>, b: seq<T>, p: T -> bool)
    ensures Filter(a + b, p) == Filter(a, p) + Filter(b, p)
    decreases |b|
  {
    if b != [] {
      var init := b[..|b| - 1];
      assert (a + b)[..|a + b| - 1] == a + init;
      FilterConcat(a, init, p);
    } else {
      assert a + b == a;
    }
  }

  predicate OnGroomSide(d: Donor) {
    d.isGroomSide
  }

  predicate OnBrideSide(d: Donor) {
    d.isBrideSide
  }

  predicate OnNeitherSide(d: Donor) {
    !d.isGroomSide && !d.isBrideSide
  }

  predicate OnBothSides(d: Donor) {
    d.isGroomSide && d.isBrideSide
  }

  function GroomSideDonors(donors: seq<Donor>): seq<Donor> {
    Filter(donors, OnGroomSide)
  }

  function BrideSideDonors(donors: seq<Donor>): seq<Donor> {
    Filter(donors, OnBrideSide)
  }

  function OtherDonors(donors: seq<Donor>): seq<Donor> {
    Filter(donors, OnNeitherSide)
  }

  /** Each list holds exactly the donors with its flags, as often as they occur; a donor on both
      sides is listed on both; every donor is in some list; and the "other" list shares no donor
      with the two sides. */
  lemma DonorListsSpec(donors: seq<Donor>, d: Donor)
    ensures d in GroomSideDonors(donors) <==> d in donors && d.isGroomSide
    ensures d in BrideSideDonors(donors) <==> d in donors && d.isBrideSide
    ensures d in OtherDonors(donors) <==> d in donors && !d.isGroomSide && !d.isBrideSide
    ensures d in donors && d.isGroomSide && d.isBrideSide ==>
      d in GroomSideDonors(donors) && d in BrideSideDonors(donors)
    ensures d in donors ==>
      d in GroomSideDonors(donors) || d in BrideSideDonors(donors) || d in OtherDonors(donors)
    ensures d in OtherDonors(donors) ==> d !in GroomSideDonors(donors) && d !in BrideSideDonors(donors)
  {
    assert multiset(GroomSideDonors(donors))[d] == if d.isGroomSide then multiset(donors)[d] else 0;
    assert multiset(BrideSideDonors(donors))[d] == if d.isBrideSide then multiset(donors)[d] else 0;
    assert multiset(OtherDonors(donors))[d]
      == if !d.isGroomSide && !d.isBrideSide then multiset(donors)[d] else 0;
  }

  /** The groom's and the bride's lists together with the "other" list cover the donor list,
      counting exactly the donors on both sides twice. */
  lemma {:induction false} ListSizes(donors: seq<Donor>)
    ensures |OtherDonors(donors)| <= |donors|
    ensures |GroomSideDonors(donors)| + |BrideSideDonors(donors)| + |OtherDonors(donors)|
      == |donors| + |Filter(donors, OnBothSides)|
    decreases |donors|
  {
    if donors != [] {
      var init := donors[..|donors| - 1];
      ListSizes(init);
    }
  }
}

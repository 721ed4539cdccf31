/** Lookups on the `patients` table and the invariants registration keeps. The table is a
    sequence in creation order: `SELECT * FROM patients` with no ORDER BY returns rows in
    rowid order, and rows are never deleted. */
module Registry {
  import opened Records

  /** No two patients share a mobile number. */
  ghost predicate MobilesUnique(ps: seq<Patient>) {
    forall i, j :: 0 <= i < j < |ps| ==> ps[i].mobile != ps[j].mobile
  }

  /** Surrogate ids grow with creation order, so they are distinct. */
  ghost predicate IdsIncreasing(ps: seq<Patient>) {
    forall i, j :: 0 <= i < j < |ps| ==> ps[i].id < ps[j].id
  }

  /** `SELECT ... FROM patients WHERE mobile=?` followed by `fetchone()`: the earliest
      patient whose mobile equals the query, or nothing. */
  function FindByMobile(ps: seq<Patient>, mobile: string): (r: Option<Patient>)
    ensures r.Some? ==> r.value in ps && r.value.mobile == mobile
    ensures r.None? <==> forall i :: 0 <= i < |ps| ==> ps[i].mobile != mobile
  {
    if ps == [] then None
    else if ps[0].mobile == mobile then Some(ps[0])
    else FindByMobile(ps[1..], mobile)
  }

  /** `SELECT * FROM patients WHERE id=?` followed by `fetchone()`. */
  function FindById(ps: seq<Patient>, id: nat): (r: Option<Patient>)
    ensures r.Some? ==> r.value in ps && r.value.id == id
    ensures r.None? <==> forall i :: 0 <= i < |ps| ==> ps[i].id != id
  {
    if ps == [] then None
    else if ps[0].id == id then Some(ps[0])
    else FindById(ps[1..], id)
  }

  /** While mobiles are unique, the lookup by mobile finds exactly the patient holding it. */
  lemma {:induction false} FindByMobileExact(ps: seq<Patient>, i: nat)
    requires MobilesUnique(ps) && i < |ps|
    ensures FindByMobile(ps, ps[i].mobile) == Some(ps[i])
  {
    if i > 0 {
      assert ps[0].mobile != ps[i].mobile;
      assert MobilesUnique(ps[1..]) by {
        forall a, b | 0 <= a < b < |ps[1..]| ensures ps[1..][a].mobile != ps[1..][b].mobile {
          assert ps[1..][a] == ps[a + 1] && ps[1..][b] == ps[b + 1];
        }
      }
      FindByMobileExact(ps[1..], i - 1);
    }
  }

  /** While ids are increasing, the lookup by id finds exactly the patient with that id. */
  lemma {:induction false} FindByIdExact(ps: seq<Patient>, i: nat)
    requires IdsIncreasing(ps) && i < |ps|
    ensures FindById(ps, ps[i].id) == Some(ps[i])
  {
    if i > 0 {
      assert ps[0].id < ps[i].id;
      assert IdsIncreasing(ps[1..]) by {
        forall a, b | 0 <= a < b < |ps[1..]| ensures ps[1..][a].id < ps[1..][b].id {
          assert ps[1..][a] == ps[a + 1] && ps[1..][b] == ps[b + 1];
        }
      }
      FindByIdExact(ps[1..], i - 1);
    }
  }

  /** A line of the home page's patient list: `{p[0]} | {p[2]} | {p[4]}`. */
  datatype ListingEntry = ListingEntry(id: nat, name: string, mobile: string)

  /** The home page's patient list, one entry per patient in creation order. */
  function Listing(ps: seq<Patient>): (r: seq<ListingEntry>)
    ensures |r| == |ps|
    ensures forall k :: 0 <= k < |ps| ==> r[k] == ListingEntry(ps[k].id, ps[k].name, ps[k].mobile)
  {
    if ps == [] then [] else [ListingEntry(ps[0].id, ps[0].name, ps[0].mobile)] + Listing(ps[1..])
  }

  /** Registering a patient adds exactly one line, at the end of the list. */
  lemma ListingAppend(ps: seq<Patient>, p: Patient)
    ensures Listing(ps + [p]) == Listing(ps) + [ListingEntry(p.id, p.name, p.mobile)]
  {
    var l, r := Listing(ps + [p]), Listing(ps) + [ListingEntry(p.id, p.name, p.mobile)];
    assert |l| == |r|;
    forall k | 0 <= k < |l| ensures l[k] == r[k] {
      if k < |ps| {
        assert (ps + [p])[k] == ps[k];
      }
    }
  }
}

/** The rent roll editor: a list of leases that is replaced, never edited, by
    adding, removing and updating tenants, and the totals shown under it. */
module RentRoll {

  import opened Outcomes
  import opened DecimalText

  datatype LeaseStatus = Occupied | Vacant | Notice

  /** One lease; `gla` is the gross leasable area in square metres and
      `rentPerSqm` the yearly rent per square metre. */
  datatype TenantLease = TenantLease(
    id: string,
    unitName: string,
    gla: real,
    rentPerSqm: real,
    leaseExpiry: Option<string>,
    status: LeaseStatus)

  /** A partial lease: the fields an update overwrites. `leaseExpiry` is an
      option of an option because an update may also clear the expiry. */
  datatype TenantUpdate = TenantUpdate(
    id: Option<string>,
    unitName: Option<string>,
    gla: Option<real>,
    rentPerSqm: Option<real>,
    leaseExpiry: Option<Option<string>>,
    status: Option<LeaseStatus>)

  /** The lease a new row starts from, under the id it is given. */
  function DefaultTenant(id: string, unitName: string): TenantLease {
    TenantLease(id, unitName, 0.0, 0.0, None, Occupied)
  }

  /** `addTenant`: one default lease named after the new list length, at the end. */
  function AddTenant(ts: seq<TenantLease>, id: string): (r: seq<TenantLease>)
    ensures |r| == |ts| + 1 && r[..|ts|] == ts
    ensures r[|ts|].id == id && r[|ts|].unitName == "Unit " + NatToString(|ts| + 1)
    ensures r[|ts|].gla == 0.0 && r[|ts|].rentPerSqm == 0.0 && r[|ts|].status == Occupied
  {
    ts + [DefaultTenant(id, "Unit " + NatToString(|ts| + 1))]
  }

  /** `removeTenant`: `filter` on a different id. */
  function RemoveTenant(ts: seq<TenantLease>, id: string): (r: seq<TenantLease>)
    ensures |r| <= |ts|
    decreases |ts|
  {
    if ts == [] then []
    else if ts[0].id != id then [ts[0]] + RemoveTenant(ts[1..], id)
    else RemoveTenant(ts[1..], id)
  }

  /** The object spread `{ ...t, ...u }`: every field `u` carries wins. */
  function Apply(t: TenantLease, u: TenantUpdate): TenantLease {
    TenantLease(
      if u.id.Some? then u.id.value else t.id,
      if u.unitName.Some? then u.unitName.value else t.unitName,
      if u.gla.Some? then u.gla.value else t.gla,
      if u.rentPerSqm.Some? then u.rentPerSqm.value else t.rentPerSqm,
      if u.leaseExpiry.Some? then u.leaseExpiry.value else t.leaseExpiry,
      if u.status.Some? then u.status.value else t.status)
  }

  /** `updateTenant`: `map` applying the update to the leases with the id. */
  function UpdateTenant(ts: seq<TenantLease>, id: string, u: TenantUpdate): (r: seq<TenantLease>)
    ensures |r| == |ts|
    ensures forall k :: 0 <= k < |ts| && ts[k].id != id ==> r[k] == ts[k]
    ensures forall k :: 0 <= k < |ts| && ts[k].id == id ==> r[k] == Apply(ts[k], u)
  {
    seq(|ts|, k requires 0 <= k < |ts| => if ts[k].id == id then Apply(ts[k], u) else ts[k])
  }

  /** The two amounts the footer sums. */
  datatype Measure = Gla | BaseRent

  function Amount(t: TenantLease, m: Measure): real {
    match m
    case Gla => t.gla
    case BaseRent => t.gla * t.rentPerSqm
  }

  /** `reduce((sum, t) => sum + amount(t), 0)`. */
  function Total(ts: seq<TenantLease>, m: Measure): real
    decreases |ts|
  {
    if ts == [] then 0.0 else Total(ts[..|ts| - 1], m) + Amount(ts[|ts| - 1], m)
  }

  function TotalGla(ts: seq<TenantLease>): real {
    Total(ts, Gla)
  }

  function TotalBaseRent(ts: seq<TenantLease>): real {
    Total(ts, BaseRent)
  }

  /** `filter(t => t.status === "occupied").length`. */
  function OccupiedCount(ts: seq<TenantLease>): (r: nat)
    ensures r <= |ts|
    decreases |ts|
  {
    if ts == [] then 0
    else OccupiedCount(ts[..|ts| - 1]) + (if ts[|ts| - 1].status == Occupied then 1 else 0)
  }

  /** The blended rent line, shown only for a non-empty roll with positive area. */
  function BlendedRent(ts: seq<TenantLease>): (r: Option<real>)
    ensures r.Some? <==> |ts| > 0 && TotalGla(ts) > 0.0
    ensures r.Some? ==> r.value * TotalGla(ts) == TotalBaseRent(ts)
  {
    if |ts| > 0 && TotalGla(ts) > 0.0 then Some(TotalBaseRent(ts) / TotalGla(ts)) else None
  }

  // ----- removeTenant -----

  /** A lease survives removal exactly when it was there and has another id. */
  lemma {:induction false} RemoveTenantMembers(ts: seq<TenantLease>, id: string, t: TenantLease)
    ensures t in RemoveTenant(ts, id) <==> t in ts && t.id != id
    decreases |ts|
  {
    if ts != [] {
      RemoveTenantMembers(ts[1..], id, t);
      assert ts == [ts[0]] + ts[1..];
    }
  }

  /** Removal keeps the original order: it works piecewise on a concatenation. */
  lemma {:induction false} RemoveTenantAppend(a: seq<TenantLease>, b: seq<TenantLease>, id: string)
    ensures RemoveTenant(a + b, id) == RemoveTenant(a, id) + RemoveTenant(b, id)
    decreases |a|
  {
    if a != [] {
      assert (a + b)[1..] == a[1..] + b;
      RemoveTenantAppend(a[1..], b, id);
    } else {
      assert a + b == b;
    }
  }

  /** Nothing is removed when no lease has the id. */
  lemma {:induction false} RemoveAbsentTenant(ts: seq<TenantLease>, id: string)
    requires forall k :: 0 <= k < |ts| ==> ts[k].id != id
    ensures RemoveTenant(ts, id) == ts
    decreases |ts|
  {
    if ts != [] {
      RemoveAbsentTenant(ts[1..], id);
      assert ts == [ts[0]] + ts[1..];
    }
  }

  /** Removing twice is removing once. */
  lemma RemoveTenantIdempotent(ts: seq<TenantLease>, id: string)
    ensures RemoveTenant(RemoveTenant(ts, id), id) == RemoveTenant(ts, id)
  {
    var r := RemoveTenant(ts, id);
    forall k | 0 <= k < |r|
      ensures r[k].id != id
    {
      RemoveTenantMembers(ts, id, r[k]);
    }
    RemoveAbsentTenant(r, id);
  }

  /** Removing a lease that was just added gives back the list, when the new
      id is fresh. */
  lemma RemoveAddedTenant(ts: seq<TenantLease>, id: string)
    requires forall k :: 0 <= k < |ts| ==> ts[k].id != id
    ensures RemoveTenant(AddTenant(ts, id), id) == ts
  {
    var t := DefaultTenant(id, "Unit " + NatToString(|ts| + 1));
    RemoveTenantAppend(ts, [t], id);
    RemoveAbsentTenant(ts, id);
    assert RemoveTenant([t], id) == [];
  }

  // ----- updateTenant -----

  /** The spread takes every field the update carries and keeps all others. */
  lemma ApplyFields(t: TenantLease, u: TenantUpdate)
    ensures Apply(t, u).gla == (if u.gla.Some? then u.gla.value else t.gla)
    ensures Apply(t, u).rentPerSqm == (if u.rentPerSqm.Some? then u.rentPerSqm.value else t.rentPerSqm)
    ensures Apply(t, u).status == (if u.status.Some? then u.status.value else t.status)
    ensures Apply(t, u).id == (if u.id.Some? then u.id.value else t.id)
    ensures u == TenantUpdate(None, None, None, None, None, None) ==> Apply(t, u) == t
  {
  }

  /** An update that keeps the id can be repeated without effect. */
  lemma UpdateTenantIdempotent(ts: seq<TenantLease>, id: string, u: TenantUpdate)
    requires u.id.None? || u.id == Some(id)
    ensures UpdateTenant(UpdateTenant(ts, id, u), id, u) == UpdateTenant(ts, id, u)
  {
    var r := UpdateTenant(ts, id, u);
    var rr := UpdateTenant(r, id, u);
    forall k | 0 <= k < |ts|
      ensures rr[k] == r[k]
    {
      if ts[k].id == id {
        assert Apply(Apply(ts[k], u), u) == Apply(ts[k], u);
      }
    }
  }

  /** Updating and then removing a lease by the same id is just removing it. */
  lemma {:induction false} RemoveAfterUpdate(ts: seq<TenantLease>, id: string, u: TenantUpdate)
    requires u.id.None? || u.id == Some(id)
    ensures RemoveTenant(UpdateTenant(ts, id, u), id) == RemoveTenant(ts, id)
    decreases |ts|
  {
    if ts != [] {
      var r := UpdateTenant(ts, id, u);
      assert r[1..] == UpdateTenant(ts[1..], id, u);
      RemoveAfterUpdate(ts[1..], id, u);
    }
  }

  // ----- footer totals -----

  lemma {:induction false} TotalAppend(a: seq<TenantLease>, b: seq<TenantLease>, m: Measure)
    ensures Total(a + b, m) == Total(a, m) + Total(b, m)
    decreases |b|
  {
    if b == [] {
      assert a + b == a;
    } else {
      var b' := b[..|b| - 1];
      assert (a + b)[..|a + b| - 1] == a + b';
      TotalAppend(a, b', m);
    }
  }

  /** Taking one lease out of the list takes its amount out of the total. */
  lemma TotalWithout(ts: seq<TenantLease>, i: nat, m: Measure)
    requires i < |ts|
    ensures Total(ts, m) == Total(ts[..i] + ts[i + 1..], m) + Amount(ts[i], m)
  {
    assert ts == ts[..i] + ([ts[i]] + ts[i + 1..]);
    TotalAppend(ts[..i], [ts[i]] + ts[i + 1..], m);
    TotalAppend([ts[i]], ts[i + 1..], m);
    TotalAppend(ts[..i], ts[i + 1..], m);
    assert Total([ts[i]], m) == Amount(ts[i], m) by {
      assert [ts[i]][..0] == [];
    }
  }

  /** Deleting position `i` deletes one copy of its lease from the multiset. */
  lemma MultisetWithout(ts: seq<TenantLease>, i: nat)
    requires i < |ts|
    ensures multiset(ts[..i] + ts[i + 1..]) == multiset(ts) - multiset{ts[i]}
  {
    assert ts == ts[..i] + [ts[i]] + ts[i + 1..];
  }

  /** The totals do not depend on the order of the rows. */
  lemma {:induction false} TotalPermutation(ts: seq<TenantLease>, us: seq<TenantLease>, m: Measure)
    requires multiset(ts) == multiset(us)
    ensures Total(ts, m) == Total(us, m)
    decreases |ts|
  {
    if ts != [] {
      var n := |ts| - 1;
      var j := MatchLast(ts, us);
      TotalPermutation(ts[..n], us[..j] + us[j + 1..], m);
      TotalWithout(us, j, m);
    } else {
      assert |us| == |multiset(us)|;
    }
  }

  /** Where the last lease of `ts` sits in a permutation `us` of it, and what
      is left of both once it is taken out. */
  lemma MatchLast(ts: seq<TenantLease>, us: seq<TenantLease>) returns (j: nat)
    requires ts != [] && multiset(ts) == multiset(us)
    ensures j < |us| && us[j] == ts[|ts| - 1]
    ensures multiset(ts[..|ts| - 1]) == multiset(us[..j] + us[j + 1..])
  {
    var n := |ts| - 1;
    var x := ts[n];
    assert x in multiset(us);
    j :| 0 <= j < |us| && us[j] == x;
    MultisetWithout(ts, n);
    MultisetWithout(us, j);
    assert ts[..n] + ts[n + 1..] == ts[..n];
  }

  lemma FootersIgnoreOrder(ts: seq<TenantLease>, us: seq<TenantLease>)
    requires multiset(ts) == multiset(us)
    ensures TotalGla(ts) == TotalGla(us) && TotalBaseRent(ts) == TotalBaseRent(us)
  {
    TotalPermutation(ts, us, Gla);
    TotalPermutation(ts, us, BaseRent);
  }

  /** A new default lease has no area and no rent, so the totals stay put while
      the occupied count goes up by one. */
  lemma AddTenantFooters(ts: seq<TenantLease>, id: string)
    ensures TotalGla(AddTenant(ts, id)) == TotalGla(ts)
    ensures TotalBaseRent(AddTenant(ts, id)) == TotalBaseRent(ts)
    ensures OccupiedCount(AddTenant(ts, id)) == OccupiedCount(ts) + 1
  {
    var r := AddTenant(ts, id);
    assert r[..|r| - 1] == ts;
  }

  /** Removal takes exactly the removed leases' amounts out of the total. */
  lemma {:induction false} RemoveTenantTotal(ts: seq<TenantLease>, id: string, m: Measure)
    ensures Total(ts, m) == Total(RemoveTenant(ts, id), m) + Total(Matching(ts, id), m)
    decreases |ts|
  {
    if ts != [] {
      RemoveTenantTotal(ts[1..], id, m);
      assert ts == [ts[0]] + ts[1..];
      TotalAppend([ts[0]], ts[1..], m);
      assert Total([ts[0]], m) == Amount(ts[0], m) by {
        assert [ts[0]][..0] == [];
      }
      if ts[0].id != id {
        TotalAppend([ts[0]], RemoveTenant(ts[1..], id), m);
      } else {
        TotalAppend([ts[0]], Matching(ts[1..], id), m);
      }
    }
  }

  /** The leases with the id, in order: what `removeTenant` drops. */
  function Matching(ts: seq<TenantLease>, id: string): (r: seq<TenantLease>)
    ensures forall k :: 0 <= k < |r| ==> r[k].id == id
    ensures |r| + |RemoveTenant(ts, id)| == |ts|
    decreases |ts|
  {
    if ts == [] then []
    else if ts[0].id == id then [ts[0]] + Matching(ts[1..], id)
    else Matching(ts[1..], id)
  }

  // ----- occupied count -----

  lemma {:induction false} OccupiedCountAppend(a: seq<TenantLease>, b: seq<TenantLease>)
    ensures OccupiedCount(a + b) == OccupiedCount(a) + OccupiedCount(b)
    decreases |b|
  {
    if b == [] {
      assert a + b == a;
    } else {
      var b' := b[..|b| - 1];
      assert (a + b)[..|a + b| - 1] == a + b';
      OccupiedCountAppend(a, b');
    }
  }

  /** The count reaches the list length exactly when every lease is occupied,
      and is 0 exactly when none is. */
  lemma {:induction false} OccupiedCountExtremes(ts: seq<TenantLease>)
    ensures OccupiedCount(ts) == |ts| <==> forall k :: 0 <= k < |ts| ==> ts[k].status == Occupied
    ensures OccupiedCount(ts) == 0 <==> forall k :: 0 <= k < |ts| ==> ts[k].status != Occupied
    decreases |ts|
  {
    if ts != [] {
      var n := |ts| - 1;
      OccupiedCountExtremes(ts[..n]);
      assert forall k :: 0 <= k < n ==> ts[..n][k] == ts[k];
    }
  }

  // ----- blended rent -----

  /** The emptiness test is redundant: a positive total area needs a lease. */
  lemma BlendedRentNeedsArea(ts: seq<TenantLease>)
    ensures BlendedRent(ts).Some? <==> TotalGla(ts) > 0.0
  {
  }

  /** With non-negative areas, the blended rent lies between the lowest and the
      highest rent per square metre. */
  lemma BlendedRentBetween(ts: seq<TenantLease>, lo: real, hi: real)
    requires forall k :: 0 <= k < |ts| ==> ts[k].gla >= 0.0 && lo <= ts[k].rentPerSqm <= hi
    requires TotalGla(ts) > 0.0
    ensures lo <= BlendedRent(ts).value <= hi
  {
    RentWithin(ts, lo, hi);
    var g := TotalGla(ts);
    var b := BlendedRent(ts).value;
    assert b * g == TotalBaseRent(ts);
    assert lo * g <= b * g <= hi * g;
  }

  lemma {:induction false} RentWithin(ts: seq<TenantLease>, lo: real, hi: real)
    requires forall k :: 0 <= k < |ts| ==> ts[k].gla >= 0.0 && lo <= ts[k].rentPerSqm <= hi
    ensures lo * TotalGla(ts) <= TotalBaseRent(ts) <= hi * TotalGla(ts)
    decreases |ts|
  {
    if ts != [] {
      var n := |ts| - 1;
      var t := ts[n];
      RentWithin(ts[..n], lo, hi);
      var g := TotalGla(ts[..n]);
      assert TotalGla(ts) == g + t.gla;
      assert TotalBaseRent(ts) == TotalBaseRent(ts[..n]) + t.gla * t.rentPerSqm;
      assert lo * (g + t.gla) == lo * g + lo * t.gla && hi * (g + t.gla) == hi * g + hi * t.gla;
      assert lo * t.gla <= t.gla * t.rentPerSqm <= hi * t.gla by {
        assert t.gla >= 0.0 && lo <= t.rentPerSqm <= hi;
        MulBetween(t.gla, t.rentPerSqm, lo, hi);
      }
    }
  }

  lemma MulBetween(g: real, r: real, lo: real, hi: real)
    requires g >= 0.0 && lo <= r <= hi
    ensures lo * g <= g * r <= hi * g
  {
  }
}

/**
 * `DashboardService.getDashboard` (apps/api/src/dashboard/dashboard.service.ts):
 * the table sizes and two zero-filled tallies, services by status and
 * endpoints by auth type.  A row whose value is not one of the keys is
 * skipped; the keys are exactly the catalog's names.
 */
module Dashboard {
  import opened Seqs
  import opened Catalog
  import opened Storage

  datatype DashboardResponse = DashboardResponse(
    totalServices: nat,
    totalEndpoints: nat,
    servicesByStatus: map<string, nat>,
    endpointsByAuthType: map<string, nat>)

  /** `Object.fromEntries(keys.map((k) => [k, 0]))`. */
  function ZeroFilled(keys: seq<string>): (m: map<string, nat>)
    ensures m.Keys == set k | k in keys
    ensures forall k :: k in m ==> m[k] == 0
  {
    if keys == [] then map[] else ZeroFilled(keys[..|keys| - 1])[keys[|keys| - 1] := 0]
  }

  /** How many of `values` are among `keys`: the rows a tally counts. */
  function KnownCount(values: seq<string>, keys: seq<string>): (n: nat)
    ensures n <= |values|
    ensures (forall i :: 0 <= i < |values| ==> values[i] in keys) ==> n == |values|
  {
    if values == [] then 0
    else KnownCount(values[..|values| - 1], keys) + (if values[|values| - 1] in keys then 1 else 0)
  }

  /** The sum of `m` over `keys`. */
  function SumOver(m: map<string, nat>, keys: seq<string>): nat
    requires forall i :: 0 <= i < |keys| ==> keys[i] in m
  {
    if keys == [] then 0 else m[keys[0]] + SumOver(m, keys[1..])
  }

  /** The `status` column as `findMany({ select: { status: true } })` returns it. */
  function Statuses(s: seq<ServiceRow>): (r: seq<string>)
    ensures |r| == |s| && forall i :: 0 <= i < |s| ==> r[i] == s[i].status
  {
    seq(|s|, i requires 0 <= i < |s| => s[i].status)
  }

  /** The `authType` column. */
  function AuthTypesOf(e: seq<EndpointRow>): (r: seq<string>)
    ensures |r| == |e| && forall i :: 0 <= i < |e| ==> r[i] == e[i].authType
  {
    seq(|e|, i requires 0 <= i < |e| => e[i].authType)
  }

  /**
   * One counting loop: start from the zero-filled record and add one to the
   * entry of every value that is a key.
   */
  method Tally(keys: seq<string>, values: seq<string>) returns (m: map<string, nat>)
    ensures m.Keys == set k | k in keys
    ensures forall k :: k in m ==> m[k] == Count(values, k)
  {
    m := ZeroFilled(keys);
    for i := 0 to |values|
      invariant m.Keys == set k | k in keys
      invariant forall k :: k in m ==> m[k] == Count(values[..i], k)
    {
      assert values[..i + 1][..i] == values[..i];
      var key := values[i];
      if key in m {
        m := m[key := m[key] + 1];
      }
    }
    assert values[..|values|] == values;
  }

  /** `getDashboard()` on one snapshot of the store (the source reads it in one transaction). */
  method GetDashboard(store: Store) returns (d: DashboardResponse)
    ensures d.totalServices == |store.services| && d.totalEndpoints == |store.endpoints|
    ensures d.servicesByStatus.Keys == set k | k in ServiceStatusNames
    ensures forall k :: k in d.servicesByStatus ==> d.servicesByStatus[k] == Count(Statuses(store.services), k)
    ensures d.endpointsByAuthType.Keys == set k | k in AuthTypeNames
    ensures forall k :: k in d.endpointsByAuthType ==> d.endpointsByAuthType[k] == Count(AuthTypesOf(store.endpoints), k)
    ensures SumOver(d.servicesByStatus, ServiceStatusNames) <= d.totalServices
    ensures (forall i :: 0 <= i < |store.services| ==> store.services[i].status in ServiceStatusNames) ==>
      SumOver(d.servicesByStatus, ServiceStatusNames) == d.totalServices
    ensures SumOver(d.endpointsByAuthType, AuthTypeNames) <= d.totalEndpoints
    ensures (forall i :: 0 <= i < |store.endpoints| ==> store.endpoints[i].authType in AuthTypeNames) ==>
      SumOver(d.endpointsByAuthType, AuthTypeNames) == d.totalEndpoints
  {
    var statuses := Statuses(store.services);
    var authTypes := AuthTypesOf(store.endpoints);
    var byStatus := Tally(ServiceStatusNames, statuses);
    var byAuthType := Tally(AuthTypeNames, authTypes);
    ListsDefineTypes();
    TallySum(ServiceStatusNames, statuses, byStatus);
    TallySum(AuthTypeNames, authTypes, byAuthType);
    d := DashboardResponse(|store.services|, |store.endpoints|, byStatus, byAuthType);
  }

  /**
   * Over pairwise distinct keys, a tally adds up to the number of values
   * that are keys: at most all of them, and all of them when every value
   * is a key.
   */
  lemma TallySum(keys: seq<string>, values: seq<string>, m: map<string, nat>)
    requires Distinct(keys)
    requires m.Keys == set k | k in keys
    requires forall k :: k in m ==> m[k] == Count(values, k)
    ensures forall i :: 0 <= i < |keys| ==> keys[i] in m
    ensures SumOver(m, keys) == KnownCount(values, keys)
    ensures SumOver(m, keys) <= |values|
    ensures (forall i :: 0 <= i < |values| ==> values[i] in keys) ==> SumOver(m, keys) == |values|
  {
    SumOverCounts(keys, keys, values, m);
    SumCountsKnown(keys, values);
  }

  /** The sum of the per-key counts of `values` over `keys`. */
  function SumCounts(keys: seq<string>, values: seq<string>): nat {
    if keys == [] then 0 else Count(values, keys[0]) + SumCounts(keys[1..], values)
  }

  lemma {:induction false} SumOverCounts(all: seq<string>, keys: seq<string>, values: seq<string>, m: map<string, nat>)
    requires m.Keys == set k | k in all
    requires forall k :: k in m ==> m[k] == Count(values, k)
    requires forall i :: 0 <= i < |keys| ==> keys[i] in all
    ensures forall i :: 0 <= i < |keys| ==> keys[i] in m
    ensures SumOver(m, keys) == SumCounts(keys, values)
  {
    if keys != [] {
      SumOverCounts(all, keys[1..], values, m);
    }
  }

  /** Adding a value adds one to the sum exactly when it is one of the (distinct) keys. */
  lemma {:induction false} SumCountsSnoc(keys: seq<string>, values: seq<string>, v: string)
    requires Distinct(keys)
    ensures SumCounts(keys, values + [v]) == SumCounts(keys, values) + (if v in keys then 1 else 0)
  {
    if keys != [] {
      var rest := keys[1..];
      assert Distinct(rest) by {
        forall i, j | 0 <= i < j < |rest| ensures rest[i] != rest[j] {
          assert rest[i] == keys[i + 1] && rest[j] == keys[j + 1];
        }
      }
      SumCountsSnoc(rest, values, v);
      assert (values + [v])[..|values + [v]| - 1] == values;
      assert Count(values + [v], keys[0]) == Count(values, keys[0]) + (if v == keys[0] then 1 else 0);
      if v == keys[0] {
        forall i | 0 <= i < |rest| ensures rest[i] != v {
          assert rest[i] == keys[i + 1];
        }
        assert v !in rest;
      }
      assert v in keys <==> v == keys[0] || v in rest;
    }
  }

  lemma {:induction false} SumCountsKnown(keys: seq<string>, values: seq<string>)
    requires Distinct(keys)
    ensures SumCounts(keys, values) == KnownCount(values, keys)
  {
    if values == [] {
      SumCountsEmpty(keys);
    } else {
      var init := values[..|values| - 1];
      SumCountsKnown(keys, init);
      SumCountsSnoc(keys, init, values[|values| - 1]);
      assert init + [values[|values| - 1]] == values;
    }
  }

  lemma {:induction false} SumCountsEmpty(keys: seq<string>)
    ensures SumCounts(keys, []) == 0
  {
    if keys != [] {
      SumCountsEmpty(keys[1..]);
    }
  }
}

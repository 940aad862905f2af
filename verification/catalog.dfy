/** catalog/catalog.go: the service catalog, flattened after decoding and searched by ID. */
module Catalog {
  import opened Wrappers

  datatype ComposeConfig = ComposeConfig(units: int, databaseType: string)

  /** The part of a plan that the platform is shown. */
  datatype ServicePlan = ServicePlan(id: string, name: string, description: string)

  datatype Plan = Plan(compose: ComposeConfig, advertised: ServicePlan)

  /** What a service holds at some moment: its own plans and the plans it advertises. */
  datatype ServiceValue = ServiceValue(id: string, plans: seq<Plan>, advertised: seq<ServicePlan>)

  class Service {
    const id: string
    const plans: seq<Plan>
    var advertised: seq<ServicePlan>

    /** Decoding fills the outer plans only: they hide the embedded list of the same JSON name. */
    constructor (id: string, plans: seq<Plan>)
      ensures this.id == id && this.plans == plans && advertised == []
    {
      this.id, this.plans, this.advertised := id, plans, [];
    }

    ghost function Value(): ServiceValue
      reads this
    {
      ServiceValue(id, plans, advertised)
    }
  }

  function Projection(plans: seq<Plan>): seq<ServicePlan> {
    seq(|plans|, k requires 0 <= k < |plans| => plans[k].advertised)
  }

  ghost function Values(services: seq<Service>): seq<ServiceValue>
    reads services
  {
    seq(|services|, i requires 0 <= i < |services| reads services => services[i].Value())
  }

  /** Load, after decoding: every service appends its plans' public parts to its advertised list. */
  method Load(services: seq<Service>)
    requires forall i, j :: 0 <= i < j < |services| ==> services[i] != services[j]
    requires forall s :: s in services ==> s.advertised == []
    modifies services
    ensures forall s :: s in services ==> s.advertised == Projection(s.plans)
    ensures Advertised(Values(services))
  {
    for i := 0 to |services|
      invariant forall j :: 0 <= j < i ==> services[j].advertised == Projection(services[j].plans)
      invariant forall j :: i <= j < |services| ==> services[j].advertised == []
    {
      var s := services[i];
      for k := 0 to |s.plans|
        invariant s.advertised == Projection(s.plans)[..k]
        invariant forall j :: 0 <= j < i ==> services[j].advertised == Projection(services[j].plans)
        invariant forall j :: i < j < |services| ==> services[j].advertised == []
      {
        s.advertised := s.advertised + [s.plans[k].advertised];
      }
    }
  }

  ghost predicate Advertised(catalog: seq<ServiceValue>) {
    forall i :: 0 <= i < |catalog| ==> catalog[i].advertised == Projection(catalog[i].plans)
  }

  /** Position of the first service with this ID, or the number of services. */
  function ServiceIndex(catalog: seq<ServiceValue>, id: string): (i: nat)
    ensures i <= |catalog|
  {
    if catalog == [] || catalog[0].id == id then 0 else 1 + ServiceIndex(catalog[1..], id)
  }

  function PlanIndex(plans: seq<Plan>, id: string): (k: nat)
    ensures k <= |plans|
  {
    if plans == [] || plans[0].advertised.id == id then 0 else 1 + PlanIndex(plans[1..], id)
  }

  lemma {:induction false} ServiceIndexFirst(catalog: seq<ServiceValue>, id: string, i: nat)
    requires i <= |catalog|
    requires forall j :: 0 <= j < i ==> catalog[j].id != id
    requires i < |catalog| ==> catalog[i].id == id
    ensures ServiceIndex(catalog, id) == i
  {
    if i > 0 {
      ServiceIndexFirst(catalog[1..], id, i - 1);
    }
  }

  lemma {:induction false} ServiceIndexBound(catalog: seq<ServiceValue>, id: string, i: nat)
    requires i < |catalog| && catalog[i].id == id
    ensures ServiceIndex(catalog, id) <= i
  {
    if i > 0 {
      ServiceIndexBound(catalog[1..], id, i - 1);
    }
  }

  lemma {:induction false} PlanIndexFirst(plans: seq<Plan>, id: string, k: nat)
    requires k <= |plans|
    requires forall j :: 0 <= j < k ==> plans[j].advertised.id != id
    requires k < |plans| ==> plans[k].advertised.id == id
    ensures PlanIndex(plans, id) == k
  {
    if k > 0 {
      PlanIndexFirst(plans[1..], id, k - 1);
    }
  }

  method GetService(services: seq<Service>, id: string) returns (r: Result<Service, string>)
    ensures var i := ServiceIndex(Values(services), id);
            r == if i < |services| then Success(services[i]) else Failure("service " + id + ": not found")
  {
    for i := 0 to |services|
      invariant forall j :: 0 <= j < i ==> services[j].id != id
    {
      if services[i].id == id {
        ServiceIndexFirst(Values(services), id, i);
        return Success(services[i]);
      }
    }
    ServiceIndexFirst(Values(services), id, |services|);
    return Failure("service " + id + ": not found");
  }

  method GetPlan(plans: seq<Plan>, id: string) returns (r: Result<Plan, string>)
    ensures var k := PlanIndex(plans, id);
            r == if k < |plans| then Success(plans[k]) else Failure("plan " + id + ": not found")
  {
    for k := 0 to |plans|
      invariant forall j :: 0 <= j < k ==> plans[j].advertised.id != id
    {
      if plans[k].advertised.id == id {
        PlanIndexFirst(plans, id, k);
        return Success(plans[k]);
      }
    }
    PlanIndexFirst(plans, id, |plans|);
    return Failure("plan " + id + ": not found");
  }

  function FindService(catalog: seq<ServiceValue>, id: string): Result<ServiceValue, string> {
    var i := ServiceIndex(catalog, id);
    if i < |catalog| then Success(catalog[i]) else Failure("service " + id + ": not found")
  }

  function FindPlan(plans: seq<Plan>, id: string): Result<Plan, string> {
    var k := PlanIndex(plans, id);
    if k < |plans| then Success(plans[k]) else Failure("plan " + id + ": not found")
  }

  /** The i-th service is the first one with this ID. */
  predicate FirstService(catalog: seq<ServiceValue>, id: string, i: nat) {
    i < |catalog| && catalog[i].id == id && forall j :: 0 <= j < i ==> catalog[j].id != id
  }

  predicate FirstPlan(plans: seq<Plan>, id: string, k: nat) {
    k < |plans| && plans[k].advertised.id == id && forall j :: 0 <= j < k ==> plans[j].advertised.id != id
  }

  /** Finding a service gives the first one with the ID, and an error that names the ID iff there is none. */
  lemma {:induction false} FindServiceExactly(catalog: seq<ServiceValue>, id: string)
    ensures match FindService(catalog, id)
            case Success(service) => exists i: nat :: FirstService(catalog, id, i) && service == catalog[i]
            case Failure(e) => (forall s :: s in catalog ==> s.id != id) && e == "service " + id + ": not found"
  {
    if i: nat :| FirstService(catalog, id, i) {
      ServiceIndexFirst(catalog, id, i);
    } else {
      NoFirstService(catalog, id, |catalog|);
      ServiceIndexFirst(catalog, id, |catalog|);
    }
  }

  lemma {:induction false} NoFirstService(catalog: seq<ServiceValue>, id: string, n: nat)
    requires n <= |catalog| && forall i: nat :: !FirstService(catalog, id, i)
    ensures forall j :: 0 <= j < n ==> catalog[j].id != id
  {
    if n > 0 {
      NoFirstService(catalog, id, n - 1);
      assert !FirstService(catalog, id, n - 1);
    }
  }

  lemma {:induction false} FindPlanExactly(plans: seq<Plan>, id: string)
    ensures match FindPlan(plans, id)
            case Success(plan) => exists k: nat :: FirstPlan(plans, id, k) && plan == plans[k]
            case Failure(e) => (forall p :: p in plans ==> p.advertised.id != id) && e == "plan " + id + ": not found"
  {
    if k: nat :| FirstPlan(plans, id, k) {
      PlanIndexFirst(plans, id, k);
    } else {
      NoFirstPlan(plans, id, |plans|);
      PlanIndexFirst(plans, id, |plans|);
    }
  }

  lemma {:induction false} NoFirstPlan(plans: seq<Plan>, id: string, n: nat)
    requires n <= |plans| && forall k: nat :: !FirstPlan(plans, id, k)
    ensures forall j :: 0 <= j < n ==> plans[j].advertised.id != id
  {
    if n > 0 {
      NoFirstPlan(plans, id, n - 1);
      assert !FirstPlan(plans, id, n - 1);
    }
  }

  /** No service that offers plans repeats an earlier service's ID, and no service repeats a plan ID. */
  predicate UniqueIds(catalog: seq<ServiceValue>) {
    && (forall i, j :: 0 <= i < j < |catalog| && catalog[j].plans != [] ==> catalog[i].id != catalog[j].id)
    && (forall i :: 0 <= i < |catalog| ==> UniquePlanIds(catalog[i].plans))
  }

  predicate UniquePlanIds(plans: seq<Plan>) {
    forall k, l :: 0 <= k < l < |plans| ==> plans[k].advertised.id != plans[l].advertised.id
  }

  /** Looking up the IDs of the k-th advertised plan of the i-th service leads back to exactly that entry. */
  predicate Resolves(catalog: seq<ServiceValue>, i: nat, k: nat)
    requires i < |catalog| && k < |catalog[i].advertised|
  {
    && ServiceIndex(catalog, catalog[i].id) == i
    && PlanIndex(catalog[i].plans, catalog[i].advertised[k].id) == k
    && k < |catalog[i].plans|
    && catalog[i].plans[k].advertised == catalog[i].advertised[k]
  }

  /** Every entry a loaded catalog advertises resolves to itself iff the IDs are unique. */
  lemma AdvertisedPlansResolve(catalog: seq<ServiceValue>)
    requires Advertised(catalog)
    ensures UniqueIds(catalog) <==>
            forall i, k :: 0 <= i < |catalog| && 0 <= k < |catalog[i].advertised| ==> Resolves(catalog, i, k)
  {
    if UniqueIds(catalog) {
      forall i, k | 0 <= i < |catalog| && 0 <= k < |catalog[i].advertised|
        ensures Resolves(catalog, i, k)
      {
        ServiceIndexFirst(catalog, catalog[i].id, i);
        assert UniquePlanIds(catalog[i].plans);
        PlanIndexFirst(catalog[i].plans, catalog[i].advertised[k].id, k);
      }
    }
    if forall i, k :: 0 <= i < |catalog| && 0 <= k < |catalog[i].advertised| ==> Resolves(catalog, i, k) {
      forall i, j | 0 <= i < j < |catalog| && catalog[j].plans != []
        ensures catalog[i].id != catalog[j].id
      {
        assert Resolves(catalog, j, 0);
        if catalog[i].id == catalog[j].id {
          ServiceIndexBound(catalog, catalog[j].id, i);
        }
      }
      forall i, k, l | 0 <= i < |catalog| && 0 <= k < l < |catalog[i].plans|
        ensures catalog[i].plans[k].advertised.id != catalog[i].plans[l].advertised.id
      {
        assert Resolves(catalog, i, k) && Resolves(catalog, i, l);
      }
    }
  }
}

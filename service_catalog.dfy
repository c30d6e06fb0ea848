/** The static catalog document (broker_catalog in src/broker/broker.py). */
module ServiceCatalog {

  datatype Plan = Plan(id: string, name: string, description: string)

  datatype Service = Service(
    id: string,
    name: string,
    description: string,
    bindable: bool,
    tags: seq<string>,
    plans: seq<Plan>)

  datatype Catalog = Catalog(services: seq<Service>)

  const ServiceId := "c084b262-b733-45e2-974b-ed8ad94e808a"
  const PlanId := "30f7be98-dc0b-4fce-91bc-aeb87c864ecc"

  /** What a platform needs of a catalog: non-empty, unique ids, every service with a plan. */
  predicate WellFormed(c: Catalog) {
    |c.services| >= 1 &&
    (forall i, j :: 0 <= i < j < |c.services| ==> c.services[i].id != c.services[j].id) &&
    forall s :: s in c.services ==>
      s.id != "" && s.name != "" && |s.plans| >= 1 &&
      (forall p :: p in s.plans ==> p.id != "" && p.name != "") &&
      (forall i, j :: 0 <= i < j < |s.plans| ==> s.plans[i].id != s.plans[j].id)
  }

  function BrokerCatalog(): (c: Catalog)
    ensures WellFormed(c)
    ensures |c.services| == 1
    ensures c.services[0].id == ServiceId && c.services[0].bindable
    ensures |c.services[0].plans| == 1 && c.services[0].plans[0].id == PlanId
  {
    Catalog([
      Service(
        ServiceId,
        "spacebears-db",
        "Simple key/value services",
        true,
        ["key-value", "spacebears"],
        [Plan(PlanId, "plan1", "A first, free, service plan")])])
  }
}

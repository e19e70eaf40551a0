/**
 * The admin dashboard (components/admin-dashboard.tsx): one load of users,
 * cars and orders, and the counters and the short list of pending orders
 * computed from them.
 */
module AdminDashboard {
  import opened Js
  import opened Lists
  import opened Io
  import opened Records

  /** The component's state: the loader replaces it once. */
  datatype Dashboard = Dashboard(
    loading: bool,
    error: string,
    clients: seq<Record>,
    cars: seq<Record>,
    repairs: seq<Record>)

  const Initial: Dashboard := Dashboard(true, "", [], [], [])

  /** The state after the load (lines 27-55): the clients, cars and orders on
      success; the previous lists and an error message on failure. */
  function Load(d: Dashboard, fetched: Response<(seq<Record>, seq<Record>, seq<Record>)>): (r: Dashboard)
    ensures !r.loading
    ensures fetched.Failed? <==> r.error == "Failed to load dashboard data"
    ensures fetched.Ok? ==> r.error == "" && r.clients == OnlyClients(fetched.value.0) &&
                            r.cars == fetched.value.1 && r.repairs == fetched.value.2
    ensures fetched.Failed? ==> r.clients == d.clients && r.cars == d.cars && r.repairs == d.repairs
  {
    match fetched
    case Ok((users, cars, repairs)) => Dashboard(false, "", OnlyClients(users), cars, repairs)
    case Failed => d.(loading := false, error := "Failed to load dashboard data")
  }

  predicate IsActive(r: Record) {
    !StrictEquals(Prop(r, "status"), Str("CLOSED"))
  }

  predicate IsUrgent(r: Record) {
    StrictEquals(Prop(r, "status"), Str("PENDING"))
  }

  predicate IsClosed(r: Record) {
    Prop(r, "status") == Str("CLOSED")
  }

  datatype Stats = Stats(totalClients: nat, totalCars: nat, activeRepairs: nat, urgentCases: seq<Record>)

  /** `stats` (lines 57-71) */
  function StatsOf(d: Dashboard): (s: Stats)
    ensures s.totalClients == |d.clients| && s.totalCars == |d.cars|
    ensures s.activeRepairs <= |d.repairs|
    ensures forall r :: r in s.urgentCases ==> r in d.repairs && IsUrgent(r)
  {
    FilterLength(d.repairs, IsActive);
    Stats(|d.clients|, |d.cars|, |Filter(d.repairs, IsActive)|, Filter(d.repairs, IsUrgent))
  }

  /** `urgentList` (lines 73-75) */
  function UrgentList(d: Dashboard): (urgent: seq<Record>)
    ensures |urgent| <= 5
    ensures forall r :: r in urgent ==> r in d.repairs && Prop(r, "status") == Str("PENDING")
  {
    Take(Filter(d.repairs, IsUrgent), 5)
  }

  /** Every active order is counted once, so there are never more than orders;
      the pending ones are among the active ones, so there are never more of
      them than active orders; they keep their order of the fetched list. */
  lemma StatsBounds(d: Dashboard)
    ensures StatsOf(d).activeRepairs <= |d.repairs|
    ensures |StatsOf(d).urgentCases| <= StatsOf(d).activeRepairs
    ensures Sublist(StatsOf(d).urgentCases, d.repairs)
    ensures forall r :: r in StatsOf(d).urgentCases <==> r in d.repairs && Prop(r, "status") == Str("PENDING")
  {
    FilterLength(d.repairs, IsActive);
    FilterStronger(d.repairs, IsUrgent, IsActive);
  }

  /** `activeRepairs` is the number of orders whose status is not "CLOSED":
      together with the closed ones it makes up every order. */
  lemma ActiveCount(d: Dashboard)
    ensures StatsOf(d).activeRepairs + |Filter(d.repairs, IsClosed)| == |d.repairs|
  {
    FilterSplit(d.repairs, IsActive, IsClosed);
  }

  /** With no closed order every order is active. */
  lemma AllActive(d: Dashboard)
    requires forall i :: 0 <= i < |d.repairs| ==> Prop(d.repairs[i], "status") != Str("CLOSED")
    ensures StatsOf(d).activeRepairs == |d.repairs|
  {
    FilterLength(d.repairs, IsActive);
  }

  /** After a successful load the client counter is the number of fetched users
      with the client role, and the car counter the number of fetched cars. */
  lemma LoadedCounters(d: Dashboard, users: seq<Record>, cars: seq<Record>, repairs: seq<Record>)
    ensures var s := StatsOf(Load(d, Ok((users, cars, repairs))));
            && s.totalClients == |Filter(users, IsClient)|
            && s.totalClients <= |users|
            && s.totalCars == |cars|
  {
    FilterLength(users, IsClient);
  }

  /** The short list is the first five pending orders, or all of them when there are fewer. */
  lemma UrgentListSpec(d: Dashboard)
    ensures UrgentList(d) <= StatsOf(d).urgentCases
    ensures |UrgentList(d)| == if |StatsOf(d).urgentCases| < 5 then |StatsOf(d).urgentCases| else 5
    ensures |StatsOf(d).urgentCases| <= 5 ==> UrgentList(d) == StatsOf(d).urgentCases
  {
  }
}

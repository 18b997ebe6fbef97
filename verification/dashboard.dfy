/** The admin dashboard: four stat cards, the two request counters, the
    featured-project count and two short previews. */
module Dashboard {
  import Seqs
  import Projects
  import AgricultureProjects
  import PropertyRequests
  import AdminStore

  datatype StatCard = StatCard(title: string, value: nat)

  datatype Overview = Overview(
    stats: seq<StatCard>,
    pendingRequests: nat,
    handledRequests: nat,
    featuredProjects: nat,
    recentRequests: seq<PropertyRequests.Request>,
    shownAreas: seq<string>)

  /** What the dashboard shows for a state. */
  function Show(s: AdminStore.State): (o: Overview)
    ensures |o.stats| == 4
    ensures o.stats[0].value == |s.projects| && o.stats[1].value == |s.requests|
    ensures o.stats[2].value == o.pendingRequests && o.stats[3].value == |s.agriProjects|
    ensures o.pendingRequests + o.handledRequests <= |s.requests|
    ensures o.featuredProjects <= |s.projects|
    ensures |o.recentRequests| == (if |s.requests| < 5 then |s.requests| else 5)
    ensures o.recentRequests == s.requests[..|o.recentRequests|]
    ensures |o.shownAreas| == (if |s.trends.trendingAreas| < 3 then |s.trends.trendingAreas| else 3)
    ensures o.shownAreas == s.trends.trendingAreas[..|o.shownAreas|]
  {
    PropertyRequests.PendingHandledSplit(s.requests, []);
    var pending := |PropertyRequests.PendingRequests(s.requests)|;
    Overview(
      [StatCard("Real Estate Projects", |s.projects|),
       StatCard("Property Requests", |s.requests|),
       StatCard("Pending Requests", pending),
       StatCard("Agriculture Projects", |s.agriProjects|)],
      pending,
      |PropertyRequests.HandledRequests(s.requests)|,
      |Projects.Featured(s.projects)|,
      Seqs.Take(s.requests, 5),
      Seqs.Take(s.trends.trendingAreas, 3))
  }

  /** The counters are the sizes of the status queries. */
  lemma CountersAreQueries(s: AdminStore.State)
    ensures Show(s).pendingRequests == |PropertyRequests.PendingRequests(s.requests)|
    ensures Show(s).handledRequests == |PropertyRequests.HandledRequests(s.requests)|
    ensures Show(s).featuredProjects == |Projects.Featured(s.projects)|
  {
  }

  /** On the seeded state the dashboard shows 6 projects, 4 requests of
      which 3 are pending and 1 handled, 4 agriculture projects, 3 featured
      projects, all four requests and the first three trending areas. */
  lemma SeededOverview()
    ensures var o := Show(AdminStore.Seeded);
      && [o.stats[0].value, o.stats[1].value, o.stats[2].value, o.stats[3].value] == [6, 4, 3, 4]
      && o.handledRequests == 1
      && o.featuredProjects == 3
      && o.recentRequests == PropertyRequests.Fixture
      && o.shownAreas == ["Lekki Phase 1", "Victoria Island", "Ikoyi"]
  {
    var s := AdminStore.Seeded;
    assert s.projects == Projects.Fixture && s.requests == PropertyRequests.Fixture;
    assert s.agriProjects == AgricultureProjects.Fixture;
    assert s.trends.trendingAreas[..3] == ["Lekki Phase 1", "Victoria Island", "Ikoyi"];
    PropertyRequests.FixturePending();
    PropertyRequests.FixtureHandled();
    Projects.FixtureFeatured();
    CountersAreQueries(s);
  }
}

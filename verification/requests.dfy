/** Property requests sent from the public site: the record with its
    three-valued status, the bundled fixture list and the two status
    queries. */
module PropertyRequests {
  import Seqs
  import Collection

  datatype RequestStatus = Pending | Handled | Archived
  datatype Purpose = Buy | Lease

  datatype Request = Request(
    id: string,
    propertyType: string,
    location: string,
    budget: string,
    purpose: Purpose,
    notes: string,
    name: string,
    email: string,
    phone: string,
    status: RequestStatus,
    createdAt: string)

  function IdOf(r: Request): string {
    r.id
  }

  function HasStatus(st: RequestStatus): Request -> bool {
    (r: Request) => r.status == st
  }

  /** `r => ({ ...r, status })` as a value: only the status changes. */
  function WithStatus(st: RequestStatus): Request -> Request {
    (r: Request) => r.(status := st)
  }

  /** The requests with status `st`, in their original order. */
  function WithStatusOnly(rs: seq<Request>, st: RequestStatus): (r: seq<Request>)
    ensures |r| <= |rs|
    ensures forall i :: 0 <= i < |r| ==> r[i].status == st && r[i] in rs
    ensures forall q | q in rs :: q in r <==> q.status == st
  {
    Seqs.Filter(rs, HasStatus(st))
  }

  /** `requests.filter(r => r.status === "pending")`. */
  function PendingRequests(rs: seq<Request>): (r: seq<Request>)
    ensures forall q | q in rs :: q in r <==> q.status == Pending
    ensures |r| <= |rs|
    ensures forall i :: 0 <= i < |r| ==> r[i].status == Pending && r[i] in rs
  {
    WithStatusOnly(rs, Pending)
  }

  /** `requests.filter(r => r.status === "handled")`. */
  function HandledRequests(rs: seq<Request>): (r: seq<Request>)
    ensures forall q | q in rs :: q in r <==> q.status == Handled
    ensures |r| <= |rs|
    ensures forall i :: 0 <= i < |r| ==> r[i].status == Handled && r[i] in rs
  {
    WithStatusOnly(rs, Handled)
  }

  /** Pending and handled requests are disjoint and together number at most
      all requests; exactly all of them when none is archived. Each query
      keeps the relative order of its results. */
  lemma PendingHandledSplit(rs: seq<Request>, qs: seq<Request>)
    ensures forall q :: q in PendingRequests(rs) ==> q !in HandledRequests(rs)
    ensures |PendingRequests(rs)| + |HandledRequests(rs)| <= |rs|
    ensures (forall i :: 0 <= i < |rs| ==> rs[i].status != Archived) ==>
      |PendingRequests(rs)| + |HandledRequests(rs)| == |rs|
    ensures PendingRequests(rs + qs) == PendingRequests(rs) + PendingRequests(qs)
    ensures HandledRequests(rs + qs) == HandledRequests(rs) + HandledRequests(qs)
  {
    Seqs.FilterDisjointLength(rs, HasStatus(Pending), HasStatus(Handled));
    if forall i :: 0 <= i < |rs| ==> rs[i].status != Archived {
      Seqs.FilterPartitionLength(rs, HasStatus(Pending), HasStatus(Handled));
    }
    Seqs.FilterAppend(rs, qs, HasStatus(Pending));
    Seqs.FilterAppend(rs, qs, HasStatus(Handled));
  }

  const Okafor := Request(
    "1",
    "3-Bedroom Apartment",
    "Lekki Phase 1",
    "\U{20A6}80,000,000 - \U{20A6}120,000,000",
    Buy,
    "Looking for a modern apartment with ocean view. Preferably in a gated community.",
    "Chukwuemeka Okafor",
    "c.okafor@email.com",
    "+234 801 234 5678",
    Pending,
    "2024-12-10")

  const Nwachukwu := Request(
    "2",
    "Commercial Office Space",
    "Victoria Island",
    "\U{20A6}15,000,000/year",
    Lease,
    "Need 500sqm office space for tech startup. Open floor plan preferred.",
    "Adaeze Nwachukwu",
    "adaeze.n@techcorp.ng",
    "+234 802 345 6789",
    Pending,
    "2024-12-08")

  const Mohammed := Request(
    "3",
    "5-Bedroom Duplex",
    "Ikoyi",
    "\U{20A6}200,000,000 - \U{20A6}350,000,000",
    Buy,
    "Executive home with pool and garden. Diplomatic zone preferred.",
    "Ibrahim Mohammed",
    "i.mohammed@diplo.gov",
    "+234 803 456 7890",
    Handled,
    "2024-12-05")

  const Adeyemi := Request(
    "4",
    "Warehouse",
    "Apapa",
    "\U{20A6}25,000,000/year",
    Lease,
    "Logistics company needs 2000sqm warehouse near port.",
    "Oluwaseun Adeyemi",
    "olu@logisticsng.com",
    "+234 804 567 8901",
    Pending,
    "2024-12-12")

  /** The bundled fixture list. */
  const Fixture := [Okafor, Nwachukwu, Mohammed, Adeyemi]

  /** The fixture ids are "1" to "4", so they are pairwise distinct. */
  lemma FixtureIds()
    ensures Collection.Ids(Fixture, IdOf) == ["1", "2", "3", "4"]
    ensures Collection.UniqueIds(Fixture, IdOf)
  {
    assert Fixture[1..] == [Nwachukwu, Mohammed, Adeyemi];
    assert Fixture[2..] == [Mohammed, Adeyemi];
    assert Fixture[3..] == [Adeyemi];
  }

  /** Three fixtures are pending (the first, second and fourth). */
  lemma FixturePending()
    ensures PendingRequests(Fixture) == [Okafor, Nwachukwu, Adeyemi]
  {
    var p := HasStatus(Pending);
    Seqs.FilterFour(Okafor, Nwachukwu, Mohammed, Adeyemi, p);
    assert Seqs.Keep(Okafor, p) == [Okafor];
    assert Seqs.Keep(Nwachukwu, p) == [Nwachukwu];
    assert Seqs.Keep(Mohammed, p) == [];
    assert Seqs.Keep(Adeyemi, p) == [Adeyemi];
  }

  /** One fixture, the third, is handled. */
  lemma FixtureHandled()
    ensures HandledRequests(Fixture) == [Mohammed]
  {
    var p := HasStatus(Handled);
    Seqs.FilterFour(Okafor, Nwachukwu, Mohammed, Adeyemi, p);
    assert Seqs.Keep(Okafor, p) == [];
    assert Seqs.Keep(Nwachukwu, p) == [];
    assert Seqs.Keep(Mohammed, p) == [Mohammed];
    assert Seqs.Keep(Adeyemi, p) == [];
  }
}

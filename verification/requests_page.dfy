/** The property-requests admin page: the status filter, the two counters,
    the pending/handled toggle and the CSV export. */
module RequestsPage {
  import Seqs
  import Text
  import Collection
  import PropertyRequests
  import AdminStore

  /** The filter buttons: all requests, or one status. */
  datatype StatusFilter = All | PendingOnly | HandledOnly

  function Passes(f: StatusFilter): PropertyRequests.Request -> bool {
    (r: PropertyRequests.Request) =>
      match f
      case All => true
      case PendingOnly => r.status == PropertyRequests.Pending
      case HandledOnly => r.status == PropertyRequests.Handled
  }

  /** `filteredRequests`: everything under "all", otherwise exactly the
      status queries of the data module. */
  function FilteredRequests(rs: seq<PropertyRequests.Request>, f: StatusFilter): (r: seq<PropertyRequests.Request>)
    ensures f == All ==> r == rs
    ensures f == PendingOnly ==> r == PropertyRequests.PendingRequests(rs)
    ensures f == HandledOnly ==> r == PropertyRequests.HandledRequests(rs)
  {
    FilterAgrees(rs, f);
    Seqs.Filter(rs, Passes(f))
  }

  lemma FilterAgrees(rs: seq<PropertyRequests.Request>, f: StatusFilter)
    ensures f == All ==> Seqs.Filter(rs, Passes(f)) == rs
    ensures f == PendingOnly ==> Seqs.Filter(rs, Passes(f)) == PropertyRequests.PendingRequests(rs)
    ensures f == HandledOnly ==> Seqs.Filter(rs, Passes(f)) == PropertyRequests.HandledRequests(rs)
  {
    if f == All {
      Seqs.FilterKeepsAll(rs, Passes(f));
    } else if f == PendingOnly {
      FilterSame(rs, Passes(f), PropertyRequests.HasStatus(PropertyRequests.Pending));
    } else {
      FilterSame(rs, Passes(f), PropertyRequests.HasStatus(PropertyRequests.Handled));
    }
  }

  /** Two tests that agree on every element select the same elements. */
  lemma {:induction false} FilterSame(rs: seq<PropertyRequests.Request>, p: PropertyRequests.Request -> bool,
      q: PropertyRequests.Request -> bool)
    requires forall r | r in rs :: p(r) == q(r)
    ensures Seqs.Filter(rs, p) == Seqs.Filter(rs, q)
  {
    if |rs| > 0 {
      assert rs[0] in rs;
      FilterSame(rs[1..], p, q);
    }
  }

  function PendingCount(rs: seq<PropertyRequests.Request>): nat {
    |PropertyRequests.PendingRequests(rs)|
  }

  function HandledCount(rs: seq<PropertyRequests.Request>): nat {
    |PropertyRequests.HandledRequests(rs)|
  }

  /** The counters never add up to more than the requests; archived requests
      are what makes up the difference. */
  lemma CountsBound(rs: seq<PropertyRequests.Request>)
    ensures PendingCount(rs) + HandledCount(rs) <= |rs|
    ensures (forall i :: 0 <= i < |rs| ==> rs[i].status != PropertyRequests.Archived) ==>
      PendingCount(rs) + HandledCount(rs) == |rs|
  {
    PropertyRequests.PendingHandledSplit(rs, []);
  }

  /** The status the row button sets: "Mark as Handled" on a pending request,
      "Mark as Pending" on any other, archived included. */
  function ToggledStatus(st: PropertyRequests.RequestStatus): (r: PropertyRequests.RequestStatus)
    ensures r != st
    ensures r != PropertyRequests.Archived
  {
    if st == PropertyRequests.Pending then PropertyRequests.Handled else PropertyRequests.Pending
  }

  /** Toggling twice is the identity exactly on the statuses the buttons can
      produce; an archived request comes back pending. */
  lemma ToggleTwice(st: PropertyRequests.RequestStatus)
    ensures ToggledStatus(ToggledStatus(st)) == st <==> st != PropertyRequests.Archived
  {
  }

  /** Pressing the row button for request `q`. */
  function Toggle(s: AdminStore.State, q: PropertyRequests.Request): (r: AdminStore.State)
    ensures |r.requests| == |s.requests|
    ensures forall i :: 0 <= i < |s.requests| && s.requests[i].id == q.id ==>
      r.requests[i].status == ToggledStatus(q.status) &&
      r.requests[i].(status := s.requests[i].status) == s.requests[i]
    ensures forall i :: 0 <= i < |s.requests| && s.requests[i].id != q.id ==> r.requests[i] == s.requests[i]
    ensures r.(requests := s.requests) == s
  {
    AdminStore.UpdateRequestStatus(s, q.id, ToggledStatus(q.status))
  }

  /** In a list with unique ids, pressing a pending or handled row's button
      twice (the second time on the re-rendered row) restores the state. */
  lemma ToggleRowTwice(s: AdminStore.State, i: int)
    requires Collection.UniqueIds(s.requests, PropertyRequests.IdOf)
    requires 0 <= i < |s.requests| && s.requests[i].status != PropertyRequests.Archived
    ensures Toggle(Toggle(s, s.requests[i]), Toggle(s, s.requests[i]).requests[i]) == s
  {
    var q := s.requests[i];
    var once := Toggle(s, q);
    var twice := Toggle(once, once.requests[i]);
    assert once.requests[i].id == q.id;
    forall k | 0 <= k < |s.requests| ensures twice.requests[k] == s.requests[k] {
      if k != i {
        assert PropertyRequests.IdOf(s.requests[k]) != PropertyRequests.IdOf(s.requests[i]);
      }
    }
  }

  // ---------------------------------------------------------------------
  // CSV export

  function PurposeText(p: PropertyRequests.Purpose): string {
    match p
    case Buy => "buy"
    case Lease => "lease"
  }

  function StatusText(st: PropertyRequests.RequestStatus): string {
    match st
    case Pending => "pending"
    case Handled => "handled"
    case Archived => "archived"
  }

  const CsvHeaders: seq<string> :=
    ["Name", "Email", "Phone", "Property Type", "Location", "Budget", "Purpose", "Notes", "Status", "Date"]

  /** The ten exported fields of a request, in column order. */
  function CsvFields(r: PropertyRequests.Request): (fs: seq<string>)
    ensures |fs| == |CsvHeaders|
  {
    [r.name, r.email, r.phone, r.propertyType, r.location, r.budget,
     PurposeText(r.purpose), r.notes, StatusText(r.status), r.createdAt]
  }

  /** One line: the fields joined with commas, nothing quoted or escaped. */
  function CsvLine(fields: seq<string>): string {
    Text.Join(fields, ',')
  }

  function CsvLines(rs: seq<PropertyRequests.Request>): (r: seq<string>)
    ensures |r| == |rs|
    ensures forall i :: 0 <= i < |rs| ==> r[i] == CsvLine(CsvFields(rs[i]))
  {
    if |rs| == 0 then [] else [CsvLine(CsvFields(rs[0]))] + CsvLines(rs[1..])
  }

  /** `exportToCSV`'s text: the header line, then one line per request in
      collection order, joined with newlines. */
  function Csv(rs: seq<PropertyRequests.Request>): string {
    Text.Join([CsvLine(CsvHeaders)] + CsvLines(rs), '\n')
  }

  /** No field of the request contains a comma or a line break. */
  predicate Plain(r: PropertyRequests.Request) {
    forall k :: 0 <= k < |CsvFields(r)| ==> ',' !in CsvFields(r)[k] && '\n' !in CsvFields(r)[k]
  }

  /** No header holds a comma or a line break. */
  lemma HeadersPlain()
    ensures forall k :: 0 <= k < |CsvHeaders| ==> ',' !in CsvHeaders[k] && '\n' !in CsvHeaders[k]
  {
    forall k | 0 <= k < |CsvHeaders| ensures ',' !in CsvHeaders[k] && '\n' !in CsvHeaders[k] {
      var h := CsvHeaders[k];
      assert forall j :: 0 <= j < |h| ==> h[j] != ',' && h[j] != '\n';
    }
  }

  /** A line of fields without commas or line breaks has no line break and
      splits back into those fields. */
  lemma LineShape(fields: seq<string>)
    requires |fields| >= 1
    requires forall k :: 0 <= k < |fields| ==> ',' !in fields[k] && '\n' !in fields[k]
    ensures '\n' !in CsvLine(fields)
    ensures Text.Split(CsvLine(fields), ',') == fields
  {
    Text.JoinAvoids(fields, ',', '\n');
    Text.SplitJoin(fields, ',');
  }

  /** When no exported field holds a comma or a line break, the CSV text
      splits into the header plus one line per request, and each line splits
      into exactly its ten fields. */
  lemma CsvShape(rs: seq<PropertyRequests.Request>)
    requires forall i :: 0 <= i < |rs| ==> Plain(rs[i])
    ensures |Text.Split(Csv(rs), '\n')| == 1 + |rs|
    ensures Text.Split(Text.Split(Csv(rs), '\n')[0], ',') == CsvHeaders
    ensures forall i :: 0 <= i < |rs| ==>
      Text.Split(Text.Split(Csv(rs), '\n')[i + 1], ',') == CsvFields(rs[i])
  {
    var lines := [CsvLine(CsvHeaders)] + CsvLines(rs);
    HeadersPlain();
    LineShape(CsvHeaders);
    forall i | 0 <= i < |rs| ensures '\n' !in CsvLines(rs)[i] && Text.Split(CsvLines(rs)[i], ',') == CsvFields(rs[i]) {
      LineShape(CsvFields(rs[i]));
    }
    assert forall k :: 0 <= k < |lines| ==> '\n' !in lines[k] by {
      forall k | 0 <= k < |lines| ensures '\n' !in lines[k] {
        if k > 0 {
          assert lines[k] == CsvLines(rs)[k - 1];
        }
      }
    }
    Text.SplitJoin(lines, '\n');
    forall i | 0 <= i < |rs| ensures Text.Split(lines[i + 1], ',') == CsvFields(rs[i]) {
      assert lines[i + 1] == CsvLines(rs)[i];
    }
  }
}

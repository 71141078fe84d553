/**
 * The delivery list view: a fixed list of deliveries filtered by a free-text search
 * (case-insensitive, on customer, id and address) and a status tab, and the
 * "Assign Driver" button offered on pending entries.
 */
module DeliveryManagement {
  import opened Wrappers
  import Text

  datatype DeliveryStatus = Pending | Assigned | InTransit | Delivered | Failed

  datatype Priority = Low | Medium | High

  datatype Delivery = Delivery(
    id: string,
    customer: string,
    address: string,
    phone: string,
    status: DeliveryStatus,
    driver: Option<string>,
    estimatedTime: string,
    priority: Priority,
    packages: int,
    value: real)

  /** The status filter value that shows every status. */
  const AllStatuses: string := "all"

  /** The status as it appears in the record and in the filter's values. */
  function StatusName(s: DeliveryStatus): string {
    match s
    case Pending => "pending"
    case Assigned => "assigned"
    case InTransit => "in-transit"
    case Delivered => "delivered"
    case Failed => "failed"
  }

  /** The lower-cased term occurs in the lower-cased customer, id or address. */
  predicate MatchesSearch(d: Delivery, term: string) {
    var t := Text.Lower(term);
    Text.Contains(Text.Lower(d.customer), t) ||
    Text.Contains(Text.Lower(d.id), t) ||
    Text.Contains(Text.Lower(d.address), t)
  }

  predicate MatchesStatus(d: Delivery, selected: string) {
    selected == AllStatuses || StatusName(d.status) == selected
  }

  /** The filter callback of `filteredDeliveries`. */
  predicate Shown(d: Delivery, term: string, selected: string) {
    MatchesSearch(d, term) && MatchesStatus(d, selected)
  }

  /** `a` is `b` with some elements dropped and the rest kept in order. */
  ghost predicate IsSubsequence<T>(a: seq<T>, b: seq<T>)
    decreases |b|
  {
    if a == [] then true
    else if b == [] then false
    else (a[0] == b[0] && IsSubsequence(a[1..], b[1..])) || IsSubsequence(a, b[1..])
  }

  /** `filteredDeliveries`: the deliveries the filter keeps, in their order. */
  function Filtered(ds: seq<Delivery>, term: string, selected: string): (r: seq<Delivery>)
    ensures forall i :: 0 <= i < |r| ==> Shown(r[i], term, selected)
    ensures forall d :: multiset(r)[d] == if Shown(d, term, selected) then multiset(ds)[d] else 0
    ensures IsSubsequence(r, ds)
  {
    if ds == [] then []
    else
      var rest := Filtered(ds[1..], term, selected);
      assert ds == [ds[0]] + ds[1..];
      if Shown(ds[0], term, selected) then
        assert rest == ([ds[0]] + rest)[1..];
        [ds[0]] + rest
      else
        SubsequenceOfTail(rest, ds);
        rest
  }

  lemma SubsequenceOfTail<T>(a: seq<T>, b: seq<T>)
    requires b != [] && IsSubsequence(a, b[1..])
    ensures IsSubsequence(a, b)
  {
  }

  /** A list whose every element passes the filter comes back whole. */
  lemma {:induction false} FilterKeepsAllShown(ds: seq<Delivery>, term: string, selected: string)
    requires forall i :: 0 <= i < |ds| ==> Shown(ds[i], term, selected)
    ensures Filtered(ds, term, selected) == ds
  {
    if ds != [] {
      FilterKeepsAllShown(ds[1..], term, selected);
    }
  }

  /** Filtering the filtered list again with the same term and status changes nothing. */
  lemma {:induction false} FilteredIdempotent(ds: seq<Delivery>, term: string, selected: string)
    ensures Filtered(Filtered(ds, term, selected), term, selected) == Filtered(ds, term, selected)
  {
    FilterKeepsAllShown(Filtered(ds, term, selected), term, selected);
  }

  /** With an empty search and the `all` tab, every delivery is listed, in order. */
  lemma {:induction false} EmptySearchShowsAll(ds: seq<Delivery>)
    ensures Filtered(ds, "", AllStatuses) == ds
  {
    forall i | 0 <= i < |ds| ensures Shown(ds[i], "", AllStatuses) {
      Text.ContainsEmpty(Text.Lower(ds[i].customer));
    }
    FilterKeepsAllShown(ds, "", AllStatuses);
  }

  /**
   * A delivery is listed iff it matches both the search and the status tab; on a
   * tab other than `all`, every listed delivery has exactly that status.
   */
  lemma ShownIffMatches(ds: seq<Delivery>, term: string, selected: string, d: Delivery)
    requires d in ds
    ensures d in Filtered(ds, term, selected) <==> MatchesSearch(d, term) && MatchesStatus(d, selected)
    ensures selected != AllStatuses && d in Filtered(ds, term, selected) ==> StatusName(d.status) == selected
  {
    var r := Filtered(ds, term, selected);
    assert d in r <==> multiset(r)[d] > 0;
    assert multiset(ds)[d] > 0;
  }

  /** "Assign Driver" is rendered on a delivery card exactly when the delivery is pending. */
  predicate OffersAssignDriver(d: Delivery) {
    d.status == Pending
  }

  /** On the `pending` tab every listed card offers "Assign Driver", and no other tab but `all` shows one. */
  lemma AssignDriverOnPendingTab(ds: seq<Delivery>, term: string, selected: string)
    ensures selected == StatusName(Pending) ==>
              forall i :: 0 <= i < |Filtered(ds, term, selected)| ==> OffersAssignDriver(Filtered(ds, term, selected)[i])
    ensures selected != AllStatuses && selected != StatusName(Pending) ==>
              forall i :: 0 <= i < |Filtered(ds, term, selected)| ==> !OffersAssignDriver(Filtered(ds, term, selected)[i])
  {
    var r := Filtered(ds, term, selected);
    forall i | 0 <= i < |r| ensures StatusName(r[i].status) == selected || selected == AllStatuses {
    }
    forall s: DeliveryStatus | StatusName(s) == StatusName(Pending) ensures s == Pending {
    }
  }

  /** The list the view shows; it has no setter. */
  function Deliveries(): seq<Delivery> {
    [
      Delivery("DEL-001", "John Smith", "123 Main St, Downtown", "+1 (555) 123-4567",
        Pending, None, "2:30 PM", High, 2, 125.50),
      Delivery("DEL-002", "Sarah Johnson", "456 Oak Ave, Suburb", "+1 (555) 987-6543",
        InTransit, Some("Mike Wilson"), "3:15 PM", Medium, 1, 89.99),
      Delivery("DEL-003", "Emma Davis", "789 Pine Rd, Uptown", "+1 (555) 456-7890",
        Delivered, Some("Lisa Chen"), "1:45 PM", Low, 3, 245.00),
      Delivery("DEL-004", "Robert Brown", "321 Elm St, Midtown", "+1 (555) 321-0987",
        Assigned, Some("Tom Rodriguez"), "4:00 PM", Medium, 1, 67.25)
    ]
  }

  /** An empty search matches every delivery, so only the status tab decides. */
  lemma EmptySearchMatchesAll(d: Delivery)
    ensures MatchesSearch(d, "")
  {
    Text.ContainsEmpty(Text.Lower(d.customer));
  }

  /**
   * On the mock list, an empty search on the `pending` tab lists only DEL-001, the one
   * card that offers "Assign Driver".
   */
  lemma PendingTabOfMockList()
    ensures Filtered(Deliveries(), "", StatusName(Pending)) == [Deliveries()[0]]
    ensures OffersAssignDriver(Deliveries()[0]) && Deliveries()[0].id == "DEL-001"
  {
    var ds := Deliveries();
    var tab := StatusName(Pending);
    EmptySearchMatchesAll(ds[0]);
    assert Shown(ds[0], "", tab);
    assert !MatchesStatus(ds[1], tab) by { assert StatusName(ds[1].status)[0] != tab[0]; }
    assert !MatchesStatus(ds[2], tab) by { assert StatusName(ds[2].status)[0] != tab[0]; }
    assert !MatchesStatus(ds[3], tab) by { assert StatusName(ds[3].status)[0] != tab[0]; }
    assert Filtered(ds[4..], "", tab) == [];
    assert Filtered(ds[3..], "", tab) == [];
    assert Filtered(ds[2..], "", tab) == [];
    assert Filtered(ds[1..], "", tab) == [];
  }
}

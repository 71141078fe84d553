/**
 * The driver's mobile view: a three-state shift machine driven by the buttons each
 * state offers, and a delivery queue whose entries are marked arrived or delivered
 * by id.
 */
module DriverApp {
  import opened Wrappers
  import Records

  datatype ShiftStatus = Available | OnRoute | Break

  /** The shift buttons: Start Route, Take Break, Back to Work, End Shift. */
  datatype ShiftAction = StartRoute | TakeBreak | BackToWork | EndShift

  datatype DeliveryStatus = Pending | InProgress | Arrived | Delivered

  datatype Priority = Low | Medium | High

  datatype Delivery = Delivery(
    id: string,
    customer: string,
    address: string,
    phone: string,
    packages: int,
    notes: Option<string>,
    estimatedTime: string,
    status: DeliveryStatus,
    priority: Priority)

  /** The status-changing buttons of a queue entry: Mark Arrived, Mark Delivered. */
  datatype DeliveryAction = MarkArrived | MarkDelivered

  /** The buttons the driver controls render for a shift status. */
  function ShiftActions(s: ShiftStatus): set<ShiftAction> {
    match s
    case Available => {StartRoute}
    case OnRoute => {TakeBreak, EndShift}
    case Break => {BackToWork}
  }

  /** The status each shift handler sets; the handlers themselves check nothing. */
  function ShiftTarget(a: ShiftAction): ShiftStatus {
    match a
    case StartRoute => OnRoute
    case TakeBreak => Break
    case BackToWork => OnRoute
    case EndShift => Available
  }

  /** The four moves of a shift: available→on-route, on-route→break, break→on-route, on-route→available. */
  predicate ShiftMove(from: ShiftStatus, to: ShiftStatus) {
    (from == Available && to == OnRoute) ||
    (from == OnRoute && to == Break) ||
    (from == Break && to == OnRoute) ||
    (from == OnRoute && to == Available)
  }

  /** Pressing an offered button is one of the four moves, and each move has its button. */
  lemma ShiftButtonsAreTheMoves(from: ShiftStatus, to: ShiftStatus)
    ensures ShiftMove(from, to) <==> exists a :: a in ShiftActions(from) && ShiftTarget(a) == to
  {
    if ShiftMove(from, to) {
      var a := if from == Available then StartRoute
               else if from == Break then BackToWork
               else if to == Break then TakeBreak
               else EndShift;
      assert a in ShiftActions(from) && ShiftTarget(a) == to;
    }
  }

  /** "End Shift" and "Take Break" exist only on route; a break only leads back to work. */
  lemma ShiftButtonGuards(s: ShiftStatus)
    ensures EndShift in ShiftActions(s) <==> s == OnRoute
    ensures TakeBreak in ShiftActions(s) <==> s == OnRoute
    ensures ShiftActions(Break) == {BackToWork}
  {
  }

  /** The status-changing buttons a queue entry renders for its status. */
  function DeliveryActions(s: DeliveryStatus): set<DeliveryAction> {
    match s
    case Pending => {MarkArrived}
    case InProgress => {MarkDelivered}
    case Arrived => {MarkDelivered}
    case Delivered => {}
  }

  function ActionStatus(a: DeliveryAction): DeliveryStatus {
    match a
    case MarkArrived => Arrived
    case MarkDelivered => Delivered
  }

  /** Progress of a delivery: pending, then in progress or arrived, then delivered. */
  function Progress(s: DeliveryStatus): nat {
    match s
    case Pending => 0
    case InProgress => 1
    case Arrived => 1
    case Delivered => 2
  }

  /** Offered buttons only move a delivery forward; delivered offers none. */
  lemma DeliveryButtonsMoveForward(s: DeliveryStatus, a: DeliveryAction)
    requires a in DeliveryActions(s)
    ensures Progress(ActionStatus(a)) > Progress(s)
    ensures s == Pending ==> ActionStatus(a) == Arrived
    ensures s != Pending ==> ActionStatus(a) == Delivered
  {
  }

  /** `prev.map(d => d.id === id ? { ...d, status } : d)`. */
  function WithStatus(ds: seq<Delivery>, id: string, status: DeliveryStatus): (r: seq<Delivery>)
    ensures |r| == |ds|
    ensures forall i :: 0 <= i < |ds| && ds[i].id == id ==> r[i] == ds[i].(status := status)
    ensures forall i :: 0 <= i < |ds| && ds[i].id != id ==> r[i] == ds[i]
  {
    Records.MapWhere(ds, (d: Delivery) => d.id == id, (d: Delivery) => d.(status := status))
  }

  predicate UniqueIds(ds: seq<Delivery>) {
    forall i, j :: 0 <= i < j < |ds| ==> ds[i].id != ds[j].id
  }

  /** An id that is not in the queue leaves the queue as it was. */
  lemma UnknownIdLeavesQueue(ds: seq<Delivery>, id: string, status: DeliveryStatus)
    requires forall i :: 0 <= i < |ds| ==> ds[i].id != id
    ensures WithStatus(ds, id, status) == ds
  {
  }

  /**
   * Pressing an entry's offered button, with ids unique, changes that entry's status
   * forward and nothing else in the queue.
   */
  lemma PressOnlyAdvancesThatEntry(ds: seq<Delivery>, k: nat, a: DeliveryAction)
    requires UniqueIds(ds) && k < |ds|
    requires a in DeliveryActions(ds[k].status)
    ensures var r := WithStatus(ds, ds[k].id, ActionStatus(a));
      && |r| == |ds|
      && r[k] == ds[k].(status := ActionStatus(a))
      && Progress(r[k].status) > Progress(ds[k].status)
      && (forall i :: 0 <= i < |ds| && i != k ==> r[i] == ds[i])
      && UniqueIds(r)
  {
    DeliveryButtonsMoveForward(ds[k].status, a);
    var r := WithStatus(ds, ds[k].id, ActionStatus(a));
    forall i | 0 <= i < |ds| && i != k ensures r[i] == ds[i] {
      if i < k { assert ds[i].id != ds[k].id; } else { assert ds[k].id != ds[i].id; }
    }
  }

  /** Rebuilding the queue by id keeps every id, so unique ids stay unique. */
  lemma WithStatusKeepsUniqueIds(ds: seq<Delivery>, id: string, status: DeliveryStatus)
    requires UniqueIds(ds)
    ensures UniqueIds(WithStatus(ds, id, status))
  {
    var r := WithStatus(ds, id, status);
    assert forall i :: 0 <= i < |ds| ==> r[i].id == ds[i].id;
  }

  /** The queue the view starts with. */
  function InitialDeliveries(): seq<Delivery> {
    [
      Delivery("DEL-001", "John Smith", "123 Main St, Downtown", "+1 (555) 123-4567", 2,
        Some("Ring doorbell twice. Customer prefers front door delivery."), "2:30 PM", InProgress, High),
      Delivery("DEL-002", "Sarah Johnson", "456 Oak Ave, Suburb", "+1 (555) 987-6543", 1,
        None, "3:15 PM", Pending, Medium),
      Delivery("DEL-003", "Mike Wilson", "789 Pine Rd, Uptown", "+1 (555) 456-7890", 3,
        Some("Apartment 4B. Use buzzer code 1234."), "4:00 PM", Pending, Low)
    ]
  }

  class DriverAppView {
    var currentStatus: ShiftStatus
    var deliveries: seq<Delivery>

    /** No two queue entries share an id, so pressing a button touches one entry. */
    ghost predicate Valid()
      reads this
    {
      UniqueIds(deliveries)
    }

    constructor ()
      ensures Valid()
      ensures currentStatus == Available && deliveries == InitialDeliveries()
    {
      currentStatus := Available;
      deliveries := InitialDeliveries();
    }

    /** Any of the four shift handlers. */
    method PressShift(a: ShiftAction)
      modifies this`currentStatus
      ensures currentStatus == ShiftTarget(a)
      ensures a in ShiftActions(old(currentStatus)) ==> ShiftMove(old(currentStatus), currentStatus)
    {
      ShiftButtonsAreTheMoves(currentStatus, ShiftTarget(a));
      match a
      case StartRoute => currentStatus := OnRoute;
      case TakeBreak => currentStatus := Break;
      case BackToWork => currentStatus := OnRoute;
      case EndShift => currentStatus := Available;
    }

    /** `handleMarkDelivered(id)`. */
    method MarkDeliveredById(id: string)
      requires Valid()
      modifies this`deliveries
      ensures Valid()
      ensures deliveries == WithStatus(old(deliveries), id, Delivered)
    {
      WithStatusKeepsUniqueIds(deliveries, id, Delivered);
      deliveries := WithStatus(deliveries, id, Delivered);
    }

    /** `handleMarkArrived(id)`. */
    method MarkArrivedById(id: string)
      requires Valid()
      modifies this`deliveries
      ensures Valid()
      ensures deliveries == WithStatus(old(deliveries), id, Arrived)
    {
      WithStatusKeepsUniqueIds(deliveries, id, Arrived);
      deliveries := WithStatus(deliveries, id, Arrived);
    }
  }
}

/** Manufacturing orders, production logs, shifts and maintenance activities: the status
    codes of an order and the quantities derived from a record. Times of day are whole
    seconds after midnight and datetimes are whole seconds; hours are exact `real`
    quotients of those. */
module ProductionModels {
  import opened Wrappers

  /** ManufacturingOrder.STATUS_CHOICES. */
  datatype MoStatus =
    | Draft
    | Planned
    | MaterialPending
    | Ready
    | InProgress
    | OnHold
    | Completed
    | Cancelled
  {
    /** The code stored in the status column. */
    function Code(): string {
      match this
      case Draft => "DRAFT"
      case Planned => "PLANNED"
      case MaterialPending => "MATERIAL_PENDING"
      case Ready => "READY"
      case InProgress => "IN_PROGRESS"
      case OnHold => "ON_HOLD"
      case Completed => "COMPLETED"
      case Cancelled => "CANCELLED"
    }
  }

  /** The code an order gets when none is given. */
  const DefaultStatus := Draft

  /** Reads a status column back; a code outside the choices has no status. */
  function ParseStatus(code: string): (r: Option<MoStatus>)
    ensures r.Some? ==> r.value.Code() == code
    ensures (exists st: MoStatus :: st.Code() == code) ==> r.Some?
  {
    if code == "DRAFT" then Some(Draft)
    else if code == "PLANNED" then Some(Planned)
    else if code == "MATERIAL_PENDING" then Some(MaterialPending)
    else if code == "READY" then Some(Ready)
    else if code == "IN_PROGRESS" then Some(InProgress)
    else if code == "ON_HOLD" then Some(OnHold)
    else if code == "COMPLETED" then Some(Completed)
    else if code == "CANCELLED" then Some(Cancelled)
    else None
  }

  /** Distinct statuses have distinct codes, so the code identifies the status. */
  lemma StatusCodesDistinct(a: MoStatus, b: MoStatus)
    ensures a.Code() == b.Code() ==> a == b
  {
    var pa := ParseStatus(a.Code());
    var pb := ParseStatus(b.Code());
    assert pa == Some(a) && pb == Some(b);
  }

  /** The American spelling "CANCELED" is not the code of any status. */
  lemma CanceledIsNotAStatus(st: MoStatus)
    ensures st.Code() != "CANCELED"
  {
    assert ParseStatus("CANCELED") == None;
  }

  /** A ManufacturingOrder row as the post-save hooks see it: its id, its unique order
      number, the SKU of its product and its status column. */
  class ManufacturingOrder {
    var id: nat
    var orderNumber: string
    var productSku: string
    var status: string

    constructor (id: nat, orderNumber: string, productSku: string, status: string)
      ensures this.id == id && this.orderNumber == orderNumber
      ensures this.productSku == productSku && this.status == status
    {
      this.id := id;
      this.orderNumber := orderNumber;
      this.productSku := productSku;
      this.status := status;
    }
  }

  /** One ProductionLog row of an order: the units it records as produced. */
  datatype ProductionLog = ProductionLog(unitsProduced: nat, unitsDefective: nat)

  /** ManufacturingOrder.units_completed: the sum of units_produced over the order's logs,
      0 when there are none. */
  function UnitsCompleted(logs: seq<ProductionLog>): (total: nat)
    ensures logs == [] ==> total == 0
  {
    if logs == [] then 0 else UnitsCompleted(logs[..|logs| - 1]) + logs[|logs| - 1].unitsProduced
  }

  /** The units completed over two batches of logs add up. */
  lemma {:induction false} UnitsCompletedConcat(a: seq<ProductionLog>, b: seq<ProductionLog>)
    ensures UnitsCompleted(a + b) == UnitsCompleted(a) + UnitsCompleted(b)
  {
    if b == [] {
      assert a + b == a;
    } else {
      assert (a + b)[..|a + b| - 1] == a + b[..|b| - 1];
      UnitsCompletedConcat(a, b[..|b| - 1]);
    }
  }

  /** Every log's units are part of the total; defective units are not counted. */
  lemma {:induction false} UnitsCompletedBounds(logs: seq<ProductionLog>, k: nat)
    requires k < |logs|
    ensures logs[k].unitsProduced <= UnitsCompleted(logs)
    ensures UnitsCompleted(logs[k := logs[k].(unitsDefective := 0)]) == UnitsCompleted(logs)
  {
    var n := |logs|;
    var logs' := logs[k := logs[k].(unitsDefective := 0)];
    if k < n - 1 {
      assert logs'[..n - 1] == logs[..n - 1][k := logs[k].(unitsDefective := 0)];
      UnitsCompletedBounds(logs[..n - 1], k);
    } else {
      assert logs'[..n - 1] == logs[..n - 1];
    }
  }

  /** The link from an order to the sales order line it fulfils, null when it has none;
      a line belongs to one sales order. */
  datatype SalesOrderLine = SalesOrderLine(id: nat, salesOrder: nat)

  /** ManufacturingOrder.get_sales_order: the sales order of the linked line, or None. */
  function GetSalesOrder(line: Option<SalesOrderLine>): (r: Option<nat>)
    ensures r.None? <==> line.None?
    ensures r.Some? ==> r.value == line.value.salesOrder
  {
    match line
    case None => None
    case Some(l) => Some(l.salesOrder)
  }

  const SecondsPerDay := 86400

  predicate IsTimeOfDay(t: int) {
    0 <= t < SecondsPerDay
  }

  /** The time a shift lasts: end minus start, with a day added to the end when the end
      time is before the start time. Equal times give 0, not a whole day. */
  function ShiftElapsed(start: int, end: int): (e: int)
    requires IsTimeOfDay(start) && IsTimeOfDay(end)
    ensures 0 <= e < SecondsPerDay
  {
    if end < start then end + SecondsPerDay - start else end - start
  }

  /** Shift.shift_hours in seconds: the elapsed time less the break. */
  function ShiftNetSeconds(start: int, end: int, breakMinutes: nat): int
    requires IsTimeOfDay(start) && IsTimeOfDay(end)
  {
    ShiftElapsed(start, end) - breakMinutes * 60
  }

  /** Shift.shift_hours: the net seconds as hours. */
  function ShiftHours(start: int, end: int, breakMinutes: nat): (h: real)
    requires IsTimeOfDay(start) && IsTimeOfDay(end)
    ensures h * 3600.0 == ShiftNetSeconds(start, end, breakMinutes) as real
  {
    ShiftNetSeconds(start, end, breakMinutes) as real / 3600.0
  }

  /** The elapsed time is end minus start taken modulo a day: the one value in
      [0, 86400) that differs from end - start by a whole number of days. */
  lemma ShiftElapsedIsModular(start: int, end: int)
    requires IsTimeOfDay(start) && IsTimeOfDay(end)
    ensures ShiftElapsed(start, end) == (end - start) % SecondsPerDay
    ensures end >= start ==> ShiftElapsed(start, end) == end - start
  {
    var d := end - start;
    if d < 0 {
      assert d + SecondsPerDay == d % SecondsPerDay + SecondsPerDay * (d / SecondsPerDay + 1);
    }
  }

  /** A shift whose start and end times are equal lasts minus its break: the overnight
      rule only applies when the end is strictly before the start. */
  lemma EqualTimesGiveMinusBreak(t: int, breakMinutes: nat)
    requires IsTimeOfDay(t)
    ensures ShiftNetSeconds(t, t, breakMinutes) == -(breakMinutes * 60)
    ensures ShiftHours(t, t, breakMinutes) == -(breakMinutes as real) / 60.0
  {
  }

  /** A night shift from 22:00 to 06:00 with the default 30-minute break is 7.5 hours. */
  lemma NightShiftExample()
    ensures ShiftHours(22 * 3600, 6 * 3600, 30) == 7.5
  {
  }

  /** MaintenanceActivity.downtime_hours: None while the activity has no end, otherwise
      the time from start to end in hours, which is not negative when the end is not
      before the start. */
  function DowntimeHours(start: int, end: Option<int>): (r: Option<real>)
    ensures r.None? <==> end.None?
    ensures r.Some? ==> r.value * 3600.0 == (end.value - start) as real
    ensures r.Some? ==> (r.value >= 0.0 <==> start <= end.value)
  {
    match end
    case None => None
    case Some(e) => Some((e - start) as real / 3600.0)
  }
}

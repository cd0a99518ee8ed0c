/** The manufacturing workflow of product RA-84672 (a bike): four assembly steps, each at
    the first workstation of its name that is ready for production, after which the
    order is PLANNED. */
module Ra84672 {
  import opened Wrappers
  import ProductionModels

  /** A Workstation row: its id, its name, and whether the workstation manager's
      ready_for_production filter lets it through. */
  datatype Workstation = Workstation(id: nat, name: string, readyForProduction: bool)

  predicate ReadyAs(w: Workstation, name: string) {
    w.name == name && w.readyForProduction
  }

  /** ready_for_production(name).first(): the position of the first ready workstation of
      that name, or None when there is none. `first()` on an unordered queryset orders by
      primary key, so `stations` is the workstation table in ascending id order. */
  function FirstReady(stations: seq<Workstation>, name: string): (r: Option<nat>)
    ensures r.Some? ==> r.value < |stations| && ReadyAs(stations[r.value], name)
    ensures r.Some? ==> forall k :: 0 <= k < r.value ==> !ReadyAs(stations[k], name)
    ensures r.None? <==> forall k :: 0 <= k < |stations| ==> !ReadyAs(stations[k], name)
  {
    if stations == [] then None
    else if ReadyAs(stations[0], name) then Some(0)
    else match FirstReady(stations[1..], name)
      case None => None
      case Some(k) => Some(k + 1)
  }

  /** The workstation a step gets: the id of the first ready one of the step's name. */
  function WorkstationFor(stations: seq<Workstation>, name: string): Option<nat> {
    match FirstReady(stations, name)
    case None => None
    case Some(k) => Some(stations[k].id)
  }

  /** ManufacturingStepInput: what a step is made from. */
  datatype StepInput = StepInput(name: string, workstation: Option<nat>, description: string)

  /** A ManufacturingStep row: the order it belongs to, its name and description, its
      workstation (null when none was found) and its status. */
  datatype ManufacturingStep = ManufacturingStep(
    order: nat, name: string, description: string, workstation: Option<nat>, status: string)

  /** The status column's default. */
  const PendingStatus := "PENDING"

  /** ManufacturingStep.from_list: one step per input, in order, for the given order and
      with the default status. */
  function FromList(order: nat, inputs: seq<StepInput>): (steps: seq<ManufacturingStep>)
    ensures |steps| == |inputs|
    ensures forall k :: 0 <= k < |inputs| ==>
      steps[k] == ManufacturingStep(order, inputs[k].name, inputs[k].description, inputs[k].workstation, PendingStatus)
  {
    if inputs == [] then []
    else
      [ManufacturingStep(order, inputs[0].name, inputs[0].description, inputs[0].workstation, PendingStatus)]
      + FromList(order, inputs[1..])
  }

  const StepNames: seq<string> := ["Frame Assembly", "Wheel Assembly", "Seat Assembly", "Handlebars Assembly"]

  const StepDescriptions: seq<string> := [
    "Assemble the frame of the bike",
    "Assemble the wheels of the bike",
    "Assemble the seat of the bike",
    "Assemble the handlebars of the bike"
  ]

  /** The four step inputs of the workflow, each with the workstation found for it. */
  function Inputs(stations: seq<Workstation>): seq<StepInput> {
    [
      StepInput("Frame Assembly", WorkstationFor(stations, "Frame Assembly"), "Assemble the frame of the bike"),
      StepInput("Wheel Assembly", WorkstationFor(stations, "Wheel Assembly"), "Assemble the wheels of the bike"),
      StepInput("Seat Assembly", WorkstationFor(stations, "Seat Assembly"), "Assemble the seat of the bike"),
      StepInput("Handlebars Assembly", WorkstationFor(stations, "Handlebars Assembly"), "Assemble the handlebars of the bike")
    ]
  }

  /** The steps the workflow creates for an order. */
  function PlannedSteps(order: nat, stations: seq<Workstation>): seq<ManufacturingStep> {
    FromList(order, Inputs(stations))
  }

  /** Exactly four steps, named Frame, Wheel, Seat and Handlebars Assembly in that order,
      each with its fixed description, pending, referencing the order, and placed at the
      first ready workstation of its name, or at none when there is no such workstation. */
  lemma PlannedStepsShape(order: nat, stations: seq<Workstation>)
    ensures var steps := PlannedSteps(order, stations);
      && |steps| == 4
      && forall k :: 0 <= k < 4 ==>
        && steps[k].order == order
        && steps[k].name == StepNames[k]
        && steps[k].description == StepDescriptions[k]
        && steps[k].status == PendingStatus
        && (steps[k].workstation.None? <==>
              forall m :: 0 <= m < |stations| ==> !ReadyAs(stations[m], StepNames[k]))
        && (steps[k].workstation.Some? ==>
              exists m :: 0 <= m < |stations| && ReadyAs(stations[m], StepNames[k])
                && stations[m].id == steps[k].workstation.value
                && forall p :: 0 <= p < m ==> !ReadyAs(stations[p], StepNames[k]))
  {
    var steps := PlannedSteps(order, stations);
    forall k | 0 <= k < 4
      ensures steps[k].workstation == WorkstationFor(stations, StepNames[k])
    {
    }
    forall k | 0 <= k < 4 && steps[k].workstation.Some?
      ensures exists m :: 0 <= m < |stations| && ReadyAs(stations[m], StepNames[k])
                && stations[m].id == steps[k].workstation.value
                && forall p :: 0 <= p < m ==> !ReadyAs(stations[p], StepNames[k])
    {
      var m := FirstReady(stations, StepNames[k]).value;
      assert stations[m].id == steps[k].workstation.value;
    }
  }

  /** The ManufacturingStep table. */
  class StepTable {
    var steps: seq<ManufacturingStep>

    constructor ()
      ensures steps == []
    {
      steps := [];
    }
  }

  /** ra_84672: looks up the four workstations, bulk-inserts the four steps for the order
      and saves the order as PLANNED, all in one transaction. Only the order's status
      changes. */
  method Run(order: ProductionModels.ManufacturingOrder, stations: seq<Workstation>, table: StepTable)
    modifies order`status, table
    ensures table.steps == old(table.steps) + PlannedSteps(order.id, stations)
    ensures order.status == ProductionModels.MoStatus.Planned.Code()
  {
    var steps := FromList(order.id, Inputs(stations));
    table.steps := table.steps + steps;
    order.status := "PLANNED";
  }
}

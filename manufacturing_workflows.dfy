/** The registry of manufacturing workflows, keyed by product SKU. */
module ManufacturingWorkflows {
  import opened Wrappers
  import ProductionModels
  import Ra84672

  /** The workflow functions the registry can name. */
  datatype Workflow = Ra84672Workflow

  /** MANUFACTURING_WORKFLOWS: a constant map with one entry. */
  const Registry: map<string, Workflow> := map["RA-84672" := Ra84672Workflow]

  /** The registry has exactly one key, "RA-84672", and it names the ra_84672 workflow. */
  lemma RegistryContents()
    ensures Registry.Keys == {"RA-84672"}
    ensures Registry["RA-84672"] == Ra84672Workflow
    ensures |Registry| == 1
  {
  }

  /** The lookup done by the post-save hook: None for every SKU but "RA-84672". */
  function Lookup(sku: string): (r: Option<Workflow>)
    ensures r.Some? <==> sku == "RA-84672"
    ensures r.Some? ==> r.value == Ra84672Workflow
  {
    if sku in Registry then Some(Registry[sku]) else None
  }

  /** Calls the workflow function a registry entry names on an order. */
  method Apply(w: Workflow, order: ProductionModels.ManufacturingOrder, stations: seq<Ra84672.Workstation>, table: Ra84672.StepTable)
    modifies order`status, table
    ensures w == Ra84672Workflow ==>
      && table.steps == old(table.steps) + Ra84672.PlannedSteps(order.id, stations)
      && order.status == ProductionModels.MoStatus.Planned.Code()
  {
    match w
    case Ra84672Workflow =>
      Ra84672.Run(order, stations, table);
  }
}

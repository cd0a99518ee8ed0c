/** The two enumerations of the application, with the string each member carries. */
module Enums {

  datatype EmployeeRole =
    | ProductionWorker
    | MachineOperator
    | QualityInspector
    | ShiftSupervisor
    | MaintenanceTechnician
    | ProductionPlanner
    | WarehouseAssociate
    | TeamLead
  {
    function Value(): string {
      match this
      case ProductionWorker => "Production Worker"
      case MachineOperator => "Machine Operator"
      case QualityInspector => "Quality Inspector"
      case ShiftSupervisor => "Shift Supervisor"
      case MaintenanceTechnician => "Maintenance Technician"
      case ProductionPlanner => "Production Planner"
      case WarehouseAssociate => "Warehouse Associate"
      case TeamLead => "Team Lead"
    }
  }

  datatype EmployeeDepartment =
    | Production
    | QualityControl
    | Maintenance
    | Logistics
    | Planning
  {
    function Value(): string {
      match this
      case Production => "Production"
      case QualityControl => "Quality Control"
      case Maintenance => "Maintenance"
      case Logistics => "Logistics"
      case Planning => "Planning"
    }
  }
}

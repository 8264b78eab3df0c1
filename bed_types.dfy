/** The bed-structure records of src/types/bed.ts: units, beds and the six
    bed statuses, with the constraints the schemas place on them. */
module BedTypes {
  import opened Common

  /** `BedStatusEnum`. */
  datatype BedStatus = Closed | Clean | Maintenance | DischargeConfirmed | DischargeUnconfirmed | Occupied

  /** A new bed record that gives no status gets `closed`. */
  const DefaultBedStatus: BedStatus := Closed

  function BedStatusName(s: BedStatus): string {
    match s
    case Closed => "closed"
    case Clean => "clean"
    case Maintenance => "maintenance"
    case DischargeConfirmed => "discharge_confirmed"
    case DischargeUnconfirmed => "discharge_unconfirmed"
    case Occupied => "occupied"
  }

  /** Parsing a status name against the enum; anything else is rejected. */
  function ParseBedStatus(name: string): (r: Option<BedStatus>)
    ensures r.Some? ==> BedStatusName(r.value) == name
  {
    if name == "closed" then Some(Closed)
    else if name == "clean" then Some(Clean)
    else if name == "maintenance" then Some(Maintenance)
    else if name == "discharge_confirmed" then Some(DischargeConfirmed)
    else if name == "discharge_unconfirmed" then Some(DischargeUnconfirmed)
    else if name == "occupied" then Some(Occupied)
    else None
  }

  /** Every status survives printing and parsing, so the six names are
      distinct and the enum has exactly these six values. */
  lemma BedStatusNamesRoundTrip(s: BedStatus)
    ensures ParseBedStatus(BedStatusName(s)) == Some(s)
  {
  }

  /** A unit (`UnitSchema` of the type file); times are opaque naturals. */
  datatype Unit = Unit(name: string, description: Option<string>, createdAt: Option<nat>)

  predicate ValidUnit(u: Unit) {
    |u.name| >= 1
  }

  /** A bed (`BedSchema`). `currentPatientId` is optional and nullable; both
      an absent and a null value are `None` here. */
  datatype Bed = Bed(
    unitId: string,
    unitName: Option<string>,
    bedNumber: int,
    status: BedStatus,
    currentPatientId: Option<string>,
    updatedAt: Option<nat>)

  predicate ValidBed(b: Bed) {
    |b.unitId| >= 1 && b.bedNumber >= 1
  }
}

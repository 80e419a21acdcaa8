/** The entities the dashboard reads from the backend and the two entry
    forms it edits (src/components/Dashboard.jsx). Server records carry
    strings where the backend owns the vocabulary; the forms carry enums
    because their select boxes only offer a fixed list. */
module Records {
  import opened Wrappers

  /** The eight ABO/Rh groups offered by the donor and request forms. */
  datatype BloodGroup = APos | ANeg | BPos | BNeg | ABPos | ABNeg | OPos | ONeg

  function BloodGroupName(g: BloodGroup): string {
    match g
    case APos => "A+"
    case ANeg => "A-"
    case BPos => "B+"
    case BNeg => "B-"
    case ABPos => "AB+"
    case ABNeg => "AB-"
    case OPos => "O+"
    case ONeg => "O-"
  }

  /** The select box's option values, in the order they are rendered. */
  const BloodGroupOptions: seq<BloodGroup> := [APos, ANeg, BPos, BNeg, ABPos, ABNeg, OPos, ONeg]

  /** Reads back the group a select option value stands for. */
  function ParseBloodGroup(name: string): (g: Option<BloodGroup>)
    ensures g.Some? ==> BloodGroupName(g.value) == name
    ensures g.None? ==> forall b :: BloodGroupName(b) != name
  {
    if name == "A+" then Some(APos)
    else if name == "A-" then Some(ANeg)
    else if name == "B+" then Some(BPos)
    else if name == "B-" then Some(BNeg)
    else if name == "AB+" then Some(ABPos)
    else if name == "AB-" then Some(ABNeg)
    else if name == "O+" then Some(OPos)
    else if name == "O-" then Some(ONeg)
    else None
  }

  /** Every group is offered exactly once and its option value reads back to it. */
  lemma BloodGroupOptionsComplete(g: BloodGroup)
    ensures g in BloodGroupOptions
    ensures ParseBloodGroup(BloodGroupName(g)) == Some(g)
    ensures forall i, j :: 0 <= i < j < |BloodGroupOptions| ==> BloodGroupOptions[i] != BloodGroupOptions[j]
  {
  }

  datatype Urgency = UrgencyLow | UrgencyMedium | UrgencyHigh | UrgencyCritical

  /** The caller's identity as returned by `GET /me`; `hospitalId` is
      absent for accounts that are not linked to a hospital or bank. */
  datatype Me = Me(role: string, email: string, hospitalId: Option<string>)

  /** `me?.hospital_id` is truthy: a session is loaded and carries a
      non-empty affiliation id. */
  predicate Linked(me: Option<Me>) {
    me.Some? && me.value.hospitalId.Some? && me.value.hospitalId.value != ""
  }

  function AffiliationOf(me: Option<Me>): (id: string)
    requires Linked(me)
    ensures id != "" && me.value.hospitalId == Some(id)
  {
    me.value.hospitalId.value
  }

  datatype Donor = Donor(
    id: string,
    name: string,
    bloodGroup: string,
    phone: string,
    location: string,
    donationCount: Option<nat>,
    hospitalId: Option<string>)

  /** One `units` entry of the inventory object: a group and its count,
      absent when the backend sent `null`. */
  datatype UnitEntry = UnitEntry(group: string, count: Option<nat>)

  /** The inventory snapshot; `units` keeps the object's key order, and
      either threshold may be absent. */
  datatype Inventory = Inventory(
    units: Option<seq<UnitEntry>>,
    criticalThreshold: Option<int>,
    lowThreshold: Option<int>)

  datatype BloodRequest = BloodRequest(
    id: string,
    bloodGroup: string,
    quantity: int,
    urgency: string,
    patientName: string,
    patientDetails: string,
    status: string,
    matchedDonorIds: Option<seq<string>>)

  datatype Notification = Notification(
    id: string,
    donorId: string,
    message: string,
    channel: string,
    status: string)

  datatype Certificate = Certificate(
    id: string,
    donorId: string,
    donorName: string,
    donationDate: string,
    badge: string,
    aiMessage: string)

  /** The "Add Donor" form. */
  datatype DonorForm = DonorForm(name: string, bloodGroup: BloodGroup, phone: string, location: string)

  /** The value the donor form starts with and is reset to after a save. */
  const BlankDonorForm := DonorForm("", APos, "", "")

  /** The "Create Emergency Request" form. */
  datatype RequestForm = RequestForm(
    bloodGroup: BloodGroup,
    quantity: int,
    urgency: Urgency,
    patientName: string,
    patientDetails: string)

  const InitialRequestForm := RequestForm(APos, 1, UrgencyHigh, "", "")
}

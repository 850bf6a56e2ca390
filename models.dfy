/** The record shapes of the clinic's three tables and of the flattened session view.
    Dates are integer timestamps (milliseconds since the epoch). */
module Models {
  import opened Opt

  datatype Patient = Patient(id: nat, name: string, dob: Option<int>)

  datatype Therapist = Therapist(id: nat, name: string, specialty: Option<string>)

  /** A session row; its foreign keys and its status may be null in the table. */
  datatype Session = Session(
    id: nat,
    therapist_id: Option<nat>,
    patient_id: Option<nat>,
    date: int,
    status: Option<string>)

  /** A session with its related rows, each missing when the foreign key dangles or is null. */
  datatype SessionWithRelations = SessionWithRelations(
    session: Session,
    patient: Option<Patient>,
    therapist: Option<Therapist>)

  /** The shape the public sessions endpoint returns. */
  datatype SessionWithNames = SessionWithNames(
    id: nat,
    date: int,
    status: string,
    therapistName: string,
    patientName: string)

  /** The status values the admin schemas accept; the table default is "Scheduled". */
  const ScheduledStatus := "Scheduled"
  const CompletedStatus := "Completed"
  const CancelledStatus := "Cancelled"
  const NoShowStatus := "No-show"
}

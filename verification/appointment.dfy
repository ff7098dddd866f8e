/**
 * The Appointment entity: a mutable record of references (time slot, visit,
 * patient, type), its status, two free-text reasons and its identifier. Every
 * setter overwrites its own field and nothing else; none of them checks the
 * value it is given (in particular SetStatus accepts any status, or none).
 */
module Appointments {
  import opened Options
  import opened AppointmentStatuses

  /** Entities owned elsewhere; the appointment only holds references to them. */
  type TimeSlot
  type Visit
  type Patient
  type AppointmentType

  /** java.lang.Integer's range. */
  newtype Int32 = x: int | -0x8000_0000 <= x < 0x8000_0000

  /** The value of every field of an appointment at one moment. */
  datatype AppointmentFields = AppointmentFields(
    appointmentId: Option<Int32>,
    timeSlot: Option<TimeSlot>,
    visit: Option<Visit>,
    patient: Option<Patient>,
    status: Option<AppointmentStatus>,
    reason: Option<string>,
    cancelReason: Option<string>,
    appointmentType: Option<AppointmentType>)

  /** Every field null, as a freshly allocated Java object has them. */
  function Unset(): AppointmentFields
  {
    AppointmentFields(None, None, None, None, None, None, None, None)
  }

  class Appointment {
    var appointmentId: Option<Int32>
    var timeSlot: Option<TimeSlot>
    var visit: Option<Visit>
    var patient: Option<Patient>
    var status: Option<AppointmentStatus>
    var reason: Option<string>
    var cancelReason: Option<string>
    var appointmentType: Option<AppointmentType>

    /** The current value of all fields (what the getters return). */
    function Fields(): AppointmentFields
      reads this
    {
      AppointmentFields(appointmentId, timeSlot, visit, patient, status, reason, cancelReason, appointmentType)
    }

    /** The no-argument constructor leaves every field null. */
    constructor ()
      ensures Fields() == Unset()
    {
      appointmentId, timeSlot, visit, patient := None, None, None, None;
      status, reason, cancelReason, appointmentType := None, None, None, None;
    }

    /** Appointment(Integer): only the identifier is set, through SetId. */
    constructor WithId(appointmentId: Option<Int32>)
      ensures Fields() == Unset().(appointmentId := appointmentId)
      ensures GetId() == appointmentId
    {
      this.appointmentId, timeSlot, visit, patient := None, None, None, None;
      status, reason, cancelReason, appointmentType := None, None, None, None;
      new;
      SetId(appointmentId);
    }

    /**
     * The five-argument constructor: sets time slot, visit, patient, status and
     * type through their setters; identifier, reason and cancel reason stay null.
     */
    constructor Create(timeSlot: Option<TimeSlot>, visit: Option<Visit>, patient: Option<Patient>,
                       appointmentType: Option<AppointmentType>, status: Option<AppointmentStatus>)
      ensures Fields() == Unset().(timeSlot := timeSlot, visit := visit, patient := patient,
                                   status := status, appointmentType := appointmentType)
    {
      appointmentId, this.timeSlot, this.visit, this.patient := None, None, None, None;
      this.status, reason, cancelReason, this.appointmentType := None, None, None, None;
      new;
      SetTimeSlot(timeSlot);
      SetVisit(visit);
      SetPatient(patient);
      SetStatus(status);
      SetAppointmentType(appointmentType);
    }

    method SetAppointmentId(appointmentId: Option<Int32>)
      modifies this
      ensures Fields() == old(Fields()).(appointmentId := appointmentId)
    {
      this.appointmentId := appointmentId;
    }

    /** getId(): the OpenmrsObject name for the appointment identifier. */
    function GetId(): Option<Int32>
      reads this
    {
      appointmentId
    }

    /** setId(id): the OpenmrsObject name for SetAppointmentId; GetId then returns id. */
    method SetId(id: Option<Int32>)
      modifies this
      ensures Fields() == old(Fields()).(appointmentId := id)
      ensures GetId() == id
    {
      SetAppointmentId(id);
    }

    method SetTimeSlot(timeSlot: Option<TimeSlot>)
      modifies this
      ensures Fields() == old(Fields()).(timeSlot := timeSlot)
    {
      this.timeSlot := timeSlot;
    }

    method SetVisit(visit: Option<Visit>)
      modifies this
      ensures Fields() == old(Fields()).(visit := visit)
    {
      this.visit := visit;
    }

    method SetPatient(patient: Option<Patient>)
      modifies this
      ensures Fields() == old(Fields()).(patient := patient)
    {
      this.patient := patient;
    }

    /** Any status, from any status: no transition rule is enforced. */
    method SetStatus(status: Option<AppointmentStatus>)
      modifies this
      ensures Fields() == old(Fields()).(status := status)
    {
      this.status := status;
    }

    method SetReason(reason: Option<string>)
      modifies this
      ensures Fields() == old(Fields()).(reason := reason)
    {
      this.reason := reason;
    }

    method SetCancelReason(cancelReason: Option<string>)
      modifies this
      ensures Fields() == old(Fields()).(cancelReason := cancelReason)
    {
      this.cancelReason := cancelReason;
    }

    method SetAppointmentType(appointmentType: Option<AppointmentType>)
      modifies this
      ensures Fields() == old(Fields()).(appointmentType := appointmentType)
    {
      this.appointmentType := appointmentType;
    }
  }
}

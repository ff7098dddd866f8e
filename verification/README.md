# Appointment statuses and the Appointment entity

A Dafny model of `Appointment.java` from the OpenMRS appointment-scheduling
module: the enum `Appointment.AppointmentStatus` and the entity class
`Appointment` that holds it.

- `appointment_status.dfy` (module `AppointmentStatuses`): the nine lifecycle
  states in declaration order (`Values`, `Ordinal`), the constant table each
  state is built from (`Data`: display name, `cancelled`, `active`), the
  accessors `getName`, `isCancelled`, `isActive` and `toString`, the two stock
  predicates, and the static `filter`. `Filter` is imperative, like the Java
  method: it copies `values()` into a fresh list and removes the rejected
  elements in place with a loop. It is proved against the specification
  function `Select`. The lemmas then show that the result holds exactly the
  statuses that satisfy the predicate. They also show that the result is a
  subsequence of `values()`, keeps declaration order and has no duplicates.
  Finally, these facts determine the result uniquely (`FilterCharacterization`).
- `appointment.dfy` (module `Appointments`): the class `Appointment` with its
  eight fields, its three constructors and its setters. Each setter's contract
  says that exactly its own field changes (`Fields()` is a snapshot of all
  fields). Java's `null` is `None`, and `Integer` is `Option<Int32>`. `Patient`,
  `Visit`, `TimeSlot` and `AppointmentType` are opaque types.
- `options.dfy`: the `Option` datatype.

The code enforces no status-transition rule, time-slot capacity or default
status: `setStatus` stores whatever it is given (null included), and the
no-argument constructor leaves the status null. The model follows the code.
It states none of those rules as properties of the entity.

## Model

| member | source | states |
|---|---|---|
| `AppointmentStatuses.Data` | api/src/main/java/org/openmrs/module/appointmentscheduling/Appointment.java:42-66 | the constant table each constant passes to the private constructor (display name, `cancelled`, `active`); no entry is both cancelled and active, every name is non-empty. `Name`, `IsCancelled`, `IsActive` and `ToString` read it |
| `AppointmentStatuses.Values` | api/src/main/java/org/openmrs/module/appointmentscheduling/Appointment.java:42-45 | `values()` lists nine constants |
| `AppointmentStatuses.Ordinal` | api/src/main/java/org/openmrs/module/appointmentscheduling/Appointment.java:42-45 | every status sits in `values()` at its declaration position, so `values()` lists every constant |
| `AppointmentStatuses.ValuesInDeclarationOrder` | api/src/main/java/org/openmrs/module/appointmentscheduling/Appointment.java:42-45 | the i-th element of `values()` has ordinal i, so `values()` is in declaration order |
| `AppointmentStatuses.Name` | api/src/main/java/org/openmrs/module/appointmentscheduling/Appointment.java:68-70 | `getName()` returns a non-empty display name |
| `AppointmentStatuses.NameIdentifiesStatus` | api/src/main/java/org/openmrs/module/appointmentscheduling/Appointment.java:42-45 | two statuses have the same display name if and only if they are the same status |
| `AppointmentStatuses.ToString` | api/src/main/java/org/openmrs/module/appointmentscheduling/Appointment.java:78-81 | `toString()` returns the same display name as `getName()` |
| `AppointmentStatuses.IsCancelled` | api/src/main/java/org/openmrs/module/appointmentscheduling/Appointment.java:49-73 | `isCancelled()` holds exactly for CANCELLED and CANCELLED_AND_NEEDS_RESCHEDULE, as the field's documentation lists |
| `AppointmentStatuses.IsActive` | api/src/main/java/org/openmrs/module/appointmentscheduling/Appointment.java:55-76 | `isActive()` holds exactly for WALKIN, WAITING and INCONSULTATION; no active status is cancelled |
| `AppointmentStatuses.CancelledPredicate` | api/src/main/java/org/openmrs/module/appointmentscheduling/Appointment.java:89-95 | `cancelledPredicate` accepts exactly the two cancelled statuses |
| `AppointmentStatuses.NotCancelledPredicate` | api/src/main/java/org/openmrs/module/appointmentscheduling/Appointment.java:97-103 | `notCancelledPredicate` accepts exactly what `cancelledPredicate` rejects |
| `AppointmentStatuses.Filter` | api/src/main/java/org/openmrs/module/appointmentscheduling/Appointment.java:83-87 | removing the rejected elements in place from a copy of `values()` leaves `Select(p, values())`. That result holds exactly the statuses satisfying `p`, in declaration order |
| `AppointmentStatuses.FilterShape` | api/src/main/java/org/openmrs/module/appointmentscheduling/Appointment.java:83-87 | the filter result has no duplicates and is a subsequence of `values()` |
| `AppointmentStatuses.SelectMembers` | api/src/main/java/org/openmrs/module/appointmentscheduling/Appointment.java:83-87 | a status is in the filtered list if and only if it is in the input and satisfies the predicate |
| `AppointmentStatuses.SelectIsSubsequence` | api/src/main/java/org/openmrs/module/appointmentscheduling/Appointment.java:83-87 | filtering only deletes elements, so its result is a subsequence of its input |
| `AppointmentStatuses.SelectKeepsOrder` | api/src/main/java/org/openmrs/module/appointmentscheduling/Appointment.java:83-87 | filtering an input in declaration order yields a list in declaration order |
| `AppointmentStatuses.SelectPartition` | api/src/main/java/org/openmrs/module/appointmentscheduling/Appointment.java:83-87 | filtering by a predicate and by its complement splits the input: the two results together are the input as a multiset |
| `AppointmentStatuses.OrderedUnique` | api/src/main/java/org/openmrs/module/appointmentscheduling/Appointment.java:83-87 | two lists in declaration order with the same members are equal |
| `AppointmentStatuses.FilterCharacterization` | api/src/main/java/org/openmrs/module/appointmentscheduling/Appointment.java:83-87 | a list is the filter result for `p` if and only if it is in declaration order and holds exactly the statuses satisfying `p` |
| `AppointmentStatuses.CancelledFilter` | api/src/main/java/org/openmrs/module/appointmentscheduling/Appointment.java:83-95 | `filter(cancelledPredicate)` is [CANCELLED, CANCELLED_AND_NEEDS_RESCHEDULE] |
| `AppointmentStatuses.NotCancelledFilter` | api/src/main/java/org/openmrs/module/appointmentscheduling/Appointment.java:83-103 | `filter(notCancelledPredicate)` is the other seven statuses in declaration order |
| `AppointmentStatuses.CancelledSplit` | api/src/main/java/org/openmrs/module/appointmentscheduling/Appointment.java:83-103 | the two stock filters are disjoint and together hold each of the nine statuses exactly once |
| `Appointments.Appointment.constructor` | api/src/main/java/org/openmrs/module/appointmentscheduling/Appointment.java:123-125 | the no-argument constructor leaves every field null |
| `Appointments.Appointment.WithId` | api/src/main/java/org/openmrs/module/appointmentscheduling/Appointment.java:127-129 | `Appointment(Integer)` sets only the identifier, and `getId()` returns it |
| `Appointments.Appointment.Create` | api/src/main/java/org/openmrs/module/appointmentscheduling/Appointment.java:131-138 | the five-argument constructor sets time slot, visit, patient, status and type to its arguments; identifier, reason and cancel reason stay null |
| `Appointments.Appointment.SetAppointmentId` | api/src/main/java/org/openmrs/module/appointmentscheduling/Appointment.java:144-146 | only the identifier changes |
| `Appointments.Appointment.GetId` | api/src/main/java/org/openmrs/module/appointmentscheduling/Appointment.java:151-154 | `getId()` returns the identifier field that `setAppointmentId` and `setId` write; the round trip is stated in `SetId` and `WithId` |
| `Appointments.Appointment.SetId` | api/src/main/java/org/openmrs/module/appointmentscheduling/Appointment.java:151-162 | `setId` changes only the identifier; `getId()` afterwards returns the value set |
| `Appointments.Appointment.SetTimeSlot` | api/src/main/java/org/openmrs/module/appointmentscheduling/Appointment.java:168-170 | only the time slot changes |
| `Appointments.Appointment.SetVisit` | api/src/main/java/org/openmrs/module/appointmentscheduling/Appointment.java:176-178 | only the visit changes |
| `Appointments.Appointment.SetPatient` | api/src/main/java/org/openmrs/module/appointmentscheduling/Appointment.java:184-186 | only the patient changes |
| `Appointments.Appointment.SetStatus` | api/src/main/java/org/openmrs/module/appointmentscheduling/Appointment.java:192-194 | only the status changes, to any value from any value: no transition is refused |
| `Appointments.Appointment.SetReason` | api/src/main/java/org/openmrs/module/appointmentscheduling/Appointment.java:200-202 | only the reason changes |
| `Appointments.Appointment.SetCancelReason` | api/src/main/java/org/openmrs/module/appointmentscheduling/Appointment.java:208-210 | only the cancel reason changes, whatever the status |
| `Appointments.Appointment.SetAppointmentType` | api/src/main/java/org/openmrs/module/appointmentscheduling/Appointment.java:216-218 | only the appointment type changes |

## Left out

- Getters other than `getId`: each returns one field. In Dafny they are field reads, and `Fields()` returns them together.
- Transition legality, time-slot capacity (reserve, release, occupancy), a scheduling service and its error kinds: the code has none of them. `setStatus` stores any value, and `TimeSlot` is only a reference here.
- Mutual exclusion per slot or per appointment: this is concurrency, and the code implements none.
- Audit fields inherited from `BaseOpenmrsData` and `serialVersionUID`: platform plumbing outside this class.
- The JSON serializer named in the `@JsonSerialize` annotation: `AppointmentStatusSerializer` is not part of this model.
- `Patient`, `Visit`, `TimeSlot`, `AppointmentType`: opaque types, because their code is not part of this model.
- `CancelledPredicate`, `NotCancelledPredicate`: the two fields are taken to hold their initial predicates. They are static but not final, so other code may reassign them; that reassignment is not modelled. `CancelledFilter`, `NotCancelledFilter` and `CancelledSplit` hold for the initial predicates only.
- `Filter`: the predicate is a total Dafny function. A predicate with state or side effects is not modelled; the Java code calls it once per element, in declaration order. A null predicate is not modelled: commons-collections then leaves the list unfiltered. A predicate that throws is not modelled either.
- `Filter`: the result is a value, not a shared mutable list. Aliasing of the returned `ArrayList` is not modelled. That `values()` is left unchanged holds by construction, because `Values` is a function.

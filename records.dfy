/** The rows of the clinic's three tables and the outcome shapes the handlers produce. */
module Records {

  datatype Option<+T> = None | Some(value: T)

  datatype Result<+T, +E> = Success(value: T) | Failure(error: E)

  /** A row of `patients`: (id, appointment_date, name, patient_type, mobile, city, problem).
      Dates are kept as the text the form submitted; the type is "New" or "Old" on the form,
      but nothing checks it. */
  datatype Patient = Patient(
    id: nat,
    appointmentDate: string,
    name: string,
    patientType: string,
    mobile: string,
    city: string,
    problem: string)

  /** A row of `treatment` without its key: (plan, final_amount, consultant, lab). */
  datatype Treatment = Treatment(plan: string, finalAmount: int, consultant: string, lab: string)

  /** A row of `payments`: (id, patient_id, payment_date, amount, mode). The amount may be
      zero or negative; the mode is "Cash", "UPI" or "Card" on the form, unchecked. */
  datatype Payment = Payment(id: nat, patientId: nat, date: string, amount: int, mode: string)
}

/** The clinic database as one object holding its three tables, with the handlers' reads
    and writes as methods: registration and search (app.py, `home`), treatment upsert and
    payment append (`patient`), the invoice (`invoice`) and the report (`export_patients`). */
module Clinic {
  import opened Records
  import opened TextOrder
  import opened Registry
  import opened Ledger
  import opened Invoice
  import opened Export

  datatype Registration = Registered(id: nat) | Conflict(existingId: nat, existingName: string)

  datatype SearchOutcome = Found(id: nat) | NotFound

  /** Payment ids grow with insertion order and stay below the next rowid. */
  ghost predicate PaymentIdsBelow(ps: seq<Payment>, next: nat) {
    && (forall i, j :: 0 <= i < j < |ps| ==> ps[i].id < ps[j].id)
    && (forall i :: 0 <= i < |ps| ==> ps[i].id < next)
  }

  lemma PaymentIdsGrow(ps: seq<Payment>, x: Payment)
    requires PaymentIdsBelow(ps, x.id)
    ensures PaymentIdsBelow(ps + [x], x.id + 1)
  {
  }

  class ClinicDb {
    /** `patients`, in creation order. */
    var patients: seq<Patient>
    /** `treatment`, keyed by `patient_id`: at most one record per patient, which is what
        `INSERT OR REPLACE` needs of the table (its schema is not part of this model). */
    var treatment: map<nat, Treatment>
    /** `payments`, in insertion order. */
    var payments: seq<Payment>
    /** The rowid the next inserted patient or payment receives. */
    var nextPatientId: nat
    var nextPaymentId: nat

    ghost predicate Valid()
      reads this
    {
      && MobilesUnique(patients)
      && IdsIncreasing(patients)
      && (forall i :: 0 <= i < |patients| ==> patients[i].id < nextPatientId)
      && PaymentIdsBelow(payments, nextPaymentId)
    }

    constructor ()
      ensures Valid()
      ensures patients == [] && treatment == map[] && payments == []
      ensures nextPatientId == 1 && nextPaymentId == 1
    {
      patients, treatment, payments := [], map[], [];
      nextPatientId, nextPaymentId := 1, 1;
    }

    /** Registration: looks the mobile up first; a match is reported with the existing
        patient's id and name and nothing is inserted, otherwise one patient is appended. */
    method Register(appointmentDate: string, name: string, patientType: string,
                    mobile: string, city: string, problem: string) returns (r: Registration)
      requires Valid()
      modifies this
      ensures Valid()
      ensures treatment == old(treatment) && payments == old(payments)
      ensures nextPaymentId == old(nextPaymentId)
      ensures forall i :: 0 <= i < |old(patients)| && old(patients)[i].mobile == mobile ==>
        && r == Conflict(old(patients)[i].id, old(patients)[i].name)
        && patients == old(patients) && nextPatientId == old(nextPatientId)
      ensures (forall i :: 0 <= i < |old(patients)| ==> old(patients)[i].mobile != mobile) ==>
        && r == Registered(old(nextPatientId))
        && patients == old(patients) + [Patient(old(nextPatientId), appointmentDate, name, patientType, mobile, city, problem)]
        && nextPatientId == old(nextPatientId) + 1
    {
      var existing := FindByMobile(patients, mobile);
      if existing.Some? {
        r := Conflict(existing.value.id, existing.value.name);
        forall i | 0 <= i < |patients| && patients[i].mobile == mobile
          ensures r == Conflict(patients[i].id, patients[i].name)
        {
          FindByMobileExact(patients, i);
        }
      } else {
        var p := Patient(nextPatientId, appointmentDate, name, patientType, mobile, city, problem);
        patients := patients + [p];
        r := Registered(nextPatientId);
        nextPatientId := nextPatientId + 1;
      }
    }

    /** The search box: the id of the patient holding this mobile, or "No patient found".
        It changes nothing. */
    method SearchByMobile(mobile: string) returns (r: SearchOutcome)
      requires Valid()
      ensures forall i :: 0 <= i < |patients| && patients[i].mobile == mobile ==> r == Found(patients[i].id)
      ensures (forall i :: 0 <= i < |patients| ==> patients[i].mobile != mobile) ==> r == NotFound
    {
      var found := FindByMobile(patients, mobile);
      if found.Some? {
        r := Found(found.value.id);
        forall i | 0 <= i < |patients| && patients[i].mobile == mobile ensures r == Found(patients[i].id) {
          FindByMobileExact(patients, i);
        }
      } else {
        r := NotFound;
      }
    }

    /** `INSERT OR REPLACE INTO treatment`: the record for `pid` becomes exactly the new
        fields, whatever was stored before; no field is kept. The patient's existence is
        not checked. */
    method SaveTreatment(pid: nat, plan: string, amount: int, consultant: string, lab: string)
      requires Valid()
      modifies this
      ensures Valid()
      ensures treatment == old(treatment)[pid := Treatment(plan, amount, consultant, lab)]
      ensures patients == old(patients) && payments == old(payments)
      ensures nextPatientId == old(nextPatientId) && nextPaymentId == old(nextPaymentId)
      ensures Balance(treatment, payments, pid) == amount - TotalPaid(payments, pid)
      ensures forall q :: q != pid ==> Balance(treatment, payments, q) == old(Balance(treatment, payments, q))
    {
      treatment := treatment[pid := Treatment(plan, amount, consultant, lab)];
      TreatmentReplaced(old(treatment), payments, pid, Treatment(plan, amount, consultant, lab));
    }

    /** `INSERT INTO payments`: one entry appended at the end of the ledger. The amount is
        not checked and neither is the patient's existence. */
    method AddPayment(pid: nat, date: string, amount: int, mode: string)
      requires Valid()
      modifies this
      ensures Valid()
      ensures payments == old(payments) + [Payment(old(nextPaymentId), pid, date, amount, mode)]
      ensures nextPaymentId == old(nextPaymentId) + 1
      ensures patients == old(patients) && treatment == old(treatment) && nextPatientId == old(nextPatientId)
      ensures PaymentsFor(payments, pid) == old(PaymentsFor(payments, pid)) + [payments[|payments| - 1]]
      ensures TotalPaid(payments, pid) == old(TotalPaid(payments, pid)) + amount
      ensures Balance(treatment, payments, pid) == old(Balance(treatment, payments, pid)) - amount
      ensures forall q :: q != pid ==> PaymentsFor(payments, q) == old(PaymentsFor(payments, q))
    {
      var x := Payment(nextPaymentId, pid, date, amount, mode);
      ghost var before := payments;
      payments := payments + [x];
      nextPaymentId := nextPaymentId + 1;
      PaymentIdsGrow(before, x);
      PaymentAppended(treatment, before, x);
    }

    /** The invoice: fails where the source raises (no treatment row, then no patient row);
        otherwise the drawn lines, with the same total paid and balance as the patient page. */
    method Invoice(pid: nat) returns (r: Result<seq<DrawnLine>, InvoiceError>)
      ensures pid !in treatment <==> r == Failure(NoTreatment)
      ensures pid in treatment && (forall i :: 0 <= i < |patients| ==> patients[i].id != pid) ==>
        r == Failure(NoPatient)
      ensures pid in treatment && FindById(patients, pid).Some? ==>
        && r.Success?
        && InvoiceLayout(r.value, FindById(patients, pid).value, treatment[pid], PaymentsFor(payments, pid),
                         TotalPaid(payments, pid), Balance(treatment, payments, pid))
    {
      var mine := PaymentsFor(payments, pid);
      var totalPaid := if mine == [] then 0 else Sum(mine);
      if pid !in treatment {
        return Failure(NoTreatment);
      }
      var t := treatment[pid];
      var balance := t.finalAmount - totalPaid;
      var found := FindById(patients, pid);
      if found.None? {
        return Failure(NoPatient);
      }
      var lines := PatientBlock(found.value, t);
      var y := PAYMENTS_TOP;
      for k := 0 to |mine|
        invariant |lines| == 5 + k
        invariant y == PAYMENTS_TOP - LINE_STEP * k
        invariant lines[..5] == PatientBlock(found.value, t)
        invariant forall m :: 0 <= m < k ==>
          lines[5 + m] == DrawnLine(PAYMENTS_TOP - LINE_STEP * m, PaymentLine(mine[m].date, mine[m].amount, mine[m].mode))
      {
        lines := lines + [DrawnLine(y, PaymentLine(mine[k].date, mine[k].amount, mine[k].mode))];
        y := y - LINE_STEP;
      }
      lines := lines + [DrawnLine(y - 10, TotalPaidLine(totalPaid)), DrawnLine(y - 25, BalanceLine(balance))];
      return Success(lines);
    }

    /** The report: the header row, then one row per patient, appointment dates never
        increasing, and the rows a permutation of the patients' rows. */
    method ExportPatients() returns (rows: seq<seq<Cell>>)
      ensures |rows| == |patients| + 1 && rows[0] == Header()
      ensures DateColumnDescends(rows[1..])
      ensures multiset(rows[1..]) == multiset(RowsOf(treatment, payments, patients))
    {
      var listed := SortByDateDesc(patients);
      rows := [Header()];
      for k := 0 to |listed|
        invariant |rows| == k + 1 && rows[0] == Header()
        invariant forall m :: 0 <= m < k ==> rows[m + 1] == ExportRow(treatment, payments, listed[m])
      {
        rows := rows + [ExportRow(treatment, payments, listed[k])];
      }
      ghost var sheet := RowsOf(treatment, payments, listed);
      assert rows[1..] == sheet;
      RowsOfSortPermutes(treatment, payments, patients);
      SortByDateDescSorted(patients);
      RowsOfSorted(treatment, payments, listed);
    }
  }
}

/** The treatment and payments tables as the patient page reads them, and the balance
    derived from them. Balance is never stored: it is recomputed on every read. */
module Ledger {
  import opened Records
  import opened Registry

  /** `sum(p[3] for p in payments)`: the amounts added up in ledger order. */
  function Sum(ps: seq<Payment>): (r: int)
    ensures (forall k :: 0 <= k < |ps| ==> ps[k].amount >= 0) ==> r >= 0
  {
    if ps == [] then 0 else Sum(ps[..|ps| - 1]) + ps[|ps| - 1].amount
  }

  /** Adding up from the front gives the same total. */
  lemma {:induction false} SumFront(ps: seq<Payment>)
    requires ps != []
    ensures Sum(ps) == ps[0].amount + Sum(ps[1..])
  {
    var init := ps[..|ps| - 1];
    if init != [] {
      SumFront(init);
      assert init[1..] == ps[1..][..|ps[1..]| - 1];
    }
  }

  /** `SELECT * FROM payments WHERE patient_id=?`: that patient's entries, in ledger order. */
  function PaymentsFor(ps: seq<Payment>, pid: nat): (r: seq<Payment>)
    ensures forall x :: x in r <==> x in ps && x.patientId == pid
    ensures |r| <= |ps|
  {
    if ps == [] then []
    else
      var last := ps[|ps| - 1];
      PaymentsFor(ps[..|ps| - 1], pid) + (if last.patientId == pid then [last] else [])
  }

  /** `treatment[2] if treatment else 0`. */
  function FinalAmount(t: map<nat, Treatment>, pid: nat): (r: int)
    ensures pid in t ==> r == t[pid].finalAmount
    ensures pid !in t ==> r == 0
  {
    if pid in t then t[pid].finalAmount else 0
  }

  /** `sum(p[3] for p in payments) if payments else 0`. */
  function TotalPaid(ps: seq<Payment>, pid: nat): (r: int)
    ensures r == Sum(PaymentsFor(ps, pid))
  {
    var mine := PaymentsFor(ps, pid);
    if mine == [] then 0 else Sum(mine)
  }

  /** `final_amount - total_paid` on the patient page. */
  function Balance(t: map<nat, Treatment>, ps: seq<Payment>, pid: nat): (r: int)
    ensures PaymentsFor(ps, pid) == [] ==> r == FinalAmount(t, pid)
    ensures pid !in t ==> r == -Sum(PaymentsFor(ps, pid))
    ensures r < 0 <==> Sum(PaymentsFor(ps, pid)) > FinalAmount(t, pid)
  {
    FinalAmount(t, pid) - TotalPaid(ps, pid)
  }

  lemma SumAppend(ps: seq<Payment>, x: Payment)
    ensures Sum(ps + [x]) == Sum(ps) + x.amount
  {
    assert (ps + [x])[..|ps|] == ps;
  }

  lemma {:induction false} SumConcat(a: seq<Payment>, b: seq<Payment>)
    ensures Sum(a + b) == Sum(a) + Sum(b)
  {
    if b == [] {
      assert a + b == a;
    } else {
      var init := b[..|b| - 1];
      assert (a + b)[..|a + b| - 1] == a + init;
      SumConcat(a, init);
    }
  }

  lemma {:induction false} PaymentsForConcat(a: seq<Payment>, b: seq<Payment>, pid: nat)
    ensures PaymentsFor(a + b, pid) == PaymentsFor(a, pid) + PaymentsFor(b, pid)
  {
    if b == [] {
      assert a + b == a;
    } else {
      var init := b[..|b| - 1];
      assert (a + b)[..|a + b| - 1] == a + init;
      PaymentsForConcat(a, init, pid);
    }
  }

  /** Payments later in the ledger add to the total paid: the balance is additive. */
  lemma BalanceAdditive(t: map<nat, Treatment>, a: seq<Payment>, b: seq<Payment>, pid: nat)
    ensures TotalPaid(a + b, pid) == TotalPaid(a, pid) + TotalPaid(b, pid)
    ensures Balance(t, a + b, pid) == Balance(t, a, pid) - TotalPaid(b, pid)
  {
    PaymentsForConcat(a, b, pid);
    SumConcat(PaymentsFor(a, pid), PaymentsFor(b, pid));
  }

  /** Appending one payment raises that patient's total paid by its amount, lowers their
      balance by it, and leaves every other patient's totals as they were. */
  lemma PaymentAppended(t: map<nat, Treatment>, ps: seq<Payment>, x: Payment)
    ensures PaymentsFor(ps + [x], x.patientId) == PaymentsFor(ps, x.patientId) + [x]
    ensures TotalPaid(ps + [x], x.patientId) == TotalPaid(ps, x.patientId) + x.amount
    ensures Balance(t, ps + [x], x.patientId) == Balance(t, ps, x.patientId) - x.amount
    ensures forall q :: q != x.patientId ==>
      PaymentsFor(ps + [x], q) == PaymentsFor(ps, q) && Balance(t, ps + [x], q) == Balance(t, ps, q)
  {
    assert (ps + [x])[..|ps|] == ps;
    assert PaymentsFor(ps + [x], x.patientId) == PaymentsFor(ps, x.patientId) + [x];
    SumAppend(PaymentsFor(ps, x.patientId), x);
    forall q | q != x.patientId
      ensures PaymentsFor(ps + [x], q) == PaymentsFor(ps, q)
      ensures Balance(t, ps + [x], q) == Balance(t, ps, q)
    {
      assert PaymentsFor(ps + [x], q) == PaymentsFor(ps, q) + [];
    }
  }

  /** Saving a treatment changes the balance of that patient only, to the new final amount
      less what they have paid. */
  lemma TreatmentReplaced(t: map<nat, Treatment>, ps: seq<Payment>, pid: nat, r: Treatment)
    ensures Balance(t[pid := r], ps, pid) == r.finalAmount - TotalPaid(ps, pid)
    ensures forall q :: q != pid ==> Balance(t[pid := r], ps, q) == Balance(t, ps, q)
  {
  }

  /** What the patient page shows (app.py, `patient`): the patient, the treatment fields
      with their blank defaults, the payment list and the derived totals. */
  datatype PatientDetail = PatientDetail(
    patient: Patient,
    plan: string,
    finalAmount: int,
    consultant: string,
    lab: string,
    payments: seq<Payment>,
    totalPaid: int,
    balance: int)

  /** The patient page; `None` where the page fails because no patient has this id. */
  function Detail(patients: seq<Patient>, t: map<nat, Treatment>, ps: seq<Payment>, pid: nat): (r: Option<PatientDetail>)
    ensures r.None? <==> forall i :: 0 <= i < |patients| ==> patients[i].id != pid
    ensures r.Some? ==>
      && r.value.patient in patients && r.value.patient.id == pid
      && r.value.payments == PaymentsFor(ps, pid)
      && r.value.totalPaid == Sum(r.value.payments)
      && r.value.balance == r.value.finalAmount - r.value.totalPaid
      && r.value.balance == Balance(t, ps, pid)
    ensures r.Some? && pid in t ==>
      && r.value.plan == t[pid].plan && r.value.finalAmount == t[pid].finalAmount
      && r.value.consultant == t[pid].consultant && r.value.lab == t[pid].lab
    ensures r.Some? && pid !in t ==>
      r.value.plan == "" && r.value.finalAmount == 0 && r.value.consultant == "" && r.value.lab == ""
  {
    match FindById(patients, pid)
    case None => None
    case Some(p) =>
      var plan := if pid in t then t[pid].plan else "";
      var consultant := if pid in t then t[pid].consultant else "";
      var lab := if pid in t then t[pid].lab else "";
      Some(PatientDetail(p, plan, FinalAmount(t, pid), consultant, lab,
        PaymentsFor(ps, pid), TotalPaid(ps, pid), Balance(t, ps, pid)))
  }
}

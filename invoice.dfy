/** The invoice (app.py, `invoice`) as the text lines it draws at x = 40 and their
    y-positions, top of page first. The centred letterhead, fonts, page size and the PDF
    file itself are not modelled. */
module Invoice {
  import opened Records

  datatype InvoiceText =
    | PatientName(name: string)
    | PatientMobile(mobile: string)
    | PatientCity(city: string)
    | TreatmentPlan(plan: string)
    | FinalAmountLine(amount: int)
    | PaymentLine(date: string, amount: int, mode: string)
    | TotalPaidLine(amount: int)
    | BalanceLine(amount: int)

  datatype DrawnLine = DrawnLine(y: int, text: InvoiceText)

  datatype InvoiceError = NoTreatment | NoPatient

  /** y of the first payment line; each later one is drawn 15 lower. */
  const PAYMENTS_TOP: int := 640
  const LINE_STEP: int := 15

  /** The patient and treatment block, drawn before the payments. */
  function PatientBlock(p: Patient, t: Treatment): (r: seq<DrawnLine>)
    ensures |r| == 5
    ensures forall i, j :: 0 <= i < j < |r| ==> PAYMENTS_TOP < r[j].y < r[i].y
  {
    [DrawnLine(750, PatientName(p.name)), DrawnLine(735, PatientMobile(p.mobile)),
     DrawnLine(720, PatientCity(p.city)), DrawnLine(690, TreatmentPlan(t.plan)),
     DrawnLine(675, FinalAmountLine(t.finalAmount))]
  }

  /** The invoice's layout: the patient block; payment k (in ledger order) at
      640 - 15k showing date, amount and mode; "Total Paid" at 630 - 15n and "Balance" at
      615 - 15n, for n payments. */
  ghost predicate InvoiceLayout(lines: seq<DrawnLine>, p: Patient, t: Treatment, mine: seq<Payment>, paid: int, balance: int) {
    var n := |mine|;
    && |lines| == n + 7
    && lines[..5] == PatientBlock(p, t)
    && (forall k :: 0 <= k < n ==>
          lines[5 + k] == DrawnLine(PAYMENTS_TOP - LINE_STEP * k, PaymentLine(mine[k].date, mine[k].amount, mine[k].mode)))
    && lines[5 + n] == DrawnLine(PAYMENTS_TOP - LINE_STEP * n - 10, TotalPaidLine(paid))
    && lines[6 + n] == DrawnLine(PAYMENTS_TOP - LINE_STEP * n - 25, BalanceLine(balance))
  }

  /** The y of line i of an invoice with n payments. */
  function LineY(i: nat, n: nat): (y: int) {
    if i < 5 then [750, 735, 720, 690, 675][i]
    else if i < 5 + n then PAYMENTS_TOP - LINE_STEP * (i - 5)
    else if i == 5 + n then PAYMENTS_TOP - LINE_STEP * n - 10
    else PAYMENTS_TOP - LINE_STEP * n - 25
  }

  lemma LayoutY(lines: seq<DrawnLine>, p: Patient, t: Treatment, mine: seq<Payment>, paid: int, balance: int, i: nat)
    requires InvoiceLayout(lines, p, t, mine, paid, balance) && i < |lines|
    ensures lines[i].y == LineY(i, |mine|)
  {
    if i < 5 {
      assert lines[i] == lines[..5][i];
    } else if i < 5 + |mine| {
      var k := i - 5;
      var x := mine[k];
      assert lines[5 + k] == DrawnLine(PAYMENTS_TOP - LINE_STEP * k, PaymentLine(x.date, x.amount, x.mode));
    }
  }

  /** Every line is drawn strictly below the one before it, so no two lines overlap. */
  lemma InvoiceLinesDescend(lines: seq<DrawnLine>, p: Patient, t: Treatment, mine: seq<Payment>, paid: int, balance: int)
    requires InvoiceLayout(lines, p, t, mine, paid, balance)
    ensures forall i, j :: 0 <= i < j < |lines| ==> lines[j].y < lines[i].y
  {
    forall i, j | 0 <= i < j < |lines| ensures lines[j].y < lines[i].y {
      LayoutY(lines, p, t, mine, paid, balance, i);
      LayoutY(lines, p, t, mine, paid, balance, j);
    }
  }

  /** The invoice has no page break: all its lines lie on the page (y >= 0) exactly when
      there are at most 41 payments. */
  lemma InvoiceFitsPage(lines: seq<DrawnLine>, p: Patient, t: Treatment, mine: seq<Payment>, paid: int, balance: int)
    requires InvoiceLayout(lines, p, t, mine, paid, balance)
    ensures (forall i :: 0 <= i < |lines| ==> lines[i].y >= 0) <==> |mine| <= 41
  {
    InvoiceLinesDescend(lines, p, t, mine, paid, balance);
    assert lines[|lines| - 1].y == PAYMENTS_TOP - LINE_STEP * |mine| - 25;
  }
}

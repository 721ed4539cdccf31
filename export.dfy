/** The patients financial report (app.py, `export_patients`) as the spreadsheet rows it
    appends: a fixed header, then one row per patient in descending appointment-date
    order. The workbook, the file name and the download are not modelled. */
module Export {
  import opened Records
  import opened TextOrder
  import opened Ledger

  datatype Cell = Text(text: string) | Number(number: int)

  /** The header row: seven text cells, one per column of the patient rows. */
  function Header(): (r: seq<Cell>)
    ensures |r| == 7 && forall k :: 0 <= k < |r| ==> r[k].Text?
  {
    [Text("Appointment Date"), Text("Patient Name"), Text("Mobile"), Text("City"),
     Text("Final Amount"), Text("Total Paid"), Text("Balance")]
  }

  function Amounts(ps: seq<Payment>): (r: seq<int>)
    ensures |r| == |ps| && forall k :: 0 <= k < |ps| ==> r[k] == ps[k].amount
  {
    if ps == [] then [] else [ps[0].amount] + Amounts(ps[1..])
  }

  /** SQLite's `SUM(amount)` aggregate: NULL over no rows, otherwise the total. */
  function SqlSum(xs: seq<int>): (r: Option<int>)
    ensures r.None? <==> xs == []
    ensures |xs| == 1 ==> r == Some(xs[0])
  {
    if xs == [] then None
    else Some(xs[0] + (match SqlSum(xs[1..]) case None => 0 case Some(v) => v))
  }

  /** `payments[0] if payments[0] else 0` on the result of `SELECT SUM(amount) ... WHERE
      patient_id=?`: NULL and 0 both become 0. */
  function ExportTotalPaid(ps: seq<Payment>, pid: nat): (r: int)
    ensures r == TotalPaid(ps, pid)
  {
    SqlSumIsSum(PaymentsFor(ps, pid));
    match SqlSum(Amounts(PaymentsFor(ps, pid)))
    case None => 0
    case Some(v) => if v != 0 then v else 0
  }

  /** The row appended for one patient: date, name, mobile, city, final amount, total paid,
      balance. */
  function ExportRow(t: map<nat, Treatment>, ps: seq<Payment>, p: Patient): (r: seq<Cell>)
    ensures |r| == |Header()| && r[0] == Text(p.appointmentDate)
    ensures r[4].Number? && r[5].Number? && r[6] == Number(r[4].number - r[5].number)
  {
    var finalAmount := FinalAmount(t, p.id);
    var totalPaid := ExportTotalPaid(ps, p.id);
    [Text(p.appointmentDate), Text(p.name), Text(p.mobile), Text(p.city),
     Number(finalAmount), Number(totalPaid), Number(finalAmount - totalPaid)]
  }

  /** The rows of a sequence of patients, in the same order. */
  function RowsOf(t: map<nat, Treatment>, ps: seq<Payment>, s: seq<Patient>): (r: seq<seq<Cell>>)
    ensures |r| == |s|
    ensures forall k :: 0 <= k < |s| ==> r[k] == ExportRow(t, ps, s[k])
  {
    if s == [] then [] else [ExportRow(t, ps, s[0])] + RowsOf(t, ps, s[1..])
  }

  /** The database's total agrees with the one the patient page adds up itself. */
  lemma {:induction false} SqlSumIsSum(ps: seq<Payment>)
    ensures SqlSum(Amounts(ps)) == if ps == [] then None else Some(Sum(ps))
  {
    if ps != [] {
      SqlSumIsSum(ps[1..]);
      SumFront(ps);
      assert Amounts(ps)[1..] == Amounts(ps[1..]);
    }
  }

  /** Each export row shows the final amount, total paid and balance the patient page
      shows for the same state. */
  lemma ExportRowAgreesWithPage(t: map<nat, Treatment>, ps: seq<Payment>, p: Patient)
    ensures ExportRow(t, ps, p) == [
      Text(p.appointmentDate), Text(p.name), Text(p.mobile), Text(p.city),
      Number(FinalAmount(t, p.id)), Number(TotalPaid(ps, p.id)), Number(Balance(t, ps, p.id))]
  {
  }

  /** Every date in `s` sorts at or before `d`. */
  ghost predicate DatesAtMost(s: seq<Patient>, d: string) {
    forall k :: 0 <= k < |s| ==> TextLe(s[k].appointmentDate, d)
  }

  /** `ORDER BY appointment_date DESC`: each date sorts at or after every later one. */
  ghost predicate DatesNonIncreasing(s: seq<Patient>) {
    forall i, j :: 0 <= i < j < |s| ==> TextLe(s[j].appointmentDate, s[i].appointmentDate)
  }

  /** Places `p` before the first patient whose date sorts at or before its own. */
  function InsertByDate(p: Patient, s: seq<Patient>): (r: seq<Patient>)
    ensures |r| == |s| + 1
    ensures multiset(r) == multiset(s) + multiset{p}
  {
    if s == [] then [p]
    else if TextLe(s[0].appointmentDate, p.appointmentDate) then [p] + s
    else
      assert s == [s[0]] + s[1..];
      [s[0]] + InsertByDate(p, s[1..])
  }

  /** The database's sort for the report, as an insertion sort. Which of two patients with
      the same date comes first is unspecified in SQL; the properties proved below do not
      depend on it. */
  function SortByDateDesc(s: seq<Patient>): (r: seq<Patient>)
    ensures |r| == |s|
    ensures multiset(r) == multiset(s)
  {
    if s == [] then []
    else
      assert s == [s[0]] + s[1..];
      InsertByDate(s[0], SortByDateDesc(s[1..]))
  }

  lemma ConsSorted(p: Patient, s: seq<Patient>)
    requires DatesNonIncreasing(s) && DatesAtMost(s, p.appointmentDate)
    ensures DatesNonIncreasing([p] + s)
  {
    forall i, j | 0 <= i < j < |[p] + s|
      ensures TextLe(([p] + s)[j].appointmentDate, ([p] + s)[i].appointmentDate)
    {
      assert ([p] + s)[j] == s[j - 1];
      if i > 0 {
        assert ([p] + s)[i] == s[i - 1];
      }
    }
  }

  lemma {:induction false} InsertKeepsBound(p: Patient, s: seq<Patient>, d: string)
    requires DatesAtMost(s, d) && TextLe(p.appointmentDate, d)
    ensures DatesAtMost(InsertByDate(p, s), d)
  {
    if s != [] && !TextLe(s[0].appointmentDate, p.appointmentDate) {
      InsertKeepsBound(p, s[1..], d);
      var r := InsertByDate(p, s);
      forall k | 0 <= k < |r| ensures TextLe(r[k].appointmentDate, d) {
        if k > 0 {
          assert r[k] == InsertByDate(p, s[1..])[k - 1];
        }
      }
    }
  }

  lemma {:induction false} InsertSorted(p: Patient, s: seq<Patient>)
    requires DatesNonIncreasing(s)
    ensures DatesNonIncreasing(InsertByDate(p, s))
  {
    if s == [] {
    } else if TextLe(s[0].appointmentDate, p.appointmentDate) {
      forall k | 0 <= k < |s| ensures TextLe(s[k].appointmentDate, p.appointmentDate) {
        if k > 0 {
          TextLeTransitive(s[k].appointmentDate, s[0].appointmentDate, p.appointmentDate);
        }
      }
      ConsSorted(p, s);
    } else {
      TextLeTotal(s[0].appointmentDate, p.appointmentDate);
      var rest := s[1..];
      assert DatesNonIncreasing(rest) by {
        forall i, j | 0 <= i < j < |rest|
          ensures TextLe(rest[j].appointmentDate, rest[i].appointmentDate)
        {
          assert rest[i] == s[i + 1] && rest[j] == s[j + 1];
        }
      }
      assert DatesAtMost(rest, s[0].appointmentDate) by {
        forall k | 0 <= k < |rest| ensures TextLe(rest[k].appointmentDate, s[0].appointmentDate) {
          assert rest[k] == s[k + 1];
        }
      }
      InsertSorted(p, rest);
      InsertKeepsBound(p, rest, s[0].appointmentDate);
      ConsSorted(s[0], InsertByDate(p, rest));
    }
  }

  /** The report's order: appointment dates never increase down the sheet. */
  lemma {:induction false} SortByDateDescSorted(s: seq<Patient>)
    ensures DatesNonIncreasing(SortByDateDesc(s))
  {
    if s != [] {
      SortByDateDescSorted(s[1..]);
      InsertSorted(s[0], SortByDateDesc(s[1..]));
    }
  }

  /** Every row has the seven cells and starts with a date, and the dates never increase
      down the sheet. */
  ghost predicate DateColumnDescends(rows: seq<seq<Cell>>) {
    && (forall k :: 0 <= k < |rows| ==> |rows[k]| == 7 && rows[k][0].Text?)
    && (forall i, j :: 0 <= i < j < |rows| ==> TextLe(rows[j][0].text, rows[i][0].text))
  }

  lemma RowsOfSorted(t: map<nat, Treatment>, ps: seq<Payment>, s: seq<Patient>)
    requires DatesNonIncreasing(s)
    ensures DateColumnDescends(RowsOf(t, ps, s))
  {
    var rows := RowsOf(t, ps, s);
    forall k | 0 <= k < |rows| ensures |rows[k]| == 7 && rows[k][0] == Text(s[k].appointmentDate) {
      assert rows[k] == ExportRow(t, ps, s[k]);
    }
  }

  lemma {:induction false} RowsOfInsert(t: map<nat, Treatment>, ps: seq<Payment>, p: Patient, s: seq<Patient>)
    ensures multiset(RowsOf(t, ps, InsertByDate(p, s))) == multiset(RowsOf(t, ps, s)) + multiset{ExportRow(t, ps, p)}
  {
    if s != [] && !TextLe(s[0].appointmentDate, p.appointmentDate) {
      RowsOfInsert(t, ps, p, s[1..]);
      assert InsertByDate(p, s)[1..] == InsertByDate(p, s[1..]);
    } else if s != [] {
      assert ([p] + s)[1..] == s;
    }
  }

  /** Sorting only reorders the rows: each patient's row appears exactly as often as the
      patient does. */
  lemma {:induction false} RowsOfSortPermutes(t: map<nat, Treatment>, ps: seq<Payment>, s: seq<Patient>)
    ensures multiset(RowsOf(t, ps, SortByDateDesc(s))) == multiset(RowsOf(t, ps, s))
  {
    if s != [] {
      RowsOfSortPermutes(t, ps, s[1..]);
      RowsOfInsert(t, ps, s[0], SortByDateDesc(s[1..]));
    }
  }
}

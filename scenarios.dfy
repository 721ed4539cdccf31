/** Worked scenarios of the ledger, proved from the methods' contracts alone. */
module Scenarios {
  import opened Records
  import opened Ledger
  import opened Clinic

  /** A second registration with the same mobile is a conflict naming the first patient. */
  method DuplicateMobile() {
    var db := new ClinicDb();
    var first := db.Register("2024-01-05", "Ravi", "New", "9999999999", "Guntur", "Toothache");
    assert first == Registered(1);
    var second := db.Register("2024-02-01", "Sita", "Old", "9999999999", "Vijayawada", "Cleaning");
    assert db.patients[0].mobile == "9999999999";
    assert second == Conflict(1, "Ravi");
    assert |db.patients| == 1;
    var found := db.SearchByMobile("9999999999");
    assert found == Found(1);
  }

  /** Final amount 5000, payments of 2000 and 1000: balance 2000; a further 2000 brings it
      to 0. */
  method BalanceAfterPayments() {
    var db := new ClinicDb();
    db.SaveTreatment(1, "Root canal", 5000, "Dr Rao", "City Lab");
    assert Balance(db.treatment, db.payments, 1) == 5000;
    db.AddPayment(1, "2024-01-05", 2000, "Cash");
    db.AddPayment(1, "2024-01-20", 1000, "UPI");
    assert Balance(db.treatment, db.payments, 1) == 2000;
    db.AddPayment(1, "2024-02-02", 2000, "Card");
    assert Balance(db.treatment, db.payments, 1) == 0;
  }

  /** A second save without consultant or lab erases them: full replace, not merge. */
  method ReplaceNotMerge() {
    var db := new ClinicDb();
    db.SaveTreatment(7, "Root canal", 5000, "Dr Rao", "City Lab");
    db.SaveTreatment(7, "Root canal and crown", 8000, "", "");
    assert db.treatment[7] == Treatment("Root canal and crown", 8000, "", "");
  }
}

/**
  A worked payroll period: two tutors, three invoice rows (one canceled), a 5% service fee.
  The lemmas follow the period through the gate, the selection, the revenue and take-home
  of each tutor, and the run in each mode; a fourth invoice billed to an unknown identity
  stops the run at the gate.
*/
module PayrollScenarios {
  import opened Values
  import opened Text
  import opened Amounts
  import opened Tutors
  import opened Payroll
  import opened PayrollProperties

  const Fee: Value := Num(0.05)

  const AnnEntry: Entry := map[
    "name" := Str("Ann"), "tutorID" := Str("A1"), "stripeEmail" := Str("ann@example.com"),
    "school" := Str("RPI"), "tutorCut" := Num(0.5)]

  const BobEntry: Entry := map[
    "name" := Str("Bob"), "tutorID" := Str("B2"), "stripeEmail" := Str("bob@example.com"),
    "school" := Str("RPI"), "tutorCut" := Num(0.6)]

  const Ann: Tutor := Tutor(Str("Ann"), Str("A1"), Str("ann@example.com"), Str("RPI"), Num(0.5))
  const Bob: Tutor := Tutor(Str("Bob"), Str("B2"), Str("bob@example.com"), Str("RPI"), Num(0.6))

  const Roster: seq<Entry> := [AnnEntry, BobEntry]

  const Session: Row := Row("Math @A1", "Paid", "$100.00")
  const Dropped: Row := Row("Math @A1", "Canceled", "$50.00")
  const Review: Row := Row("Chem @B2", "Paid", "$40.00")
  const Stray: Row := Row("Math @C3", "Paid", "$10.00")

  const Rows: seq<Row> := [Session, Dropped, Review]

  /** A gateway that refuses every transfer. */
  const Refusing: Gateway := (email: Value, cents: int) => Reply(false, "declined")

  lemma SessionNamed()
    ensures RowId(Session) == Some("A1")
  {
    var t := "Math " + ['@'] + "A1" + "";
    assert t == Session.title by {
      assert |t| == |Session.title| == 8;
      assert forall k :: 0 <= k < 8 ==> t[k] == Session.title[k];
    }
    IdentitiesMeet("Math ", "A1", "");
  }

  lemma DroppedNamed()
    ensures RowId(Dropped) == Some("A1")
  {
    SessionNamed();
    assert Dropped.title == Session.title;
  }

  lemma ReviewNamed()
    ensures RowId(Review) == Some("B2")
  {
    var t := "Chem " + ['@'] + "B2" + "";
    assert t == Review.title by {
      assert |t| == |Review.title| == 8;
      assert forall k :: 0 <= k < 8 ==> t[k] == Review.title[k];
    }
    IdentitiesMeet("Chem ", "B2", "");
  }

  lemma StrayNamed()
    ensures RowId(Stray) == Some("C3")
  {
    var t := "Math " + ['@'] + "C3" + "";
    assert t == Stray.title by {
      assert |t| == |Stray.title| == 8;
      assert forall k :: 0 <= k < 8 ==> t[k] == Stray.title[k];
    }
    IdentitiesMeet("Math ", "C3", "");
  }

  lemma HundredReads()
    ensures ParseAmount("$100.00") == Ok(100.0)
  {
    ParseAmountOfCentsText(10000);
    assert NatText(100) == "100";
    assert CentsText(10000) == "100.00";
  }

  lemma FortyReads()
    ensures ParseAmount("$40.00") == Ok(40.0)
  {
    ParseAmountOfCentsText(4000);
    assert NatText(40) == "40";
    assert CentsText(4000) == "40.00";
  }

  /** Three rows billed to a, a and b, and a fourth billed to c, are invoiced to exactly those identities. */
  lemma InvoicedIdsOf(r0: Row, r1: Row, r2: Row, r3: Row, a: string, b: string, c: string)
    requires RowId(r0) == Some(a) && RowId(r1) == Some(a) && RowId(r2) == Some(b) && RowId(r3) == Some(c)
    ensures InvoiceIds([r0, r1, r2]) == Ok({Str(a), Str(b)})
    ensures InvoiceIds([r0, r1, r2, r3]) == Ok({Str(a), Str(b), Str(c)})
  {
    assert [r0][..0] == [];
    assert InvoiceIds([]) == Ok({});
    assert [r0, r1][..1] == [r0];
    assert [r0, r1, r2][..2] == [r0, r1];
    assert [r0, r1, r2, r3][..3] == [r0, r1, r2];
    assert InvoiceIds([r0]).value == {Str(a)};
    assert InvoiceIds([r0, r1]).value == {Str(a)};
    assert InvoiceIds([r0, r1, r2]).value == {Str(a), Str(b)};
    assert InvoiceIds([r0, r1, r2, r3]).value == {Str(a), Str(b), Str(c)};
  }

  lemma InvoicedIds()
    ensures InvoiceIds(Rows) == Ok({Str("A1"), Str("B2")})
    ensures InvoiceIds(Rows + [Stray]) == Ok({Str("A1"), Str("B2"), Str("C3")})
  {
    SessionNamed();
    DroppedNamed();
    ReviewNamed();
    StrayNamed();
    InvoicedIdsOf(Session, Dropped, Review, Stray, "A1", "B2", "C3");
    assert Rows + [Stray] == [Session, Dropped, Review, Stray];
  }

  lemma RosterIdsAre()
    ensures RosterIds(Roster) == Ok({Str("A1"), Str("B2")})
  {
    assert [AnnEntry][..0] == [];
    assert RosterIds([]) == Ok({});
    assert Roster[..1] == [AnnEntry];
    assert RosterIds([AnnEntry]).value == {Str("A1")};
    assert RosterIds(Roster).value == {Str("A1"), Str("B2")};
  }

  /** Every invoice identity is on the roster, so the gate passes. */
  lemma GatePasses()
    ensures CheckForMissingTutors(Rows, Roster, []) == Pass
  {
    InvoicedIds();
    RosterIdsAre();
  }

  /** An invoice billed to C3, who is neither on the roster nor excluded, fails the gate naming C3. */
  lemma UnknownTutorFailsGate()
    ensures CheckForMissingTutors(Rows + [Stray], Roster, []) == Fail(MissingTutors({Str("C3")}))
  {
    InvoicedIds();
    RosterIdsAre();
    assert ExcludedSet([]) == {};
    assert "C3"[0] != "A1"[0] && "C3"[0] != "B2"[0];
    OnlyNewcomerMissing(Str("A1"), Str("B2"), Str("C3"));
  }

  /** Of three invoiced identities, the one outside the roster's two is the one missing. */
  lemma OnlyNewcomerMissing(a: Value, b: Value, c: Value)
    requires c != a && c != b
    ensures {a, b, c} - {a, b} - {} == {c}
  {
  }

  /** The failed gate stops the run before any transfer, in every mode and with any gateway. */
  lemma UnknownTutorStopsRun(action: string, gateway: Gateway)
    ensures Run(Roster, [], Fee, Rows + [Stray], action, gateway) == RunResult(Err(MissingTutors({Str("C3")})), [])
  {
    UnknownTutorFailsGate();
    GateStopsRun(Roster, [], Fee, Rows + [Stray], action, gateway);
  }

  lemma AnnBuilt()
    ensures FromMapping(AnnEntry) == Ok(Ann)
  {
  }

  lemma BobBuilt()
    ensures FromMapping(BobEntry) == Ok(Bob)
  {
  }

  /** Both tutors are paid, Ann before Bob, as the roster lists them. */
  lemma BothSelected()
    ensures GetTutorsToPay(Roster, []) == Ok([Ann, Bob])
  {
    RosterIdsAre();
    AnnBuilt();
    BobBuilt();
    var pay := {Str("A1"), Str("B2")} - ExcludedSet([]);
    assert ExcludedSet([]) == {};
    assert Roster[1..] == [BobEntry] && [BobEntry][1..] == [];
    assert SelectPayable([], pay) == Ok([]);
    assert SelectPayable([BobEntry], pay).value == [Bob];
    assert SelectPayable(Roster, pay).value == [Ann, Bob];
  }

  /** Each invoice row's contribution to Ann's (A1) and Bob's (B2) revenue. */
  lemma SessionAmounts()
    ensures RowAmount(Session, Ann.id) == Ok(100.0) && RowAmount(Session, Bob.id) == Ok(0.0)
  {
    SessionNamed();
    HundredReads();
  }

  lemma DroppedAmounts()
    ensures RowAmount(Dropped, Ann.id) == Ok(0.0) && RowAmount(Dropped, Bob.id) == Ok(0.0)
  {
    DroppedNamed();
  }

  lemma ReviewAmounts()
    ensures RowAmount(Review, Ann.id) == Ok(0.0) && RowAmount(Review, Bob.id) == Ok(40.0)
  {
    ReviewNamed();
    FortyReads();
  }

  lemma AnnRevenue()
    ensures Revenue(Rows, Ann.id) == Ok(100.0)
  {
    SessionAmounts();
    DroppedAmounts();
    ReviewAmounts();
    assert |Rows| == 3 && Rows[0] == Session && Rows[1] == Dropped && Rows[2] == Review;
    RevenueStep(Rows, 0, Ann.id, 0.0);
    assert RevenueUpTo(Rows, 1, Ann.id) == Ok(100.0);
    RevenueStep(Rows, 1, Ann.id, 100.0);
    assert RevenueUpTo(Rows, 2, Ann.id) == Ok(100.0);
    RevenueStep(Rows, 2, Ann.id, 100.0);
  }

  lemma BobRevenue()
    ensures Revenue(Rows, Bob.id) == Ok(40.0)
  {
    SessionAmounts();
    DroppedAmounts();
    ReviewAmounts();
    assert |Rows| == 3 && Rows[0] == Session && Rows[1] == Dropped && Rows[2] == Review;
    RevenueStep(Rows, 0, Bob.id, 0.0);
    assert RevenueUpTo(Rows, 1, Bob.id) == Ok(0.0);
    RevenueStep(Rows, 1, Bob.id, 0.0);
    assert RevenueUpTo(Rows, 2, Bob.id) == Ok(0.0);
    RevenueStep(Rows, 2, Bob.id, 0.0);
  }

  /** Ann's canceled invoice and Bob's invoice add nothing to her revenue of $100; Bob's is $40. */
  lemma Revenues()
    ensures Revenue(Rows, Ann.id) == Ok(100.0)
    ensures Revenue(Rows, Bob.id) == Ok(40.0)
  {
    AnnRevenue();
    BobRevenue();
  }

  /** $100 / 1.05 * 0.5 is $47.619..., paid as $47.61; $40 / 1.05 * 0.6 is $22.857..., paid as $22.85. */
  lemma TakeHomes()
    ensures TakeHome(100.0, Fee, Ann.cut) == Ok(4761)
    ensures TakeHome(40.0, Fee, Bob.cut) == Ok(2285)
  {
  }

  /** Two tutors whose payments both go through are paid in order, and nothing raises. */
  lemma PayBoth(rows: seq<Row>, fee: Value, action: Option<string>, a: Tutor, b: Tutor, gateway: Gateway, pa: Payment, pb: Payment)
    requires Pay(rows, fee, action, a, gateway) == Ok(pa) && Pay(rows, fee, action, b, gateway) == Ok(pb)
    ensures PayAll(rows, fee, action, [a, b], gateway) == ([pa, pb], None)
  {
    assert [a][..0] == [] && [a, b][..1] == [a];
    assert PayAll(rows, fee, action, [], gateway) == ([], None);
    assert PayAll(rows, fee, action, [a], gateway).0 == [pa];
    assert PayAll(rows, fee, action, [a, b], gateway).0 == [pa, pb];
  }

  /** What two payments leave in the records, the total, the failures and the gateway calls. */
  lemma TwoPayments(pa: Payment, pb: Payment, fee: Value)
    ensures Records([pa, pb], fee) == [RecordOf(pa, fee), RecordOf(pb, fee)]
    ensures Total([pa, pb]) == pa.amountPaid + pb.amountPaid
    ensures Failed([pa, pb]) == (if pa.success then [] else [pa.tutor]) + (if pb.success then [] else [pb.tutor])
    ensures Transfers([pa, pb]) ==
      (if pa.payout.Some? then [Transfer(pa.tutor.stripeEmail, pa.amountPaid)] else []) +
      (if pb.payout.Some? then [Transfer(pb.tutor.stripeEmail, pb.amountPaid)] else [])
  {
    AppendPayment([], pa, fee);
    AppendPayment([pa], pb, fee);
    assert [] + [pa] == [pa] && [pa] + [pb] == [pa, pb];
  }

  /** Outside SendMode nobody is transferred anything: Ann's payment documents $100 and 4761 cents. */
  lemma PaidWithoutTransfer(action: string, gateway: Gateway)
    requires action != SendMode
    ensures Pay(Rows, Fee, Some(action), Ann, gateway) == Ok(Payment(Ann, true, 100.0, 4761, None))
    ensures Pay(Rows, Fee, Some(action), Bob, gateway) == Ok(Payment(Bob, true, 40.0, 2285, None))
  {
    Revenues();
    TakeHomes();
  }

  /** In SendMode each take-home goes to the gateway, which here refuses it. */
  lemma PaidAndRefused()
    ensures Pay(Rows, Fee, Some(SendMode), Ann, Refusing) == Ok(Payment(Ann, false, 100.0, 4761, Some("declined")))
    ensures Pay(Rows, Fee, Some(SendMode), Bob, Refusing) == Ok(Payment(Bob, false, 40.0, 2285, Some("declined")))
  {
    Revenues();
    TakeHomes();
  }

  /** The CSV rows the period documents, one per tutor in roster order. */
  const Ledger: seq<Record> := [
    Record(Str("Ann"), Str("RPI"), 100.0, Num(0.5), Fee, 4761, Str("A1"), Str("ann@example.com")),
    Record(Str("Bob"), Str("RPI"), 40.0, Num(0.6), Fee, 2285, Str("B2"), Str("bob@example.com"))]

  /** Computing the transfer total prints 7046 cents, writes no ledger and calls no gateway. */
  lemma TransferTotalRun(gateway: Gateway)
    ensures Run(Roster, [], Fee, Rows, CalculateTotalMode, gateway) ==
      RunResult(Ok(Report(Ledger, 7046, [], None, Some(7046), None)), [])
  {
    GatePasses();
    BothSelected();
    PaidWithoutTransfer(CalculateTotalMode, gateway);
    var pa, pb := Payment(Ann, true, 100.0, 4761, None), Payment(Bob, true, 40.0, 2285, None);
    PayBoth(Rows, Fee, Some(CalculateTotalMode), Ann, Bob, gateway, pa, pb);
    RunPays(Roster, [], Fee, Rows, CalculateTotalMode, gateway, [Ann, Bob]);
    TwoPayments(pa, pb, Fee);
  }

  /**
    Sending deposits through a gateway that refuses them calls it once per tutor, in roster
    order, still writes the ledger, and closes by naming both tutors as unpaid.
  */
  lemma RefusedDepositsRun()
    ensures Run(Roster, [], Fee, Rows, SendMode, Refusing) ==
      RunResult(Ok(Report(Ledger, 7046, [Ann, Bob], Some(Ledger), None, Some(Unpaid([Ann, Bob])))),
        [Transfer(Str("ann@example.com"), 4761), Transfer(Str("bob@example.com"), 2285)])
  {
    GatePasses();
    BothSelected();
    PaidAndRefused();
    var pa := Payment(Ann, false, 100.0, 4761, Some("declined"));
    var pb := Payment(Bob, false, 40.0, 2285, Some("declined"));
    PayBoth(Rows, Fee, Some(SendMode), Ann, Bob, Refusing, pa, pb);
    RunPays(Roster, [], Fee, Rows, SendMode, Refusing, [Ann, Bob]);
    TwoPayments(pa, pb, Fee);
  }
}

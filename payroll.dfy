/**
  The payroll run of `PayrollManager`: identity normalisation of the loaded roster and
  exclusion list, the reconciliation gate against the invoice rows, the choice of tutors
  to pay, the per-tutor revenue and take-home, and the run that documents and pays them.

  The specification functions come first; the class after them holds the state the
  source keeps in `self` and updates it in loops proved against those functions.
*/
module Payroll {
  import opened Values
  import opened Text
  import opened Amounts
  import opened Tutors

  /** One row of the invoice summary: the "Invoice Title", "Status" and "Requested Amount" columns. */
  datatype Row = Row(title: string, status: string, amount: string)

  /** The action that sends transfers. */
  const SendMode: string := "send_direct_deposits"
  /** The action that only prints the total to move to the payment provider. */
  const CalculateTotalMode: string := "calculate_stripe_transfer"
  /** The status of an invoice that earns nothing. */
  const Canceled: string := "Canceled"

  /** What the transfer gateway answers: whether the transfer went through, and its response. */
  datatype Reply = Reply(success: bool, payout: string)

  /** The transfer gateway: given a tutor's payout e-mail and an amount in cents, its answer. */
  type Gateway = (Value, int) -> Reply

  /** One call of the gateway. */
  datatype Transfer = Transfer(email: Value, cents: int)

  /** What paying one tutor returns: success, revenue, take-home in cents and the gateway's response, if it was called. */
  datatype Payment = Payment(tutor: Tutor, success: bool, revenue: real, amountPaid: int, payout: Option<string>)

  /** One documentation row: name, school, revenue, cut, service fee, take-home, id, payout e-mail. */
  datatype Record = Record(name: Value, school: Value, revenue: real, cut: Value, fee: Value, amountPaid: int, id: Value, stripeEmail: Value)

  /** The closing message of a run that sends transfers. */
  datatype Notice = AllPaid | Unpaid(tutors: seq<Tutor>)

  /**
    What a completed run leaves behind: its records, total and failures, the ledger it
    writes (all modes but CalculateTotalMode), the total it prints (CalculateTotalMode) and the
    closing notice (SendMode).
  */
  datatype Report = Report(
    records: seq<Record>, total: int, failed: seq<Tutor>,
    ledger: Option<seq<Record>>, printedTotal: Option<int>, notice: Option<Notice>)

  /** A run's outcome and the gateway calls it issued, which stand even when the run raises later. */
  datatype RunResult = RunResult(report: Result<Report>, transfers: seq<Transfer>)

  // ---------------------------------------------------------------------------------------------
  // Identity normalisation

  /** `v.strip("@").strip()` on a payload value; a number has no `strip`. */
  function NormalizeId(v: Value): (r: Result<Value>)
    ensures r.Ok? <==> v.Str?
    ensures r.Err? ==> r.error == AttributeError("strip")
  {
    match v
    case Str(s) => Ok(Str(Normalize(s)))
    case Num(_) => Err(AttributeError("strip"))
  }

  /** A roster mapping with its "tutorID" normalised; KeyError when it has none. */
  function NormalizeEntry(e: Entry): (r: Result<Entry>)
    ensures r.Ok? <==> "tutorID" in e && e["tutorID"].Str?
    ensures r.Err? ==> r.error == (if "tutorID" in e then AttributeError("strip") else KeyError("tutorID"))
  {
    if "tutorID" !in e then Err(KeyError("tutorID"))
    else match NormalizeId(e["tutorID"])
      case Err(err) => Err(err)
      case Ok(v) => Ok(e["tutorID" := v])
  }

  /** The index of the first roster mapping that cannot be normalised, or the roster's length. */
  function FirstBadEntry(es: seq<Entry>): (k: nat)
    ensures k <= |es|
    ensures forall i :: 0 <= i < k ==> NormalizeEntry(es[i]).Ok?
    ensures k < |es| ==> NormalizeEntry(es[k]).Err?
  {
    if es == [] || NormalizeEntry(es[0]).Err? then 0 else 1 + FirstBadEntry(es[1..])
  }

  /** The index of the first exclusion that cannot be normalised, or the list's length. */
  function FirstBadId(vs: seq<Value>): (k: nat)
    ensures k <= |vs|
    ensures forall i :: 0 <= i < k ==> vs[i].Str?
    ensures k < |vs| ==> vs[k].Num?
  {
    if vs == [] || vs[0].Num? then 0 else 1 + FirstBadId(vs[1..])
  }

  // ---------------------------------------------------------------------------------------------
  // Reconciliation gate

  /** The identity an invoice row is billed to; None when its title has no word. */
  function RowId(row: Row): Option<string> {
    InvoiceIdentity(row.title)
  }

  predicate AllRowsNamed(rows: seq<Row>) {
    forall i :: 0 <= i < |rows| ==> RowId(rows[i]).Some?
  }

  /**
    The set of identities the invoices are billed to, collected row by row; IndexError when
    some title has no word.
  */
  function InvoiceIds(rows: seq<Row>): (r: Result<set<Value>>)
    ensures r.Ok? <==> AllRowsNamed(rows)
    ensures r.Err? ==> r.error == IndexError
  {
    if rows == [] then Ok({})
    else
      match (InvoiceIds(rows[..|rows| - 1]), RowId(rows[|rows| - 1]))
      case (Ok(ids), Some(w)) => Ok(ids + {Str(w)})
      case _ => Err(IndexError)
  }

  predicate AllEntriesHaveId(roster: seq<Entry>) {
    forall i :: 0 <= i < |roster| ==> "tutorID" in roster[i]
  }

  /** The set of roster ids, collected mapping by mapping; KeyError when some mapping has no "tutorID". */
  function RosterIds(roster: seq<Entry>): (r: Result<set<Value>>)
    ensures r.Ok? <==> AllEntriesHaveId(roster)
    ensures r.Err? ==> r.error == KeyError("tutorID")
  {
    if roster == [] then Ok({})
    else
      var e := roster[|roster| - 1];
      match RosterIds(roster[..|roster| - 1])
      case Ok(ids) => if "tutorID" in e then Ok(ids + {e["tutorID"]}) else Err(KeyError("tutorID"))
      case Err(err) => Err(err)
  }

  /** `set(excluded)`. */
  function ExcludedSet(excluded: seq<Value>): set<Value> {
    set v | v in excluded
  }

  /**
    `check_for_missing_tutors`: passes when every invoice identity is on the roster or
    excluded, and otherwise raises naming the identities that are neither.
  */
  function CheckForMissingTutors(rows: seq<Row>, roster: seq<Entry>, excluded: seq<Value>): (r: Outcome)
    ensures r == Pass ==> AllRowsNamed(rows) && AllEntriesHaveId(roster)
    ensures r.Fail? ==> r.error == IndexError || r.error == KeyError("tutorID") || (r.error.MissingTutors? && r.error.ids != {})
  {
    match InvoiceIds(rows)
    case Err(e) => Fail(e)
    case Ok(invoiced) =>
      match RosterIds(roster)
      case Err(e) => Fail(e)
      case Ok(ids) =>
        var missing := invoiced - ids - ExcludedSet(excluded);
        if missing != {} then Fail(MissingTutors(missing)) else Pass
  }

  // ---------------------------------------------------------------------------------------------
  // Payable selection

  /**
    The tutors built from the roster mappings whose id is in `pay`, in roster order;
    the first such mapping that lacks a key raises KeyError.
  */
  function SelectPayable(roster: seq<Entry>, pay: set<Value>): (r: Result<seq<Tutor>>)
    requires AllEntriesHaveId(roster)
    ensures r.Ok? ==> |r.value| <= |roster|
    ensures r.Ok? ==> forall j :: 0 <= j < |r.value| ==> r.value[j].id in pay
  {
    if roster == [] then Ok([])
    else
      var rest := SelectPayable(roster[1..], pay);
      if roster[0]["tutorID"] !in pay then rest
      else match FromMapping(roster[0])
        case Err(e) => Err(e)
        case Ok(t) =>
          match rest
          case Err(e) => Err(e)
          case Ok(ts) => Ok([t] + ts)
  }

  /** `get_tutors_to_pay`: the roster ids minus the exclusions, as tutors in roster order. */
  function GetTutorsToPay(roster: seq<Entry>, excluded: seq<Value>): (r: Result<seq<Tutor>>)
    ensures r.Ok? ==> |r.value| <= |roster|
    ensures r.Ok? ==> forall j :: 0 <= j < |r.value| ==> r.value[j].id !in excluded
  {
    match RosterIds(roster)
    case Err(e) => Err(e)
    case Ok(ids) => SelectPayable(roster, ids - ExcludedSet(excluded))
  }

  // ---------------------------------------------------------------------------------------------
  // Revenue and take-home

  /**
    What one invoice row adds to the revenue of the tutor with id `id`: nothing unless the
    row is billed to that id and not canceled, otherwise its amount. A title without a word
    raises IndexError whichever tutor is being paid.
  */
  function RowAmount(row: Row, id: Value): (r: Result<real>)
    ensures r.Err? ==> r.error == IndexError || r.error.ValueError?
  {
    match RowId(row)
    case None => Err(IndexError)
    case Some(w) =>
      if Str(w) != id || row.status == Canceled then Ok(0.0)
      else
        match ParseAmount(row.amount)
        case Err(e) => Err(e)
        case Ok(x) => Ok(x)
  }

  /**
    The revenue over the first `n` rows: their amounts summed in row order; the first row
    that raises ends the sum.
  */
  function RevenueUpTo(rows: seq<Row>, n: nat, id: Value): (r: Result<real>)
    requires n <= |rows|
    ensures r.Err? ==> r.error == IndexError || r.error.ValueError?
  {
    if n == 0 then Ok(0.0)
    else
      match RevenueUpTo(rows, n - 1, id)
      case Err(e) => Err(e)
      case Ok(s) =>
        match RowAmount(rows[n - 1], id)
        case Err(e) => Err(e)
        case Ok(a) => Ok(s + a)
  }

  /** A tutor's revenue: the sum over all the rows. */
  function Revenue(rows: seq<Row>, id: Value): (r: Result<real>)
    ensures r.Err? ==> r.error == IndexError || r.error.ValueError?
  {
    RevenueUpTo(rows, |rows|, id)
  }

  /**
    `pay_tutor`: revenue, take-home, and a gateway call when the take-home is positive
    and the action is SendMode. Without a call, success stays true and there is no response.
  */
  function Pay(rows: seq<Row>, fee: Value, action: Option<string>, t: Tutor, gateway: Gateway): (r: Result<Payment>)
    ensures r.Ok? ==> r.value.tutor == t
    ensures r.Ok? && r.value.payout.Some? ==> action == Some(SendMode) && r.value.amountPaid > 0
    ensures r.Ok? && r.value.payout.None? ==> r.value.success
  {
    match Revenue(rows, t.id)
    case Err(e) => Err(e)
    case Ok(revenue) =>
      match TakeHome(revenue, fee, t.cut)
      case Err(e) => Err(e)
      case Ok(cents) =>
        if cents > 0 && action == Some(SendMode) then
          var reply := gateway(t.stripeEmail, cents);
          Ok(Payment(t, reply.success, revenue, cents, Some(reply.payout)))
        else Ok(Payment(t, true, revenue, cents, None))
  }

  // ---------------------------------------------------------------------------------------------
  // The run

  /**
    Pays the tutors in order: the payments completed, and the error of the first tutor
    whose payment raised, which ends the loop.
  */
  function PayAll(rows: seq<Row>, fee: Value, action: Option<string>, ts: seq<Tutor>, gateway: Gateway): (r: (seq<Payment>, Option<Error>))
    ensures |r.0| <= |ts|
    ensures r.1.None? ==> |r.0| == |ts|
  {
    if ts == [] then ([], None)
    else
      var (ps, err) := PayAll(rows, fee, action, ts[..|ts| - 1], gateway);
      if err.Some? then (ps, err)
      else
        match Pay(rows, fee, action, ts[|ts| - 1], gateway)
        case Err(e) => (ps, Some(e))
        case Ok(p) => (ps + [p], None)
  }

  /**
    The loop pays the tutors in order and stops at the first that raises: the payments it
    completed are those of the tutors before that one, and the error is that tutor's.
  */
  lemma {:induction false} PayAllShape(rows: seq<Row>, fee: Value, action: Option<string>, ts: seq<Tutor>, gateway: Gateway)
    ensures var (ps, err) := PayAll(rows, fee, action, ts, gateway);
      && (forall j :: 0 <= j < |ps| ==> Pay(rows, fee, action, ts[j], gateway) == Ok(ps[j]))
      && (err.None? ==> |ps| == |ts|)
      && (err.Some? ==> |ps| < |ts| && Pay(rows, fee, action, ts[|ps|], gateway) == Err(err.value))
  {
    if ts != [] {
      var init := ts[..|ts| - 1];
      PayAllShape(rows, fee, action, init, gateway);
      var (ps, err) := PayAll(rows, fee, action, init, gateway);
      assert forall j :: 0 <= j < |ps| ==> init[j] == ts[j];
    }
  }

  /** The gateway calls made while issuing the payments, in order. */
  function Transfers(ps: seq<Payment>): seq<Transfer> {
    if ps == [] then []
    else
      var p := ps[|ps| - 1];
      Transfers(ps[..|ps| - 1]) + (if p.payout.Some? then [Transfer(p.tutor.stripeEmail, p.amountPaid)] else [])
  }

  /** The documentation row of one payment. */
  function RecordOf(p: Payment, fee: Value): Record {
    Record(p.tutor.name, p.tutor.school, p.revenue, p.tutor.cut, fee, p.amountPaid, p.tutor.id, p.tutor.stripeEmail)
  }

  function Records(ps: seq<Payment>, fee: Value): (r: seq<Record>)
    ensures |r| == |ps|
  {
    if ps == [] then [] else Records(ps[..|ps| - 1], fee) + [RecordOf(ps[|ps| - 1], fee)]
  }

  /** The running total of take-homes, in cents. */
  function Total(ps: seq<Payment>): int {
    if ps == [] then 0 else Total(ps[..|ps| - 1]) + ps[|ps| - 1].amountPaid
  }

  /** The tutors whose transfer failed, in order. */
  function Failed(ps: seq<Payment>): seq<Tutor> {
    if ps == [] then [] else Failed(ps[..|ps| - 1]) + (if ps[|ps| - 1].success then [] else [ps[|ps| - 1].tutor])
  }

  /** What a run that paid everyone documents, prints and reports, depending on the action. */
  function MakeReport(ps: seq<Payment>, fee: Value, action: string): (r: Report)
    ensures |r.records| == |ps|
    ensures r.ledger.Some? <==> action != CalculateTotalMode
    ensures r.printedTotal.Some? <==> action == CalculateTotalMode
    ensures r.notice.Some? <==> action == SendMode
  {
    var records := Records(ps, fee);
    var total := Total(ps);
    var failed := Failed(ps);
    Report(records, total, failed,
      if action != CalculateTotalMode then Some(records) else None,
      if action == CalculateTotalMode then Some(total) else None,
      if action == SendMode then Some(if failed == [] then AllPaid else Unpaid(failed)) else None)
  }

  /**
    `handle_request`: the gate, the selection, then the payments in order; any step that
    raises ends the run, keeping the gateway calls already made.
  */
  function Run(roster: seq<Entry>, excluded: seq<Value>, fee: Value, rows: seq<Row>, action: string, gateway: Gateway): (r: RunResult)
    ensures CheckForMissingTutors(rows, roster, excluded).Fail? ==> r.report.Err? && r.transfers == []
    ensures r.report.Ok? ==> CheckForMissingTutors(rows, roster, excluded) == Pass && GetTutorsToPay(roster, excluded).Ok?
  {
    match CheckForMissingTutors(rows, roster, excluded)
    case Fail(e) => RunResult(Err(e), [])
    case Pass =>
      match GetTutorsToPay(roster, excluded)
      case Err(e) => RunResult(Err(e), [])
      case Ok(ts) =>
        var (ps, err) := PayAll(rows, fee, Some(action), ts, gateway);
        if err.Some? then RunResult(Err(err.value), Transfers(ps))
        else RunResult(Ok(MakeReport(ps, fee, action)), Transfers(ps))
  }

  // ---------------------------------------------------------------------------------------------
  // Prefix facts the loops below rely on

  /** Adding one more row to a sum that has raised nothing. */
  lemma RevenueStep(rows: seq<Row>, i: nat, id: Value, sum: real)
    requires i < |rows| && RevenueUpTo(rows, i, id) == Ok(sum)
    ensures RowAmount(rows[i], id).Err? ==> RevenueUpTo(rows, i + 1, id) == Err(RowAmount(rows[i], id).error)
    ensures RowAmount(rows[i], id).Ok? ==> RevenueUpTo(rows, i + 1, id) == Ok(sum + RowAmount(rows[i], id).value)
  {
  }

  /** Once the first `k` rows raise, every longer prefix raises with the same error. */
  lemma {:induction false} RevenueErrorPersists(rows: seq<Row>, k: nat, n: nat, id: Value)
    requires k <= n <= |rows| && RevenueUpTo(rows, k, id).Err?
    ensures RevenueUpTo(rows, n, id) == RevenueUpTo(rows, k, id)
  {
    if k < n {
      RevenueErrorPersists(rows, k, n - 1, id);
    }
  }

  /** A row that raises after a sum that raised nothing ends the whole sum with its error. */
  lemma RevenueRowError(rows: seq<Row>, i: nat, id: Value, sum: real)
    requires i < |rows| && RevenueUpTo(rows, i, id) == Ok(sum) && RowAmount(rows[i], id).Err?
    ensures RevenueUpTo(rows, |rows|, id) == Err(RowAmount(rows[i], id).error)
  {
    RevenueStep(rows, i, id, sum);
    RevenueErrorPersists(rows, i + 1, |rows|, id);
  }

  /** Once paying a prefix of the tutors raises, the whole loop ends there. */
  lemma {:induction false} PayAllErrorPersists(rows: seq<Row>, fee: Value, action: Option<string>, ts: seq<Tutor>, k: nat, gateway: Gateway)
    requires k <= |ts| && PayAll(rows, fee, action, ts[..k], gateway).1.Some?
    ensures PayAll(rows, fee, action, ts, gateway) == PayAll(rows, fee, action, ts[..k], gateway)
  {
    if k < |ts| {
      var init := ts[..|ts| - 1];
      assert init[..k] == ts[..k];
      PayAllErrorPersists(rows, fee, action, init, k, gateway);
    } else {
      assert ts[..k] == ts;
    }
  }

  /** Paying one more tutor after a prefix that raised nothing. */
  lemma PayAllStep(rows: seq<Row>, fee: Value, action: Option<string>, ts: seq<Tutor>, i: nat, gateway: Gateway)
    requires i < |ts| && PayAll(rows, fee, action, ts[..i], gateway).1.None?
    ensures var ps := PayAll(rows, fee, action, ts[..i], gateway).0;
      PayAll(rows, fee, action, ts[..i + 1], gateway) ==
        match Pay(rows, fee, action, ts[i], gateway)
        case Err(e) => (ps, Some(e))
        case Ok(p) => (ps + [p], None)
  {
    assert ts[..i + 1][..i] == ts[..i];
  }

  /** A run that passes the gate and the selection is the payment loop over the selected tutors. */
  lemma RunPays(roster: seq<Entry>, excluded: seq<Value>, fee: Value, rows: seq<Row>, action: string, gateway: Gateway, ts: seq<Tutor>)
    requires CheckForMissingTutors(rows, roster, excluded) == Pass
    requires GetTutorsToPay(roster, excluded) == Ok(ts)
    ensures var (ps, err) := PayAll(rows, fee, Some(action), ts, gateway);
      Run(roster, excluded, fee, rows, action, gateway) ==
        RunResult(if err.Some? then Err(err.value) else Ok(MakeReport(ps, fee, action)), Transfers(ps))
  {
  }

  /** What one more payment adds to the records, the total, the failures and the gateway calls. */
  lemma AppendPayment(ps: seq<Payment>, p: Payment, fee: Value)
    ensures Records(ps + [p], fee) == Records(ps, fee) + [RecordOf(p, fee)]
    ensures Total(ps + [p]) == Total(ps) + p.amountPaid
    ensures Failed(ps + [p]) == Failed(ps) + (if p.success then [] else [p.tutor])
    ensures Transfers(ps + [p]) == Transfers(ps) + (if p.payout.Some? then [Transfer(p.tutor.stripeEmail, p.amountPaid)] else [])
  {
    assert (ps + [p])[..|ps|] == ps;
  }

  // ---------------------------------------------------------------------------------------------
  // The manager

  /**
    A payroll manager over an already loaded payload and invoice summary. `transfers`
    records every call made to the gateway.
  */
  class PayrollManager {
    var roster: seq<Entry>
    var excluded: seq<Value>
    var fee: Value
    var rows: seq<Row>
    var action: Option<string>
    var transfers: seq<Transfer>

    /** The manager right after loading, before the ids are normalised. */
    constructor (roster: seq<Entry>, excluded: seq<Value>, fee: Value, rows: seq<Row>)
      ensures this.roster == roster && this.excluded == excluded && this.fee == fee && this.rows == rows
      ensures action == None && transfers == []
    {
      this.roster := roster;
      this.excluded := excluded;
      this.fee := fee;
      this.rows := rows;
      action := None;
      transfers := [];
    }

    /**
      The first loop of `remove_at_from_ids`: normalises every roster "tutorID" in place, in
      order. A mapping without "tutorID", or whose id is a number, raises and leaves the
      mappings before it normalised and the rest as they were.
    */
    method NormalizeRosterIds() returns (outcome: Outcome)
      modifies this`roster
      ensures |roster| == |old(roster)|
      ensures var k := FirstBadEntry(old(roster));
        && (forall i :: 0 <= i < k ==> roster[i] == NormalizeEntry(old(roster)[i]).value)
        && (forall i :: k <= i < |roster| ==> roster[i] == old(roster)[i])
        && outcome == (if k < |roster| then Fail(NormalizeEntry(old(roster)[k]).error) else Pass)
    {
      var i := 0;
      while i < |roster|
        invariant 0 <= i <= |roster| == |old(roster)|
        invariant i <= FirstBadEntry(old(roster))
        invariant forall j :: 0 <= j < i ==> roster[j] == NormalizeEntry(old(roster)[j]).value
        invariant forall j :: i <= j < |roster| ==> roster[j] == old(roster)[j]
      {
        match NormalizeEntry(roster[i])
        case Err(e) =>
          return Fail(e);
        case Ok(normalized) =>
          roster := roster[i := normalized];
        i := i + 1;
      }
      return Pass;
    }

    /**
      The second loop of `remove_at_from_ids`: normalises every exclusion in place, in order;
      a number raises and leaves the entries before it normalised and the rest as they were.
    */
    method NormalizeExclusions() returns (outcome: Outcome)
      modifies this`excluded
      ensures |excluded| == |old(excluded)|
      ensures var k := FirstBadId(old(excluded));
        && (forall i :: 0 <= i < k ==> excluded[i] == NormalizeId(old(excluded)[i]).value)
        && (forall i :: k <= i < |excluded| ==> excluded[i] == old(excluded)[i])
        && outcome == (if k < |excluded| then Fail(AttributeError("strip")) else Pass)
    {
      var i := 0;
      while i < |excluded|
        invariant 0 <= i <= |excluded| == |old(excluded)|
        invariant i <= FirstBadId(old(excluded))
        invariant forall j :: 0 <= j < i ==> excluded[j] == NormalizeId(old(excluded)[j]).value
        invariant forall j :: i <= j < |excluded| ==> excluded[j] == old(excluded)[j]
      {
        match NormalizeId(excluded[i])
        case Err(e) =>
          return Fail(e);
        case Ok(normalized) =>
          excluded := excluded[i := normalized];
        i := i + 1;
      }
      return Pass;
    }

    /**
      `remove_at_from_ids`: the roster ids, then the exclusions; the exclusions are only
      reached when every roster id was normalised.
    */
    method RemoveAtFromIds() returns (outcome: Outcome)
      modifies this`roster, this`excluded
      ensures |roster| == |old(roster)| && |excluded| == |old(excluded)|
      ensures var k := FirstBadEntry(old(roster));
        && (forall i :: 0 <= i < k ==> roster[i] == NormalizeEntry(old(roster)[i]).value)
        && (forall i :: k <= i < |roster| ==> roster[i] == old(roster)[i])
        && (k < |roster| ==> outcome == Fail(NormalizeEntry(old(roster)[k]).error) && excluded == old(excluded))
      ensures FirstBadEntry(old(roster)) == |roster| ==>
        var k := FirstBadId(old(excluded));
        && (forall i :: 0 <= i < k ==> excluded[i] == NormalizeId(old(excluded)[i]).value)
        && (forall i :: k <= i < |excluded| ==> excluded[i] == old(excluded)[i])
        && outcome == (if k < |excluded| then Fail(AttributeError("strip")) else Pass)
    {
      outcome := NormalizeRosterIds();
      if outcome.Pass? {
        outcome := NormalizeExclusions();
      }
    }

    /** The loop of `pay_tutor`: the tutor's revenue over the invoice rows, in row order. */
    method SumRevenue(id: Value) returns (r: Result<real>)
      ensures r == Revenue(rows, id)
    {
      var rs := rows;
      var revenue := 0.0;
      var i := 0;
      while i < |rs|
        invariant 0 <= i <= |rs|
        invariant RevenueUpTo(rs, i, id) == Ok(revenue)
      {
        var step := RowAmount(rs[i], id);
        if step.Err? {
          RevenueRowError(rs, i, id, revenue);
          return Err(step.error);
        }
        RevenueStep(rs, i, id, revenue);
        revenue := revenue + step.value;
        i := i + 1;
      }
      return Ok(revenue);
    }

    /**
      `pay_tutor`: the tutor's revenue and take-home and, in SendMode with a positive
      take-home, one call of the gateway.
    */
    method PayTutor(t: Tutor, gateway: Gateway) returns (r: Result<Payment>)
      modifies this`transfers
      ensures r == Pay(rows, fee, action, t, gateway)
      ensures transfers == old(transfers) + (if r.Ok? && r.value.payout.Some? then [Transfer(t.stripeEmail, r.value.amountPaid)] else [])
    {
      var revenue := SumRevenue(t.id);
      match revenue
      case Err(e) =>
        return Err(e);
      case Ok(x) =>
      match TakeHome(x, fee, t.cut)
      case Err(e) =>
        return Err(e);
      case Ok(cents) =>
      if cents > 0 && action == Some(SendMode) {
        var reply := gateway(t.stripeEmail, cents);
        transfers := transfers + [Transfer(t.stripeEmail, cents)];
        return Ok(Payment(t, reply.success, x, cents, Some(reply.payout)));
      }
      return Ok(Payment(t, true, x, cents, None));
    }

    /**
      The loop of `handle_request`: pays the tutors in order, appending a record per tutor,
      adding the take-home to the running total and collecting the tutors whose transfer
      failed; a payment that raises ends the loop with its error.
    */
    method PayTutors(ts: seq<Tutor>, gateway: Gateway) returns (records: seq<Record>, total: int, failed: seq<Tutor>, err: Option<Error>, ghost payments: seq<Payment>)
      modifies this`transfers
      ensures PayAll(rows, fee, action, ts, gateway) == (payments, err)
      ensures records == Records(payments, fee) && total == Total(payments) && failed == Failed(payments)
      ensures transfers == old(transfers) + Transfers(payments)
    {
      records, total, failed, err, payments := [], 0, [], None, [];
      var i := 0;
      while i < |ts|
        invariant 0 <= i <= |ts|
        invariant PayAll(rows, fee, action, ts[..i], gateway) == (payments, None)
        invariant records == Records(payments, fee)
        invariant total == Total(payments)
        invariant failed == Failed(payments)
        invariant transfers == old(transfers) + Transfers(payments)
      {
        PayAllStep(rows, fee, action, ts, i, gateway);
        var paid := PayTutor(ts[i], gateway);
        match paid
        case Err(e) =>
          PayAllErrorPersists(rows, fee, action, ts, i + 1, gateway);
          err := Some(e);
          return;
        case Ok(p) =>
          payments := payments + [p];
          records := records + [RecordOf(p, fee)];
          total := total + p.amountPaid;
          if !p.success {
            failed := failed + [p.tutor];
          }
        i := i + 1;
      }
      assert ts[..i] == ts;
    }

    /**
      `handle_request`: records the action, runs the gate and the selection, pays the
      tutors, and ends with what the action documents, prints and reports.
    */
    method HandleRequest(a: string, gateway: Gateway) returns (r: Result<Report>)
      modifies this`action, this`transfers
      ensures action == Some(a)
      ensures r == Run(roster, excluded, fee, rows, a, gateway).report
      ensures transfers == old(transfers) + Run(roster, excluded, fee, rows, a, gateway).transfers
    {
      action := Some(a);
      match CheckForMissingTutors(rows, roster, excluded)
      case Fail(e) =>
        return Err(e);
      case Pass =>
      match GetTutorsToPay(roster, excluded)
      case Err(e) =>
        return Err(e);
      case Ok(ts) =>
      RunPays(roster, excluded, fee, rows, a, gateway, ts);
      var records, total, failed, err, payments := PayTutors(ts, gateway);
      if err.Some? {
        return Err(err.value);
      }
      var ledger := if a != CalculateTotalMode then Some(records) else None;
      var printed := if a == CalculateTotalMode then Some(total) else None;
      var notice := if a == SendMode then Some(if failed == [] then AllPaid else Unpaid(failed)) else None;
      r := Ok(Report(records, total, failed, ledger, printed, notice));
    }
  }
}

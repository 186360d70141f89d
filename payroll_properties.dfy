/**
  What the payroll run promises, stated against reference definitions written
  independently of the functions that compute it.
*/
module PayrollProperties {
  import opened Values
  import opened Text
  import opened Amounts
  import opened Tutors
  import opened Payroll

  // ---------------------------------------------------------------------------------------------
  // Identities

  /** Normalising a roster mapping rewrites its "tutorID" and keeps every other key and value. */
  lemma NormalizeEntryKeepsFields(e: Entry)
    requires NormalizeEntry(e).Ok?
    ensures var n := NormalizeEntry(e).value;
      && n.Keys == e.Keys
      && n["tutorID"] == Str(Normalize(e["tutorID"].s))
      && forall k :: k in e && k != "tutorID" ==> n[k] == e[k]
  {
  }

  /**
    A title whose last word is `@w` is billed to `w`, and a roster id or exclusion written
    `@w` or `w` normalises to `w`: both sides of the reconciliation meet.
  */
  lemma IdentitiesMeet(p: string, w: string, q: string)
    requires w != [] && NoSpace(w) && w[0] != '@' && w[|w| - 1] != '@'
    requires p == [] || IsSpace(p[|p| - 1])
    requires AllSpace(q)
    ensures InvoiceIdentity(p + ['@'] + w + q) == Some(w)
    ensures NormalizeId(Str(['@'] + w)) == Ok(Str(w))
    ensures NormalizeId(Str(w)) == Ok(Str(w))
  {
    var aw := ['@'] + w;
    assert aw[|aw| - 1] == w[|w| - 1];
    assert NoSpace(aw) by {
      assert forall k :: 1 <= k < |aw| ==> aw[k] == w[k - 1];
    }
    assert p + ['@'] + w + q == p + aw + q;
    LastWordOfConcat(p, aw, q);
    NormalizeDropsLeadingAt(w);
    NormalizeIdempotentWithoutSpace(w);
    StripUnique(w, At, 0, |w|);
  }

  // ---------------------------------------------------------------------------------------------
  // Revenue

  /** A row counts towards `id`'s revenue when it is billed to that identity and not canceled. */
  predicate Counts(row: Row, id: Value) {
    RowId(row).Some? && Str(RowId(row).value) == id && row.status != Canceled
  }

  /** The row's title has a word and, when the row counts towards `id`, its amount is one `float` reads. */
  predicate RowReadable(row: Row, id: Value) {
    RowId(row).Some? && (Counts(row, id) ==> ParseAmount(row.amount).Ok?)
  }

  /** What a readable row adds to `id`'s revenue. */
  function Contribution(row: Row, id: Value): real
    requires RowReadable(row, id)
  {
    if Counts(row, id) then ParseAmount(row.amount).value else 0.0
  }

  predicate Readable(rows: seq<Row>, id: Value) {
    forall i {:trigger RowReadable(rows[i], id)} :: 0 <= i < |rows| ==> RowReadable(rows[i], id)
  }

  /** The amounts of the rows that count towards `id`, summed front to back. */
  function Earned(rows: seq<Row>, id: Value): real
    requires Readable(rows, id)
  {
    if rows == [] then 0.0
    else Contribution(rows[0], id) + Earned(rows[1..], id)
  }

  lemma {:induction false} EarnedSnoc(rows: seq<Row>, row: Row, id: Value)
    requires Readable(rows, id) && RowReadable(row, id)
    ensures Readable(rows + [row], id)
    ensures Earned(rows + [row], id) == Earned(rows, id) + Contribution(row, id)
  {
    var s := rows + [row];
    assert forall i :: 0 <= i < |s| ==> s[i] == if i < |rows| then rows[i] else row;
    if rows != [] {
      assert s[1..] == rows[1..] + [row];
      EarnedSnoc(rows[1..], row, id);
    }
  }

  /** One row raises exactly when it is unreadable, and otherwise adds its contribution. */
  lemma RowAmountReadable(row: Row, id: Value)
    ensures RowAmount(row, id).Ok? <==> RowReadable(row, id)
    ensures RowAmount(row, id).Ok? ==> RowAmount(row, id).value == Contribution(row, id)
  {
  }

  lemma ReadableSnoc(rows: seq<Row>, row: Row, id: Value)
    ensures Readable(rows + [row], id) <==> Readable(rows, id) && RowReadable(row, id)
  {
    var s := rows + [row];
    assert forall i :: 0 <= i < |rows| ==> rows[i] == s[i];
    assert s[|rows|] == row;
  }

  /**
    The revenue over the first `n` rows is raised exactly when one of them is unreadable, and
    is otherwise the sum of the amounts of those rows that are billed to the tutor and not canceled.
  */
  lemma {:induction false} RevenueUpToIsEarned(rows: seq<Row>, n: nat, id: Value)
    requires n <= |rows|
    ensures RevenueUpTo(rows, n, id).Ok? <==> Readable(rows[..n], id)
    ensures RevenueUpTo(rows, n, id).Ok? ==> RevenueUpTo(rows, n, id).value == Earned(rows[..n], id)
  {
    if n > 0 {
      RevenueUpToIsEarned(rows, n - 1, id);
      RevenueUpToIsEarnedStep(rows, n, id);
    }
  }

  /** The inductive step of `RevenueUpToIsEarned`: from the first `n - 1` rows to the first `n`. */
  lemma RevenueUpToIsEarnedStep(rows: seq<Row>, n: nat, id: Value)
    requires 0 < n <= |rows|
    requires RevenueUpTo(rows, n - 1, id).Ok? <==> Readable(rows[..n - 1], id)
    requires RevenueUpTo(rows, n - 1, id).Ok? ==> RevenueUpTo(rows, n - 1, id).value == Earned(rows[..n - 1], id)
    ensures RevenueUpTo(rows, n, id).Ok? <==> Readable(rows[..n], id)
    ensures RevenueUpTo(rows, n, id).Ok? ==> RevenueUpTo(rows, n, id).value == Earned(rows[..n], id)
  {
    assert rows[..n] == rows[..n - 1] + [rows[n - 1]];
    EarnedAppend(rows[..n - 1], rows[n - 1], id, RevenueUpTo(rows, n - 1, id));
  }

  /** Extending a sum that agrees with `Earned` by one more row's amount keeps it in agreement. */
  lemma EarnedAppend(init: seq<Row>, last: Row, id: Value, sum: Result<real>)
    requires sum.Ok? <==> Readable(init, id)
    requires sum.Ok? ==> sum.value == Earned(init, id)
    ensures var next := match sum case Err(e) => Err(e) case Ok(s) => match RowAmount(last, id) case Err(e) => Err(e) case Ok(a) => Ok(s + a);
      && (next.Ok? <==> Readable(init + [last], id))
      && (next.Ok? ==> next.value == Earned(init + [last], id))
  {
    RowAmountReadable(last, id);
    ReadableSnoc(init, last, id);
    if Readable(init + [last], id) {
      EarnedSnoc(init, last, id);
    }
  }

  /**
    A tutor's revenue is raised exactly when some row is unreadable, and is otherwise the sum
    of the amounts of the rows billed to the tutor and not canceled.
  */
  lemma RevenueIsEarned(rows: seq<Row>, id: Value)
    ensures Revenue(rows, id).Ok? <==> Readable(rows, id)
    ensures Revenue(rows, id).Ok? ==> Revenue(rows, id).value == Earned(rows, id)
  {
    RevenueUpToIsEarned(rows, |rows|, id);
    assert rows[..|rows|] == rows;
  }

  /** The index of the first row that is not readable for `id`, or the number of rows. */
  function FirstUnreadable(rows: seq<Row>, id: Value): (k: nat)
    ensures k <= |rows|
    ensures forall i :: 0 <= i < k ==> RowReadable(rows[i], id)
    ensures k < |rows| ==> !RowReadable(rows[k], id)
  {
    if rows == [] || !RowReadable(rows[0], id) then 0 else 1 + FirstUnreadable(rows[1..], id)
  }

  /** When the revenue raises, it raises the error of the first unreadable row. */
  lemma RevenueFirstError(rows: seq<Row>, id: Value)
    requires Revenue(rows, id).Err?
    ensures FirstUnreadable(rows, id) < |rows|
    ensures Revenue(rows, id) == RowAmount(rows[FirstUnreadable(rows, id)], id)
  {
    var k := FirstUnreadable(rows, id);
    RevenueIsEarned(rows, id);
    RevenueUpToIsEarned(rows, k, id);
    assert Readable(rows[..k], id) by {
      assert forall i :: 0 <= i < k ==> rows[..k][i] == rows[i];
    }
    RevenueStep(rows, k, id, RevenueUpTo(rows, k, id).value);
    RevenueErrorPersists(rows, k + 1, |rows|, id);
  }

  /** A canceled row, or a row billed to someone else, leaves the revenue as it was. */
  lemma RevenueIgnoresRow(rows: seq<Row>, i: nat, id: Value)
    requires i < |rows| && RowId(rows[i]).Some? && !Counts(rows[i], id)
    ensures RevenueUpTo(rows, i + 1, id) == RevenueUpTo(rows, i, id)
  {
    RowAmountReadable(rows[i], id);
  }

  // ---------------------------------------------------------------------------------------------
  // Paying one tutor

  /**
    Paying a tutor raises exactly when the revenue or the take-home raises, with that error.
    Otherwise the payment carries the tutor, the revenue and the take-home; the gateway is
    called, once, exactly when the take-home is positive and the action is SendMode, and
    without a call the payment succeeds.
  */
  lemma PayCases(rows: seq<Row>, fee: Value, action: Option<string>, t: Tutor, gateway: Gateway)
    ensures var r := Pay(rows, fee, action, t, gateway);
      var revenue := Revenue(rows, t.id);
      && (revenue.Err? ==> r == Err(revenue.error))
      && (revenue.Ok? ==>
            var cents := TakeHome(revenue.value, fee, t.cut);
            && (cents.Err? ==> r == Err(cents.error))
            && (cents.Ok? ==>
                  && r.Ok?
                  && r.value.tutor == t
                  && r.value.revenue == revenue.value
                  && r.value.amountPaid == cents.value
                  && (r.value.payout.Some? <==> cents.value > 0 && action == Some(SendMode))
                  && (r.value.payout.Some? ==> gateway(t.stripeEmail, cents.value) == Reply(r.value.success, r.value.payout.value))
                  && (r.value.payout.None? ==> r.value.success)))
  {
  }

  /** Outside SendMode no payment calls the gateway, so none fails. */
  lemma PayOutsideSendMode(rows: seq<Row>, fee: Value, action: Option<string>, t: Tutor, gateway: Gateway)
    requires action != Some(SendMode)
    requires Pay(rows, fee, action, t, gateway).Ok?
    ensures Pay(rows, fee, action, t, gateway).value.payout.None?
    ensures Pay(rows, fee, action, t, gateway).value.success
  {
  }

  // ---------------------------------------------------------------------------------------------
  // Reconciliation gate

  /** `v` is the "tutorID" of some roster mapping. */
  predicate OnRoster(roster: seq<Entry>, v: Value) {
    exists j :: 0 <= j < |roster| && "tutorID" in roster[j] && roster[j]["tutorID"] == v
  }

  /** `v` is the identity some invoice row is billed to. */
  predicate Invoiced(rows: seq<Row>, v: Value) {
    exists i :: 0 <= i < |rows| && RowId(rows[i]).Some? && Str(RowId(rows[i]).value) == v
  }

  /** `v` is on the roster or excluded. */
  predicate Covered(roster: seq<Entry>, excluded: seq<Value>, v: Value) {
    OnRoster(roster, v) || v in excluded
  }

  /**
    The gate raises IndexError when a title has no word, then KeyError when a roster mapping
    has no "tutorID"; otherwise it passes exactly when every invoice row is billed to a
    covered identity, and when it fails it names exactly the invoiced identities not covered.
  */
  lemma GateCases(rows: seq<Row>, roster: seq<Entry>, excluded: seq<Value>)
    ensures var g := CheckForMissingTutors(rows, roster, excluded);
      && (!AllRowsNamed(rows) ==> g == Fail(IndexError))
      && (AllRowsNamed(rows) && !AllEntriesHaveId(roster) ==> g == Fail(KeyError("tutorID")))
      && (AllRowsNamed(rows) && AllEntriesHaveId(roster) ==>
            && (g == Pass <==> forall i :: 0 <= i < |rows| ==> Covered(roster, excluded, Str(RowId(rows[i]).value)))
            && (g.Fail? ==>
                  && g.error.MissingTutors?
                  && forall v :: v in g.error.ids <==> Invoiced(rows, v) && !Covered(roster, excluded, v)))
  {
    if AllRowsNamed(rows) && AllEntriesHaveId(roster) {
      var invoiced := InvoiceIds(rows).value;
      var ids := RosterIds(roster).value;
      var missing := invoiced - ids - ExcludedSet(excluded);
      InvoiceIdsMembers(rows);
      RosterIdsMembers(roster);
      assert forall v :: v in missing <==> Invoiced(rows, v) && !Covered(roster, excluded, v);
      if missing == {} {
        forall i | 0 <= i < |rows| ensures Covered(roster, excluded, Str(RowId(rows[i]).value)) {
          assert Invoiced(rows, Str(RowId(rows[i]).value));
        }
      } else {
        var v :| v in missing;
        var i :| 0 <= i < |rows| && RowId(rows[i]).Some? && Str(RowId(rows[i]).value) == v;
        assert !Covered(roster, excluded, Str(RowId(rows[i]).value));
      }
    }
  }

  /** A row is billed to `v` exactly when an earlier row is, or the last one is. */
  lemma InvoicedSplit(rows: seq<Row>, v: Value)
    requires rows != []
    ensures var last := RowId(rows[|rows| - 1]);
      Invoiced(rows, v) <==> Invoiced(rows[..|rows| - 1], v) || (last.Some? && Str(last.value) == v)
  {
    var init := rows[..|rows| - 1];
    var n := |rows| - 1;
    var last := RowId(rows[n]);
    var byLast := last.Some? && Str(last.value) == v;
    if Invoiced(init, v) {
      var i :| 0 <= i < |init| && RowId(init[i]).Some? && Str(RowId(init[i]).value) == v;
      assert rows[i] == init[i];
      assert Invoiced(rows, v);
    }
    if byLast {
      assert RowId(rows[n]).Some? && Str(RowId(rows[n]).value) == v;
      assert Invoiced(rows, v);
    }
    if Invoiced(rows, v) && !byLast {
      var i :| 0 <= i < |rows| && RowId(rows[i]).Some? && Str(RowId(rows[i]).value) == v;
      assert i != n;
      assert init[i] == rows[i];
      assert Invoiced(init, v);
    }
  }

  /** `v` is in the invoiced set exactly when some row is billed to it. */
  lemma {:induction false} InvoiceIdsMember(rows: seq<Row>, v: Value)
    requires InvoiceIds(rows).Ok?
    ensures v in InvoiceIds(rows).value <==> Invoiced(rows, v)
  {
    if rows != [] {
      InvoiceIdsMember(rows[..|rows| - 1], v);
      InvoicedSplit(rows, v);
    }
  }

  /** The invoiced set holds exactly the identities the rows are billed to. */
  lemma InvoiceIdsMembers(rows: seq<Row>)
    requires InvoiceIds(rows).Ok?
    ensures forall v :: v in InvoiceIds(rows).value <==> Invoiced(rows, v)
  {
    forall v {
      InvoiceIdsMember(rows, v);
    }
  }

  /** A mapping carries `v` as its "tutorID" exactly when an earlier one does, or the last one does. */
  lemma OnRosterSplit(roster: seq<Entry>, v: Value)
    requires roster != []
    ensures var last := roster[|roster| - 1];
      OnRoster(roster, v) <==> OnRoster(roster[..|roster| - 1], v) || ("tutorID" in last && last["tutorID"] == v)
  {
    var init := roster[..|roster| - 1];
    if OnRoster(init, v) {
      var i :| 0 <= i < |init| && "tutorID" in init[i] && init[i]["tutorID"] == v;
      assert roster[i] == init[i];
    }
    var last := roster[|roster| - 1];
    if OnRoster(roster, v) && !("tutorID" in last && last["tutorID"] == v) {
      var i :| 0 <= i < |roster| && "tutorID" in roster[i] && roster[i]["tutorID"] == v;
      assert i != |roster| - 1;
      assert init[i] == roster[i];
    }
  }

  /** `v` is among the roster ids exactly when some roster mapping carries it as its "tutorID". */
  lemma {:induction false} RosterIdsMember(roster: seq<Entry>, v: Value)
    requires RosterIds(roster).Ok?
    ensures v in RosterIds(roster).value <==> OnRoster(roster, v)
  {
    if roster != [] {
      RosterIdsMember(roster[..|roster| - 1], v);
      OnRosterSplit(roster, v);
    }
  }

  /** The roster ids are exactly the "tutorID" values of the roster mappings. */
  lemma RosterIdsMembers(roster: seq<Entry>)
    requires RosterIds(roster).Ok?
    ensures forall v :: v in RosterIds(roster).value <==> OnRoster(roster, v)
  {
    forall v {
      RosterIdsMember(roster, v);
    }
  }

  /** A run whose gate raises raises the same error before any tutor is paid: no gateway call is made. */
  lemma GateStopsRun(roster: seq<Entry>, excluded: seq<Value>, fee: Value, rows: seq<Row>, action: string, gateway: Gateway)
    requires CheckForMissingTutors(rows, roster, excluded).Fail?
    ensures Run(roster, excluded, fee, rows, action, gateway) == RunResult(Err(CheckForMissingTutors(rows, roster, excluded).error), [])
  {
  }

  // ---------------------------------------------------------------------------------------------
  // Payable selection

  /** The roster mappings whose "tutorID" is not excluded, in roster order. */
  function Kept(roster: seq<Entry>, excluded: seq<Value>): seq<Entry>
    requires AllEntriesHaveId(roster)
  {
    if roster == [] then []
    else (if roster[0]["tutorID"] in excluded then [] else [roster[0]]) + Kept(roster[1..], excluded)
  }

  /** Filtering a concatenation filters each part: `Kept` keeps the roster order. */
  lemma {:induction false} KeptConcat(a: seq<Entry>, b: seq<Entry>, excluded: seq<Value>)
    requires AllEntriesHaveId(a) && AllEntriesHaveId(b)
    ensures AllEntriesHaveId(a + b)
    ensures Kept(a + b, excluded) == Kept(a, excluded) + Kept(b, excluded)
  {
    assert forall i :: 0 <= i < |a + b| ==> (a + b)[i] == if i < |a| then a[i] else b[i - |a|];
    if a == [] {
      assert a + b == b;
    } else {
      var rest := a[1..];
      assert AllEntriesHaveId(rest) by {
        assert forall i :: 0 <= i < |rest| ==> rest[i] == a[i + 1];
      }
      assert (a + b)[1..] == rest + b;
      assert (a + b)[0] == a[0];
      KeptConcat(rest, b, excluded);
      var head := if a[0]["tutorID"] in excluded then [] else [a[0]];
      assert Kept(a, excluded) == head + Kept(rest, excluded);
      assert Kept(a + b, excluded) == head + (Kept(rest, excluded) + Kept(b, excluded));
    }
  }

  /** A mapping is kept exactly when it is on the roster and its id is not excluded. */
  lemma {:induction false} KeptMembers(roster: seq<Entry>, excluded: seq<Value>)
    requires AllEntriesHaveId(roster)
    ensures forall e :: e in Kept(roster, excluded) <==> e in roster && e["tutorID"] !in excluded
  {
    if roster != [] {
      KeptMembers(roster[1..], excluded);
      assert roster == [roster[0]] + roster[1..];
    }
  }

  /** `pay` holds, among the roster ids, exactly those not excluded. */
  predicate PaysKept(roster: seq<Entry>, pay: set<Value>, excluded: seq<Value>)
    requires AllEntriesHaveId(roster)
  {
    forall j :: 0 <= j < |roster| ==> (roster[j]["tutorID"] in pay <==> roster[j]["tutorID"] !in excluded)
  }

  /** What selecting from the first mapping on adds to selecting from the rest. */
  lemma SelectPayableUnfold(roster: seq<Entry>, pay: set<Value>, excluded: seq<Value>)
    requires roster != [] && AllEntriesHaveId(roster) && PaysKept(roster, pay, excluded)
    ensures AllEntriesHaveId(roster[1..]) && PaysKept(roster[1..], pay, excluded)
    ensures var k, kr := Kept(roster, excluded), Kept(roster[1..], excluded);
      if roster[0]["tutorID"] in excluded then k == kr && SelectPayable(roster, pay) == SelectPayable(roster[1..], pay)
      else k == [roster[0]] + kr
  {
    assert forall j :: 0 <= j < |roster| - 1 ==> roster[1..][j] == roster[j + 1];
  }

  /** Building tutors from one more mapping in front: all of them build exactly when the first and the rest do. */
  lemma BuildsCons(e: Entry, kr: seq<Entry>, rest: Result<seq<Tutor>>)
    requires rest.Ok? <==> forall j :: 0 <= j < |kr| ==> FromMapping(kr[j]).Ok?
    requires rest.Ok? ==> |rest.value| == |kr| && forall j :: 0 <= j < |kr| ==> rest.value[j] == FromMapping(kr[j]).value
    ensures var k := [e] + kr;
      var r := match FromMapping(e) case Err(x) => Err(x) case Ok(t) => (match rest case Err(x) => Err(x) case Ok(ts) => Ok([t] + ts));
      && (r.Ok? <==> forall j :: 0 <= j < |k| ==> FromMapping(k[j]).Ok?)
      && (r.Ok? ==> |r.value| == |k| && forall j :: 0 <= j < |k| ==> r.value[j] == FromMapping(k[j]).value)
  {
    var k := [e] + kr;
    assert k[0] == e;
    assert forall j :: 1 <= j < |k| ==> k[j] == kr[j - 1];
    if FromMapping(e).Ok? && forall j :: 0 <= j < |kr| ==> FromMapping(kr[j]).Ok? {
      forall j | 0 <= j < |k| ensures FromMapping(k[j]).Ok? {
        if j > 0 {
          assert FromMapping(kr[j - 1]).Ok?;
        }
      }
    }
    if forall j :: 0 <= j < |k| ==> FromMapping(k[j]).Ok? {
      assert FromMapping(k[0]).Ok?;
      forall j | 0 <= j < |kr| ensures FromMapping(kr[j]).Ok? {
        assert FromMapping(k[j + 1]).Ok?;
      }
    }
  }

  /**
    Selecting by `pay` succeeds exactly when every kept mapping has all five keys, and then
    builds one tutor from each kept mapping, in order.
  */
  lemma {:induction false} SelectPayableBuildsKept(roster: seq<Entry>, pay: set<Value>, excluded: seq<Value>)
    requires AllEntriesHaveId(roster) && PaysKept(roster, pay, excluded)
    ensures var r, k := SelectPayable(roster, pay), Kept(roster, excluded);
      && (r.Ok? <==> forall j :: 0 <= j < |k| ==> FromMapping(k[j]).Ok?)
      && (r.Ok? ==> |r.value| == |k| && forall j :: 0 <= j < |k| ==> r.value[j] == FromMapping(k[j]).value)
  {
    if roster != [] {
      var rest := roster[1..];
      SelectPayableUnfold(roster, pay, excluded);
      SelectPayableBuildsKept(rest, pay, excluded);
      if roster[0]["tutorID"] !in excluded {
        assert roster[0]["tutorID"] in pay;
        BuildsCons(roster[0], Kept(rest, excluded), SelectPayable(rest, pay));
      }
    }
  }

  /** When selecting by `pay` raises, it raises the error of the first kept mapping that lacks a key. */
  lemma {:induction false} SelectPayableFirstError(roster: seq<Entry>, pay: set<Value>, excluded: seq<Value>)
    requires AllEntriesHaveId(roster) && PaysKept(roster, pay, excluded)
    requires SelectPayable(roster, pay).Err?
    ensures var k := Kept(roster, excluded);
      exists j :: 0 <= j < |k| && FromMapping(k[j]) == Err(SelectPayable(roster, pay).error)
        && forall i :: 0 <= i < j ==> FromMapping(k[i]).Ok?
  {
    var rest := roster[1..];
    SelectPayableUnfold(roster, pay, excluded);
    var k, kr := Kept(roster, excluded), Kept(rest, excluded);
    var r, rr := SelectPayable(roster, pay), SelectPayable(rest, pay);
    if roster[0]["tutorID"] in excluded {
      SelectPayableFirstError(rest, pay, excluded);
    } else if FromMapping(roster[0]).Err? {
      assert FromMapping(k[0]) == Err(r.error);
    } else {
      SelectPayableFirstError(rest, pay, excluded);
      var j :| 0 <= j < |kr| && FromMapping(kr[j]) == Err(rr.error) && forall i :: 0 <= i < j ==> FromMapping(kr[i]).Ok?;
      assert r.error == rr.error;
      FirstErrorBehind(roster[0], kr, j, r.error);
    }
  }

  /** A mapping that builds, put in front, moves the first failing mapping one place back. */
  lemma FirstErrorBehind(e: Entry, k: seq<Entry>, j: int, err: Error)
    requires FromMapping(e).Ok? && 0 <= j < |k| && FromMapping(k[j]) == Err(err)
    requires forall i :: 0 <= i < j ==> FromMapping(k[i]).Ok?
    ensures FromMapping(([e] + k)[j + 1]) == Err(err) && forall i :: 0 <= i < j + 1 ==> FromMapping(([e] + k)[i]).Ok?
  {
    assert forall i :: 1 <= i < |k| + 1 ==> ([e] + k)[i] == k[i - 1];
  }

  /**
    `get_tutors_to_pay` raises KeyError when a roster mapping has no "tutorID"; otherwise it
    builds a tutor from each roster mapping whose id is not excluded, in roster order, and
    raises when one of those lacks a key. Each tutor it returns is on the roster and not excluded.
  */
  lemma GetTutorsToPayKept(roster: seq<Entry>, excluded: seq<Value>)
    ensures !AllEntriesHaveId(roster) ==> GetTutorsToPay(roster, excluded) == Err(KeyError("tutorID"))
    ensures AllEntriesHaveId(roster) ==>
      var r, k := GetTutorsToPay(roster, excluded), Kept(roster, excluded);
      && (r.Ok? <==> forall j :: 0 <= j < |k| ==> FromMapping(k[j]).Ok?)
      && (r.Ok? ==> |r.value| == |k| && forall j :: 0 <= j < |k| ==> r.value[j] == FromMapping(k[j]).value)
      && (r.Ok? ==> forall j :: 0 <= j < |r.value| ==> OnRoster(roster, r.value[j].id) && r.value[j].id !in excluded)
  {
    if AllEntriesHaveId(roster) {
      var ids := RosterIds(roster).value;
      var pay := ids - ExcludedSet(excluded);
      RosterIdsMembers(roster);
      assert forall j :: 0 <= j < |roster| ==> OnRoster(roster, roster[j]["tutorID"]);
      assert PaysKept(roster, pay, excluded);
      SelectPayableBuildsKept(roster, pay, excluded);
      var r, k := GetTutorsToPay(roster, excluded), Kept(roster, excluded);
      if r.Ok? {
        KeptMembers(roster, excluded);
        forall j | 0 <= j < |r.value| ensures OnRoster(roster, r.value[j].id) && r.value[j].id !in excluded {
          assert k[j] in k;
          var i :| 0 <= i < |roster| && roster[i] == k[j];
          assert r.value[j].id == k[j]["tutorID"];
        }
      }
    }
  }

  // ---------------------------------------------------------------------------------------------
  // What the loop over the payments accumulates

  /** One record per payment, in payment order. */
  lemma {:induction false} RecordsAt(ps: seq<Payment>, fee: Value)
    ensures |Records(ps, fee)| == |ps|
    ensures forall j :: 0 <= j < |ps| ==> Records(ps, fee)[j] == RecordOf(ps[j], fee)
  {
    if ps != [] {
      var init := ps[..|ps| - 1];
      RecordsAt(init, fee);
      assert forall j :: 0 <= j < |init| ==> init[j] == ps[j];
    }
  }

  /** The take-homes of the records, summed front to back. */
  function SumPaid(records: seq<Record>): int {
    if records == [] then 0 else records[0].amountPaid + SumPaid(records[1..])
  }

  lemma {:induction false} SumPaidSnoc(records: seq<Record>, r: Record)
    ensures SumPaid(records + [r]) == SumPaid(records) + r.amountPaid
  {
    if records != [] {
      assert (records + [r])[1..] == records[1..] + [r];
      SumPaidSnoc(records[1..], r);
    }
  }

  /** The running total is the sum of the take-homes in the records. */
  lemma {:induction false} TotalIsSumOfRecords(ps: seq<Payment>, fee: Value)
    ensures Total(ps) == SumPaid(Records(ps, fee))
  {
    if ps != [] {
      var init := ps[..|ps| - 1];
      TotalIsSumOfRecords(init, fee);
      SumPaidSnoc(Records(init, fee), RecordOf(ps[|ps| - 1], fee));
    }
  }

  /**
    The failures keep payment order: those of earlier payments come before those of later
    ones, as appending to the unpaid list does.
  */
  lemma {:induction false} FailedConcat(ps: seq<Payment>, qs: seq<Payment>)
    ensures Failed(ps + qs) == Failed(ps) + Failed(qs)
  {
    if qs == [] {
      assert ps + qs == ps;
    } else {
      var init := qs[..|qs| - 1];
      FailedConcat(ps, init);
      assert (ps + qs)[..|ps + qs| - 1] == ps + init;
    }
  }

  /** The failures are the tutors of the unsuccessful payments, and only those. */
  lemma {:induction false} FailedMembers(ps: seq<Payment>)
    ensures |Failed(ps)| <= |ps|
    ensures forall t :: t in Failed(ps) <==> exists j :: 0 <= j < |ps| && !ps[j].success && ps[j].tutor == t
    ensures Failed(ps) == [] <==> forall j :: 0 <= j < |ps| ==> ps[j].success
  {
    if ps != [] {
      var init, last := ps[..|ps| - 1], ps[|ps| - 1];
      FailedMembers(init);
      assert forall j :: 0 <= j < |init| ==> init[j] == ps[j];
      forall t | (exists j :: 0 <= j < |ps| && !ps[j].success && ps[j].tutor == t)
        ensures t in Failed(ps)
      {
        var j :| 0 <= j < |ps| && !ps[j].success && ps[j].tutor == t;
        if j < |init| {
          assert !init[j].success && init[j].tutor == t;
        }
      }
    }
  }

  /**
    Each gateway call belongs to a payment that has a response, with that payment's tutor's
    e-mail and take-home; a sequence of payments without responses calls nothing.
  */
  lemma {:induction false} TransfersOf(ps: seq<Payment>)
    ensures |Transfers(ps)| <= |ps|
    ensures forall x :: x in Transfers(ps) ==>
      exists j :: 0 <= j < |ps| && ps[j].payout.Some? && x == Transfer(ps[j].tutor.stripeEmail, ps[j].amountPaid)
    ensures (forall j :: 0 <= j < |ps| ==> ps[j].payout.None?) ==> Transfers(ps) == []
  {
    if ps != [] {
      var init := ps[..|ps| - 1];
      TransfersOf(init);
      assert forall j :: 0 <= j < |init| ==> init[j] == ps[j];
    }
  }

  // ---------------------------------------------------------------------------------------------
  // The run

  /** Tutor `t`'s revenue and take-home are both computed without raising. */
  predicate Computed(rows: seq<Row>, fee: Value, t: Tutor) {
    Revenue(rows, t.id).Ok? && TakeHome(Revenue(rows, t.id).value, fee, t.cut).Ok?
  }

  /** The documentation row of tutor `t`: name, school, revenue, cut, service fee, take-home, id, e-mail. */
  function ExpectedRecord(rows: seq<Row>, fee: Value, t: Tutor): Record
    requires Computed(rows, fee, t)
  {
    var revenue := Revenue(rows, t.id).value;
    Record(t.name, t.school, revenue, t.cut, fee, TakeHome(revenue, fee, t.cut).value, t.id, t.stripeEmail)
  }

  /**
    A completed run documents one record per payable tutor, in order, holding the tutor's
    name, school, revenue, cut, the service fee, the take-home, id and e-mail; its total is the
    sum of the take-homes. The ledger is written exactly when the action is not CalculateTotalMode,
    the total is printed exactly in CalculateTotalMode, and the closing notice exists exactly in SendMode.
  */
  lemma RunRecords(roster: seq<Entry>, excluded: seq<Value>, fee: Value, rows: seq<Row>, action: string, gateway: Gateway, ts: seq<Tutor>)
    requires CheckForMissingTutors(rows, roster, excluded) == Pass
    requires GetTutorsToPay(roster, excluded) == Ok(ts)
    requires Run(roster, excluded, fee, rows, action, gateway).report.Ok?
    ensures var rep := Run(roster, excluded, fee, rows, action, gateway).report.value;
      && |rep.records| == |ts|
      && (forall j :: 0 <= j < |ts| ==> Computed(rows, fee, ts[j]) && rep.records[j] == ExpectedRecord(rows, fee, ts[j]))
      && rep.total == SumPaid(rep.records)
      && (rep.ledger.Some? <==> action != CalculateTotalMode) && (rep.ledger.Some? ==> rep.ledger.value == rep.records)
      && (rep.printedTotal.Some? <==> action == CalculateTotalMode) && (rep.printedTotal.Some? ==> rep.printedTotal.value == rep.total)
      && (rep.notice.Some? <==> action == SendMode)
  {
    RunPays(roster, excluded, fee, rows, action, gateway, ts);
    PayAllShape(rows, fee, Some(action), ts, gateway);
    var (ps, err) := PayAll(rows, fee, Some(action), ts, gateway);
    RecordsAt(ps, fee);
    TotalIsSumOfRecords(ps, fee);
    forall j | 0 <= j < |ts|
      ensures Computed(rows, fee, ts[j])
      ensures RecordOf(ps[j], fee) == ExpectedRecord(rows, fee, ts[j])
    {
      PayCases(rows, fee, Some(action), ts[j], gateway);
    }
  }

  /** Gateway call `x` sends tutor `t`'s positive take-home to `t`'s e-mail. */
  predicate PaysTutor(rows: seq<Row>, fee: Value, x: Transfer, t: Tutor) {
    && Computed(rows, fee, t)
    && x == Transfer(t.stripeEmail, TakeHome(Revenue(rows, t.id).value, fee, t.cut).value)
    && x.cents > 0
  }

  /** The transfer tutor `t` is owed in SendMode: the take-home, when it is computed and positive. */
  function Owed(rows: seq<Row>, fee: Value, t: Tutor): seq<Transfer> {
    if Computed(rows, fee, t) && TakeHome(Revenue(rows, t.id).value, fee, t.cut).value > 0
    then [Transfer(t.stripeEmail, TakeHome(Revenue(rows, t.id).value, fee, t.cut).value)]
    else []
  }

  /** The transfers owed to the tutors `ts` in SendMode, in their order, one for each tutor owed one. */
  function Due(rows: seq<Row>, fee: Value, ts: seq<Tutor>): seq<Transfer> {
    if ts == [] then [] else Due(rows, fee, ts[..|ts| - 1]) + Owed(rows, fee, ts[|ts| - 1])
  }

  lemma OwedIsPaysTutor(rows: seq<Row>, fee: Value, t: Tutor, x: Transfer)
    ensures x in Owed(rows, fee, t) <==> PaysTutor(rows, fee, x, t)
  {
  }

  /** At most one transfer is due per tutor. */
  lemma {:induction false} DueLength(rows: seq<Row>, fee: Value, ts: seq<Tutor>)
    ensures |Due(rows, fee, ts)| <= |ts|
  {
    if ts != [] {
      DueLength(rows, fee, ts[..|ts| - 1]);
    }
  }

  /** A transfer that is due sends some tutor of `ts` that tutor's positive take-home. */
  lemma {:induction false} DueSendsTo(rows: seq<Row>, fee: Value, ts: seq<Tutor>, x: Transfer) returns (j: nat)
    requires x in Due(rows, fee, ts)
    ensures j < |ts| && PaysTutor(rows, fee, x, ts[j])
  {
    var init, last := ts[..|ts| - 1], ts[|ts| - 1];
    assert Due(rows, fee, ts) == Due(rows, fee, init) + Owed(rows, fee, last);
    if x in Due(rows, fee, init) {
      j := DueSendsTo(rows, fee, init, x);
      assert ts[j] == init[j];
    } else {
      OwedIsPaysTutor(rows, fee, last, x);
      j := |ts| - 1;
    }
  }

  /** Every tutor of `ts` owed a transfer has it among the transfers due. */
  lemma {:induction false} DueHolds(rows: seq<Row>, fee: Value, ts: seq<Tutor>, x: Transfer, j: nat)
    requires j < |ts| && PaysTutor(rows, fee, x, ts[j])
    ensures x in Due(rows, fee, ts)
  {
    var init, last := ts[..|ts| - 1], ts[|ts| - 1];
    assert Due(rows, fee, ts) == Due(rows, fee, init) + Owed(rows, fee, last);
    if j < |init| {
      assert ts[j] == init[j];
      DueHolds(rows, fee, init, x, j);
    } else {
      OwedIsPaysTutor(rows, fee, last, x);
    }
  }

  /**
    The transfers due are at most one per tutor, and a transfer is due exactly when it sends some
    tutor of `ts` that tutor's positive take-home.
  */
  lemma DueMembers(rows: seq<Row>, fee: Value, ts: seq<Tutor>)
    ensures |Due(rows, fee, ts)| <= |ts|
    ensures forall x :: x in Due(rows, fee, ts) <==> exists j :: 0 <= j < |ts| && PaysTutor(rows, fee, x, ts[j])
  {
    DueLength(rows, fee, ts);
    forall x ensures x in Due(rows, fee, ts) <==> exists j :: 0 <= j < |ts| && PaysTutor(rows, fee, x, ts[j]) {
      if x in Due(rows, fee, ts) {
        var j := DueSendsTo(rows, fee, ts, x);
      }
      if exists j :: 0 <= j < |ts| && PaysTutor(rows, fee, x, ts[j]) {
        var j :| 0 <= j < |ts| && PaysTutor(rows, fee, x, ts[j]);
        DueHolds(rows, fee, ts, x, j);
      }
    }
  }

  /** A payment that goes through logs, in SendMode, exactly the transfer its tutor is owed, and nothing otherwise. */
  lemma PaymentLogsOwed(rows: seq<Row>, fee: Value, action: string, t: Tutor, gateway: Gateway)
    requires Pay(rows, fee, Some(action), t, gateway).Ok?
    ensures var p := Pay(rows, fee, Some(action), t, gateway).value;
      (if p.payout.Some? then [Transfer(p.tutor.stripeEmail, p.amountPaid)] else []) ==
        (if action == SendMode then Owed(rows, fee, t) else [])
  {
    PayCases(rows, fee, Some(action), t, gateway);
  }

  /** The transfers due to a list grow by what its last tutor is owed. */
  lemma DueSnoc(rows: seq<Row>, fee: Value, ts: seq<Tutor>, t: Tutor)
    ensures Due(rows, fee, ts + [t]) == Due(rows, fee, ts) + Owed(rows, fee, t)
  {
    assert (ts + [t])[..|ts|] == ts;
  }

  /** One more tutor keeps the payments loop's gateway calls equal to the transfers due to the tutors it paid. */
  lemma PayAllTransfersStep(rows: seq<Row>, fee: Value, action: string, init: seq<Tutor>, t: Tutor, gateway: Gateway)
    requires var (ps, err) := PayAll(rows, fee, Some(action), init, gateway);
      Transfers(ps) == (if action == SendMode then Due(rows, fee, init[..|ps|]) else [])
    ensures var (ps, err) := PayAll(rows, fee, Some(action), init + [t], gateway);
      Transfers(ps) == (if action == SendMode then Due(rows, fee, (init + [t])[..|ps|]) else [])
  {
    if PayAll(rows, fee, Some(action), init, gateway).1.None? && Pay(rows, fee, Some(action), t, gateway).Ok? {
      PayAllTransfersPaid(rows, fee, action, init, t, gateway);
    } else {
      PayAllTransfersStopped(rows, fee, action, init, t, gateway);
    }
  }

  /** The step of `PayAllTransfersStep` where the new tutor is paid. */
  lemma PayAllTransfersPaid(rows: seq<Row>, fee: Value, action: string, init: seq<Tutor>, t: Tutor, gateway: Gateway)
    requires PayAll(rows, fee, Some(action), init, gateway).1.None? && Pay(rows, fee, Some(action), t, gateway).Ok?
    requires var (ps, err) := PayAll(rows, fee, Some(action), init, gateway);
      Transfers(ps) == (if action == SendMode then Due(rows, fee, init[..|ps|]) else [])
    ensures var (ps, err) := PayAll(rows, fee, Some(action), init + [t], gateway);
      Transfers(ps) == (if action == SendMode then Due(rows, fee, (init + [t])[..|ps|]) else [])
  {
    var ts := init + [t];
    assert ts[..|ts| - 1] == init && ts[|ts| - 1] == t;
    var ps := PayAll(rows, fee, Some(action), init, gateway).0;
    PayAllShape(rows, fee, Some(action), init, gateway);
    var p := Pay(rows, fee, Some(action), t, gateway).value;
    assert PayAll(rows, fee, Some(action), ts, gateway) == (ps + [p], None);
    assert init[..|ps|] == init;
    assert ts[..|ps| + 1] == ts;
    AppendPayment(ps, p, fee);
    PaymentLogsOwed(rows, fee, action, t, gateway);
    DueSnoc(rows, fee, init, t);
  }

  /** The step of `PayAllTransfersStep` where the loop has stopped, or stops at the new tutor. */
  lemma PayAllTransfersStopped(rows: seq<Row>, fee: Value, action: string, init: seq<Tutor>, t: Tutor, gateway: Gateway)
    requires !(PayAll(rows, fee, Some(action), init, gateway).1.None? && Pay(rows, fee, Some(action), t, gateway).Ok?)
    requires var (ps, err) := PayAll(rows, fee, Some(action), init, gateway);
      Transfers(ps) == (if action == SendMode then Due(rows, fee, init[..|ps|]) else [])
    ensures var (ps, err) := PayAll(rows, fee, Some(action), init + [t], gateway);
      Transfers(ps) == (if action == SendMode then Due(rows, fee, (init + [t])[..|ps|]) else [])
  {
    var ts := init + [t];
    assert ts[..|ts| - 1] == init && ts[|ts| - 1] == t;
    var ps := PayAll(rows, fee, Some(action), init, gateway).0;
    PayAllShape(rows, fee, Some(action), init, gateway);
    assert ts[..|ps|] == init[..|ps|];
    assert PayAll(rows, fee, Some(action), ts, gateway).0 == ps;
  }

  /**
    The payments loop calls the gateway, in SendMode, with exactly the transfers due to the
    tutors it paid, and outside SendMode not at all.
  */
  lemma {:induction false} PayAllTransfers(rows: seq<Row>, fee: Value, action: string, ts: seq<Tutor>, gateway: Gateway)
    ensures var (ps, err) := PayAll(rows, fee, Some(action), ts, gateway);
      |ps| <= |ts| && Transfers(ps) == (if action == SendMode then Due(rows, fee, ts[..|ps|]) else [])
  {
    if ts != [] {
      var init, last := ts[..|ts| - 1], ts[|ts| - 1];
      PayAllTransfers(rows, fee, action, init, gateway);
      assert ts == init + [last];
      PayAllTransfersStep(rows, fee, action, init, last, gateway);
    }
  }

  /**
    A run calls the gateway only after the gate and the selection have passed, only in
    SendMode, at most once per payable tutor, and each call pays a payable tutor's e-mail that
    tutor's positive take-home.
  */
  lemma RunTransfers(roster: seq<Entry>, excluded: seq<Value>, fee: Value, rows: seq<Row>, action: string, gateway: Gateway)
    ensures var x := Run(roster, excluded, fee, rows, action, gateway).transfers;
      x != [] ==>
        && CheckForMissingTutors(rows, roster, excluded) == Pass
        && GetTutorsToPay(roster, excluded).Ok?
        && action == SendMode
        && var ts := GetTutorsToPay(roster, excluded).value;
        && |x| <= |ts|
        && forall k :: 0 <= k < |x| ==> exists j :: 0 <= j < |ts| && PaysTutor(rows, fee, x[k], ts[j])
  {
    var x := Run(roster, excluded, fee, rows, action, gateway).transfers;
    if CheckForMissingTutors(rows, roster, excluded) == Pass && GetTutorsToPay(roster, excluded).Ok? {
      var ts := GetTutorsToPay(roster, excluded).value;
      RunPays(roster, excluded, fee, rows, action, gateway, ts);
      PayAllShape(rows, fee, Some(action), ts, gateway);
      var (ps, err) := PayAll(rows, fee, Some(action), ts, gateway);
      TransfersOf(ps);
      forall j | 0 <= j < |ps| && ps[j].payout.Some?
        ensures action == SendMode
        ensures PaysTutor(rows, fee, Transfer(ps[j].tutor.stripeEmail, ps[j].amountPaid), ts[j])
      {
        PayCases(rows, fee, Some(action), ts[j], gateway);
      }
      forall k | 0 <= k < |x| ensures exists j :: 0 <= j < |ts| && PaysTutor(rows, fee, x[k], ts[j]) {
        assert x[k] in Transfers(ps);
        var j :| 0 <= j < |ps| && ps[j].payout.Some? && x[k] == Transfer(ps[j].tutor.stripeEmail, ps[j].amountPaid);
      }
    }
  }

  /** In SendMode, the gateway refused tutor `t`'s positive take-home. */
  predicate Refused(rows: seq<Row>, fee: Value, gateway: Gateway, t: Tutor) {
    && Computed(rows, fee, t)
    && var cents := TakeHome(Revenue(rows, t.id).value, fee, t.cut).value;
    && cents > 0
    && !gateway(t.stripeEmail, cents).success
  }

  /**
    A completed run calls the gateway, in SendMode, once for every payable tutor whose take-home
    is positive, in the tutors' order, with that tutor's e-mail and take-home; in any other
    action it calls the gateway not at all.
  */
  lemma RunTransfersDue(roster: seq<Entry>, excluded: seq<Value>, fee: Value, rows: seq<Row>, action: string, gateway: Gateway, ts: seq<Tutor>)
    requires CheckForMissingTutors(rows, roster, excluded) == Pass
    requires GetTutorsToPay(roster, excluded) == Ok(ts)
    requires Run(roster, excluded, fee, rows, action, gateway).report.Ok?
    ensures Run(roster, excluded, fee, rows, action, gateway).transfers == (if action == SendMode then Due(rows, fee, ts) else [])
  {
    RunPays(roster, excluded, fee, rows, action, gateway, ts);
    PayAllShape(rows, fee, Some(action), ts, gateway);
    PayAllTransfers(rows, fee, action, ts, gateway);
    assert ts[..|ts|] == ts;
  }

  /**
    The failures of a completed run are the payable tutors whose transfer the gateway refused,
    which can only happen in SendMode; there the notice says all were paid exactly when none
    was refused, and otherwise lists the failures.
  */
  lemma RunFailures(roster: seq<Entry>, excluded: seq<Value>, fee: Value, rows: seq<Row>, action: string, gateway: Gateway, ts: seq<Tutor>)
    requires CheckForMissingTutors(rows, roster, excluded) == Pass
    requires GetTutorsToPay(roster, excluded) == Ok(ts)
    requires Run(roster, excluded, fee, rows, action, gateway).report.Ok?
    ensures var rep := Run(roster, excluded, fee, rows, action, gateway).report.value;
      && (action != SendMode ==> rep.failed == [] && rep.notice.None?)
      && (forall t :: t in rep.failed <==> action == SendMode && exists j :: 0 <= j < |ts| && ts[j] == t && Refused(rows, fee, gateway, t))
      && (action == SendMode ==> rep.notice == Some(if rep.failed == [] then AllPaid else Unpaid(rep.failed)))
  {
    RunPays(roster, excluded, fee, rows, action, gateway, ts);
    PayAllShape(rows, fee, Some(action), ts, gateway);
    var (ps, err) := PayAll(rows, fee, Some(action), ts, gateway);
    FailedMembers(ps);
    forall j | 0 <= j < |ps|
      ensures ps[j].tutor == ts[j]
      ensures !ps[j].success <==> action == SendMode && Refused(rows, fee, gateway, ts[j])
    {
      PayCases(rows, fee, Some(action), ts[j], gateway);
    }
  }

  /**
    A run that passes the gate and the selection but raises raises the error of the first
    payable tutor whose payment raises; the tutors before it were paid, and the gateway was
    called, in SendMode, with exactly the transfers due to them, and otherwise not at all.
  */
  lemma RunError(roster: seq<Entry>, excluded: seq<Value>, fee: Value, rows: seq<Row>, action: string, gateway: Gateway, ts: seq<Tutor>)
    requires CheckForMissingTutors(rows, roster, excluded) == Pass
    requires GetTutorsToPay(roster, excluded) == Ok(ts)
    requires Run(roster, excluded, fee, rows, action, gateway).report.Err?
    ensures var run := Run(roster, excluded, fee, rows, action, gateway);
      exists k :: 0 <= k < |ts|
        && Pay(rows, fee, Some(action), ts[k], gateway) == Err(run.report.error)
        && (forall j :: 0 <= j < k ==> Pay(rows, fee, Some(action), ts[j], gateway).Ok?)
        && run.transfers == (if action == SendMode then Due(rows, fee, ts[..k]) else [])
  {
    RunPays(roster, excluded, fee, rows, action, gateway, ts);
    PayAllShape(rows, fee, Some(action), ts, gateway);
    PayAllTransfers(rows, fee, action, ts, gateway);
    var (ps, err) := PayAll(rows, fee, Some(action), ts, gateway);
    var k := |ps|;
    assert Pay(rows, fee, Some(action), ts[k], gateway) == Err(err.value);
  }
}

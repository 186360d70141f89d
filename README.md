# Tutor payroll run: a verified model

This project models the payroll pipeline of `PayrollManager`. The pipeline takes a loaded
payload and an invoice summary, and does five things:

1. It normalises roster ids and exclusions in place.
2. It checks that every invoiced tutor identity is on the roster or excluded.
3. It picks the roster tutors to pay.
4. For each tutor, it sums the invoice revenue and computes a take-home rounded down to the cent.
5. It optionally sends that take-home through a transfer gateway, then documents the run, prints the total, or reports who was not paid.

The model also covers the `Tutor` record, which is built from one roster mapping.

Files (one module each):

- `values.dfy` (`Values`): payload scalars (a string or a number) and roster mappings. It also holds the Python exceptions the pipeline raises, as an `Error` datatype, plus `Result`, `Option` and `Outcome`.
- `text.dfy` (`Text`): Python's `str.strip(chars)`, `str.strip()` and `str.split()[-1]`, and the identity normalisation `s.strip("@").strip()`. Lemmas pin down exactly what each one returns.
- `amounts.dfy` (`Amounts`): `float()` on the `$`-stripped "Requested Amount", on exact rationals, and the take-home formula with `ROUND_DOWN` to whole cents.
- `tutor.dfy` (`Tutors`): the `Tutor` record and its construction from a mapping.
- `payroll.dfy` (`Payroll`): the pure specification functions, then the `PayrollManager` class.
  - The class holds the roster, exclusions, fee, invoice rows, action and a log of gateway calls.
  - Its methods are the source's loops: the two in-place normalisation loops, the revenue loop of `pay_tutor`, and the payment loop of `handle_request`.
  - Each method is proved against the specification functions.
- `payroll_properties.dfy` (`PayrollProperties`): what the run promises. These lemmas are stated against reference definitions written separately from the computing functions:
  - the revenue as a front-to-back sum of the counting rows;
  - gate membership as existentials over rows and roster;
  - selection as a filter of the roster;
  - records, totals, failures and gateway calls as per-payment statements.
- `payroll_scenarios.dfy` (`PayrollScenarios`): one worked pay period. It has two tutors, three invoice rows (one canceled), a 5% fee, and a fourth invoice billed to an unknown tutor. The lemmas follow it through the gate, the selection, the revenue, the take-homes, and complete runs in two modes.

Modelling choices:

- **Money is exact.** Revenue is a `real`, and the take-home is an `int` number of cents.
- **Payload values.** A payload value is `Str` or `Num`. This keeps the source's `KeyError`, `AttributeError`, `TypeError` and `ZeroDivisionError` paths. The `InvalidOperation` of `quantize` on a take-home too large for Python's default 28-digit decimal context is kept too.
- **Errors are results.** Every raising step returns `Err` with the exception the source would raise, and the run stops at the first one.
- **The gateway is a parameter.** It is a function from (payout e-mail, cents) to a `Reply(success, payout)`.
- **Gateway calls are logged.** The manager records each call in `transfers`, so "no transfer happens" is a statement about that log.
- **Actions.** The action is any string. Only `send_direct_deposits` and `calculate_stripe_transfer` are special, as in the source.

## Model

| member | source | states |
|---|---|---|
| Text.LastWord | payout_modules/payroll_manager.py:73 | `split()[-1]` yields, when it does not raise, a non-empty word no longer than the title. What that word is, and when it raises, is stated by `Text.LastWordShape`. |
| Text.LastWordShape | payout_modules/payroll_manager.py:73 | `split()[-1]` raises exactly on a title that is all whitespace. Otherwise it is a non-empty word without whitespace, followed only by whitespace and preceded by whitespace or nothing. |
| Text.LastWordAfterStrip | payout_modules/payroll_manager.py:73 | The last word is the final whitespace-free run of what right-stripping the title leaves, or none when that is empty. |
| Text.LastWordOfConcat | payout_modules/payroll_manager.py:99 | A title made of a prefix ending in whitespace (or nothing), a word, and trailing whitespace has that word as its last word. |
| Text.Strip | payout_modules/payroll_manager.py:122 | `strip(chars)` never lengthens the text. Its exact result is pinned down by `Text.StripShape` and `Text.StripUnique`. |
| Text.Normalize | payout_modules/payroll_manager.py:122 | `strip("@").strip()` never lengthens the id. `Text.NormalizeTrimmed` states that the result has no whitespace at either end. |
| Text.StripShape | payout_modules/payroll_manager.py:122 | `strip(chars)` returns the slice between the removable ends. Everything outside it is removable, and its own first and last characters are not. |
| Text.StripUnique | payout_modules/payroll_manager.py:122 | Any slice whose outside is all removable and whose ends are kept is the result of `strip`. |
| Text.StripIdempotent | payout_modules/payroll_manager.py:122 | Stripping twice with the same characters changes nothing further. |
| Text.NormalizeTrimmed | payout_modules/payroll_manager.py:122 | A normalised id has no whitespace at either end. |
| Text.NormalizeIdempotentWithoutSpace | payout_modules/payroll_manager.py:73 | On whitespace-free text (every invoice word), normalising is `strip("@")` alone and is idempotent. |
| Text.NormalizeNotIdempotent | payout_modules/payroll_manager.py:122 | `" @x"` normalises to `"@x"`, and that normalises to `"x"`: normalisation is not idempotent in general. |
| Text.NormalizeKeepsAtBehindSpace | payout_modules/payroll_manager.py:125 | A marker behind a leading space survives normalisation, because `strip("@")` meets the space first. |
| Text.NormalizeDropsLeadingAt | payout_modules/payroll_manager.py:125 | A leading `@` in front of a word is removed. |
| Text.InvoiceIdentity | payout_modules/payroll_manager.py:73 | An invoice identity is no longer than its title. `Text.InvoiceIdentityIsNormalizedWord` states which text it is, and `Text.InvoiceIdentityNormalized` when it exists and what form it has. |
| Text.InvoiceIdentityIsNormalizedWord | payout_modules/payroll_manager.py:73 | An invoice identity is the title's last word put through `strip("@").strip()`, and there is none when the title has no word. |
| Text.InvoiceIdentityNormalized | payout_modules/payroll_manager.py:73 | An invoice identity exists exactly when the title has a word. It has no whitespace and no `@` at either end, and normalising it again leaves it unchanged. |
| Amounts.ParseFloat | payout_modules/payroll_manager.py:103 | A text that is not a decimal numeral raises ValueError carrying that text. |
| Amounts.ParseTrimmedStrips | payout_modules/payroll_manager.py:103 | `float` ignores the whitespace around the numeral, which is every whitespace character except the separators U+001C to U+001F. It reads what stripping those characters leaves. |
| Amounts.SeparatorIsNotNumeralSpace | payout_modules/payroll_manager.py:103 | A file separator (U+001C) is whitespace to `strip()`, but in front of a numeral it makes `float` raise ValueError. |
| Amounts.ParseAmount | payout_modules/payroll_manager.py:103 | An unreadable amount raises ValueError carrying the amount without its `$`. |
| Amounts.ParseAmountOfNumeral | payout_modules/payroll_manager.py:103 | `$` followed by digits, a point and digits reads as exactly that decimal number. |
| Amounts.ParseAmountOfCentsText | payout_modules/payroll_manager.py:103 | Every amount written as `$d.cc` reads back as exactly that many cents. |
| Amounts.ParseAmountRejectsSeparator | payout_modules/payroll_manager.py:103 | A comma ahead of the decimal point makes the amount raise ValueError. |
| Amounts.ParseAmountRejectsThousands | payout_modules/payroll_manager.py:103 | `"$1,000.00"` raises ValueError with `"1,000.00"`. |
| Amounts.TruncateCents | payout_modules/payroll_manager.py:111 | `ROUND_DOWN` to cents: the whole number of cents within one cent of the value, toward zero. |
| Amounts.TakeHome | payout_modules/payroll_manager.py:108-111 | The take-home exists exactly when the fee is a number other than -1, the cut is a number, and the exact share is less than 10^26 dollars in magnitude. Otherwise it raises TypeError (a string operand, met in the source's order), ZeroDivisionError (fee -1) or InvalidOperation (`quantize` needs more than the default context's 28 digits). |
| Amounts.TakeHomeRounding | payout_modules/payroll_manager.py:107-111 | The take-home is `revenue / (1 + fee) * cut` cut toward zero: same sign, never larger in magnitude, less than 0.01 away. |
| Tutors.FromMapping | payout_modules/tutor.py:6-11 | Construction succeeds exactly when all five keys are present, and copies each value verbatim. Otherwise it raises KeyError for the first missing key in reading order. |
| Tutors.FromToMapping | payout_modules/tutor.py:7-11 | A tutor rebuilt from its own five-key mapping is the same tutor. |
| Tutors.ToFromMapping | payout_modules/tutor.py:7-11 | A built tutor agrees with its source mapping on all five keys; other keys are ignored. |
| Payroll.NormalizeId | payout_modules/payroll_manager.py:125 | Normalising a payload value succeeds exactly on strings. A number raises AttributeError (`strip`). |
| Payroll.NormalizeEntry | payout_modules/payroll_manager.py:122 | Normalising a roster mapping succeeds exactly when it has a string "tutorID". Otherwise it raises KeyError or AttributeError. |
| Payroll.FirstBadEntry | payout_modules/payroll_manager.py:121-122 | The loop reaches exactly the mappings before the first that cannot be normalised. |
| Payroll.FirstBadId | payout_modules/payroll_manager.py:124-125 | The loop reaches exactly the exclusions before the first number. |
| Payroll.InvoiceIds | payout_modules/payroll_manager.py:73 | The invoiced set exists exactly when every title has a word; otherwise IndexError. |
| Payroll.RosterIds | payout_modules/payroll_manager.py:74 | The roster-id set exists exactly when every mapping has "tutorID"; otherwise KeyError. |
| Payroll.CheckForMissingTutors | payout_modules/payroll_manager.py:71-82 | The gate passes only when every title has a word and every roster mapping has "tutorID". It fails with IndexError, KeyError("tutorID") or a non-empty set of missing identities. Exactly which, and that the set is exact, is stated by `PayrollProperties.GateCases`. |
| Payroll.SelectPayable | payout_modules/payroll_manager.py:89 | The selected tutors all have ids in the pay set, and there are no more of them than roster mappings. |
| Payroll.GetTutorsToPay | payout_modules/payroll_manager.py:84-89 | The tutors to pay are no more than the roster mappings, and none of their ids is excluded. `PayrollProperties.GetTutorsToPayKept` states exactly which tutors they are. |
| Payroll.RowAmount | payout_modules/payroll_manager.py:99-105 | A row raises only IndexError (a title without a word) or ValueError (an unreadable amount). `PayrollProperties.RowAmountReadable` states that it raises exactly when the row is unreadable, and what it adds otherwise. |
| Payroll.RevenueUpTo | payout_modules/payroll_manager.py:97-105 | The sum over the first rows raises only IndexError or ValueError. `PayrollProperties.RevenueUpToIsEarned` states its value. |
| Payroll.Revenue | payout_modules/payroll_manager.py:97-105 | A tutor's revenue raises only IndexError or ValueError. `PayrollProperties.RevenueIsEarned` states its value and `PayrollProperties.RevenueFirstError` its error. |
| Payroll.Pay | payout_modules/payroll_manager.py:91-117 | A payment holds its tutor. It has a gateway response only in the sending action and for a positive take-home, and without one it succeeds. `PayrollProperties.PayCases` states the whole payment. |
| Payroll.PayAll | payout_modules/payroll_manager.py:46-52 | The payment loop makes at most one payment per tutor, and one for each tutor when nothing raises. `Payroll.PayAllShape` states which. |
| Payroll.MakeReport | payout_modules/payroll_manager.py:54-69 | The report holds one record per payment. It has a ledger exactly when the action is not the transfer calculation, a printed total exactly when it is, and a notice exactly in the sending action. `PayrollProperties.RunRecords` states the records and total. |
| Payroll.Run | payout_modules/payroll_manager.py:34-69 | A failed gate ends the run with an error and no gateway call. A completed run has passed both the gate and the selection. `PayrollProperties.RunRecords`, `PayrollProperties.RunTransfersDue`, `PayrollProperties.RunFailures` and `PayrollProperties.RunError` state the rest. |
| Payroll.PayAllShape | payout_modules/payroll_manager.py:46-52 | The payment loop pays the tutors in order and stops at the first that raises. Its payments are those of the earlier tutors, and its error is that tutor's. |
| Payroll.RunPays | payout_modules/payroll_manager.py:40-47 | A run that passes the gate and the selection is the payment loop over the selected tutors. |
| Payroll.AppendPayment | payout_modules/payroll_manager.py:49-52 | One more payment appends its record, adds its take-home to the total, appends its tutor to the failures when unsuccessful, and logs its gateway call if any. |
| Payroll.PayrollManager.constructor | payout_modules/payroll_manager.py:31-32 | A fresh manager holds the loaded roster, exclusions, fee and rows, with no action and no gateway calls. |
| Payroll.PayrollManager.NormalizeRosterIds | payout_modules/payroll_manager.py:121-122 | Normalises, in place and in order, every roster mapping before the first bad one. It leaves the rest unchanged, keeps the length, and raises that mapping's error. |
| Payroll.PayrollManager.NormalizeExclusions | payout_modules/payroll_manager.py:124-125 | Normalises, in place and in order, every exclusion before the first number. It leaves the rest unchanged, keeps the length, and raises AttributeError there. |
| Payroll.PayrollManager.RemoveAtFromIds | payout_modules/payroll_manager.py:119-125 | Normalises the roster ids first and then the exclusions. The exclusions are untouched when a roster mapping raises. |
| Payroll.PayrollManager.SumRevenue | payout_modules/payroll_manager.py:94-105 | The revenue loop returns the tutor's revenue over the rows in order, or the error of the row that raises. |
| Payroll.PayrollManager.PayTutor | payout_modules/payroll_manager.py:91-117 | Returns the tutor's payment and logs exactly one gateway call when the payment has a response, and none otherwise. |
| Payroll.PayrollManager.PayTutors | payout_modules/payroll_manager.py:43-52 | The loop of the run. Its records, total and failures are those of the payments made in order, and it logs their gateway calls. A raising payment ends it with that error. |
| Payroll.PayrollManager.HandleRequest | payout_modules/payroll_manager.py:34-69 | Records the action. Its outcome and new gateway calls are those of the run: the gate, the selection, the payments, and the ledger, printed total and notice of the action. |
| PayrollProperties.NormalizeEntryKeepsFields | payout_modules/payroll_manager.py:122 | Normalising a mapping rewrites only "tutorID", to its normalised text, and keeps every other key and value. |
| PayrollProperties.IdentitiesMeet | payout_modules/payroll_manager.py:73 | A title ending in the word `@w` is billed to `w`. A roster id or exclusion written `@w` or `w` normalises to `w`, so both sides meet. |
| PayrollProperties.RevenueUpToIsEarned | payout_modules/payroll_manager.py:97-105 | The sum over the first rows raises exactly when one of them is unreadable. Otherwise it is the sum of the amounts of those rows billed to the tutor and not canceled. |
| PayrollProperties.RevenueIsEarned | payout_modules/payroll_manager.py:97-105 | The revenue raises exactly when some row is unreadable. Otherwise it is the sum of the amounts of the rows billed to the tutor and not canceled. |
| PayrollProperties.RevenueFirstError | payout_modules/payroll_manager.py:97-105 | When the revenue raises, it raises the error of the first unreadable row. |
| PayrollProperties.RevenueIgnoresRow | payout_modules/payroll_manager.py:99-102 | Summing one more row that is canceled, or billed to someone else, leaves the sum as it was. |
| PayrollProperties.PayCases | payout_modules/payroll_manager.py:91-117 | Paying raises exactly when the revenue or take-home raises, with that error. Otherwise the payment holds the tutor, revenue and take-home. The gateway is called exactly when the take-home is positive and the action sends deposits, and its reply is the payment's success and response. Without a call the payment succeeds. |
| PayrollProperties.PayOutsideSendMode | payout_modules/payroll_manager.py:114-117 | Outside the sending action no payment calls the gateway, and none fails. |
| PayrollProperties.InvoiceIdsMembers | payout_modules/payroll_manager.py:73 | The invoiced set holds exactly the identities some row is billed to. |
| PayrollProperties.RosterIdsMembers | payout_modules/payroll_manager.py:74 | The roster-id set holds exactly the "tutorID" values of the roster mappings. |
| PayrollProperties.GateCases | payout_modules/payroll_manager.py:71-82 | The gate raises IndexError first, then KeyError. Otherwise it passes exactly when every row's identity is on the roster or excluded. When it fails, it names exactly the invoiced identities that are neither. |
| PayrollProperties.GateStopsRun | payout_modules/payroll_manager.py:40-42 | A failed gate ends the run with its error before any tutor is selected or paid: no gateway call. |
| PayrollProperties.KeptMembers | payout_modules/payroll_manager.py:84-89 | The kept mappings are exactly the roster mappings whose id is not excluded. |
| PayrollProperties.KeptConcat | payout_modules/payroll_manager.py:89 | Keeping is a filter: it keeps the roster order across concatenation. |
| PayrollProperties.SelectPayableBuildsKept | payout_modules/payroll_manager.py:89 | Selection succeeds exactly when every kept mapping has all five keys. It then builds one tutor from each kept mapping, in roster order. |
| PayrollProperties.SelectPayableFirstError | payout_modules/payroll_manager.py:89 | A selection that raises raises the error of the first kept mapping that cannot be built. |
| PayrollProperties.GetTutorsToPayKept | payout_modules/payroll_manager.py:84-89 | `get_tutors_to_pay` raises KeyError when a mapping has no "tutorID". Otherwise it builds the tutors of exactly the non-excluded roster mappings, in roster order, each on the roster and not excluded. |
| PayrollProperties.RecordsAt | payout_modules/payroll_manager.py:49 | One record per payment, in payment order, each holding that payment's fields. |
| PayrollProperties.TotalIsSumOfRecords | payout_modules/payroll_manager.py:50 | The running total equals the sum of the take-homes in the records. |
| PayrollProperties.FailedConcat | payout_modules/payroll_manager.py:51-52 | The failures keep payment order: the failures of a run of payments followed by another are those of the first, then those of the second. |
| PayrollProperties.FailedMembers | payout_modules/payroll_manager.py:51-52 | The failures are exactly the tutors of unsuccessful payments. There are none exactly when every payment succeeded. |
| PayrollProperties.TransfersOf | payout_modules/payroll_manager.py:114-116 | Each gateway call belongs to a payment with a response, with that tutor's e-mail and take-home. Payments without responses call nothing. |
| PayrollProperties.RunRecords | payout_modules/payroll_manager.py:46-60 | A completed run holds one record per payable tutor, in order, with name, school, revenue, cut, fee, take-home, id and e-mail. Its total is their sum. It writes the ledger exactly when the action is not the transfer calculation, prints the total exactly when it is, and has a notice exactly in the sending action. |
| PayrollProperties.RunTransfers | payout_modules/payroll_manager.py:40-47 | A run calls the gateway only after the gate and selection pass, only in the sending action, and makes no more calls than there are payable tutors. Each call pays a payable tutor's positive take-home to that tutor's e-mail. |
| PayrollProperties.DueLength | payout_modules/payroll_manager.py:114-116 | At most one transfer is due per tutor. |
| PayrollProperties.DueSendsTo | payout_modules/payroll_manager.py:114-116 | Every transfer due sends some listed tutor's positive take-home to that tutor's e-mail. |
| PayrollProperties.DueHolds | payout_modules/payroll_manager.py:114-116 | Every listed tutor whose take-home is computed and positive has that transfer among those due. |
| PayrollProperties.DueMembers | payout_modules/payroll_manager.py:114-116 | A transfer is due exactly when it sends some listed tutor that tutor's positive take-home, and there is at most one per tutor. |
| PayrollProperties.PayAllTransfers | payout_modules/payroll_manager.py:46-47 | In the sending action, the payment loop calls the gateway with exactly the transfers due to the tutors it paid, in order. In any other action it makes no call. |
| PayrollProperties.RunTransfersDue | payout_modules/payroll_manager.py:34-69 | In the sending action, a completed run calls the gateway exactly once for every payable tutor whose take-home is positive, in roster order, with that tutor's e-mail and take-home. In any other action it makes no call. |
| PayrollProperties.RunFailures | payout_modules/payroll_manager.py:51-69 | The failures of a completed run are exactly the payable tutors whose positive take-home the gateway refused in the sending action. The notice says all were paid exactly when none was refused, and otherwise lists them. |
| PayrollProperties.RunError | payout_modules/payroll_manager.py:46-47 | A run that raises after the selection raises the error of the first tutor whose payment raises. The earlier tutors were paid. In the sending action the gateway calls are exactly the transfers due to those earlier tutors; in any other action there are none. |
| PayrollScenarios.InvoicedIds | payout_modules/payroll_manager.py:73 | The period's invoices are billed to A1 and B2; with the stray invoice also to C3. |
| PayrollScenarios.GatePasses | payout_modules/payroll_manager.py:71-82 | With both tutors on the roster the gate passes. |
| PayrollScenarios.UnknownTutorFailsGate | payout_modules/payroll_manager.py:71-82 | An invoice billed to C3, who is neither on the roster nor excluded, fails the gate naming exactly C3. |
| PayrollScenarios.UnknownTutorStopsRun | payout_modules/payroll_manager.py:40 | That failure ends the run with no gateway call, in every mode and with any gateway. |
| PayrollScenarios.BothSelected | payout_modules/payroll_manager.py:84-89 | Both tutors are selected, Ann before Bob, as the roster lists them. |
| PayrollScenarios.Revenues | payout_modules/payroll_manager.py:97-105 | Ann's revenue is $100 (her canceled $50 invoice counts nothing); Bob's is $40. |
| PayrollScenarios.TakeHomes | payout_modules/payroll_manager.py:107-111 | $100 / 1.05 * 0.5 is paid as 4761 cents, and $40 / 1.05 * 0.6 as 2285 cents. |
| PayrollScenarios.TransferTotalRun | payout_modules/payroll_manager.py:54-60 | Computing the transfer total prints 7046 cents, writes no ledger and calls no gateway. |
| PayrollScenarios.RefusedDepositsRun | payout_modules/payroll_manager.py:46-69 | Sending through a refusing gateway calls it once per tutor, in roster order, still writes the ledger, and names both tutors as unpaid. |

## Left out

- The constructor's I/O: loading the JSON payload and `pd.read_csv` of the invoice summary, the documentation column names, the start timestamp and the logger setup (payout_modules/payroll_manager.py:13-29). The manager is built from already loaded values, and `remove_at_from_ids` is a separate method call.
- Missing top-level payload keys ("tutors", "excludeFromPayoutsAndStripeTransfers", "customerServiceFeeFraction"): the model takes their values as given.
- Printing, logging and the CSV file. The report carries the ledger rows, the printed total and the closing notice as values, without their text, file name or column headers.
- The iteration order of the missing-tutor message, which the source builds from a set. The gate's error carries the set of missing identities, not the message text.
- `payout_modules/stripe_deposit.py`. Its network calls, its API key, and its mismatches with the caller (constructor and `send_direct_deposit` arity, a tuple as success, a float dollars-to-cents floor) are not part of this model. The gateway is an arbitrary function from (e-mail, cents) to a reply that does not change between calls. Constructing the client in the sending action (payout_modules/payroll_manager.py:36-37) is not modelled.
- `main.py`, the interactive prompt: the action is a parameter.
- Binary floating point: amounts, revenue, the fee divisor and `Decimal(float)` are exact rationals, so float drift before the round-down is not reproduced.
- Amounts.TakeHome: an infinite or NaN take-home is not modelled. In the source it arises when `float` reads an amount too large for a double as `inf`; `quantize` then raises InvalidOperation, and a NaN would reach the `> 0` test (payout_modules/payroll_manager.py:111-114). Exact rationals are always finite, so the model raises InvalidOperation only for a finite take-home of 10^26 dollars or more.
- Amounts.ParseFloat: reads only ASCII decimal numerals, with an optional sign and surrounding whitespace. Python's `float` also accepts decimal digits of other scripts (`float("٥")` is 5.0), exponents, `_` between digits, and `inf`, `infinity` and `nan`. The model reads all of these as ValueError, because dollar amounts in an invoice summary use none of them.
- Other JSON or CSV value kinds (booleans, `null`, lists, NaN cells in the invoice summary): a value is a string or a number.
- Python's `==` between a string identity and a numeric "tutorID" is false; the model keeps this (`Str(w) != id`). Integer and float numbers are not distinguished.
- The comment at payout_modules/payroll_manager.py:110 says "nearest dollar"; the code quantises to cents, and the model follows the code.
- Payroll.PayrollManager.PayTutors: the source keeps `failed_deposits` as a list and calls `.add` on it (payout_modules/payroll_manager.py:45, :52). As written, the first refused transfer would raise AttributeError after that transfer was sent. The model appends the tutor to an ordered sequence instead and does not reproduce the crash.
- Payroll.Run: collects failures in the same appended sequence, for the same reason.
- PayrollProperties.RunFailures: states the unpaid list and notice the code evidently intends; the source as written never reaches them, because of the `.add` above.
- PayrollScenarios.RefusedDepositsRun: shows the intended outcome of a refusing gateway; as written, the source would raise AttributeError after the first transfer.

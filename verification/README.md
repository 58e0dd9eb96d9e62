# Box quotation and self-update logic of the jinlijixiang app, in Dafny

The app shows one screen that quotes a price for a packaging box, with optional top and bottom
foam inserts, and it can update itself from a manifest on a server. This project models the two
pieces of that code that hold logic:

- **The quotation** (`CalculatorScreen.kt`). The box is priced by its surface area and each
  foam insert by its volume. Dimensions are typed in millimetres and prices are per square or
  cubic metre. Every edit goes through the input filter `^\d*\.?\d*$`; an edit that passes is
  stored and then `calculate()` runs again. Modules `DecimalInput` (the filter, and
  `toDoubleOrNull` on the text it accepts), `Pricing` (the formulas and the pure
  quotation) and `CalculatorScreen` (class `Calculator`, the screen's mutable state).
- **The update flow** (`AppUpdateManager.kt`). This covers the version gate of
  `checkUpdate` and the fallbacks for the installed version (`UpdateCheck`). It covers the
  thread that polls download progress: a step function, its fold over the rounds of the loop,
  and a `while` loop proved equal to the fold (`DownloadProgress`). It also covers the
  `downloadId` sentinel that `cancelDownload` resets to -1 (`UpdateManagerState`).
  `UpdateInfo` is the manifest record (`UpdateData`).

Kotlin `Double` is modelled as exact `real`. Kotlin `Int` and `Long` are the subset types
`int32` and `int64`; `JvmInt` writes out their overflow, `toInt()` truncation and division
toward zero. The network, the platform download manager, the package manager and the clock
are inputs. A fetch is `Unreachable` or a `Response`. A package lookup is a `PackageLookup`.
Each poll round is a `Round`: the `downloadId` the loop head read, plus the query's result.
The events the loop posts to the main thread are returned as a list, in order.

Every field of the screen always holds filter-accepted text (`Calculator.Valid`). So the
parser only needs to cover that language. The starting values are accepted, and a rejected
edit changes nothing.

One quirk is stated rather than changed (`UpdateManager.IsOwnCompletion`). After a cancel,
`downloadId` is -1. The completion receiver's test `id == downloadId` then accepts a broadcast
that carries no download id, because `getLongExtra` defaults to -1.

## Model

| member | source | states |
|---|---|---|
| DecimalInput.PassesFilter | app/src/main/java/com/example/jinlijixiang/ui/screen/CalculatorScreen.kt:572 | the guard (empty, or matching the pattern): the empty edit always passes, and an edit that passes holds at most one point (the full language is the next row) |
| DecimalInput.FilterMatchesPattern | app/src/main/java/com/example/jinlijixiang/ui/screen/CalculatorScreen.kt:570-574 | an edit gets through exactly when it is in the language of `^\d*\.?\d*$`: digits, at most one point, digits; the empty edit is in that language |
| DecimalInput.FilterIsDigitsAndOnePoint | app/src/main/java/com/example/jinlijixiang/ui/screen/CalculatorScreen.kt:571-572 | the same filter, put another way: only digits and points, and at most one point |
| DecimalInput.ParseDecimal | app/src/main/java/com/example/jinlijixiang/ui/screen/CalculatorScreen.kt:111-114 | `toDoubleOrNull` on accepted text is null exactly when the text has no digit ("" and "."), and is never negative |
| DecimalInput.PointShiftsValue | app/src/main/java/com/example/jinlijixiang/ui/screen/CalculatorScreen.kt:111 | "a.b" reads as the integer spelled by all its digits divided by ten to the number of digits after the point; "5." reads as 5 |
| DecimalInput.WholeNumberRoundTrip | app/src/main/java/com/example/jinlijixiang/ui/screen/CalculatorScreen.kt:111 | a whole number written in decimal passes the filter and reads back as itself |
| DecimalInput.ValueOrZero | app/src/main/java/com/example/jinlijixiang/ui/screen/CalculatorScreen.kt:111-114 | `?: 0.0`: a field that does not parse counts as 0, and no field reads as negative |
| Pricing.BoxPriceOf | app/src/main/java/com/example/jinlijixiang/ui/screen/CalculatorScreen.kt:116-120 | the box price is 0 when any edge is 0 or less, whatever the unit price |
| Pricing.BoxPriceIsAreaInSquareMetres | app/src/main/java/com/example/jinlijixiang/ui/screen/CalculatorScreen.kt:118-120 | for positive edges, the formula is the area of the six faces in square metres (edges converted from mm) times the unit price |
| Pricing.BoxPriceIgnoresOrientation | app/src/main/java/com/example/jinlijixiang/ui/screen/CalculatorScreen.kt:119 | every ordering of length, width and height gives the same box price |
| Pricing.SpongePriceOf | app/src/main/java/com/example/jinlijixiang/ui/screen/CalculatorScreen.kt:130-134 | the insert price is 0 when any edge is 0 or less |
| Pricing.SpongePriceIsVolumeInCubicMetres | app/src/main/java/com/example/jinlijixiang/ui/screen/CalculatorScreen.kt:132-134 | for positive edges, the formula is the volume in cubic metres (edges converted from mm) times the unit price |
| Pricing.PricesNonNegative | app/src/main/java/com/example/jinlijixiang/ui/screen/CalculatorScreen.kt:116-134 | non-negative edges and price give a non-negative box and insert price |
| Pricing.BoxPrice | app/src/main/java/com/example/jinlijixiang/ui/screen/CalculatorScreen.kt:110-121 | `calculateBoxPrice` on the field texts is never negative, and is 0 when a dimension field is empty or unparseable |
| Pricing.SpongePrice | app/src/main/java/com/example/jinlijixiang/ui/screen/CalculatorScreen.kt:124-135 | `calculateSpongePrice` on the field texts is never negative, and is 0 when a dimension field is empty or unparseable |
| Pricing.Quote | app/src/main/java/com/example/jinlijixiang/ui/screen/CalculatorScreen.kt:138-147 | the total is box + top + bottom; an insert whose checkbox is off is 0; no amount is negative; the total is at least the box price |
| Pricing.UncheckedInsertIgnored | app/src/main/java/com/example/jinlijixiang/ui/screen/CalculatorScreen.kt:140-145 | with its checkbox off, replacing everything in an insert's fields leaves the quotation unchanged |
| Pricing.DefaultInputs | app/src/main/java/com/example/jinlijixiang/ui/screen/CalculatorScreen.kt:76-93 | every starting field value passes the filter |
| Pricing.DefaultQuotation | app/src/main/java/com/example/jinlijixiang/ui/screen/CalculatorScreen.kt:76-99 | the starting values (500 x 400 x 300 mm at 300, both inserts off) quote 282 for the box and 282 in total |
| CalculatorScreen.WithField | app/src/main/java/com/example/jinlijixiang/ui/screen/CalculatorScreen.kt:256-293 | storing an edit changes that one field, keeps both checkboxes, and keeps every field filter-accepted |
| CalculatorScreen.Calculator.constructor | app/src/main/java/com/example/jinlijixiang/ui/screen/CalculatorScreen.kt:76-99 | the screen starts with the default inputs and all four amounts at 0 |
| CalculatorScreen.Calculator.Calculate | app/src/main/java/com/example/jinlijixiang/ui/screen/CalculatorScreen.kt:138-147 | `calculate()` makes the amounts shown equal the quotation of the current fields, and changes no field |
| CalculatorScreen.Calculator.Start | app/src/main/java/com/example/jinlijixiang/ui/screen/CalculatorScreen.kt:165-167 | the first calculation brings the amounts up to date and changes no field; from the starting values the total is 282 |
| CalculatorScreen.Calculator.Edit | app/src/main/java/com/example/jinlijixiang/ui/screen/CalculatorScreen.kt:570-574 | an edit is taken exactly when it passes the filter: then that field changes and the amounts are recomputed; otherwise nothing changes |
| CalculatorScreen.Calculator.Store | app/src/main/java/com/example/jinlijixiang/ui/screen/CalculatorScreen.kt:258 | writing a field variable with accepted text changes only that field and none of the amounts |
| CalculatorScreen.Calculator.SetTopSponge | app/src/main/java/com/example/jinlijixiang/ui/screen/CalculatorScreen.kt:308 | toggling the top insert sets its checkbox and brings the amounts up to date |
| CalculatorScreen.Calculator.SetBottomSponge | app/src/main/java/com/example/jinlijixiang/ui/screen/CalculatorScreen.kt:370 | toggling the bottom insert sets its checkbox and brings the amounts up to date |
| JvmInt.ToInt | app/src/main/java/com/example/jinlijixiang/utils/AppUpdateManager.kt:50 | `Long.toInt()` keeps the value mod 2^32 and is the identity on `Int` values |
| JvmInt.ToLong | app/src/main/java/com/example/jinlijixiang/utils/AppUpdateManager.kt:213 | a 64-bit product keeps its value mod 2^64 and is exact when it fits |
| JvmInt.TruncDiv | app/src/main/java/com/example/jinlijixiang/utils/AppUpdateManager.kt:213 | `Long` division by a positive divisor rounds toward zero: the remainder `a - q * b` has the sign of the dividend and is smaller than the divisor |
| JvmInt.TruncDivUnique | app/src/main/java/com/example/jinlijixiang/utils/AppUpdateManager.kt:213 | that remainder rule determines the quotient: any value meeting it is `TruncDiv` |
| UpdateData.OptionalUnlessForced | app/src/main/java/com/example/jinlijixiang/data/UpdateInfo.kt:6-12 | the manifest record keeps the four fields as given, and one that does not set `forceUpdate` is an optional update (`forceUpdate` is false) |
| UpdateCheck.CurrentVersionCode | app/src/main/java/com/example/jinlijixiang/utils/AppUpdateManager.kt:41-58 | the installed version code is the low 32 bits of the long version code, or 1 when the lookup throws |
| UpdateCheck.CurrentVersionName | app/src/main/java/com/example/jinlijixiang/utils/AppUpdateManager.kt:64-76 | the installed version name, or "1.0" when it is null or the lookup throws |
| UpdateCheck.CheckUpdate | app/src/main/java/com/example/jinlijixiang/utils/AppUpdateManager.kt:83-114 | the manifest is returned exactly when the response is 200, it decoded, and its version code is strictly greater than the installed one; every failure gives null |
| UpdateCheck.NoOfferAfterInstalling | app/src/main/java/com/example/jinlijixiang/utils/AppUpdateManager.kt:102-104 | once the offered version is installed, the same manifest offers nothing |
| UpdateCheck.OfferedToOlderInstalls | app/src/main/java/com/example/jinlijixiang/utils/AppUpdateManager.kt:102-104 | whatever is offered to an install is offered unchanged to any install with a lower version code |
| DownloadProgress.Percent | app/src/main/java/com/example/jinlijixiang/utils/AppUpdateManager.kt:213 | `((bytesDownloaded * 100) / bytesTotal).toInt()` with `Long` wrap and truncation; without overflow and with 0 <= bytes <= total it is the completed share in whole percent rounded down, so it lies in 0..100 |
| DownloadProgress.Step | app/src/main/java/com/example/jinlijixiang/utils/AppUpdateManager.kt:194-247 | a pass stops the loop exactly on no row, an exception, success or failure; an error event always stops it; `lastProgress` changes only to the value just reported |
| DownloadProgress.StatusTable | app/src/main/java/com/example/jinlijixiang/utils/AppUpdateManager.kt:207-234 | success stops and reports 100; failure stops and reports the reason or -1; pending reports 0; paused reports nothing and keeps polling |
| DownloadProgress.RunningReportedOnChange | app/src/main/java/com/example/jinlijixiang/utils/AppUpdateManager.kt:211-218 | a running percentage is reported exactly when it differs from the last one reported, and is then remembered |
| DownloadProgress.FirstRunningReportGoesThrough | app/src/main/java/com/example/jinlijixiang/utils/AppUpdateManager.kt:189-216 | from the start (`lastProgress` = -1), the first running report of a consistent row is always posted |
| DownloadProgress.Run | app/src/main/java/com/example/jinlijixiang/utils/AppUpdateManager.kt:190-248 | the loop posts at most one event per pass and never runs more passes than rounds; it ends only when it stops itself or reads an id of -1 |
| DownloadProgress.ProgressStaysInRange | app/src/main/java/com/example/jinlijixiang/utils/AppUpdateManager.kt:212-216 | over any run of consistent rows, every percentage posted lies in 0..100 |
| DownloadProgress.FailureIsLastEvent | app/src/main/java/com/example/jinlijixiang/utils/AppUpdateManager.kt:225-246 | every event before the last one posted is a progress report: failures only come last |
| DownloadProgress.EndsAtFirstStop | app/src/main/java/com/example/jinlijixiang/utils/AppUpdateManager.kt:220-246 | the loop ends with the first round that stops it, and that round's report (100, reason, exception message or nothing) is the last event |
| DownloadProgress.EndsOnCancel | app/src/main/java/com/example/jinlijixiang/utils/AppUpdateManager.kt:190 | reading a `downloadId` of -1 at the loop head ends the loop without another query |
| DownloadProgress.MonitorProgress | app/src/main/java/com/example/jinlijixiang/utils/AppUpdateManager.kt:187-249 | the polling loop over the two local variables posts exactly the events of the fold and runs exactly its number of passes |
| DownloadProgress.PollOnce | app/src/main/java/com/example/jinlijixiang/utils/AppUpdateManager.kt:191-247 | one loop body, written as the `when` over the status, has the effect of one step |
| UpdateManagerState.UpdateManager.constructor | app/src/main/java/com/example/jinlijixiang/utils/AppUpdateManager.kt:36 | no download is tracked at first: `downloadId` is -1 |
| UpdateManagerState.UpdateManager.StartDownload | app/src/main/java/com/example/jinlijixiang/utils/AppUpdateManager.kt:143 | the id the download manager returns becomes `downloadId`; an exception before that leaves it unchanged |
| UpdateManagerState.UpdateManager.CancelDownload | app/src/main/java/com/example/jinlijixiang/utils/AppUpdateManager.kt:289-296 | with an id tracked, it is removed once and reset to -1; with -1 nothing happens |
| UpdateManagerState.UpdateManager.IsOwnCompletion | app/src/main/java/com/example/jinlijixiang/utils/AppUpdateManager.kt:149-150 | a null intent never matches; a broadcast carrying an id matches exactly when the id is the tracked one; with -1 tracked, only a broadcast without an id (or with -1) matches |
| UpdateManagerState.CancelTwice | app/src/main/java/com/example/jinlijixiang/utils/AppUpdateManager.kt:289-296 | two cancels in a row remove the download at most once and leave -1 |
| UpdateManagerState.CancelledCompletionIgnored | app/src/main/java/com/example/jinlijixiang/utils/AppUpdateManager.kt:149-150 | after a cancel, the completion broadcast for the cancelled download is ignored |

## Left out

- The Compose UI: cards, price display, dialogs, theme, toasts, the activity, and the `"%.2f"` formatting of amounts. These are rendering only.
- Floating point: `Double` is exact `real`, so no rounding is modelled.
- DecimalInput.ParseDecimal: defined only on text the filter accepts. Kotlin's `toDoubleOrNull` also reads signs, exponents, surrounding whitespace, "NaN", "Infinity", hexadecimal and type suffixes. Such text never reaches a field, because `Calculator.Valid` holds in every state.
- CalculatorScreen.Calculator.Edit: it lets an edit reach the fields of an unchecked insert, whose inputs the screen hides. The quotation ignores those fields (`Pricing.UncheckedInsertIgnored`).
- The HTTP request (URL, timeouts, reading the body) and Gson decoding in `checkUpdate`. These are network I/O and a foreign library; their outcome is the `Fetch` input.
- The SDK-level branches in the version lookups are merged: the modern and legacy paths both give the low 32 bits of the version code.
- The download manager's enqueue, query and remove, the receiver's registration and unregistration, file delete and rename, and the FileProvider install intent. These are operating-system services and the filesystem. Only their effect on `downloadId` and the ids removed is kept.
- The background thread, `Thread.sleep(300)` and `Handler.post`. The loop is a sequential fold, and the events are returned in posting order. Interleavings beyond the `downloadId` read at the loop head are not modelled.
- An `InterruptedException` from `Thread.sleep` after a pass has already posted its event is not modelled. That pass would post a second event. A `Threw` round stands for an exception raised by the query itself.
- DownloadProgress.Percent: states the 0..100 bound only for rows whose `bytes * 100` fits in a `Long`. `Percent` itself models the overflow.
- Logging, and the starting of several downloads, each with its own receiver.

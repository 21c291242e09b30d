# Alert pipeline of the capture service, in Dafny

This project models the alert pipeline of a machine-monitoring service. The pipeline has two stages.

- **Sampling** (`python/insertCaptura.py`). Each cycle inserts one `Captura` row each for CPU, `Memoria` and `Disco`, all stamped with one timestamp, and commits them. It then reads the `Parametro` bands of those components. Every band that contains the current value produces an `Alerta` row with `enviado = 0`. The machine's `Maquina.status` is overwritten, and the alert rows and status are committed together. `inserir_ping` records the `Ping` capture on its own.
- **Delivery** (`python/slack_integracao.py`). Each tick of the drain loop claims one alert whose `enviado` is 0 or NULL and resolves its machine's Slack channel. It builds the report, posts it and writes the outcome back to `enviado`: 1 after a successful post, 0 after anything else.

The MySQL tables are an in-memory store, the class `Tables.Database`. It has one `seq` per table that grows (`captures`, `alerts`), the read-only `components` and `parameters`, a `map` for `Maquina.status`, and two AUTO_INCREMENT counters. Each source function that changes the store is a method with `modifies db`. The method stages its inserts in local variables and assigns them to the store's fields at the source's commit points. A `StoreFault` parameter (`InsertCapturesAndAlerts`), a `DrainFaults` parameter (`SendOneAlert`) or a `fails: bool` parameter (`InsertPing`, `MarkAlertSent`) says where a mysql `Error` strikes. The loops over `registros`, `parametros` and `alertas` are methods with loop invariants. Each is proved equal to a specification function, and the properties are proved as lemmas about those functions. The text helpers of the notifier are pure functions with lemmas.

Several things are parameters rather than code. The float-to-text conversions and `float()` (`round`, `str`, `:.1f`) are the function fields of `Tables.NumberFormats`. The channel lookup is `resolve`, the Slack client is `send`, and whether a client is configured is `clientConfigured`.

Modules: `Wrappers` (Option), `Tables` (rows and the store), `CaptureWriter` (insertCaptura.py), `SlackText` (the pure helpers of slack_integracao.py), `Notifier` (claim, flag update, drain tick).

Behaviour of the code worth knowing:

- **Status.** In `python/insertCaptura.py` each firing parameter overwrites `Maquina.status` in turn, so after a cycle with alerts the status is the level of the last firing parameter in row order, whatever its severity (`CaptureWriter.LastLevelWinsOverSeverity`).
- **Transactions.** `python/insertCaptura.py` commits the captures on their own, before any alert is written. A store error after that commit leaves the captures in place and drops only the alerts and the status update.
- **No delivery target.** In `python/slack_integracao.py` an alert whose machine has no Slack target is marked `enviado = 0`, the same outcome as a failed post, so it is claimed again on a later tick.

## Model

| member | source | states |
|---|---|---|
| `CaptureWriter.InsertCapturesAndAlerts` | python/insertCaptura.py:47-155 | Without a fault: the three captures are appended with consecutive ids, one pending alert row per firing parameter is appended in table order, the status becomes `StatusAfter` of the firing list, and one notice is returned per alert. A fault before the capture commit writes no row and no status. A fault after it keeps the captures but writes no alert and no status, and returns no notices. Parameters and components are unchanged. The store invariant is kept. |
| `CaptureWriter.NewCaptures` | python/insertCaptura.py:62-68 | The captures of one cycle: one per measured name in the order CPU, Memoria, Disco, numbered on from the counter, each holding that name's component id and sampled value, all stamped with the cycle's time. |
| `CaptureWriter.StageCaptures` | python/insertCaptura.py:59-68 | The rows inserted are one capture per measured name, in the order CPU, Memoria, Disco, all with the same timestamp. The id recorded in `ids_captura` for each name is the id of that name's new row. |
| `CaptureWriter.SelectFiring` | python/insertCaptura.py:96-107 | The list collected by the loop is exactly `Firing`: the triggering parameters in table order. |
| `CaptureWriter.Triggers` | python/insertCaptura.py:99-105 | A parameter fires only when it belongs to one of the machine's three measured components and its band `[minimo, maximo]` contains that component's sampled value, bounds included. |
| `CaptureWriter.Firing` | python/insertCaptura.py:99-107 | Every entry names a measured component and carries the capture id recorded for that component in this call. Its parameter id is one of the table's. There are no more entries than parameters. |
| `CaptureWriter.FiringSound` | python/insertCaptura.py:99-107 | Every alert entry comes from a parameter whose band contains the current value of its component, with bounds included. |
| `CaptureWriter.FiringComplete` | python/insertCaptura.py:99-107 | Every parameter whose band contains its component's value (`minimo <= valor <= maximo`, so a value equal to either bound fires) has its entry in the list. |
| `CaptureWriter.FiringCount` | python/insertCaptura.py:99-107 | The number of alert entries equals the number of triggering parameters. |
| `CaptureWriter.FiringLast` | python/insertCaptura.py:99-107 | The last alert entry comes from the last triggering parameter in table order. |
| `CaptureWriter.FiringEmpty` | python/insertCaptura.py:105-111 | No alert is produced exactly when no band contains its component's value. |
| `CaptureWriter.AlertMessage` | python/insertCaptura.py:116-120 | The outbox text starts with "Uso de " followed by the component's name and ends with the component's unit, with the rounded value in between. |
| `CaptureWriter.AlertRows` | python/insertCaptura.py:111-125 | One outbox row per `alertas` entry, in order, numbered on from the counter, pending (`enviado = 0`), and carrying the entry's parameter and capture ids. |
| `CaptureWriter.Notices` | python/insertCaptura.py:132-140 | One notice per `alertas` entry, in order, with the entry's level and component name, the machine's id and the cycle's time. |
| `CaptureWriter.StatusAfter` | python/insertCaptura.py:127-147 | The status map after the cycle's UPDATEs (lines 127-130 with alerts, 143-147 without). It has the same machines as before and changes no other machine. When alerts fired, the machine's status is the level of one of them; `StatusFollowsLastTrigger` says which. |
| `CaptureWriter.StageAlerts` | python/insertCaptura.py:109-147 | The rows inserted are `AlertRows`: consecutive ids, `enviado = 0`, and the message "Uso de <name> a <rounded value><unit>". The status after the successive UPDATEs is `StatusAfter`. The messages are one notice per alert, in order. |
| `CaptureWriter.StatusFollowsLastTrigger` | python/insertCaptura.py:127-147 | With no firing parameter, the machine's status becomes "Estável" whatever it was. Otherwise it becomes the level of the last firing parameter in table order. No other machine's status changes, and a machine with no Maquina row gets no status. |
| `CaptureWriter.LastLevelWinsOverSeverity` | python/insertCaptura.py:99-130 | A Crítico band and a later Atenção band both contain the value. Both fire, and the status ends as Atenção. |
| `CaptureWriter.AlertsReferenceThisCycle` | python/insertCaptura.py:106-124 | Every alert row a cycle writes is pending and has the next outbox id. It names a parameter whose band contains the sampled value, and it points at the capture written in the same cycle for that parameter's component. |
| `CaptureWriter.CaptureCommitKeepsConsistent` | python/insertCaptura.py:62-70 | Appending the cycle's captures keeps capture ids increasing and below the counter, and keeps every existing alert's capture reference valid. |
| `CaptureWriter.AppendKeepsNumbering` | python/insertCaptura.py:122-125 | Alert rows numbered on from the counter keep outbox ids increasing and below the counter. |
| `CaptureWriter.RowsReferenceCycle` | python/insertCaptura.py:106-124 | Each new alert row references one of the captures this call committed, which is in the store after the capture commit, and an existing parameter. |
| `CaptureWriter.AlertCommitKeepsConsistent` | python/insertCaptura.py:111-141 | Committing the cycle's alert rows keeps the store invariant: unique ordered ids, and every alert references an existing capture and parameter. |
| `CaptureWriter.InsertPing` | python/insertCaptura.py:162-179 | Exactly one Ping capture is appended, with the next id and the given timestamp. No alert or status is written. A store error writes no row. |
| `SlackText.FirstNumericRun` | python/slack_integracao.py:112 | `re.search(r'[\d,.]+', …)`: when it finds something, the match is non-empty and is a prefix of the text from the first numeric character. The lemmas below fix it as the leftmost maximal run. |
| `SlackText.RunStart` | python/slack_integracao.py:112 | The index returned is the first character matched by `[\d,.]`, or the length of the text when no character matches. |
| `SlackText.RunLength` | python/slack_integracao.py:112 | The run of characters matched by `[\d,.]` at the front of the text is maximal. |
| `SlackText.FirstNumericRunNone` | python/slack_integracao.py:112-113 | The search finds nothing exactly when the text has no digit, comma or point. |
| `SlackText.FirstNumericRunFound` | python/slack_integracao.py:112 | What the search returns is non-empty and all numeric. It starts at the first numeric character and cannot be extended. |
| `SlackText.FirstRunIsFound` | python/slack_integracao.py:112 | Any leftmost maximal numeric run is the one the search returns, so the result is unique. |
| `SlackText.ExtractNumber` | python/slack_integracao.py:112-116 | `valor_float` and `capacidade_float`: 0 when the search finds nothing, otherwise `float` of the match with commas made points, and None when that `float` raises. |
| `SlackText.ExtractedTokenShape` | python/slack_integracao.py:112-116 | The text passed to `float` has the length of the run and holds only digits and points. It has a point wherever the run had a comma and is otherwise unchanged. |
| `SlackText.ExtractNumberCases` | python/slack_integracao.py:112-116 | With no numeric run the number is 0. Otherwise it is `float` of the run with commas replaced by points. |
| `SlackText.LowerMatches` | python/slack_integracao.py:119 | Comparing `lower(s)` with a lower-case word is the same as `s` being that word with some letters in upper case. |
| `SlackText.UnitSeparator` | python/slack_integracao.py:119 | The separator is either a space or nothing. `UnitSeparatorSpelling` says which units get the space. |
| `SlackText.WithUnit` | python/slack_integracao.py:118-124 | The formatted value is the number followed by the unit, with one space between them exactly when the unit lower-cases to gb, mb or tb. |
| `SlackText.UnitSeparatorSpelling` | python/slack_integracao.py:118-124 | The separator is a space exactly for gb, mb and tb in any case, and empty for every other unit. |
| `SlackText.LevelSymbol` | python/slack_integracao.py:126-132 | `simbolo` is always one of 🟡, 🔴 and ℹ️. `LevelSymbolSpelling` says which levels get which. |
| `SlackText.LevelSymbolSpelling` | python/slack_integracao.py:126-132 | The yellow circle marks exactly the spellings of "atenção" and the red circle exactly those of "crítico". Every other level gets the information sign. |
| `Notifier.FindParameter` | python/slack_integracao.py:50 | The join finds a parameter row with the alert's `fkParametro`, or none when no such row exists. |
| `Notifier.FindCapture` | python/slack_integracao.py:52 | The join finds a capture row with the alert's `fkCaptura`, or none when no such row exists. |
| `Notifier.Join` | python/slack_integracao.py:49-54 | The inner joins of the claim query: a joined row is the row of the alert it was given (same `idAlerta`). |
| `Notifier.JoinNeedsPartners` | python/slack_integracao.py:49-54 | An alert joins only when a Parametro row has its `fkParametro` and a Captura row has its `fkCaptura`. The joined row keeps the alert's parameter, capture and message, and its machine has a Maquina row. |
| `Notifier.JoinExactly` | python/slack_integracao.py:49-53 | With one Parametro row and one Captura row carrying the alert's keys, the alert joins exactly when its component and that component's machine have rows. The joined `nivel_alerta` comes from the parameter and `valor_atual` from the capture. `idMaquina`, `componente`, `capacidade` and `formatacao` come from the component. |
| `Notifier.ClaimOnePending` | python/slack_integracao.py:25-62 | The result is none exactly when no alert is both pending (`enviado` 0 or NULL) and joinable. Otherwise it is the joined row of the first such alert in table order. |
| `Notifier.PendingAlertIsClaimed` | python/slack_integracao.py:25-62 | A pending alert whose parameter, capture, component and machine rows all exist makes the claim return a row, so the tick does not report that nothing is pending. |
| `Notifier.ClaimedRowIsPending` | python/slack_integracao.py:57-58 | The row carrying the claimed id is pending, so an alert with `enviado = 1` is never returned. |
| `Notifier.SetFlag` | python/slack_integracao.py:91 | `UPDATE Alerta SET enviado = flag WHERE idAlerta = id`: same rows in the same order, `enviado` becomes the flag on the rows with that id and is unchanged elsewhere, and no other column changes. |
| `Notifier.MarkingClaimNeverRegresses` | python/slack_integracao.py:87-92 | Whatever flag is written on the claimed alert, an alert already marked 1 is untouched, and only `enviado` can differ in any row. |
| `Notifier.SetFlagKeepsConsistent` | python/slack_integracao.py:91 | The flag update keeps the store's keys and references. |
| `Notifier.MarkAlertSent` | python/slack_integracao.py:87-95 | Only the `enviado` column of rows with the given id changes. A store error changes nothing. |
| `Notifier.BuildReport` | python/slack_integracao.py:110-132 | The report fails exactly when `float` raises on the value or the capacity. Otherwise it carries the alert's machine, component and level, the level's symbol, and the value and capacity as `:.1f` text with their unit. |
| `Notifier.SendOneAlert` | python/slack_integracao.py:98-159 | With nothing to claim, nothing changes. With a missing or empty channel or no client, the flag is set to 0 and nothing is sent. When `float` raises, the flag is set to 0. A successful post sets 1, and a failed post (SlackApiError or any other exception) sets 0. Only the claimed alert's flag changes, and no sent alert regresses. |

## Left out

- Metric acquisition (`psutil`, `pythonping`), the simulation constants, the console table and both `while True` / `time.sleep` loops: OS, network and scheduling I/O. Each call of the modelled functions is one cycle or one tick.
- MySQL connections, cursors and SQL text: the tables are in-memory sequences and maps. A store error is a fault parameter placed at the commit points. `LIMIT 1` without `ORDER BY` is read as the first row in table order. The `Sala` join of the claim query is not part of this model, so every machine is taken to have a room.
- The rendering of floats (`round`, `str(float)`, `:.1f`, `:.2f`) and `float()` parsing: uninterpreted function parameters. `mensagens_slack` is modelled by the fields its text is built from (`Notice`). The Slack message is modelled by its value, capacity, unit separator and symbol (`SlackReport`). The remaining lines (room, IP, brand, OS, the band limits, `capitalize`) are cosmetic text.
- `Escola.idSlack` lookup and `WebClient.chat_postMessage`: the `resolve` and `send` parameters. A lookup error is `resolve` returning None.
- Atomic or concurrent claiming: the source has no locking and runs one drain loop.
- `SlackText.IsNumeric`: reads `\d` as the ASCII digits, while Python's `\d` also matches other Unicode decimal digits.
- `SlackText.LowerChar`: lowers ASCII and Latin-1 letters only. For comparisons against gb, mb, tb, atenção and crítico this matches `str.lower`, because no other character lowers to a letter of those words alone.
- `CaptureWriter.InsertCapturesAndAlerts`: the `SELECT … FROM Parametro WHERE fkComponente IN (…)` has no `ORDER BY`; its rows are taken in the order of the `parameters` sequence. Which alert comes last, and so the final status (`CaptureWriter.StatusAfter`, `CaptureWriter.StatusFollowsLastTrigger`), depends on that order.
- `CaptureWriter.InsertCapturesAndAlerts`: the store is taken to have a single writer. One sampling process runs per monitored machine against one database. Their AUTO_INCREMENT ids can interleave, so the consecutive ids of `CaptureWriter.NewCaptures`, `CaptureWriter.AlertRows` and `CaptureWriter.InsertPing` hold only for a single writer. The references do not depend on this: each `ids_captura` entry is its own row's id (`lastrowid`), and each alert points at this call's capture.
- `CaptureWriter.InsertCapturesAndAlerts`: a store error leaves `nextCaptureId` and `nextAlertId` where the rolled-back inserts found them. InnoDB does not hand back AUTO_INCREMENT values used by rolled-back inserts, so the real counters may have moved on; only the rows and the status are promised unchanged. The same holds for `CaptureWriter.InsertPing`.
- `CaptureWriter.InsertCapturesAndAlerts`: the band columns `minimo`, `maximo` and `nivel` are never NULL here. In the source a NULL band limit makes `float(None)` raise TypeError and a NULL `nivel` makes `nivel.lower()` raise AttributeError; neither is a mysql `Error`, so it escapes after the capture commit and ends the sampling loop.
- `CaptureWriter.InsertCapturesAndAlerts`: requires a Componente row for each measured component. The source raises KeyError only when an alert fires for a component without one, and then the captures are already committed.
- `Notifier.SendOneAlert`: NULL `formatacao` or `nivel` (an AttributeError, which marks 0) are not modelled, because those columns are strings here. A SlackApiError whose response lacks `error` would escape the handler, leave the flag as it was and end the loop. The model marks 0 for every failed post.

# bot-iss, modelled in Dafny

bot-iss automates the monthly ISS "encerramento de movimento" on a SIGISS
municipal portal. An accountant picks a company on a dashboard and a range of
months. A coordinator then runs a browser bot. The bot logs in, which needs a
CAPTCHA solved by OCR. It copies the roster of client companies into a sqlite
table and closes each month of the range in turn. While it works, it writes its
status and progress into that table.

This project models the rules under the browser, HTTP and sqlite plumbing:

- the month ranges the bots generate (`Periods`);
- the per-period closing step, with each browser step as an oracle (`Closing`);
- the bounded CAPTCHA retry loop (`Captcha`);
- roster extraction (`Roster`) and the company table as a map from cnpj to record,
  updated in place by the class `Empresas.Database` (`Empresas`, `CriarDb`);
- the three bots and the test script (`Bot2`, `Copia`, `Botaca`, `Teste`);
- the two coordinators (`Server` for server.py, `BkpServer` for bkp-sever.py),
  with the POSIX path functions behind the bot-path check (`Paths`);
- the dashboard's form script (`Front`) and the dashboard's query and echo (`Dashboard`).

Python's string operations are written out in `Text` for the ASCII subset of
characters: `strip`, `replace`, `re.sub(r'\D', '', …)`, `int` without
underscores, and the `^\d{n}$` regex whose `$` also admits one trailing newline.
Only ASCII `0`-`9` count as digits ("## Left out" says what this misses). Each browser step, OCR read, subprocess return code and
sqlite failure is an input. The model states what each piece does with every
such input: the happy path, and also which exception escapes where and which
handler swallows it.

## Model

| member | source | states |
|---|---|---|
| Text.StripShape | bots/bot2.py:346-350 | `strip()` removes exactly the maximal whitespace runs at both ends and keeps the middle |
| Text.StripIdempotent | bots/bot2.py:346-350 | stripping twice is stripping once |
| Text.Remove | server.py:128-129 | `replace('/', '')` leaves no occurrence, adds no character, and changes nothing when there is none |
| Text.RemoveAppend | server.py:128-129 | deleting a character distributes over concatenation |
| Text.RemoveBetween | bots/bot2.py:46-47 | deleting the slash of `mm/aaaa` joins the two parts when neither has a slash |
| Text.KeepDigits | server.py:127 | `re.sub(r'\D', '', s)`, over ASCII digits, yields only digits, and a digit string unchanged |
| Text.KeepDigitsAppend | server.py:127 | keeping digits distributes over concatenation |
| Text.KeepDigitsBetween | server.py:127 | one non-digit between two digit strings disappears |
| Text.ValueOfDecimal | bots/bot2.py:113 | `str(year)` read back as a number gives the year |
| Text.ValueOfPad2 | bots/bot2.py:113 | the `:02d` month read back gives the month |
| Text.Pad2Length | bots/bot2.py:113 | `:02d` of a number below 100 has two characters |
| Text.DecimalNoLeadingZero | bots/bot2.py:113 | `str(n)` starts with 0 only for 0 |
| Text.ParseIntDigits | bots/bot2.py:108-109 | `int()` of a non-empty digit string is its decimal value |
| Text.ParseIntRoundTrip | bots/bot2.py:108-113 | `int(str(n)) == n` and `int(f"{n:02d}") == n` |
| Text.Drop | bots/bot2.py:123-126 | `s[:n] + s[n:] == s` |
| Periods.Bounds | bots/bot2.py:105-109 | the two dates, when both are valid, are month indices within datetime's range |
| Periods.BoundsOfDigits | bots/bot2.py:108-109 | digit strings naming a valid month and year give the month indices `12*year + month - 1` |
| Periods.GerarPeriodos | bots/bot2.py:105-115 | the while loop returns the period list of the specification function `Periodos` |
| Periods.Meses | bots/bot2.py:111-115 | the month-stepping loop from one index to the other produces `Walk`, including datetime's overflow past year 9999 |
| Periods.PeriodosSpan | bots/bot2.py:105-115 | a successful generation is exactly the span of months from start to end |
| Periods.PeriodosConsecutive | bots/bot2.py:105-115 | the i-th period is month start+i: strictly increasing, no gaps, no duplicates, two-digit month |
| Periods.PeriodosCount | bots/bot2.py:105-115 | the length is `end - start + 1` when start ≤ end and 0 otherwise; first and last are the two bounds |
| Periods.PeriodosFails | bots/bot2.py:108-114 | generation raises exactly when a date is invalid or the range reaches December 9999 |
| Periods.ReadBack | bots/bot2.py:113 | a generated period's text reads back as its month index |
| Periods.IndexOfPeriodAt | bots/bot2.py:113 | the period written for an index reads back as that index |
| Periods.Split | bots/bot2.py:123-126 | month part followed by year part is the period string |
| Periods.GeneratedFromMMAAAA | bots/bot2.py:123-129 | two `MMAAAA` strings with valid months generate the span between their indices |
| Periods.FirstMonthText | bots/bot2.py:123-129 | the first generated month is the typed `MM` |
| Periods.MonthIndexParts | bots/bot2.py:108-109 | the month index determines month and year back |
| Periods.Pad2Round | bots/bot2.py:113 | a two-digit month re-padded is itself |
| Periods.Example21 | bots/bot2.py:105-129 | 072023 to 032025 gives 21 periods, from 07/2023 to 03/2025 |
| Periods.Example7 | botaca.py:30-40 | 09/2024 to 03/2025 gives 7 periods |
| Periods.ExampleMonth13 | bots/bot2.py:108 | month 13 raises ValueError before the loop |
| Closing.Completed | bots/bot2.py:142-196 | the number of steps that ran before the first raising step, and that step raised |
| Closing.AttemptMeaning | bots/bot2.py:142-215 | a period is skipped exactly when the opening steps succeed and the closed link is visible, closed exactly when every step succeeds, and it never runs a closing step when the link was visible |
| Closing.Bot2SkipRunsNoClosingStep | bots/bot2.py:167-196 | a skipped period runs none of the closing link, "Encerrar Mês" and close icon |
| Captcha.Attempt | bots/bot2.py:260-314 | a rejected read saves the image and refreshes; an accepted one fills exactly the stripped OCR text and clicks login |
| Captcha.AttemptShape | bots/bot2.py:280-296 | within one attempt the field is filled only at position 1 with an accepted text, and login only right after it |
| Captcha.Tentativa | bots/bot2.py:262-314 | one loop body produces the attempt the specification describes |
| Captcha.ResolverCaptcha | bots/bot2.py:260-314 | the while loop produces `Resolve`: the counter, the success flag, the actions and the exception that escapes |
| Captcha.ResolveAfter | bots/bot2.py:260-314 | one more attempt extends the trace and decides whether the loop goes on, succeeds or raises |
| Captcha.ResolveFromEnd | bots/bot2.py:260-314 | the loop stops at an attempt between 1 and 10 after rejected reads only, with the outcome that attempt's verdict decides |
| Captcha.PrefixRejected | bots/bot2.py:308-314 | rejected attempts only capture, save the image and refresh |
| Captcha.ResolveCounter | bots/bot2.py:259-263 | at most ten attempts, each before the last rejected, and the actions are their traces in order |
| Captcha.SucessoIff | bots/bot2.py:296-305 | success exactly when some attempt within ten, after only rejected reads, is accepted and shows no error text |
| Captcha.SoftFailure | bots/bot2.py:316-318 | running out of attempts raises nothing, and happens exactly when all ten reads are rejected |
| Captcha.FirstStop | bots/bot2.py:260-314 | the attempt that stops the loop is unique |
| Captcha.FillOnlyAccepted | bots/bot2.py:280-296 | over the whole loop the form is filled at most once, only with an accepted read, and login is clicked only right after |
| Captcha.RefusedLoginRaises | bots/bot2.py:297-302 | error text after login raises NameError on that very attempt, since `src` is undefined |
| Roster.CleanShape | bots/bot2.py:346-350 | a cleaned cell holds no no-break space and no whitespace at its ends |
| Roster.CleanIdempotent | bots/bot2.py:346-350 | cleaning a cleaned cell changes nothing |
| Roster.CleanPadded | bots/bot2.py:346-350 | a digit cell padded with a space and a no-break space comes out as the digits |
| Roster.ExtractLenient | bots/bot2.py:339-356 | the loop appends the cleaned tuple of each row with 5 or more cells, in order |
| Roster.ExtractStrict | bots/copia_app.py:134-144 | the unchecked loop either yields every row's tuple or raises on the first short row |
| Roster.LenientAppend | bots/bot2.py:339-356 | extraction of concatenated rows is the concatenation of extractions |
| Roster.LenientMembers | bots/bot2.py:339-356 | every tuple comes from a usable row, and every usable row gives a tuple |
| Roster.LenientClean | bots/bot2.py:346-350 | every field of every tuple is already clean |
| Roster.StrictAgreesWithLenient | bots/copia_app.py:134-144 | the unchecked loop succeeds exactly when every row has 5 cells, and then yields what bot2's loop yields |
| Roster.StrictErrIsBrowser | bots/copia_app.py:134-144 | the only error it raises is the browser's |
| Roster.ShortRowExample | bots/bot2.py:345-354 | a four-cell row is skipped by bot2 and fatal to the unchecked loop |
| Empresas.Inserted | bots/bot2.py:69-80 | a replaced row keeps the tuple's cnpj and returns to status `pendente` and progress `0` |
| Empresas.LastWith | criar_db.py:20 | the tuple chosen for a cnpj carries that cnpj and is one of the batch |
| Empresas.UpsertAllAt | criar_db.py:20 | after the batch, a cnpj of the batch holds its last tuple; other rows are unchanged |
| Empresas.UpsertAllContents | criar_db.py:20 | the keys are the old keys plus the batch's cnpjs, with the last tuple per cnpj and other rows unchanged |
| Empresas.UpsertAllKeyed | bots/bot2.py:69-80 | every row stays stored under its own cnpj |
| Empresas.UpsertAllIdempotent | criar_db.py:20 | saving the same batch twice is saving it once |
| Empresas.UpdateStatusFrame | bots/bot2.py:95-99 | an update changes status and progress of the matching row only, and adds no row |
| Empresas.UpdateStatusKeyed | bots/bot2.py:95-99 | an update keeps every row under its own cnpj |
| Empresas.ApplyWritesEffect | bots/bot2.py:135-218 | a series of status writes leaves the last one on the row and no other row changed |
| Empresas.ApplyWritesSnoc | bots/bot2.py:135-218 | the writes apply one after the other |
| Empresas.Database.constructor | bots/bot2.py:62-77 | the table starts as given |
| Empresas.Database.SaveToDatabase | bots/bot2.py:57-87 | the transaction upserts the whole batch, or on any failure rolls back and reports the error |
| Empresas.Database.AtualizarStatus | bots/bot2.py:90-102 | `UPDATE … WHERE cnpj = ?` on the table |
| CriarDb.SaveToDatabase | criar_db.py:3-27 | a failure leaves the table as it was and is not raised; otherwise the batch is upserted |
| CriarDb.AmostraVerbatim | criar_db.py:29-36 | the punctuated cnpj is stored verbatim, and the digits-only row reads back the default status `pendente` (the default that server.py's migration gives the column) |
| CriarDb.Exemplo | criar_db.py:29-36 | the sample batch is upserted unless a row fails |
| Bot2.FirstFatal | bots/bot2.py:132-215 | the first period whose screenshot raises after a failed step, or the end |
| Bot2.EncerrarMovimento | bots/bot2.py:118-235 | the batch log is `Batch`, and the table holds its status writes applied in order |
| Bot2.Encerrar | bots/bot2.py:132-218 | the for loop over the periods produces `LoopFrom`, writing each period's progress before it |
| Bot2.LoopFromStep | bots/bot2.py:132-215 | one period: progress written, the period tried, then either the next period or the fatal error |
| Bot2.LoopShape | bots/bot2.py:132-218 | periods are tried once each, in order, up to the first fatal one; the last write is `concluido` or `erro` |
| Bot2.LoopFromCount | bots/bot2.py:132-218 | one progress write per tried period plus the final write |
| Bot2.LoopFromEnd | bots/bot2.py:217-235 | the final write is `concluido` when the loop ends and `erro` when a period is fatal |
| Bot2.BatchContainment | bots/bot2.py:132-235 | the batch completes exactly when no period is fatal; then every period is tried, with the last write `concluido` |
| Bot2.BatchGenerationError | bots/bot2.py:120-130 | an invalid date writes only `erro` and tries no period |
| Bot2.QuotientIsDiv | bots/bot2.py:135 | the progress quotient is integer division |
| Bot2.PercentBounds | bots/bot2.py:135 | the percentage of period i of n lies in [0, 100) and does not decrease with i |
| Bot2.ProgressReadBack | bots/bot2.py:135-136 | the progress text is digits whose value lies in [0, 100) and does not decrease |
| Bot2.LoopProgressMonotone | bots/bot2.py:132-136 | the progress writes of a batch are `em_processo` with non-decreasing values below 100 |
| Bot2.BatchProgressMonotone | bots/bot2.py:132-136 | the same for a generated range |
| Bot2.BatchFinalStatus | bots/bot2.py:217-235 | after the batch the row is `concluido/100` or `erro/0`, and no other row changes |
| Bot2.BatchSkips | bots/bot2.py:167-173 | a skipped period ran none of the closing steps |
| Bot2.Run | bots/bot2.py:239-393 | login, CAPTCHA, navigation, roster save and batch, with the table updated as the log says |
| Bot2.Continuar | bots/bot2.py:316-393 | the run after the CAPTCHA loop follows the specification |
| Bot2.Selecionar | bots/bot2.py:359-389 | after the save: the company selection, then the batch, whose writes reach the table |
| Bot2.RunCompletedIff | bots/bot2.py:239-393 | a run completes exactly when the launch, login, CAPTCHA, navigation with the row count, selection and the batch succeed; a launch failure escapes before the try, with no error screenshot |
| Bot2.RefusedCaptchaStopsRun | bots/bot2.py:297-302 | an accepted read that the site refuses ends the run with an exception, with no save and no batch |
| Bot2.SaveErrorSwallowed | bots/bot2.py:57-87 | a failed roster save is swallowed, and the batch still runs |
| Bot2.Principal | bots/bot2.py:41-54 | main strips every slash from both periods before running; no code in the repository calls main, and `__main__` passes the arguments to run as given |
| Bot2.SlashStripped | bots/bot2.py:46-47 | `mm/aaaa` and `mmaaaa` both become `mmaaaa` |
| Bot2.MainExitMeaning | bots/bot2.py:395-425 | the script exits 0 and posts the notification exactly when the run completed |
| Bot2.RunExit | bots/bot2.py:395-425 | the process started with three arguments exits 0 and posts exactly when login, CAPTCHA, navigation, selection and the batch all succeed, and otherwise exits 1 without posting: this exit status is the return code server.py's worker receives |
| Copia.EncerrarPeriodos | bots/copia_app.py:69-98 | every period is tried exactly once, in order, whatever each one does |
| Copia.EncerrarMovimento | bots/copia_app.py:55-102 | the batch follows `Batch` |
| Copia.BatchCompletesIff | bots/copia_app.py:55-102 | the batch completes exactly when the Movimento click succeeds and the dates are valid; then every period is tried |
| Copia.SkipRunsNoClosingStep | bots/copia_app.py:80-91 | a skipped period runs none of the closing steps |
| Copia.Cadastro | bots/copia_app.py:104-145 | access, unchecked extraction and save: the table is upserted, or unchanged when a step stops the run |
| Copia.Run | bots/copia_app.py:104-164 | the run follows `RunSpec`, and the table is what its save left |
| Copia.RunSwallows | bots/copia_app.py:104-164 | run swallows every exception raised inside its try unless the error screenshot itself raises; a browser launch that fails (lines 105-107, before the try) escapes with nothing read, saved or tried |
| Copia.SaveErrorStopsRun | bots/copia_app.py:26-41 | a failed save raises, so no batch runs and the table is unchanged |
| Copia.ConcluidoAlwaysPosted | bots/copia_app.py:166-188 | with three arguments, main posts `concluido` exactly when the browser launched and either run caught nothing or its error screenshot did not raise, and otherwise exits 1; so whatever the batch did, it posts when neither the launch nor the screenshot raised |
| Botaca.EncerrarMovimento | botaca.py:43-109 | the batch over the given periods follows `Encerramento` |
| Botaca.Run | botaca.py:111-170 | the run follows `RunSpec`, and the table is what its save left |
| Botaca.FaixaSeven | botaca.py:161 | the hard-coded range is 7 periods, 09/2024 to 03/2025 |
| Botaca.BatchReached | botaca.py:111-170 | once access and save succeed the batch runs; it completes exactly when the Movimento click succeeds, trying all 7 periods |
| Botaca.MovimentoSwallowed | botaca.py:46-107 | a failed Movimento click is re-raised by the batch and swallowed by run |
| Botaca.SkipRunsNoClosingStep | botaca.py:67-91 | a skipped period runs none of the closing steps |
| Teste.Executar | teste.py:10-87 | the script follows `ScriptSpec`; a failing launch ends it like a failing goto, since there is no try |
| Teste.EndsIff | teste.py:24-78 | the script ends normally exactly when opening and the CAPTCHA loop raise nothing; without success, all ten reads were rejected |
| Teste.RefusedLoginEndsScript | teste.py:57-65 | error text after login ends the script with NameError |
| Server.DigitsThenEndIff | server.py:26-32 | `^\d{n}$` holds exactly for n ASCII digits, optionally followed by one newline |
| Server.NormalisedCnpjIff | server.py:127-132 | a normalised cnpj validates exactly when it has 14 digits |
| Server.PeriodoWithNewline | server.py:30-32 | six digits and a newline pass `validar_periodo` |
| Server.PunctuationIgnored | server.py:127 | a non-digit anywhere in the cnpj changes neither the normalised value nor its validity |
| Server.Atualizar | server.py:50-88 | the update commits, or on failure rolls back and re-raises |
| Server.IniciarEncerramento | server.py:119-163 | the request is answered as `Iniciar` says; only an accepted one writes `em_processo/0` |
| Server.MissingFieldFirst | server.py:122-125 | any missing field gives 400 "Parâmetros ausentes" before any other check |
| Server.AcceptedIff | server.py:119-163 | 202 exactly when the fields are present, the normalised values validate, the path is inside bots, the file exists and the update succeeds; only then is a job queued |
| Server.PlainBotPathStarts | server.py:138-158 | a plain relative bot path is accepted as `bots/<path>` when the file exists |
| Server.SiblingPathCheck | server.py:138-141 | `../q` passes the prefix check exactly when q starts with `bots`, so `../bots_x` escapes the directory |
| Server.ExecutarBot | server.py:165-205 | the worker's writes and notification follow `Executar` |
| Server.Transitions | server.py:179-199 | with a working table the row goes `em_processo`, then `concluido` on return code 0 and `erro` otherwise |
| Server.ConcluidoOnlyOnZero | server.py:179-205 | `concluido` is written only for return code 0, and the notification is sent only when the worker returns |
| Server.NotificacaoIgnoresArgs | server.py:35-48 | the notification body ignores status and progress and always says `concluido` |
| Server.EncerramentoConcluido | server.py:90-117 | the callback is answered as `Recebido` says, and only a 200 updates the row |
| Server.RecebidoIff | server.py:90-117 | 200 exactly when the body has a cnpj and the update succeeds; status and progress default to `concluido` and `100` |
| Server.ErroOverwritten | server.py:179-199 | an `erro` written by the worker is overwritten by `concluido` when the notification arrives |
| Paths.SplitAppend | server.py:138-139 | splitting on `/` distributes over a joining slash |
| Paths.JoinSplit | server.py:138-139 | `'/'.join(s.split('/')) == s` |
| Paths.NormAppend | server.py:138-139 | normpath's loop over two lists of components runs as two loops |
| Paths.NormPathAppend | server.py:138-139 | normalising `x/q`, for a plain relative q, appends q to x normalised |
| Paths.BotsArgShape | server.py:139 | the bots directory is the normalised join of the script directory and `bots` |
| Paths.BeneathResolves | server.py:138 | a plain relative bot path resolves to the bots directory, a slash and the path |
| Paths.BeneathAccepted | server.py:138-141 | such a path passes the prefix check |
| Paths.NormParent | server.py:138 | normalising `x/../q` replaces the last component of x by q |
| Paths.ParentIff | server.py:138-141 | `../q` passes the prefix check exactly when q starts with `bots` |
| BkpServer.Chamar | bkp-sever.py:33-71 | a call first connects, raising DatabaseError when empresas.db cannot be opened; then it binds its arguments, raising TypeError with too many; then it commits, or rolls back and re-raises |
| BkpServer.InicialChangesNothing | bkp-sever.py:93 | the shifted initial call binds cnpj to None and changes no row |
| BkpServer.ErroCallRaises | bkp-sever.py:141 | the shifted error call has one argument too many and raises TypeError |
| BkpServer.WellFormedCalls | bkp-sever.py:117-133 | the unshifted calls bind as written |
| BkpServer.IniciarEncerramento | bkp-sever.py:73-112 | the request is answered as `Iniciar` says and the table never changes |
| BkpServer.AcceptedIff | bkp-sever.py:73-112 | 202 exactly when the three fields are present, the values validate and the update does not raise; no bot path is asked for |
| BkpServer.ExecutarBot | bkp-sever.py:114-154 | the worker's writes and its escaping exception follow `Executar`, with the k-th call through the decorator failing as the input says, the two shifted error calls included |
| BkpServer.NoErroRecorded | bkp-sever.py:114-154 | `erro` is never written; every failure ends in the except branch's shifted call, which raises DatabaseError when its connection fails and TypeError otherwise |
| BkpServer.SemBanco | bkp-sever.py:33-154 | with a database that cannot be opened, nothing is written and DatabaseError escapes |
| BkpServer.ZeroConcluded | bkp-sever.py:131-138 | return code 0 stores `concluido/100` |
| Front.FormatarPeriodo | static/script.js:2-10 | the formatted value has at most 7 characters |
| Front.FormatarDigits | static/script.js:4-8 | the digits of the formatted value are the first six digits typed |
| Front.FormatarIdempotent | static/script.js:4-8 | formatting a formatted value changes nothing |
| Front.ReplaceFirstSkip | static/script.js:91-92 | `replace('/', '')` deletes only the first slash |
| Front.FormattedSubmitIff | static/script.js:91-99 | a formatted period passes the submit check exactly when six digits were typed, and is sent as those six digits |
| Front.SubmittedValidatesOnServer | static/script.js:97-99 | a period the form sends passes the server's `validar_periodo` |
| Front.Formulario.constructor | static/script.js:50-64 | the form starts with a cnpj and empty fields |
| Front.Formulario.AbrirModal | static/script.js:50-64 | opening the modal sets the cnpj and clears the periods but keeps the bot choice |
| Front.Formulario.InputInicial | static/script.js:2-16 | the initial period field is reformatted; nothing else changes |
| Front.Formulario.InputFinal | static/script.js:2-16 | the final period field is reformatted; nothing else changes |
| Front.Formulario.ChangeTomados | static/script.js:67-71 | checking selects `bots/bot.py`; unchecking keeps the choice |
| Front.Formulario.ChangePrestados | static/script.js:73-77 | checking selects `bots/bot2.py`; unchecking keeps the choice |
| Front.Formulario.Submit | static/script.js:79-127 | a body is sent exactly when the form is valid and both periods have six digits, and it holds exactly the four fields |
| Front.PrestadosNested | static/script.js:75 | server.py resolves the form's `bots/bot2.py` to the bots directory followed by `/bots/bot2.py`: a bots directory inside the bots directory |
| Dashboard.SatisfiesStep | app.py:327-335 | an added placeholder narrows the rows by its equality, and only when the filter is given |
| Dashboard.RowMatches | app.py:324-337 | a row satisfies the built query exactly when it matches every given filter |
| Dashboard.SelectFiltered | app.py:324-337 | the query returns exactly the matching rows, in table order |
| Dashboard.FilteredContents | app.py:324-337 | a row is returned exactly when it is in the table and matches every given filter |
| Dashboard.NoFilterAll | app.py:324-337 | with no filter, or only empty ones, every row is returned |
| Dashboard.RenderSnoc | app.py:327-335 | each clause is appended at the end of the query |
| Dashboard.AddFilter | app.py:327-335 | an `if value:` step appends its clause and its parameter in the same order |
| Dashboard.Index | app.py:316-347 | the query, the parameters in placeholder order, and the rows are those of the given filters |
| Dashboard.DistinctOnce | app.py:338 | `DISTINCT` keeps every name and nothing else, each once |
| Dashboard.ListaEmpresas | app.py:338-345 | the name list holds each name of the table exactly once |
| Dashboard.EcoVerbatim | app.py:349-359 | /encerrar echoes the cnpj and both periods as sent, each at its place in the message and None when absent, without validation; a null body raises AttributeError on `data.get` |

## Left out

- The browser and OCR are oracles. Every Playwright step of the try blocks and the loops, `rows.count()` included, is an input saying whether it raises, and so is the browser's launch before the try (`Launch`). The visibility of the "already closed" link, the OCR text and the text of the CAPTCHA error node are inputs too. Selectors, waits, frames and image thresholding are not modelled.
- The `finally` of each run (`time.sleep`, `context.close()`, `browser.close()`) is not modelled: a close that raises there would replace how run ended. Nor are teste.py's trailing `page.wait_for_timeout(5000)` and `browser.close()` (teste.py:85-87), outside any try: if either raised, the script would end with that exception where Teste.Executar gives `Completed`.
- Screenshots are steps that may raise. Only their effect on which exception escapes is modelled.
- Bot2.PercentBounds: progress is `int((i/n)*100)` in floating point. The model uses the integer `(i*100)/n`, which can be 1 higher; for example i=29, n=100 gives 28 in floating point.
- Periods.Meses: `datetime` and `relativedelta` are modelled only as a month index, `12*year + month - 1`, with datetime's range of years 1 to 9999. Days and time zones do not occur. A year too large for a C int, such as `int("99999999999")`, makes `datetime` raise OverflowError; the model raises ValueError, as for any year out of range. The same handlers catch both, so only the label of the escaping exception differs.
- Text.KeepDigits: Python's `\D` on a `str` keeps every Unicode decimal digit, but the model keeps ASCII `0`-`9` only. So a cnpj of 14 Arabic-Indic digits, which server.py:127-132 and bkp-sever.py:82-88 accept, is refused in the model.
- Server.DigitsThenEndIff: Python's `^\d{n}$` at server.py:28,32 and bkp-sever.py:27,31 also matches non-ASCII decimal digits; the model's validators accept ASCII `0`-`9` only.
- Text.ParseIntDigits: `int()` also accepts non-ASCII decimal digits and underscores between digits (`int("2_023") == 2023`). The model's `ParseInt` accepts neither, so such a period argument raises ValueError in the model but not in bots/bot2.py:108-109.
- `isalnum()` in the CAPTCHA check also accepts non-ASCII letters and digits; the model's `IsAlnum` is ASCII only.
- sqlite is a map from cnpj to record. These are not modelled:
  - the status-column migration in server.py:73-82 and bkp-sever.py:56-65 (PRAGMA, then ALTER TABLE adding `status` DEFAULT 'pendente' and `progresso` DEFAULT '0'); a failure there is part of the `falha` input of Server.Atualizar and BkpServer.Chamar;
  - bot2's PRAGMA at bots/bot2.py:64-66, whose result is never used;
  - `obter_status`, which selects a column that no schema creates;
  - app.py's `get_db_connection` and `criar_tabela_empresas`.
- Empresas.Empresa always carries `status` and `progresso`. Only bot2 (bots/bot2.py:69-77) creates the table with them. criar_db.py:11-17, bots/copia_app.py:31-37 and botaca.py:17-23 create a five-column table, which gains the two columns, with defaults `pendente` and `0`, only when the coordinator's migration first runs. The model reads such a row as already holding the defaults.
- A failing `executemany` is an input that says which tuple fails. One such input also covers a batch that does not fit the table's columns. But copia's and botaca's five-placeholder `INSERT OR REPLACE` (bots/copia_app.py:39, botaca.py:25) fails on a migrated seven-column table even for an empty roster, because the statement is prepared before any tuple; the model's failure input is indexed by tuple, so an empty batch never fails.
- Empresas.Database.AtualizarStatus: bot2's `atualizar_status_db` swallows sqlite errors, and the model treats its update as always succeeding.
- Dashboard.SelectFiltered: sqlite gives no order without ORDER BY. The model returns rows in table order.
- Not modelled:
  - Flask routing, HTTP status text and `requests.post`;
  - Socket.IO `emit` and `enviar_alerta`;
  - the thread pool, `subprocess.run` (its return code is an input) and `time.sleep`;
  - logging and `print`.
- bot2's `callback_status` parameter is never passed by any caller and is left out.
- A JSON body is either absent (a null body, where server.py and bkp-sever.py answer 500 and app.py's /encerrar raises AttributeError) or a map from string to string. A non-string value, and a body that is not an object, are not modelled.
- HTML templates, DOM rendering, `alert`, the spinner and the Socket.IO handlers of static/script.js are left out.
- The credentials and URLs typed by the bots are not modelled.
- main.py is not part of this model; it drives a package whose source is not available.
- bots/server_ws.py is not part of this model; it is an echo server made only of I/O.

# Service forms of Graves Foods, modelled in Dafny

The repository is a small FastAPI web service. Technicians and customers of
Graves Foods use it to submit two kinds of form. Each submission is stored
as a database row, rendered to a PDF, and e-mailed with that PDF attached.
This project models the two request handlers and the code they rely on:

- **The service request form** (`app/main.py`). The module reads its SMTP
  settings and database URL when it is imported. `submit_form` reads up to
  nine optional fields, parses the date, stores a row, renders a Jinja
  template to PDF, and mails the company and, when an address was given,
  the customer.
- **The checklist service form** (`app/resources/main_v1.py`). Its
  `submit_form` takes nineteen posted fields and forty-five checkboxes. It
  parses two of the fields, a date and an optional time, and adds the client
  address as a twentieth field, `ip_address`. It flattens the nested
  checkbox dictionary into a row, draws a ReportLab report line by line with
  a page check after every line, and mails the customer and then the
  company.

Modules:

| file | module | what it holds |
|---|---|---|
| `values.dfy` | `Values` | `Option`, `Result`, and the dynamically typed dictionary values |
| `decimal.dfy` | `Decimal` | ASCII digits, zero padding and decimal text |
| `calendar.dfy` | `Calendar` | `datetime.date`/`time` validity and `strftime` output |
| `strptime.dfy` | `Strptime` | `datetime.strptime` for `%Y-%m-%d` and `%H:%M` |
| `display.dfy` | `Display` | `or 'N/A'`, `or 'Not Provided'`, `replace('_',' ').title()` |
| `pagination.dfy` | `Pagination` | `check_page_space` and the draw loops of the report |
| `pipeline.dfy` | `Pipeline` | insert, render, send: the effects of a submission and where they can stop |
| `service_form.dfy` | `ServiceForm` | the checklist form handler, its row and its report |
| `service_request.dfy` | `ServiceRequest` | start-up configuration and the request form handler |

Inputs from outside the program are parameters:

- the client address;
- the form id (`uuid4`) and the current time;
- whether the logo file exists, and its base64 text;
- the process and dotenv environments;
- a `failure` index, naming the first step that raises for a reason the
  model does not see (a database, template, file or SMTP error).

A send whose sender or recipient is `None` always raises: `sendmail`
quotes the sender as an address and iterates over the recipients, and
`None` supports neither. `FROM_EMAIL` and `COMPANY_EMAIL` are optional
settings, so this can happen on every submission. `Pipeline.Run` adds that
failure to the `failure` index.

The page check in `generate_pdf` runs after a line has been drawn, with the
height of that line. A line is therefore drawn wherever the cursor is, and
only the line after one drawn below the 50-point margin goes to a new page.
With spacings of 20 and 30 the lowest line of a page sits at a height of 20
to 49 (`Pagination.LayoutStaysOnPage`, `ServiceForm.ReportPlacement`).

## Model

| member | source | states |
|---|---|---|
| Calendar.DaysInMonth | app/resources/main_v1.py:197 | the month lengths `date` accepts: the common-year table (31, 28, 31, 30, 31, 30, 31, 31, 30, 31, 30, 31), except 29 for February of a leap year; 29 occurs exactly there |
| Calendar.YearLength | app/resources/main_v1.py:197 | the twelve month lengths add up to 366 days in a leap year and 365 otherwise |
| Strptime.ParseDate | app/resources/main_v1.py:196-199 | a successful `%Y-%m-%d` parse is a real calendar date read from 8 to 10 characters that begin with four digits and a dash |
| Strptime.ParseDateSpelling | app/resources/main_v1.py:196-199 | the text parses to date `d` exactly when `d` is a real date and the text is the four-digit year, a dash, the month with or without its leading zero, a dash, and the day with or without its leading zero or (below 10) after one space; every other text raises `ValueError` (None) |
| Strptime.ParseFormatDate | app/resources/main_v1.py:197 | parsing what `strftime('%Y-%m-%d')` writes gives back the same date, for every valid date |
| Strptime.ParseCanonicalDate | app/resources/main_v1.py:196-199 | zero-padded `YYYY-MM-DD` text parses exactly when it names a real day, and then to that day; otherwise `ValueError` (None) |
| Strptime.FormatParsedDate | app/resources/main_v1.py:418 | zero-padded date text that parses is printed back by `strftime` character for character |
| Strptime.ParseUnpaddedDate | app/resources/main_v1.py:197 | text whose month and day are both written without a leading zero parses to that date |
| Strptime.ParseTime | app/resources/main_v1.py:202-208 | a successful `%H:%M` parse is a real time of day read from 3 to 5 characters |
| Strptime.ParseTimeSpelling | app/resources/main_v1.py:202-208 | the text parses to time `t` exactly when `t` is a real time and the text is the hour, a colon and the minute, each with or without its leading zero (`9:05`, `09:5`); every other text raises `ValueError` (None) |
| Strptime.ParseFormatTime | app/resources/main_v1.py:204 | parsing what `strftime('%H:%M')` writes gives back the same time |
| Strptime.ParseCanonicalTime | app/resources/main_v1.py:202-208 | `HH:MM` text parses exactly when hour and minute are in range, and then to that time |
| Strptime.FormatParsedTime | app/resources/main_v1.py:419 | `HH:MM` text that parses is printed back unchanged |
| Strptime.ParseUnpaddedTime | app/resources/main_v1.py:204 | text whose hour and minute are both written without a leading zero parses to that time |
| Display.OrNADisplay | app/resources/main_v1.py:421-424 | `value or 'N/A'` is never empty; shows a present non-empty value as itself; is `N/A` exactly when the value is missing, empty or literally `N/A` |
| Display.OrNotProvidedDisplay | app/resources/main_v1.py:470 | `signature or 'Not Provided'` shows a non-empty signature as written, and is `Not Provided` exactly when it is empty or literally that text |
| Display.Replace | app/resources/main_v1.py:449 | `replace('_', ' ')` keeps the length and changes exactly the underscores |
| Display.TitleFrom | app/resources/main_v1.py:449 | `title()` upper-cases each letter that follows a non-letter and lower-cases each letter that follows a letter, leaving other characters alone |
| Display.LabelRoundTrip | app/resources/main_v1.py:449 | the printed label of a snake-case column name reads back to that name (lower-case it, spaces to underscores) |
| Display.LabelHasNoColon | app/resources/main_v1.py:449 | a label has the length of its column name and contains no colon and no underscore |
| Display.ChecklistLineDeterminesEntry | app/resources/main_v1.py:447-450 | two checklist lines are equal only when they come from the same column name with the same ticked state |
| Pagination.CheckPageSpace | app/resources/main_v1.py:404-409 | after a line on the page, the cursor stays on the page (20 to 750), and it returns to the top exactly when the line was below the 50 margin; otherwise it falls by exactly the spacing |
| Pagination.Layout | app/resources/main_v1.py:426-428 | each line gives one draw and at most one page break, so n lines give n to 2n canvas calls, and the draw loops never draw an image |
| Pagination.LayoutDrawsEachLineOnce | app/resources/main_v1.py:426-428 | page breaks never drop, repeat or reorder a line: the texts drawn are the lines' texts in order |
| Pagination.LayoutStaysOnPage | app/resources/main_v1.py:404-409 | with spacings of 20 or 30, every line is drawn at x = 72 and at a height from 20 to 750 |
| Pagination.LayoutBreaksBelowMargin | app/resources/main_v1.py:405-408 | a new page starts right after a line drawn below the margin, and at no other point |
| Pagination.LayoutPageStructure | app/resources/main_v1.py:404-409 | within a page each line is strictly lower than the one before; after a page break the next line is at the top (750) |
| Pagination.PrefixedLayout | app/resources/main_v1.py:388-413 | after a fixed prefix, the body starts with its first line at the cursor, draws no image, keeps every line on the page, and breaks pages only after a line below the margin |
| Pagination.UniformPageBreaks | app/resources/main_v1.py:426-428 | at the default spacing a page holds 37 lines: n lines drawn k lines down a page start (n + k) / 37 new pages |
| Pipeline.Execute | app/resources/main_v1.py:356-376 | the steps run in order up to the first that raises: the steps before it took effect and nothing after it ran; a raising step answers with a server error, and only a run with no raise confirms, after every step, echoing the customer name |
| Pipeline.ExecuteKeepsOrder | app/resources/main_v1.py:356-373 | whatever fails, no e-mail goes out before the row is inserted and the PDF rendered, and the request is confirmed only when every step completed |
| Pipeline.Earliest | app/main.py:193-194 | combining two failure points keeps the earlier one, so a missing logo stops the run at the render unless something failed before |
| Pipeline.Unaddressed | app/resources/main_v1.py:493-507 | finds the first send whose sender (`FROM_EMAIL`) or recipient is `None`, the one `sendmail` raises on, and no earlier one exists |
| Pipeline.Run | app/resources/main_v1.py:493-508 | no e-mail without both a sender and a recipient is ever sent; a run that does not confirm names the step that raised and stops at the earlier of the outside failure and the first unaddressed send; it confirms exactly when no step failed and every send in the plan has both addresses |
| ServiceForm.Position | app/resources/main_v1.py:232-278 | each checkbox has a position below 45 in the declared order |
| ServiceForm.PositionBoxAt | app/resources/main_v1.py:232-278 | the box at a position sits at that position |
| ServiceForm.BoxAtPosition | app/resources/main_v1.py:232-278 | positions are one-to-one: a box is found again at its position |
| ServiceForm.ChecklistPosition | app/resources/main_v1.py:232-278 | every checkbox appears in the checklist order, at its position |
| ServiceForm.ReadForm | app/resources/main_v1.py:193-208 | the record keeps the post and client address and holds a real date and time, or `None` |
| ServiceForm.UpdateWith | app/resources/main_v1.py:352 | `dict.update` with the checkbox entries adds their keys, sets each to its ticked flag, and leaves every other key as it was |
| ServiceForm.FlattenRow | app/resources/main_v1.py:351-353 | copy, update with the nested checkboxes, delete `checkboxes`: the nested key is gone, its entries are top-level flags, other keys are kept |
| ServiceForm.CheckboxKeys | app/resources/main_v1.py:232-278 | the checkbox dictionary's keys are exactly the 45 checkbox columns, each holding whether its box was ticked |
| ServiceForm.FormDataKeys | app/resources/main_v1.py:211-279 | `form_data` holds the twenty fields and the nested `checkboxes` entry and nothing else |
| ServiceForm.InsertRow | app/resources/main_v1.py:351-357 | the inserted row has exactly the field and checkbox columns, not `id`, `created_at` or `checkboxes` |
| ServiceForm.InsertRowCheckboxes | app/resources/main_v1.py:351-353 | every checkbox column of the row holds whether that box was ticked |
| ServiceForm.InsertRowFields | app/resources/main_v1.py:211-231 | every field of `form_data` reaches the row unchanged |
| ServiceForm.RowDateTime | app/resources/main_v1.py:196-216 | the row stores the parsed date and time, `NULL` where parsing failed |
| ServiceForm.LetterheadDrawsTexts | app/resources/main_v1.py:388-397 | the letterhead draws its four lines of text, with or without the logo |
| ServiceForm.LetterheadShape | app/resources/main_v1.py:388-398 | the logo, when its file exists, is at (72, 750) and first; the four text lines are at x = 200, heights 735 to 780 |
| ServiceForm.SpacedTexts | app/resources/main_v1.py:426-428 | a section's lines are drawn with their texts unchanged |
| ServiceForm.BodyTexts | app/resources/main_v1.py:411-487 | the body draws each section's heading followed by its lines, section by section |
| ServiceForm.RenderReport | app/resources/main_v1.py:384-491 | the report is the letterhead (four or five calls) and then one draw per body line, each followed by at most one page break |
| ServiceForm.ReportDrawsEverySection | app/resources/main_v1.py:384-491 | however the lines fall across pages, the report draws the letterhead and then every section heading and line, in order, each once |
| ServiceForm.BodySpacings | app/resources/main_v1.py:413-487 | every line of the body is followed by a spacing of 20 or 30 |
| ServiceForm.ReportPlacement | app/resources/main_v1.py:398-487 | the letterhead comes first; the body starts at height 670 with `Basic Information`, draws no image, and keeps every line at x = 72 on the page |
| ServiceForm.ReportBreaks | app/resources/main_v1.py:404-487 | the letterhead never starts a page; in the body a page break follows exactly the lines drawn below 50, and the next line is at 750 |
| ServiceForm.BoxNameSnakeCase | app/resources/main_v1.py:233-277 | every checkbox column name is lower-case letters and underscores |
| ServiceForm.ChecklistReport | app/resources/main_v1.py:444-450 | the checklist has one line per checkbox in declared order, `Yes` exactly for the ticked ones, and each label reads back to its column name |
| ServiceForm.PostedDate | app/resources/main_v1.py:196-199 | a zero-padded real date is parsed to that day and printed as posted; one that does not parse prints as `N/A` |
| ServiceForm.PostedTime | app/resources/main_v1.py:202-208 | a missing or empty time gives `None` without parsing; an `HH:MM` real time prints as posted; `None` prints as `N/A` |
| ServiceForm.ReportDate | app/resources/main_v1.py:196-199 | a date that parses, padded or not, is stored as its day and printed as that day's `YYYY-MM-DD` text in both places, so a zero-padded `YYYY-MM-DD` real date is printed exactly as posted; an unparsable date is stored as `NULL` and printed as `N/A` |
| ServiceForm.ReportTime | app/resources/main_v1.py:202-208 | a time that parses is stored and printed as its `HH:MM` text, so an `HH:MM` real time is printed as posted; a missing, empty or unparsable time is stored as `NULL` and printed as `N/A` |
| ServiceForm.SendPlan | app/resources/main_v1.py:356-373 | insert, render, then the same report to the customer with the customer text and to the company address with the company text, under one subject and file name, from `FROM_EMAIL` |
| ServiceForm.SendPlanOrder | app/resources/main_v1.py:356-376 | a customer send that fails before delivery leaves the row stored and nothing mailed; an unset `FROM_EMAIL` mails nobody; an unset company address alone still mails the customer but ends in a server error; confirmation needs no failure and both addresses set |
| ServiceForm.Dispatch | app/resources/main_v1.py:355-376 | for any row and report: the row is the first thing stored, no e-mail leaves without both addresses, a failure in the four steps ends in a server error, and a confirmation follows all four steps and greets the customer |
| ServiceForm.Submit | app/resources/main_v1.py:125-376 | the row read from the post is the first thing stored, and a failure in the four steps ends in a server error |
| ServiceForm.SubmitConfirmed | app/resources/main_v1.py:355-376 | a confirmed submission stored the post's row, drew its report, mailed both copies, and greets the posted customer name |
| ServiceRequest.ParseIntText | app/main.py:28 | `int(str(n)) == n` for every integer |
| ServiceRequest.ParseIntRejects | app/main.py:28 | the modelled `int()` rejects the empty text, a bare sign, and any non-digit after the first character |
| ServiceRequest.LoadConfig | app/main.py:24-37 | a loaded configuration has a non-empty database URL and takes both mail addresses from the environment in which the process wins; a rejected port is text `int()` rejects |
| ServiceRequest.LoadConfigOutcome | app/main.py:24-37 | the settings checks fail on a port `int()` rejects (checked first), else on a missing or empty `DATABASE_URL`, and pass otherwise; the URL comes from the dotenv file when it sets one, the port from the process first, 587 when unset |
| ServiceRequest.DefaultPort | app/main.py:28 | an unset `SMTP_PORT` means port 587; a port written as decimal text is read as that number |
| ServiceRequest.ParseDateField | app/main.py:99-104 | a parsed date is a real calendar date |
| ServiceRequest.ParseDateFieldOutcome | app/main.py:99-104 | a missing or empty date gives `None`; any other text gives what `strptime` gives, and a real `YYYY-MM-DD` date parses to that day |
| ServiceRequest.FormatMoment | app/main.py:108 | the timestamp text is 19 characters with its separators at fixed places: dashes at 4 and 7, a space at 10, colons at 13 and 16 |
| ServiceRequest.FormatMomentReadsBack | app/main.py:108 | the timestamp reads back: its date part parses to the date, its time part to the hour and minute, and its last two digits spell the second |
| ServiceRequest.QueryData | app/main.py:127-138 | the row holds table columns only, never `id` or `created_at`, with the client address and a real date or `NULL` |
| ServiceRequest.RowIsProjection | app/main.py:111-138 | the row is the PDF dictionary without `form_id` and `current_datetime`: same other keys, same values |
| ServiceRequest.RowColumns | app/main.py:127-138 | the row fills every column of the table except `id` and `created_at` |
| ServiceRequest.MissingFieldsFlow | app/main.py:88-138 | each of the eight posted text fields is stored as `NULL` exactly when the post leaves it out and as its text otherwise; a missing, empty or rejected date is stored as `NULL`, any other as the day it names |
| ServiceRequest.TemplateContext | app/main.py:189-210 | for any dictionary, the template sees the `strftime` text of a date and the empty text of anything else, gains the logo, and sees every other variable unchanged |
| ServiceRequest.TemplateDate | app/main.py:189-210 | the template sees the date as posted when it is a real `YYYY-MM-DD` date and as the empty text when it is missing or rejected; other variables pass through, and the logo is added |
| ServiceRequest.Notifications | app/main.py:157-172 | the company is mailed first, always; the customer second, exactly when `contact_email` is non-empty; every message carries the same PDF, file name and sender |
| ServiceRequest.RequestOutcome | app/main.py:140-178 | a render failure such as a missing logo leaves the row stored and sends nothing; with either address unset no e-mail goes out; the request confirms exactly when nothing raised and both the company and the sender address are set, having sent everything |
| ServiceRequest.Handle | app/main.py:82-178 | the post's row is the first thing stored, no e-mail leaves without both addresses, a missing logo ends in a server error with at most the row stored, and a confirmation greets the posted customer name |
| ServiceRequest.HandleOutcome | app/main.py:82-178 | without the logo file the row is stored and the render raises; a confirmed request stored the post's row, rendered the template from the PDF dictionary and the logo, and sent every notification; with the logo and no outside failure it confirms exactly when both addresses are set |

## Left out

- The web layer is not modelled: the FastAPI routes, the `GET /` form and `GET /confirmation` pages, Jinja's HTML rendering, and startup and shutdown connecting the database. The confirmation response is reduced to the customer name it echoes.
- Database I/O is a single `Insert` step carrying the row. SQLAlchemy's column typing and the `id` and `created_at` values the database assigns are not modelled.
- PDF bytes are not modelled. The ReportLab report is the sequence of its draw calls; fonts, the logo's size and the page size are left out. The WeasyPrint PDF is the template context it is rendered from.
- SMTP and MIME are not modelled beyond the message fields: connecting, STARTTLS, login and quitting are left out. Failures before delivery (connecting, STARTTLS, login, `sendmail` itself) are part of the `failure` index.
- Pipeline.Execute, ServiceForm.SendPlanOrder: a failing step is modelled as having taken no effect. `server.quit()` runs after `sendmail` has handed the message over (`app/resources/main_v1.py:507-508`, `app/main.py:237-238`), so a send that raises in `quit()` did mail its recipient; the model counts it as not sent. Its later steps are still skipped and the response is still a server error, as modelled.
- `uuid4`, `datetime.now`, the client address and reading the logo file are inputs. Base64 encoding of the logo is not modelled; the encoded text is an input.
- `datetime.strptime` is modelled on ASCII input only. Python's `\d` also matches other Unicode decimal digits, and such input is not modelled.
- `str.title()` is modelled on ASCII letters only. Non-ASCII letters and title-case characters are not modelled.
- `int()` is modelled without surrounding whitespace, digit-group underscores or non-ASCII digits.
- ServiceRequest.LoadConfig, ServiceRequest.LoadConfigOutcome: `Database(DATABASE_URL)` at `app/main.py:40` can still raise at import for a URL the `databases` library cannot use, such as an unsupported scheme; that library is not modelled, so a configuration the model loads may still fail there.
- Calendar.FormatDate: pads the year to four digits. On glibc, `%Y` for years below 1000 prints without padding, so such a date would not read back through `%Y`; that platform detail is not modelled.
- The start-up settings of `app/resources/main_v1.py` are not modelled: plain `os.getenv` calls with no checks. Only the two addresses used by its mail steps are kept, as `MailSettings`.
- The `db_data` dictionary literal at `app/resources/main_v1.py:282-348` is overwritten at line 351 before it is used, so only the flattened copy is modelled.
- Column and key names are enumeration constructors. The source's names are distinct string literals, and the model takes distinct constructors to be distinct names. Injectivity of `ServiceForm.Name` is not proved.

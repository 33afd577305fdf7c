# Automatic mail generation — a Dafny model

This project models the content-generation pipeline of a small ASP.NET mail
service, together with the test-page controller that sits in front of it.

- `Services/AutoMailService.cs` keeps two constant tables. The recipient table and
  the template table are each keyed by a two-letter code: PE, PM, HR, FN or IT.
- For each code, a data strategy fills a dataset with values. Most are mock random
  numbers; a few are fixed texts.
- The renderer substitutes `{Name}` tokens in a template. First come the four
  reserved tokens `{RecipientName}`, `{Date}`, `{Department}` and `{Role}`, then
  one token per dataset entry. Each substitution is a C# `String.Replace`.
- The generator looks up the recipient, then the template, then the data, and gives
  up (`null`) at the first step that fails.
- The dispatcher appends the caller's addendum to the body, sends the mail, and
  turns every outcome into a `MailSendResult`.
- The controller (`Controllers/t23c3_testpageController.cs`) refuses an empty code
  and normalises every other code with `Trim().ToUpper()` before it calls the
  service. It also lists the five codes for the page.

Modules, one per concern:

| file | module | what it holds |
|---|---|---|
| `wrappers.dfy` | `Wrappers` | `Option` (a nullable reference) and `Result` |
| `text.dfy` | `Text` | `String.Replace` as `ReplaceAll`, `Trim`, `ToUpper`, and brace-free text (`Plain`) |
| `numbers.dfy` | `Numbers` | `int.ToString()`, zero-padded fields, and the `"N0"` format |
| `calendar.dfy` | `Calendar` | dates, `"dd MMMM yyyy"` and `"yyyy-MM-dd HH:mm:ss"` |
| `models.dfy` | `MailModels` | the records of `Models/MailModels.cs`; a dictionary as a sequence of entries |
| `codes.dfy` | `Codes` | the five codes and the upper-case `switch` over their spellings |
| `wording.dfy` | `Wording` | every fixed text the service prints |
| `placeholders.dfy` | `Placeholders` | patterns as literal and token segments, and the replace-all fold over them |
| `renderer.dfy` | `Renderer` | `ProcessTemplate` and its reference meaning, `Expand` |
| `dataprovider.dfy` | `DataProvider` | the five strategies and `GetDataForCodeAsync` |
| `catalog.dfy` | `Catalog` | `InitializeRecipients` and `InitializeTemplates` |
| `catalogfacts.dfy` | `CatalogFacts` | what holds of the shipped tables |
| `service.dfy` | `AutoMailService` | `GenerateMailContentAsync` and `GenerateAndSendMailAsync` |
| `controller.dfy` | `TestPageController` | `SendMail`, `PreviewMail`, `GetDataForCode` and `GetAvailableCodes` |

How the model treats the parts it cannot run:

- **Random values.** Each `random.Next(lo, hi)` call becomes one element of a
  `rolls` sequence, consumed in call order. `Fits` and `RollsFit` state
  `lo <= roll < hi`, which is the guarantee `Random.Next` gives.
- **Clock and SMTP send.** `DateTime.Now` is a parameter `now`. What the SMTP send
  did is a `SendOutcome` parameter: `Delivered`, or `Faulted(message)`.
- **Configuration.** It is an `EmailSettings` value.
- **Null results.** A `null` result of the generator is a `Failure` naming the step
  that failed.
- **Templates.** Each template is written as a `Pattern`, a sequence of literal and
  token segments. The string the C# code holds is `Flatten` of that pattern. The
  main renderer theorem says that `ProcessTemplate` on that string equals
  `Expand`. `Expand` turns every token into the text it stands for: the reserved
  value, else the first dataset entry with that name, else the token itself.

Behaviour of the code worth knowing:

- **Validation and normalisation** happen in the controller, not in the service.
  `GenerateAndSendMailAsync` uses the code exactly as given, and its table lookups
  are case-sensitive.
- **Failed previews.** The preview action does not surface the generation error.
  It returns one fixed message.
- **Previews draw their own numbers.** Every strategy creates a fresh random
  source per call (Services/AutoMailService.cs:346, 363, 377, 391, 408). A
  preview and a later send for the same code and date draw independently, so
  the program does not promise that the figures a preview shows are the ones
  sent. Only whether the two succeed is shared.
- **Data failures.** The data step fails only for an unknown code.
- **A template's list of expected data keys** (`RequiredData`) is never filled or
  read, so it is not modelled. Instead, `CatalogFacts.PatternsMatchStrategies`
  proves that each template's tokens are exactly its strategy's keys plus reserved
  names.

## Model

| member | source | states |
|---|---|---|
| `Text.ReplaceAbsent` | Services/AutoMailService.cs:183-191 | `String.Replace` returns its input unchanged when the pattern does not occur in it |
| `Text.Trim` | Controllers/t23c3_testpageController.cs:48 | the trimmed code has white space at neither end, is no longer than the input, and is empty exactly when the input was all white space |
| `Text.TrimKeepsCore` | Controllers/t23c3_testpageController.cs:48 | `Trim` removes exactly the surrounding white space and keeps a trimmed core intact |
| `Text.TrimIdempotent` | Controllers/t23c3_testpageController.cs:48 | trimming twice is trimming once |
| `Text.ToUpper` | Services/AutoMailService.cs:120 | the upper-cased code has the same length and no lower-case letter; lower-case letters move up by 32 and nothing else changes |
| `Text.ToUpperIdempotent` | Services/AutoMailService.cs:120 | upper-casing twice is upper-casing once |
| `Text.TrimOfUpper` | Controllers/t23c3_testpageController.cs:48 | `Trim().ToUpper()` gives a string that is already trimmed |
| `Numbers.IntToString` | Services/AutoMailService.cs:191 | `ToString()` of an integer value is a minus sign exactly for negatives, then the digits of the magnitude with no leading zero |
| `Numbers.FormatN0` | Services/AutoMailService.cs:397-399 | `"N0"` text is non-empty and brace free, and starts with '-' exactly for negative numbers |
| `Numbers.GroupThousandsDigits` | Services/AutoMailService.cs:397-399 | removing the group separators from the grouped digits gives the plain decimal digits |
| `Numbers.FormatN0Digits` | Services/AutoMailService.cs:397-399 | `"N0"` differs from `ToString()` only by its thousands separators |
| `Calendar.FormatDate` | Services/AutoMailService.cs:184 | the `{Date}` text is brace free and has length 8 plus the month name's length |
| `Calendar.ParseFormatDate` | Services/AutoMailService.cs:184 | every valid date reads back from its `"dd MMMM yyyy"` text |
| `Calendar.FormatDateInjective` | Services/AutoMailService.cs:184 | two different dates never print the same `{Date}` text |
| `Calendar.FormatDateExample` | Services/AutoMailService.cs:184 | 5 March 2024 prints as "05 March 2024" |
| `Calendar.FormatTimestamp` | Controllers/t23c3_testpageController.cs:58 | the `SentAt` stamp has 19 characters with separators at fixed offsets, and each numeric field denotes the matching date or time field |
| `Placeholders.Placeholder` | Services/AutoMailService.cs:191 | the token for a key is the key wrapped in one pair of braces |
| `Placeholders.ReplaceFillsHoles` | Services/AutoMailService.cs:183-191 | on a well-formed pattern, one `Replace` of a token fills exactly the holes of that name and nothing else |
| `Placeholders.ReplaceEachAbsent` | Services/AutoMailService.cs:180-194 | a text in which none of the tokens occurs comes through the whole fold unchanged |
| `Placeholders.FillEachResolves` | Services/AutoMailService.cs:189-192 | filling hole by hole resolves every hole to the first binding of its name, so a later duplicate key has no effect |
| `Placeholders.ReplaceEachResolves` | Services/AutoMailService.cs:180-194 | the fold of `Replace` calls over a well-formed pattern equals the pattern with every bound hole resolved |
| `Renderer.DataBindings` | Services/AutoMailService.cs:189-192 | there is one substitution per dataset entry, in enumeration order, keyed by the entry's key |
| `Renderer.RenderMatchesExpansion` | Services/AutoMailService.cs:178-195 | `ProcessTemplate` on a well-formed pattern equals its reference expansion (reserved value, else first dataset value, else the token verbatim), given that no inserted text carries braces |
| `Renderer.RenderPassesThrough` | Services/AutoMailService.cs:178-194 | a template that holds no reserved or dataset token comes back unchanged, so unknown tokens pass through verbatim |
| `Renderer.NullValueRendersEmpty` | Services/AutoMailService.cs:189-192 | a dataset entry whose value is null renders its token as the empty string |
| `Renderer.ReservedNotShadowed` | Services/AutoMailService.cs:183-191 | dataset entries named like a reserved token change nothing, because the reserved tokens are replaced first |
| `Renderer.ExpandBraceFree` | Services/AutoMailService.cs:178-195 | when every token is supplied, the expansion contains no brace |
| `Renderer.RenderedHasNoTokens` | Services/AutoMailService.cs:178-195 | when every token is reserved or a dataset key, the rendered text holds no `{...}` token |
| `Codes.CodeOf` | Services/AutoMailService.cs:120-143 | the switch recognises exactly the five spellings, and each to the code it spells |
| `Codes.CodeOfText` | Services/AutoMailService.cs:120-143 | spelling a code and switching on the spelling gives the code back |
| `Codes.LowerCaseCodeExample` | Services/AutoMailService.cs:120 | "pe" upper-cases to the PE spelling |
| `DataProvider.ProductionEmployeeData` | Services/AutoMailService.cs:344-359 | keys in order; each integer is within its draw's range; Target is 100; the message is "target achieved" exactly when produced >= 100, and the other message exactly when produced < 100 |
| `DataProvider.ProductionManagerData` | Services/AutoMailService.cs:361-373 | keys in order, every integer within its draw's range, and the two fixed texts |
| `DataProvider.HumanResourceData` | Services/AutoMailService.cs:375-387 | keys in order, every integer within its draw's range, and the pending-actions text |
| `DataProvider.FinanceData` | Services/AutoMailService.cs:389-404 | revenue, expenses and net amount are their `"N0"` texts; the net amount is never negative; the outstanding count is in range; the two fixed texts |
| `DataProvider.InformationTechnologyData` | Services/AutoMailService.cs:406-419 | keys in order, every integer within its draw's range, and the three fixed texts |
| `DataProvider.DataOf` | Services/AutoMailService.cs:120-136 | the strategy for a code returns exactly that code's key list |
| `DataProvider.GetDataForCode` | Services/AutoMailService.cs:111-150 | success exactly when the upper-cased code is one of the five; otherwise an empty dataset with "Unknown code provided"; on success no error and the strategy's keys |
| `CatalogFacts.ShippedRecipientKeys` | Services/AutoMailService.cs:197-207 | the recipient table is keyed by exactly the five codes, and each entry carries its own code |
| `CatalogFacts.ShippedTemplateKeys` | Services/AutoMailService.cs:209-342 | the template table is keyed by exactly the five codes, and each entry carries its own code |
| `CatalogFacts.ShippedRecipient` | Services/AutoMailService.cs:199-206 | the recipient under each code is that code's contact, and its printed fields are brace free |
| `CatalogFacts.ShippedTemplate` | Services/AutoMailService.cs:211-341 | the template under each code spells that code's pattern |
| `CatalogFacts.ProductionSubjectExample` | Services/AutoMailService.cs:218 | whatever the data, the PE subject for 5 March 2024 is "Production Report - 05 March 2024" |
| `CatalogFacts.ProductionBodyReportsUnits` | Services/AutoMailService.cs:223-224 | the PE body contains the "Units Produced: " line followed by the drawn number of units |
| `CatalogFacts.ProductionBodyReportsMessage` | Services/AutoMailService.cs:229-230 | the PE body contains the performance message that the units produced select |
| `CatalogFacts.ProductionEmployeeTokens` | Services/AutoMailService.cs:213-235 | the PE template's non-reserved tokens are exactly the PE strategy's keys |
| `CatalogFacts.ProductionManagerTokens` | Services/AutoMailService.cs:237-261 | the PM template's non-reserved tokens are exactly the PM strategy's keys |
| `CatalogFacts.HumanResourceTokens` | Services/AutoMailService.cs:263-287 | the HR template's non-reserved tokens are exactly the HR strategy's keys |
| `CatalogFacts.FinanceTokens` | Services/AutoMailService.cs:289-312 | the FN template's non-reserved tokens are exactly the FN strategy's keys |
| `CatalogFacts.InformationTechnologyTokens` | Services/AutoMailService.cs:314-339 | the IT template's non-reserved tokens are exactly the IT strategy's keys |
| `CatalogFacts.PatternsMatchStrategies` | Services/AutoMailService.cs:209-342 | every code's patterns are well formed, and their tokens are exactly the reserved names plus the code's strategy keys |
| `CatalogFacts.StrategyDataBraceFree` | Services/AutoMailService.cs:344-419 | no strategy's keys or printed values contain a brace |
| `AutoMailService.GenerateMailContent` | Services/AutoMailService.cs:76-109 | recipient missing, then template missing, then unknown code, each with its own failure; success exactly when both lookups hit and the code upper-cases to one of the five; the recipient's address and name; the sender defaults |
| `AutoMailService.RecipientCheckedFirst` | Services/AutoMailService.cs:79-80 | a missing recipient fails the same way whatever the templates and the random draws |
| `AutoMailService.GeneratedIsExpansion` | Services/AutoMailService.cs:96-98 | for any tables, the subject and body are the expansions of the template's patterns |
| `AutoMailService.GeneratedHasNoTokens` | Services/AutoMailService.cs:96-98 | for any tables, a template whose tokens match the data's keys renders with no `{...}` token left |
| `AutoMailService.ShippedGenerationOutcome` | Services/AutoMailService.cs:79-94 | with the shipped tables, generation succeeds exactly for the five codes and otherwise fails at the recipient step |
| `AutoMailService.LookupIsCaseSensitive` | Services/AutoMailService.cs:79-120 | "pe" gets data from the upper-casing switch but fails at the case-sensitive recipient lookup |
| `AutoMailService.ShippedContentIsExpansion` | Services/AutoMailService.cs:76-109 | for each code, the shipped subject and body are the code's patterns expanded for the code's recipient |
| `AutoMailService.ShippedContentHasNoTokens` | Services/AutoMailService.cs:76-109 | rendering any registered code leaves no `{...}` token in subject or body |
| `AutoMailService.GeneratedProductionReport` | Services/AutoMailService.cs:76-109 | the production employee's generated mail goes to the registered address, is titled "Production Report - 05 March 2024" for 5 March 2024, and its body shows "Units Produced: " with the drawn units and the message that units at or above the target of 100 select |
| `AutoMailService.WithAddendum` | Services/AutoMailService.cs:49-53 | the body is kept as a prefix; it changes exactly when the message is non-null and non-empty, and then gains the heading and the message |
| `AutoMailService.GenerateAndSendMail` | Services/AutoMailService.cs:33-74 | failed generation gives its message and the send is never called; the sent body has the addendum; success exactly when generation and delivery succeed, with `SentAt` now and the content's recipient; a send fault gives "Error: " + message; `SentAt` is the default value unless the send succeeded |
| `AutoMailService.DispatchKeepsGeneratedFields` | Services/AutoMailService.cs:49-56 | the mail handed to the send is the generated one except for the addendum after the body |
| `TestPageController.NormalizeCode` | Controllers/t23c3_testpageController.cs:48 | the normalised code is trimmed, has no lower-case letter, and is empty exactly when the input was all white space |
| `TestPageController.NormalizeIdempotent` | Controllers/t23c3_testpageController.cs:48 | normalising twice is normalising once |
| `TestPageController.NormalizeExample` | Controllers/t23c3_testpageController.cs:48 | " pe " normalises to "PE" |
| `TestPageController.NoticeOf` | Controllers/t23c3_testpageController.cs:56-65 | the notice is a success exactly when the send succeeded; it then names the address and the time stamp, and otherwise shows the result's message |
| `TestPageController.SendMail` | Controllers/t23c3_testpageController.cs:36-74 | an empty code gives "Please provide a valid code" and no service call; otherwise the service gets the normalised code with the date and addendum unchanged |
| `TestPageController.SendMailReportsDelivery` | Controllers/t23c3_testpageController.cs:54-64 | a delivered mail is reported with the normalised code's registered address and the send time; a send fault shows "Error: " + message |
| `TestPageController.BlankCodeFailsGeneration` | Controllers/t23c3_testpageController.cs:40-54 | a code of blanks passes the empty check, normalises to "", and ends in the generation failure without any send |
| `TestPageController.ShippedHasNoBlankCode` | Services/AutoMailService.cs:199-206 | the shipped tables register nothing under the empty code |
| `TestPageController.PreviewMail` | Controllers/t23c3_testpageController.cs:79-109 | an empty code is refused; otherwise a generation failure gives the fixed message, and a success copies the four fields |
| `TestPageController.PreviewSucceedsIffSendReachesSmtp` | Controllers/t23c3_testpageController.cs:83-102 | the preview succeeds exactly when sending reaches the SMTP call, whatever random numbers each of the two requests draws |
| `TestPageController.PreviewMatchesSend` | Controllers/t23c3_testpageController.cs:83-102 | for the same random draws, the preview shows the mail sending would hand to SMTP, minus the addendum |
| `TestPageController.GetDataForCodeAction` | Controllers/t23c3_testpageController.cs:131-154 | an empty code gives "Code is required"; otherwise the service's response for the normalised code is passed through |
| `TestPageController.DataActionOutcome` | Controllers/t23c3_testpageController.cs:135-147 | a non-empty code succeeds exactly when it normalises to one of the five spellings, and otherwise gets the unknown-code response |
| `TestPageController.DataActionNormalizes` | Controllers/t23c3_testpageController.cs:140 | the action's reply is the same as for a code normalised beforehand |
| `TestPageController.GetAvailableCodes` | Controllers/t23c3_testpageController.cs:114-126 | the list has five entries |
| `TestPageController.AvailableCodesDistinct` | Controllers/t23c3_testpageController.cs:116-123 | no code is listed twice |
| `TestPageController.AvailableCodesRegistered` | Controllers/t23c3_testpageController.cs:116-123 | every listed code has a recipient in the listed department, except IT: its department reads "Information Technology" on the page and "IT" in the table |
| `TestPageController.RegisteredCodesAvailable` | Controllers/t23c3_testpageController.cs:116-123 | every code with a recipient is listed |

## Left out

- **The SMTP transport** (`SendEmailAsync`, `Services/AutoMailService.cs:152-176`).
  It is network I/O. What it did is the `SendOutcome` parameter.
- **Async execution.** `async`/`Task`, `Task.Delay` and the request pipeline do not
  change any value, so the model is sequential.
- **Logging, `TempData`, `Json` and `RedirectToAction`.** The results are modelled
  as the values they carry: `Notice`, `Preview` and `DataReply`.
- **The controller's `catch` blocks.** Nothing the service does in the model can
  throw: every failure is a returned value. `GenerateAndSendMailAsync`'s own
  `catch` is modelled, for the send.
- **The view actions and `Controllers/Simple.cs`.** These are the index page,
  `MailHistory` and a second SMTP path; they are presentation or I/O.
- **Hosting, `Program.cs`, `Startup.cs`, and the `Test.cs` fragment.**
  Configuration plumbing is reduced to an `EmailSettings` value.
- **Culture.** `ToUpper`, `Trim`, month names and `"N0"` are fixed to en-US with
  ASCII letter case. Non-ASCII letters are left unchanged by `ToUpper`.
- **Line endings.** The verbatim template strings are assumed to use "\n".
- **Time of day.** `DateTime` keeps seconds. `{Date}` uses only the date part, and
  the model does not describe ticks.
- **Null `code`.** A null `code` is the empty string: `string.IsNullOrEmpty` sends
  both down the same branch. A null addendum is `None`.
- **`MailTemplate.RequiredData` and `DataRequest`.** Neither is used by any logic.
- TestPageController.GetAvailableCodes: its own contract states only the length.
  The list's contents are stated against the recipient table by
  `AvailableCodesDistinct`, `AvailableCodesRegistered` and
  `RegisteredCodesAvailable`.

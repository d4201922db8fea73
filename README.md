# Course-plan form: a Dafny model

The repository is a single-page form that a lecturer fills in to request
that a course ("disciplina") be set up on the virtual learning environment.
The form has several parts:

- static fields: class, semester, course, credits, sites, books and webconf;
- a list of modules, each with resources;
- a list of evaluations;
- an attendance ("frequência") table whose hours are summed into a total.

The page autosaves a draft, reloads it at startup and validates every
required input before export. `handleExport(type)` hands the collected
data to the word-processor renderer for `'word'` and to the PDF renderer
(an HTML page printed to PDF) for any other type; the page's only export
button asks for `'word'`.

This project models that core in Dafny and proves properties about the model.

- `text.dfy` (`Text`) models the string built-ins the page relies on:
  - `trim`, `split` and `join`;
  - `replace(/\n/g, …)`;
  - base-10 `parseInt`;
  - number-to-text conversion.
- `draft.dfy` (`Draft`) holds:
  - the records the getters read out of the form, and the option lists of its selects;
  - how `addResource`/`addEvaluation` fill a card from saved data;
  - the hours arithmetic of `calculateTotalCH`;
  - the module header labels;
  - the rules that decide which inputs are shown.
- `validator.dfy` (`Validator`) models `validateForm`. Its list of flagged
  inputs is specified as a function in the order the page visits the inputs.
  The imperative walk that calls `setError` is proved equal to that function,
  and each flagged input is proved to be exactly one whose rule fails.
- `form.dfy` (`FormState`) models the page itself as a class `Form`.
  - Its fields are the static inputs, the module cards, the evaluation cards,
    the attendance rows, the `total_ch` output, the module counter and the
    storage slot.
  - Its methods model startup, the add/remove/edit handlers, the getters,
    `saveDraft`, `loadDraft`, `clearDraft` and the export gate `handleExport`.
- `word.dfy` (`WordExport`) models the word-processor renderer:
  - cell text split into paragraphs;
  - placeholders and date formatting;
  - the webconf text;
  - the module, evaluation and attendance tables;
  - the file name.
- `pdf.dfy` (`PdfExport`) models the HTML the PDF renderer assembles, and
  compares it with the word-processor renderer.

Two behaviours of the source are recorded as they are rather than unified.

1. **Score and rubric.** The word-processor renderer prints a resource's
   score and rubric whenever they are non-empty, whatever scoring method is
   selected. The PDF renderer prints them only for the selected method. See
   `WordExport.DetailsIgnoreMethod`, `PdfExport.ResourceScoreText` and
   `PdfExport.ScoreUnderNenhum`.
2. **Webconf fallback.** The word-processor renderer writes the webconf
   fallback text as `processText(url) || "Link Personalizado (Não informado)"`.
   `processText` never returns an empty string, so the fallback is never
   reached, and a custom webconf without a URL prints "-". The PDF renderer
   prints the notice instead. See `WordExport.WebconfText` and
   `PdfExport.WebconfAgreement`.

Notes on the source's behaviour:

- `addDefaultEvaluations` creates four evaluations: Autoavaliação, NPC,
  2ª Chamada NPC and NEF. The two NPC entries are separate cards.
- The two renderers do not produce identical content. They differ on:
  - the score and rubric, and the webconf line, as described above;
  - empty module titles ("---" versus the empty string);
  - the "Tipo:" line of an Autoavaliação;
  - dates that are not in ISO form.
- `getFrequencyData` drops the attendance rows that are entirely empty.
  Saving and reloading therefore does not give back the same table: it gives
  back the table without its empty rows, with the same total (`FormState.SaveAndReload`).
- Only the word-processor export is wired: the one export button
  (`btn-generate-word`) calls `handleExport('word')`. `main.js` is an ES
  module, so `handleExport` is not reachable from elsewhere, and nothing in
  `main.js` passes another type. The branch that calls `generatePDF` is
  therefore unreachable from the page as shipped; the PDF renderer is still
  modelled, and `FormState.KindOf` states the branch as written.
- `loadDraft` runs before `setupEventListeners`, so the change event that
  `setStaticData` dispatches on the webconf select reaches no handler. After
  a reload the URL input keeps the visibility the markup gives it, while a
  custom webconf without a URL is still flagged by the validator
  (`FormState.ReloadedCustomUrlHidden`).

## Model

| member | source | states |
|---|---|---|
| Text.TrimEmptyIffBlank | js/main.js:565-568 | `s.trim()` is empty exactly when every character of `s` is whitespace, which is the test behind each `!el.value.trim()` check |
| Text.SplitJoin | js/exporters/word.js:53-57 | joining parts that contain no separator and splitting the result again gives back the parts |
| Text.JoinSplit | js/exporters/pdf.js:19 | splitting on a character and joining on that character gives back the string |
| Text.ReplaceAllIsJoinSplit | js/exporters/pdf.js:18 | replacing every line break by a text equals splitting at line breaks and joining with that text |
| Text.ParseIntOfIntToString | js/main.js:461-468 | `parseInt` reads back every integer the total is written as |
| Text.ParseInt | js/main.js:464-465 | `parseInt("")` is NaN, so an empty hours field adds nothing |
| Text.ParseIntLeadingChar | js/main.js:464-465 | a value starting with a digit parses to a number that is not negative; one starting with anything but whitespace, a sign or a digit is NaN |
| Draft.RequiredStaticIds | js/main.js:562-563 | the static ids the validator requires are exactly all ids except the webconf choice and its URL, and every one of them is read by `getStaticData` |
| Draft.SelectValue | js/main.js:338-348 | setting a select to one of its options selects it; any other value leaves the select reading "", so it always reads an option or "" |
| Draft.LoadResource | js/main.js:335-356 | a resource card filled from saved data has each select holding one of its options |
| Draft.LoadResourceIdentity | js/main.js:335-356 | filling a resource card from saved data gives the data back exactly when the data's selects hold valid options |
| Draft.LoadEvaluation | js/main.js:406-422 | an evaluation card filled from saved data has valid selects, and an empty id becomes "NPC" |
| Draft.LoadEvaluationIdentity | js/main.js:406-422 | filling an evaluation card gives the data back exactly when its selects are valid and its id is not empty |
| Draft.LoadResources | js/main.js:89-90 | one resource card per saved resource |
| Draft.LoadEvaluations | js/main.js:94-95 | one evaluation card per saved evaluation |
| Draft.SumHoursSigns | js/main.js:461-468 | the total is not negative when no row's hours are, and is 0 when no row's hours parse |
| Draft.SumHoursStep | js/main.js:463-466 | the loop's step adds the row's parsed hours, or 0 when they are NaN |
| Draft.SumHoursTextEdit | js/main.js:436-450 | editing a row's date or description leaves the total unchanged |
| Draft.SumHoursAppend | js/main.js:461-468 | the total of two tables placed end to end is the sum of their totals |
| Draft.SumHoursRemove | js/main.js:445-448 | removing a row lowers the total by exactly that row's hours |
| Draft.SumHoursUpdate | js/main.js:450 | editing a row's hours changes the total by the difference |
| Draft.NonBlankRows | js/main.js:194-205 | every kept row is a row of the table and not empty, and every non-empty row is kept |
| Draft.NonBlankRowsSingle | js/main.js:197-203 | one row is kept exactly when it is not empty |
| Draft.NonBlankRowsAppend | js/main.js:194-205 | filtering distributes over concatenation, so the kept rows keep the table's order |
| Draft.NonBlankRowsSameHours | js/main.js:194-205 | dropping the empty rows does not change the total hours |
| Draft.NonBlankRowsKeepsFullTable | js/main.js:194-205 | a table without empty rows is exported unchanged |
| Draft.LabelPrefixOfModuleLabel | js/main.js:263-267 | the `/^Módulo \d+/` match of a numbered header is exactly "Módulo n" |
| Draft.TitleEditKeepsNumbering | js/main.js:251-269 | editing a title keeps the module's number and shows the new title (or none when it is empty) |
| Draft.ExportModules | js/main.js:142-171 | one exported module per card, in order: module i carries index i+1 and card i's title, intro and resources |
| Draft.ImportModules | js/main.js:86-91 | the cards rebuilt from saved modules are numbered 1..n and have valid selects |
| Draft.ImportExportModules | js/main.js:142-171 | rebuilding cards from their own export gives back the same cards |
| Draft.ExportImportModules | js/main.js:84-91 | exporting the cards rebuilt from saved modules numbered 1..n with valid selects gives back those modules |
| Draft.ScoreAndRubricExclusive | js/main.js:513-530 | the score input and the rubric input are never shown together |
| Validator.InWindowRefs | js/main.js:593-600 | a date window flags its toggle when nothing is selected, and its date and time (each only when empty) under "Sim" |
| Validator.InScoringRefs | js/main.js:612-620 | the scoring check flags the method when none is selected, the score under "Pontuação", the rubric under "Rúbrica" |
| Validator.InResourceHeadRefs | js/main.js:585-590 | a resource's title and description are flagged when blank and its type when unselected |
| Validator.InResourceRefsField | js/main.js:584-621 | a resource input is flagged exactly when its rule fails |
| Validator.ResourceRefsShape | js/main.js:584-621 | a resource only ever flags its own inputs |
| Validator.InResourceRefs | js/main.js:584-621 | membership in a resource's flags is exactly a failing rule of that resource |
| Validator.InEvaluationHeadRefs | js/main.js:628-631 | an evaluation's type and description are flagged when blank |
| Validator.InEvaluationRefsField | js/main.js:625-663 | a non-Autoavaliação evaluation input is flagged exactly when its rule fails |
| Validator.EvaluationRefsShape | js/main.js:625-663 | an evaluation only ever flags its own inputs |
| Validator.InEvaluationRefs | js/main.js:625-663 | membership in an evaluation's flags is a failing rule of a non-Autoavaliação evaluation |
| Validator.InStaticViolations | js/main.js:565-568 | a static input is flagged exactly when it is listed and blank |
| Validator.InResourcesViolations | js/main.js:584-621 | the flags of a module's resources are those of each resource |
| Validator.InModuleViolations | js/main.js:578-583 | a module flags its blank title and intro and its resources' failing inputs |
| Validator.InModulesViolations | js/main.js:578-622 | the module flags are exactly those of each module |
| Validator.InEvaluationsViolations | js/main.js:625-663 | the evaluation flags are exactly those of each evaluation |
| Validator.InRowViolations | js/main.js:666-678 | a row flags an empty date, empty hours and a blank description |
| Validator.InFreqViolations | js/main.js:666-678 | the attendance flags are exactly those of each row |
| Validator.Violations | js/main.js:550-686 | the flagged inputs come in the validator's walk order: static inputs, then modules, then evaluations, then attendance rows |
| Validator.ViolationsMatchRules | js/main.js:550-686 | an input is flagged exactly when one of the validator's rules fails for it |
| Validator.WebconfRule | js/main.js:571-575 | the webconf choice is never flagged, and a blank custom URL is |
| Validator.AutoavaliacaoExempt | js/main.js:626-627 | no input of an Autoavaliação is ever flagged |
| Validator.EvaluationsViolationsPointwise | js/main.js:625-663 | evaluation flags depend on each evaluation alone |
| Validator.AutoavaliacaoContentIrrelevant | js/main.js:626-627 | replacing an Autoavaliação by another one with any content leaves the flags unchanged |
| Validator.EmptyRowFails | js/main.js:666-678 | an attendance row left empty makes the form invalid |
| Validator.PassingFormKeepsAllRows | js/main.js:194-205 | a form that passes validation has no empty row, so the exported table is the whole table |
| Validator.SampleStaticPasses | js/main.js:565-575 | filled static fields with the standard webconf pass the static checks without a URL |
| Validator.SampleModulesPass | js/main.js:578-622 | a filled module passes with one resource open in dated "Sim" windows and scored under "Pontuação" |
| Validator.SampleNpcPasses | js/main.js:625-663 | an NPC with type, description, dated "Sim" windows and a "Pontuação" score meets every evaluation rule |
| Validator.SampleEvaluationsAndRowsPass | js/main.js:625-678 | an Autoavaliação with nothing filled, then a filled NPC, and a filled row pass |
| Validator.MinimalFormPasses | js/main.js:550-686 | a satisfiable form exists: the sample passes the whole validator |
| Validator.FlaggedInputsAreShown | js/main.js:472-530 | while the URL input's visibility follows the webconf select, every flagged input is visible under the toggle, method, id and webconf rules |
| Validator.HiddenCustomUrlFlagged | js/main.js:570-575 | a blank URL under a custom webconf is flagged even when the URL input is hidden |
| Validator.SetError | js/main.js:554-559 | marking an input appends it to the flagged list and keeps the first error the first flagged input |
| Validator.CheckWindow | js/main.js:593-609 | the toggle check appends exactly the window's flags |
| Validator.CheckDateTime | js/main.js:595-600 | the date and time checks append exactly the empty ones |
| Validator.CheckScoring | js/main.js:612-620 | the scoring check appends exactly the scoring flags |
| Validator.CheckResourceHead | js/main.js:585-590 | the title, description and type checks append exactly their flags |
| Validator.CheckResource | js/main.js:584-621 | a resource's checks append exactly its flags, in order |
| Validator.CheckEvaluationHead | js/main.js:628-631 | the type and description checks append exactly their flags |
| Validator.CheckEvaluation | js/main.js:625-663 | an evaluation's checks append exactly its flags (none for an Autoavaliação) |
| Validator.CheckStatic | js/main.js:562-575 | the static and webconf checks append exactly their flags |
| Validator.CheckModule | js/main.js:578-622 | a module's checks append exactly its flags |
| Validator.CheckModules | js/main.js:578-622 | the module loop appends the flags of every module in order |
| Validator.CheckEvaluations | js/main.js:625-663 | the evaluation loop appends the flags of every evaluation in order |
| Validator.CheckRow | js/main.js:666-678 | a row's checks append exactly its flags |
| Validator.CheckRows | js/main.js:666-678 | the row loop appends the flags of every row in order |
| Validator.ValidateForm | js/main.js:550-686 | the form is valid exactly when nothing is flagged, and the first error is the first flagged input |
| FormState.Renumbered | js/main.js:292-298 | renumbering numbers every header 1..n and changes nothing else of a card |
| FormState.RenumberedIdentity | js/main.js:292-298 | renumbering changes nothing exactly when the headers are already numbered, and renumbering twice is renumbering once |
| FormState.RemoveModuleShifts | js/main.js:240-246 | after a removal and renumbering, the later modules move up one place and are renumbered |
| FormState.AppendNewModuleNumbered | js/main.js:211-214 | a new card "Módulo n+1" after n numbered cards leaves the list numbered |
| FormState.EmptyRowAddsNoHours | js/main.js:435-459 | adding an empty row does not change the total hours |
| FormState.EmptyRowNoHours | js/main.js:464-465 | an empty row contributes no hours |
| FormState.AppendRowHours | js/main.js:461-468 | a row added at the end adds its own hours to the total |
| FormState.RestoreFields | js/main.js:131-140 | restoring sets exactly the saved ids the page has, and leaves the others |
| FormState.DraftRoundTrip | js/main.js:56-109 | saving and loading gives back the static fields, the module cards and the evaluations, and gives back the attendance table without its empty rows and with the same total |
| FormState.ReloadedDraftStable | js/main.js:74-109 | a draft the page could have stored (modules numbered 1..n, valid selects, evaluation ids set, no empty row), loaded and saved again, is the same draft |
| FormState.ReloadedCustomUrlHidden | js/main.js:11-13 | a reloaded draft with a custom webconf and no URL leaves the URL input hidden when the markup hides it, and the validator flags it there |
| FormState.KindOf | js/main.js:545-546 | `'word'` selects the word-processor renderer and anything else the PDF |
| FormState.Form.constructor | js/main.js:209 | the page before startup: markup values and URL visibility, no cards, counter 0 |
| FormState.Form.Start | js/main.js:11-23 | startup loads a stored draft, or otherwise seeds two modules, the default evaluations and one empty row |
| FormState.Form.Seed | js/main.js:16-21 | seeding adds "Módulo n+1" and "Módulo n+2", the four default evaluations and an empty row |
| FormState.Form.AddModule | js/main.js:211-290 | `addModule` appends a card "Módulo n+1" and increments the counter |
| FormState.Form.RenumberModules | js/main.js:292-298 | every header is rewritten from its position, and nothing else changes |
| FormState.Form.SetModuleTitle | js/main.js:251-269 | a title edit updates the title and the header label and keeps the numbering |
| FormState.Form.SetModuleIntro | js/main.js:230 | an intro edit changes that module's intro only |
| FormState.Form.RemoveModule | js/main.js:240-246 | a confirmed removal deletes the module, renumbers the rest and saves the draft; an unconfirmed one changes nothing |
| FormState.Form.AddResource | js/main.js:271-273 | `addResource` appends an empty resource to that module |
| FormState.Form.RemoveResource | js/main.js:320 | removing a resource deletes it from its module only |
| FormState.Form.SetResource | js/main.js:300-321 | editing a resource's inputs replaces that resource only |
| FormState.Form.AddEvaluation | js/main.js:360-426 | `addEvaluation()` appends a card showing its first identity, Autoavaliação |
| FormState.Form.AddEvaluationWith | js/main.js:406-425 | `addEvaluation(data)` appends the card filled from the data |
| FormState.Form.AddDefaultEvaluations | js/main.js:428-433 | appends Autoavaliação, NPC, 2ª Chamada NPC and NEF |
| FormState.Form.RemoveEvaluation | js/main.js:381-383 | a confirmed removal deletes that evaluation; an unconfirmed one changes nothing |
| FormState.Form.SetEvaluation | js/main.js:364-379 | editing an evaluation's inputs replaces that evaluation only |
| FormState.Form.AddFreqRow | js/main.js:435-459 | `addFreqRow()` appends an empty row and keeps a correct total correct |
| FormState.Form.AddFreqRowWith | js/main.js:452-458 | `addFreqRow(data)` appends the given row |
| FormState.Form.RemoveFreqRow | js/main.js:445-448 | removing a row deletes it and recomputes the total, which drops by that row's hours |
| FormState.Form.SetFreqHours | js/main.js:450 | editing hours recomputes the total, which changes by the difference |
| FormState.Form.SetFreqText | js/main.js:436-450 | editing a row's date or description keeps a correct total correct |
| FormState.Form.CalculateTotalCH | js/main.js:461-468 | `total_ch` becomes the sum of the parsed hours of all rows, and nothing else changes |
| FormState.Form.SetStatic | js/main.js:36-42 | editing a static input changes that input only, and a change of the webconf select shows the URL input exactly for "personalizado" |
| FormState.Form.GetStaticData | js/main.js:121-129 | the getter returns every static input by id |
| FormState.Form.GetModulesData | js/main.js:142-171 | the getter returns each module with its 1-based index, title, intro and resources |
| FormState.Form.GetEvaluationsData | js/main.js:173-192 | the getter returns every evaluation in order |
| FormState.Form.GetFrequencyData | js/main.js:194-205 | the getter returns the rows kept by `NonBlankRows`: the non-empty rows, in order |
| FormState.Form.SaveDraft | js/main.js:56-72 | saving stores the getters' results and changes nothing else |
| FormState.Form.LoadDraft | js/main.js:74-109 | with a draft stored, the form is rebuilt from it and the total is correct; with none, nothing changes |
| FormState.Form.LoadModules | js/main.js:84-91 | the module cards are rebuilt from the saved modules |
| FormState.Form.LoadEvaluationCards | js/main.js:93-95 | the evaluation cards are rebuilt from the saved evaluations |
| FormState.Form.LoadRows | js/main.js:97-100 | the attendance rows are rebuilt from the saved rows |
| FormState.Form.ClearDraft | js/main.js:111-116 | a confirmed clear empties storage and returns to the seeded page; an unconfirmed one changes nothing |
| FormState.Form.HandleExport | js/main.js:532-547 | a renderer is called exactly when nothing is flagged, with the getters' payload; otherwise the first flagged input is reported |
| FormState.SaveAndReload | js/main.js:56-109 | saving then loading keeps the fields, modules and evaluations, drops only empty rows and keeps the total |
| WordExport.SafeText | js/exporters/word.js:47 | a string is kept as is, and a missing value becomes "-" |
| WordExport.ProcessText | js/exporters/word.js:48-51 | a present non-empty string is kept as is, any other value becomes "-", so the result is never empty |
| WordExport.ProcessVersusSafe | js/exporters/word.js:47-51 | `processText` and `safeText` differ only on "", `processText` is never empty, and `safeText` is empty only on "" |
| WordExport.FormatDate | js/exporters/word.js:53-57 | the formatted date is empty exactly when the input is |
| WordExport.FormatDateIso | js/exporters/word.js:53-57 | "y-m-d" becomes "d/m/y" |
| WordExport.FormatDateWithoutDash | js/exporters/word.js:53-57 | a date without '-' prints as "undefined/undefined/s" |
| WordExport.WebconfText | js/exporters/word.js:59-63 | the standard tool unless webconf is custom, then the processed URL, which is "-" without one (the fallback is never reached) |
| WordExport.KeepNonBlank | js/exporters/word.js:16-17 | only lines with visible text are kept, each from the input |
| WordExport.KeepNonBlankAppend | js/exporters/word.js:15-29 | filtering lines distributes over concatenation |
| WordExport.KeepNonBlankAll | js/exporters/word.js:15-29 | lines that all have visible text are kept unchanged |
| WordExport.CreateCell | js/exporters/word.js:14-29 | a cell's paragraphs are its non-blank lines, none containing a line break |
| WordExport.ParagraphsOfCleanText | js/exporters/word.js:14-29 | text whose lines are all non-blank is split into paragraphs losslessly |
| WordExport.CollectDates | js/exporters/word.js:142-144 | the start and end parts are pushed only for non-empty dates |
| WordExport.ResourceDetails | js/exporters/word.js:146-150 | the details cell is the dates line, the scoring lines, a blank line and the description |
| WordExport.AppendScoring | js/exporters/word.js:148-149 | the score and rubric lines are appended when non-empty |
| WordExport.DetailsIgnoreMethod | js/exporters/word.js:148-149 | the details do not depend on the selected scoring method |
| WordExport.DetailsEndWithDescription | js/exporters/word.js:150 | the details end with a line break followed by the description |
| WordExport.PlainDetailsParagraphs | js/exporters/word.js:146-155 | without dates or scoring, the details cell shows exactly the description's paragraphs |
| WordExport.EvalPeriod | js/exporters/word.js:178-181 | the period is "-" exactly when a date is missing |
| WordExport.EvalDetails | js/exporters/word.js:187-189 | the details are the fixed Moodle text exactly for an Autoavaliação |
| WordExport.AutoavaliacaoDetailsFixed | js/exporters/word.js:187-188 | two Autoavaliações print the same details whatever their content |
| WordExport.ResourceRows | js/exporters/word.js:141-159 | one row per resource |
| WordExport.ModuleRowsCount | js/exporters/word.js:119-163 | a module takes its header, its intro when present, a header row and one row per resource (or the "no resources" row) |
| WordExport.ModulesRowsCount | js/exporters/word.js:119-163 | every module takes at least two rows |
| WordExport.PushResources | js/exporters/word.js:141-159 | the resource loop appends one row per resource, in order |
| WordExport.PushModule | js/exporters/word.js:119-163 | the module body appends exactly that module's rows |
| WordExport.ModulesTable | js/exporters/word.js:117-164 | the modules table is the title row followed by every module's rows |
| WordExport.EvaluationsTable | js/exporters/word.js:167-201 | two header rows, then row 2+e is evaluation e |
| WordExport.FrequencyTable | js/exporters/word.js:219-234 | two header rows, one row per attendance row, and the total last |
| WordExport.FileName | js/exporters/word.js:252 | "Planejamento_" followed by the course name, or by "Disciplina" when the name is empty, and ending in ".docx" |
| PdfExport.ProcessText | js/exporters/pdf.js:18 | "---" for a missing or empty value; a present value without line breaks is kept as is; the result is never empty and holds no line break |
| PdfExport.FormatDate | js/exporters/pdf.js:19 | the formatted date is empty exactly when the input is |
| PdfExport.ProcessTextJoinsLines | js/exporters/pdf.js:18 | a present text's lines are joined with "<br>" |
| PdfExport.FormatDateAgreesOnIso | js/exporters/pdf.js:19 | on "y-m-d" the PDF writes "d/m/y", as the word-processor file does |
| PdfExport.FormatDateDiffersOnTwoParts | js/exporters/pdf.js:19 | on "y-m" the PDF writes "m/y" where the word-processor file writes "undefined/m/y" |
| PdfExport.WebconfText | js/exporters/pdf.js:22-25 | the standard tool unless webconf is custom; then the URL, or the notice when it is empty |
| PdfExport.WebconfAgreement | js/exporters/pdf.js:22-25 | both renderers write the same webconf line except for a custom webconf without a URL |
| PdfExport.ResourcePeriod | js/exporters/pdf.js:76-78 | the period line is present exactly when one of the dates is |
| PdfExport.ResourceScoreText | js/exporters/pdf.js:80-82 | a score text is printed exactly under "Pontuação" or "Rúbrica" |
| PdfExport.BuildDetails | js/exporters/pdf.js:76-89 | the details cell is the period, the bold score and the processed description |
| PdfExport.ScoreUnderNenhum | js/exporters/pdf.js:80-82 | under "Nenhum" a typed score appears in the word-processor details but not in the PDF |
| PdfExport.RubricHidesScore | js/exporters/pdf.js:80-82 | under "Rúbrica" the score input does not affect the PDF |
| PdfExport.ModuleHeadingsAgreeIffTitled | js/exporters/pdf.js:70 | the module headers of the two renderers agree exactly when the title is not empty |
| PdfExport.AppendResources | js/exporters/pdf.js:75-92 | the resource loop appends one row per resource, in order |
| PdfExport.AppendModule | js/exporters/pdf.js:70-95 | a module's header, its intro when present, and its resources (or "Nenhum recurso cadastrado.") |
| PdfExport.AppendModules | js/exporters/pdf.js:66-97 | section 3 is its title and every module's rows in one table |
| PdfExport.EvalPeriod | js/exporters/pdf.js:104-105 | the period is "-" exactly when a date is missing |
| PdfExport.EvaluationColumnsAgree | js/exporters/pdf.js:103-112 | the score column equals the word-processor one, and both omit the period in the same cases |
| PdfExport.AutoavaliacaoDetailsDiffer | js/exporters/pdf.js:111-118 | an Autoavaliação keeps "Tipo: …" before "Padrão Moodle" in the PDF, but gets only the fixed text in the word-processor file |
| PdfExport.EvaluationCells | js/exporters/pdf.js:104-112 | period, score and description are assigned as the cells require |
| PdfExport.AppendEvaluations | js/exporters/pdf.js:99-121 | section 4 is its header and one row per evaluation |
| PdfExport.AppendFrequency | js/exporters/pdf.js:134-140 | section 6 is one row per attendance row and then the total |
| PdfExport.FileName | js/exporters/pdf.js:146 | the same prefix and stem as the word-processor file, ending in ".pdf" |
| PdfExport.FileNamesShareStem | js/exporters/pdf.js:146 | the two file names differ only in their extension |

## Left out

- Timers, toasts, focus, scrolling, the scroll spy and animations.js: they are presentation only. The 1-second autosave debounce is not modelled. `SaveDraft` is a method that callers invoke; only `RemoveModule` invokes it itself, as the source does.
- `localStorage`, JSON encoding and `location.reload()`. The storage slot is a field holding the saved `Draft` value. A JSON parse failure cannot occur on that value. The reload after `clearDraft` is modelled as resetting the page to its markup values and running startup again.
- `confirm()` is replaced by a boolean argument.
- Error borders (`el.style.border`) are not modelled. The validator's visible effect is modelled as the ordered list of flagged inputs and the first of them.
- The docx and html2pdf libraries are not modelled. The word-processor file is modelled as the text of each table cell. The PDF is modelled as the HTML string. Style attributes and template whitespace are dropped from that HTML.
- The static tables of both renderers (identification, material, grade calculation) and their fixed introductory paragraphs. They place static values next to fixed labels. Only the webconf line, which has logic of its own, is modelled.
- `Text.ParseInt` models `parseInt(s)` in base 10 as leading whitespace, an optional sign and the longest run of digits, with NaN when there is no digit. Hexadecimal prefixes, `Infinity` and exponent forms are out of scope. The browser also sanitises `type="number"` and `type="date"` inputs, and neither that nor the `min`/`max` bounds of the hours input are modelled.
- The static inputs are the thirteen ids of `getStaticData`, as a Dafny enumeration; an element missing from the page is a missing map key.
- Validator.ValidateForm: it requires that a custom webconf comes with a URL input on the page. The source would throw on a missing `mat_webconf` element.
- FormState.Form.AddEvaluation: the card's id select shows Autoavaliação, but its change handler is not run for a card created without data. The model records the values and not the stale visibility.
- FormState.Form.LoadDraft: the cards are rebuilt through `ImportModules` and `LoadEvaluations`. These state what `addModule(mod)`, `addResource(container, res)` and `addEvaluation(ev)` leave in the inputs. The DOM calls themselves are not modelled.
- `setupEventListeners` is not modelled beyond the handlers above. The resource "Tipo" change handler only relabels the card, and is also left out.
- Validator.FlaggedInputsAreShown: it assumes that the URL input's visibility follows the webconf select. That holds after any change of the select, but not after a reload, where the input keeps its markup visibility; `FormState.ReloadedCustomUrlHidden` states that case.
- The page markup (index.html) is not part of this model. Whether it shows the URL input before any change event is the constructor's `urlVisible` argument.
- Floating-point rounding is not modelled. `parseInt` of a digit string longer than about 15 digits, the running sum in `calculateTotalCH`, and `String(total)` above 2^53 (which switches to exponent notation) round in the browser. `Text.ParseInt`, `Draft.SumHours` and `Text.IntToString` are exact on unbounded integers.

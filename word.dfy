/** The text content of the word-processor document `generateWord` builds
    from the export payload: its placeholders, dates, webconf line, the
    paragraphs of a cell, the module, evaluation and attendance tables, and
    the file name. Fonts, borders, shading and widths are not modelled. */
module WordExport {
  import opened Text
  import opened Draft

  // ---------------------------------------------------------------------
  // Placeholders
  // ---------------------------------------------------------------------

  /** `safeText`: only a missing value becomes "-". */
  function SafeText(t: JsString): (r: string)
    ensures t.Str? ==> r == t.s
    ensures t == Undefined ==> r == "-"
  {
    match t
    case Undefined => "-"
    case Str(s) => s
  }

  /** `processText`: a missing or empty value becomes "-". */
  function ProcessText(t: JsString): (r: string)
    ensures r != ""
    ensures Truthy(t) ==> r == t.s
    ensures !Truthy(t) ==> r == "-"
  {
    if t == Undefined || t == Str("") then "-" else t.s
  }

  /** The two placeholders differ on the empty string only: `processText`
      never yields "" (so it is always truthy), `safeText` passes "" through. */
  lemma ProcessVersusSafe(t: JsString)
    ensures ProcessText(t) == SafeText(t) <==> t != Str("")
    ensures ProcessText(t) != ""
    ensures SafeText(t) == "" <==> t == Str("")
    ensures Truthy(t) ==> ProcessText(t) == t.s
  {
    if t == Str("") {
      assert ProcessText(t) == "-";
    }
  }

  // ---------------------------------------------------------------------
  // Dates
  // ---------------------------------------------------------------------

  /** Array destructuring of the parts: a missing part is `undefined`,
      which a template literal prints as "undefined". */
  function Part(parts: seq<string>, i: nat): string {
    if i < |parts| then parts[i] else "undefined"
  }

  /** `formatDate`: "" for an empty input; otherwise the first three
      '-'-separated parts as "d/m/y". */
  function FormatDate(dateStr: string): (r: string)
    ensures r == "" <==> dateStr == ""
  {
    if dateStr == "" then ""
    else
      var parts := Split(dateStr, '-');
      Part(parts, 2) + "/" + Part(parts, 1) + "/" + Part(parts, 0)
  }

  /** An ISO date "y-m-d" becomes "d/m/y". */
  lemma FormatDateIso(y: string, m: string, d: string)
    requires '-' !in y && '-' !in m && '-' !in d
    ensures FormatDate(y + "-" + m + "-" + d) == d + "/" + m + "/" + y
  {
    var parts := [y, m, d];
    assert Join([m, d], "-") == m + "-" + d by {
      assert [m, d][1..] == [d];
    }
    assert Join(parts, "-") == y + "-" + (m + "-" + d) by {
      assert parts[1..] == [m, d];
    }
    assert y + "-" + (m + "-" + d) == y + "-" + m + "-" + d;
    SplitJoin(parts, '-');
  }

  /** A non-empty date without '-' keeps only its year, behind two
      "undefined" parts. */
  lemma FormatDateWithoutDash(s: string)
    requires s != "" && '-' !in s
    ensures FormatDate(s) == "undefined/undefined/" + s
  {
    SplitNoSeparator(s, '-');
  }

  // ---------------------------------------------------------------------
  // Webconf
  // ---------------------------------------------------------------------

  const DEFAULT_WEBCONF: string := "Ferramenta Padrão (Moodle)"
  const MISSING_WEBCONF: string := "Link Personalizado (Não informado)"

  /** The "Webconf (Sala)" cell: `processText(url) || fallback` for a custom
      webconf. `processText` is never falsy, so the fallback is never
      reached: a custom webconf shows the URL, or "-" without one. */
  function WebconfText(fields: StaticFields): (r: string)
    ensures CustomWebconf(fields) ==> r == ProcessText(Field(fields, WebconfUrl))
    ensures CustomWebconf(fields) && (WebconfUrl !in fields || fields[WebconfUrl] == "") ==> r == "-"
    ensures !CustomWebconf(fields) ==> r == DEFAULT_WEBCONF
  {
    if CustomWebconf(fields) then Or(Str(ProcessText(Field(fields, WebconfUrl))), MISSING_WEBCONF)
    else DEFAULT_WEBCONF
  }

  // ---------------------------------------------------------------------
  // The paragraphs of a cell
  // ---------------------------------------------------------------------

  /** The lines whose trim is not empty, in order. */
  function KeepNonBlank(lines: seq<string>): (kept: seq<string>)
    ensures |kept| <= |lines|
    ensures forall k :: 0 <= k < |kept| ==> !IsBlank(kept[k]) && kept[k] in lines
  {
    if lines == [] then []
    else
      var init := KeepNonBlank(lines[..|lines| - 1]);
      var last := lines[|lines| - 1];
      assert forall k :: 0 <= k < |lines| - 1 ==> lines[k] == lines[..|lines| - 1][k];
      if IsBlank(last) then init else init + [last]
  }

  /** The paragraphs `createCell` makes of a string. */
  function Paragraphs(content: string): seq<string> {
    KeepNonBlank(Split(content, '\n'))
  }

  /** Filtering a concatenation filters each half. */
  lemma {:induction false} KeepNonBlankAppend(a: seq<string>, b: seq<string>)
    ensures KeepNonBlank(a + b) == KeepNonBlank(a) + KeepNonBlank(b)
    decreases |b|
  {
    if b == [] {
      assert a + b == a;
    } else {
      var b' := b[..|b| - 1];
      assert (a + b)[..|a + b| - 1] == a + b';
      KeepNonBlankAppend(a, b');
    }
  }

  /** Lines none of which is blank are all kept. */
  lemma {:induction false} KeepNonBlankAll(lines: seq<string>)
    requires forall k :: 0 <= k < |lines| ==> !IsBlank(lines[k])
    ensures KeepNonBlank(lines) == lines
  {
    if lines != [] {
      KeepNonBlankAll(lines[..|lines| - 1]);
      assert lines[..|lines| - 1] + [lines[|lines| - 1]] == lines;
    }
  }

  /** `createCell(content)`: one paragraph per line of the content whose
      trim is not empty, in order. */
  method CreateCell(content: string) returns (paragraphs: seq<string>)
    ensures paragraphs == Paragraphs(content)
    ensures forall k :: 0 <= k < |paragraphs| ==> '\n' !in paragraphs[k] && !IsBlank(paragraphs[k])
  {
    var lines := Split(content, '\n');
    paragraphs := [];
    var i := 0;
    while i < |lines|
      invariant 0 <= i <= |lines|
      invariant paragraphs == KeepNonBlank(lines[..i])
    {
      var line := lines[i];
      TrimEmptyIffBlank(line);
      if Trim(line) != "" {
        paragraphs := paragraphs + [line];
      }
      assert lines[..i + 1][..i] == lines[..i];
      i := i + 1;
    }
    assert lines[..i] == lines;
  }

  /** Text without blank lines comes back whole when its paragraphs are
      joined with line breaks. */
  lemma ParagraphsOfCleanText(content: string)
    requires forall k :: 0 <= k < |Split(content, '\n')| ==> !IsBlank(Split(content, '\n')[k])
    ensures Join(Paragraphs(content), "\n") == content
  {
    KeepNonBlankAll(Split(content, '\n'));
    JoinSplit(content, '\n');
  }

  // ---------------------------------------------------------------------
  // Resource details
  // ---------------------------------------------------------------------

  /** The "Início: …" and "Fim: …" parts, each only for a non-empty date. */
  function DateParts(startDate: string, startTime: string, endDate: string, endTime: string): seq<string> {
    (if startDate != "" then ["Início: " + FormatDate(startDate) + " " + startTime] else [])
    + (if endDate != "" then ["Fim: " + FormatDate(endDate) + " " + endTime] else [])
  }

  /** The dates line of the details: the parts joined with " | ", or nothing. */
  function DatesLine(res: Resource): string {
    var dates := DateParts(res.startDate, res.startTime, res.endDate, res.endTime);
    if dates != [] then Join(dates, " | ") + "\n" else ""
  }

  /** The score and rubric lines, each printed when its input is non-empty. */
  function ScoringLines(res: Resource): string {
    (if res.score != "" then "Nota: " + res.score + "\n" else "")
    + (if res.rubric != "" then "Rúbrica: " + res.rubric + "\n" else "")
  }

  /** The "Detalhamento" cell of a resource. */
  function Details(res: Resource): string {
    DatesLine(res) + ScoringLines(res) + "\n" + res.desc
  }

  /** `dates`: the start and end parts, pushed in order. */
  method CollectDates(res: Resource) returns (dates: seq<string>)
    ensures dates == DateParts(res.startDate, res.startTime, res.endDate, res.endTime)
  {
    dates := [];
    if res.startDate != "" {
      dates := dates + ["Início: " + FormatDate(res.startDate) + " " + res.startTime];
    }
    if res.endDate != "" {
      dates := dates + ["Fim: " + FormatDate(res.endDate) + " " + res.endTime];
    }
  }

  /** The resource `details` string, grown with `+=`. */
  method ResourceDetails(res: Resource) returns (details: string)
    ensures details == Details(res)
  {
    var dates := CollectDates(res);
    details := "";
    if |dates| > 0 {
      details := details + (Join(dates, " | ") + "\n");
    }
    assert details == DatesLine(res);
    details := AppendScoring(details, res);
    details := details + ("\n" + res.desc);
  }

  /** The score and rubric lines appended to the details. */
  method AppendScoring(details: string, res: Resource) returns (details': string)
    ensures details' == details + ScoringLines(res)
  {
    details' := details;
    if res.score != "" {
      details' := details' + ("Nota: " + res.score + "\n");
    }
    if res.rubric != "" {
      details' := details' + ("Rúbrica: " + res.rubric + "\n");
    }
  }

  /** The details ignore the scoring method: score and rubric are printed
      whenever they are non-empty. */
  lemma DetailsIgnoreMethod(res: Resource, evalMethod: string)
    ensures Details(res.(evalMethod := evalMethod)) == Details(res)
  {
  }

  /** The details always end with a line break and the description. */
  lemma DetailsEndWithDescription(res: Resource)
    ensures var s := Details(res);
      |s| > |res.desc| && s[|s| - |res.desc| - 1..] == "\n" + res.desc
  {
  }

  /** A resource with no dates, score or rubric shows just the paragraphs
      of its description: the empty line in front is dropped. */
  lemma PlainDetailsParagraphs(res: Resource)
    requires res.startDate == "" && res.endDate == "" && res.score == "" && res.rubric == ""
    ensures Paragraphs(Details(res)) == Paragraphs(res.desc)
  {
    assert Details(res) == [] + ['\n'] + res.desc;
    SplitConcat([], res.desc, '\n');
    KeepNonBlankAppend(Split([], '\n'), Split(res.desc, '\n'));
    var none: seq<string> := [[]];
    assert KeepNonBlank(none) == [] by {
      assert none[..0] == [];
      assert IsBlank(none[0]);
    }
  }

  // ---------------------------------------------------------------------
  // Evaluations
  // ---------------------------------------------------------------------

  /** The "Período" cell: both dates, or "-" unless both are set. */
  function EvalPeriod(ev: Evaluation): (r: string)
    ensures r == "-" <==> ev.startDate == "" || ev.endDate == ""
  {
    if ev.startDate != "" && ev.endDate != "" then
      FormatDate(ev.startDate) + " " + ev.startTime + "\na\n" + FormatDate(ev.endDate) + " " + ev.endTime
    else "-"
  }

  /** The "Pontuação" cell: the score under "Pontuação", the word "Rúbrica"
      under "Rúbrica", "-" otherwise. */
  function EvalScore(ev: Evaluation): string {
    if ev.evalMethod == PONTUACAO then SafeText(Str(ev.score))
    else if ev.evalMethod == RUBRICA then RUBRICA
    else "-"
  }

  const AUTO_DETAILS: string := "Autoavaliação padrão (Moodle)"

  /** The "Detalhes" cell: a fixed text for the Autoavaliação, otherwise
      the type and the description. */
  function EvalDetails(ev: Evaluation): (r: string)
    ensures ev.id == AUTOAVALIACAO <==> r == AUTO_DETAILS
  {
    if ev.id == AUTOAVALIACAO then AUTO_DETAILS
    else
      var r := "Tipo: " + SafeText(Str(ev.kind)) + "\n" + SafeText(Str(ev.desc));
      assert r[0] == 'T' && AUTO_DETAILS[0] == 'A';
      r
  }

  /** An Autoavaliação's row is the same whatever its type, description,
      score or rubric say. */
  lemma AutoavaliacaoDetailsFixed(ev: Evaluation, other: Evaluation)
    requires ev.id == AUTOAVALIACAO && other.id == AUTOAVALIACAO
    ensures EvalDetails(ev) == EvalDetails(other)
  {
  }

  // ---------------------------------------------------------------------
  // Tables
  // ---------------------------------------------------------------------

  /** The contents of the cells of one table row. */
  type Row = seq<string>

  const MODULES_HEADER: Row := ["CONTEÚDO PROGRAMÁTICO (MÓDULOS)"]
  const RESOURCES_HEADER: Row := ["Recurso", "Detalhamento"]
  const NO_RESOURCES: string := "Nenhum recurso cadastrado para este módulo."

  function ResourceRow(res: Resource): Row {
    [SafeText(Str(res.kind)) + ":\n" + SafeText(Str(res.title)), Details(res)]
  }

  function ResourceRows(rs: seq<Resource>): (rows: seq<Row>)
    ensures |rows| == |rs|
  {
    if rs == [] then [] else ResourceRows(rs[..|rs| - 1]) + [ResourceRow(rs[|rs| - 1])]
  }

  /** A module's rows: its header, its introduction when there is one, then
      its resources under a header row, or the "no resources" row. */
  function ModuleRows(mod: ModuleData): seq<Row> {
    ModuleHead(mod) + ModuleBody(mod.resources)
  }

  /** "Módulo n: title", then the introduction when there is one. */
  function ModuleHead(mod: ModuleData): seq<Row> {
    [[MODULE_WORD + NatToString(mod.index) + ": " + mod.title]]
    + (if mod.intro != "" then [[ProcessText(Str(mod.intro))]] else [])
  }

  /** The resources under their header row, or the "no resources" row. */
  function ModuleBody(rs: seq<Resource>): seq<Row> {
    if |rs| > 0 then [RESOURCES_HEADER] + ResourceRows(rs) else [[NO_RESOURCES]]
  }

  /** How many rows a module takes. */
  lemma ModuleRowsCount(mod: ModuleData)
    ensures |ModuleRows(mod)| == 2 + (if mod.intro != "" then 1 else 0) + |mod.resources|
  {
  }

  function ModulesRows(mods: seq<ModuleData>): seq<Row> {
    if mods == [] then [] else ModulesRows(mods[..|mods| - 1]) + ModuleRows(mods[|mods| - 1])
  }

  /** Each module's rows start with its header, so the table has one
      header per module, and the rows of all modules add up. */
  lemma {:induction false} ModulesRowsCount(mods: seq<ModuleData>)
    ensures |ModulesRows(mods)| >= 2 * |mods|
  {
    if mods != [] {
      ModulesRowsCount(mods[..|mods| - 1]);
      ModuleRowsCount(mods[|mods| - 1]);
    }
  }

  /** The rows of a module's resources, pushed in order. */
  method PushResources(rows: seq<Row>, rs: seq<Resource>) returns (rows': seq<Row>)
    ensures rows' == rows + ResourceRows(rs)
  {
    rows' := rows;
    var j := 0;
    while j < |rs|
      invariant 0 <= j <= |rs|
      invariant rows' == rows + ResourceRows(rs[..j])
    {
      var res := rs[j];
      var details := ResourceDetails(res);
      var row := [SafeText(Str(res.kind)) + ":\n" + SafeText(Str(res.title)), details];
      assert row == ResourceRow(res);
      ghost var done := ResourceRows(rs[..j]);
      assert ResourceRows(rs[..j + 1]) == done + [row] by {
        assert rs[..j + 1][..j] == rs[..j];
      }
      AppendAssoc(rows, done, [row]);
      rows' := rows' + [row];
      j := j + 1;
    }
    assert rs[..j] == rs;
  }

  /** The rows of one module, pushed in order. */
  method PushModule(rows: seq<Row>, mod: ModuleData) returns (rows': seq<Row>)
    ensures rows' == rows + ModuleRows(mod)
  {
    var head: seq<Row> := [[MODULE_WORD + NatToString(mod.index) + ": " + mod.title]];
    if mod.intro != "" {
      head := head + [[ProcessText(Str(mod.intro))]];
    }
    assert head == ModuleHead(mod);
    var body: seq<Row>;
    if |mod.resources| > 0 {
      body := PushResources([RESOURCES_HEADER], mod.resources);
    } else {
      body := [[NO_RESOURCES]];
    }
    assert body == ModuleBody(mod.resources);
    rows' := rows + (head + body);
  }

  /** `modRows`: the table header, then each module's rows in order. */
  method ModulesTable(mods: seq<ModuleData>) returns (rows: seq<Row>)
    ensures rows == [MODULES_HEADER] + ModulesRows(mods)
  {
    rows := [MODULES_HEADER];
    var i := 0;
    while i < |mods|
      invariant 0 <= i <= |mods|
      invariant rows == [MODULES_HEADER] + ModulesRows(mods[..i])
    {
      rows := PushModule(rows, mods[i]);
      assert mods[..i + 1][..i] == mods[..i];
      AppendAssoc([MODULES_HEADER], ModulesRows(mods[..i]), ModuleRows(mods[i]));
      i := i + 1;
    }
    assert mods[..i] == mods;
  }

  const EVALUATIONS_HEADER: seq<Row> :=
    [["SISTEMA DE AVALIAÇÃO"], ["Identificação", "Período", "Pontuação", "Detalhes"]]

  function EvaluationRow(ev: Evaluation): Row {
    [SafeText(Str(ev.id)), EvalPeriod(ev), EvalScore(ev), EvalDetails(ev)]
  }

  /** `avalRows`: the two header rows, then one row per evaluation. */
  method EvaluationsTable(evs: seq<Evaluation>) returns (rows: seq<Row>)
    ensures |rows| == 2 + |evs|
    ensures rows[..2] == EVALUATIONS_HEADER
    ensures forall e :: 0 <= e < |evs| ==> rows[2 + e] == EvaluationRow(evs[e])
  {
    rows := EVALUATIONS_HEADER;
    var e := 0;
    while e < |evs|
      invariant 0 <= e <= |evs|
      invariant |rows| == 2 + e && rows[..2] == EVALUATIONS_HEADER
      invariant forall k :: 0 <= k < e ==> rows[2 + k] == EvaluationRow(evs[k])
    {
      var ev := evs[e];
      rows := rows + [[SafeText(Str(ev.id)), EvalPeriod(ev), EvalScore(ev), EvalDetails(ev)]];
      e := e + 1;
    }
  }

  const FREQUENCY_HEADER: seq<Row> :=
    [["DISTRIBUIÇÃO DE FREQUÊNCIA"], ["Data", "CH", "Descrição da Atividade"]]
  const TOTAL_LABEL: string := "Total Carga Horária:"

  function FrequencyRow(row: FreqRow): Row {
    [FormatDate(row.date), row.ch, row.desc]
  }

  /** `freqRows`: the two header rows, one row per attendance row, then the
      total. */
  method FrequencyTable(freq: seq<FreqRow>, totalCH: string) returns (rows: seq<Row>)
    ensures |rows| == 3 + |freq|
    ensures rows[..2] == FREQUENCY_HEADER
    ensures forall i :: 0 <= i < |freq| ==> rows[2 + i] == FrequencyRow(freq[i])
    ensures rows[|rows| - 1] == [TOTAL_LABEL, totalCH]
  {
    rows := FREQUENCY_HEADER;
    var i := 0;
    while i < |freq|
      invariant 0 <= i <= |freq|
      invariant |rows| == 2 + i && rows[..2] == FREQUENCY_HEADER
      invariant forall k :: 0 <= k < i ==> rows[2 + k] == FrequencyRow(freq[k])
    {
      rows := rows + [[FormatDate(freq[i].date), freq[i].ch, freq[i].desc]];
      i := i + 1;
    }
    rows := rows + [[TOTAL_LABEL, totalCH]];
  }

  // ---------------------------------------------------------------------
  // File name
  // ---------------------------------------------------------------------

  const FILE_PREFIX: string := "Planejamento_"
  const DEFAULT_STEM: string := "Disciplina"

  /** The name of the saved file: the course name, or "Disciplina" when it
      is empty or missing. */
  function FileName(fields: StaticFields): (r: string)
    ensures |r| > |FILE_PREFIX| + 5
    ensures r[..|FILE_PREFIX|] == FILE_PREFIX && r[|r| - 5..] == ".docx"
    ensures Truthy(Field(fields, Disciplina)) ==> r == FILE_PREFIX + fields[Disciplina] + ".docx"
    ensures !Truthy(Field(fields, Disciplina)) ==> r == FILE_PREFIX + DEFAULT_STEM + ".docx"
  {
    FILE_PREFIX + Or(Field(fields, Disciplina), DEFAULT_STEM) + ".docx"
  }
}

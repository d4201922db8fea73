/** The HTML `generatePDF` assembles from the export payload before handing
    it to the PDF library: its placeholders, dates, webconf line, the rows
    of the module, evaluation and attendance tables, and the file name.
    Style attributes are left out of the markup; cells are written `<td>`. */
module PdfExport {
  import opened Text
  import opened Draft
  import WordExport

  const BR: string := "<br>"

  // ---------------------------------------------------------------------
  // Placeholders and dates
  // ---------------------------------------------------------------------

  /** `processText`: "---" for a missing or empty value, otherwise every
      line break becomes "<br>". The result is never empty and holds no
      line break. */
  function ProcessText(t: JsString): (r: string)
    ensures r != "" && '\n' !in r
    ensures Truthy(t) && '\n' !in t.s ==> r == t.s
    ensures !Truthy(t) ==> r == "---"
  {
    if Truthy(t) then ReplaceAll(t.s, '\n', BR) else "---"
  }

  /** The lines of a present value, joined with "<br>". */
  lemma ProcessTextJoinsLines(s: string)
    requires s != ""
    ensures ProcessText(Str(s)) == Join(Split(s, '\n'), BR)
  {
    ReplaceAllIsJoinSplit(s, '\n', BR);
  }

  function Reverse<T>(s: seq<T>): (r: seq<T>)
    ensures |r| == |s|
    ensures forall i :: 0 <= i < |s| ==> r[i] == s[|s| - 1 - i]
  {
    if s == [] then [] else [s[|s| - 1]] + Reverse(s[..|s| - 1])
  }

  /** `formatDate`: "" for an empty input, otherwise the '-'-separated
      parts in reverse order joined with '/'. */
  function FormatDate(d: string): (r: string)
    ensures r == "" <==> d == ""
  {
    if d == "" then "" else ReversedPartsNonEmpty(d); Join(Reverse(Split(d, '-')), "/")
  }

  /** A non-empty date gives a non-empty result: one part is the date
      itself, two or more are joined around a "/". */
  lemma ReversedPartsNonEmpty(d: string)
    requires d != ""
    ensures Join(Reverse(Split(d, '-')), "/") != ""
  {
    var parts := Split(d, '-');
    if |parts| == 1 {
      JoinSplit(d, '-');
      assert Reverse(parts) == parts;
    }
  }

  /** Three parts joined by a separator. */
  lemma JoinThree(a: string, b: string, c: string, sep: string)
    ensures Join([a, b, c], sep) == a + sep + b + sep + c
  {
    assert [a, b, c][1..] == [b, c];
    assert [b, c][1..] == [c];
    assert Join([b, c], sep) == b + sep + c;
    assert Join([a, b, c], sep) == a + sep + Join([b, c], sep);
    AppendAssoc(a + sep, b + sep, c);
    AppendAssoc(a + sep, b, sep);
  }

  /** Two parts joined by a separator. */
  lemma JoinTwo(a: string, b: string, sep: string)
    ensures Join([a, b], sep) == a + sep + b
  {
    assert [a, b][1..] == [b];
  }

  /** On an ISO date "y-m-d" both renderers write "d/m/y". */
  lemma FormatDateAgreesOnIso(y: string, m: string, d: string)
    requires '-' !in y && '-' !in m && '-' !in d
    ensures FormatDate(y + "-" + m + "-" + d) == d + "/" + m + "/" + y
    ensures FormatDate(y + "-" + m + "-" + d) == WordExport.FormatDate(y + "-" + m + "-" + d)
  {
    WordExport.FormatDateIso(y, m, d);
    var parts := [y, m, d];
    JoinThree(y, m, d, "-");
    SplitJoin(parts, '-');
    assert Reverse(parts) == [d, m, y];
    JoinThree(d, m, y, "/");
  }

  /** On a date with two parts only, the renderers differ: the PDF reverses
      the two, the word-processor file fills the missing day with
      "undefined". */
  lemma FormatDateDiffersOnTwoParts(y: string, m: string)
    requires '-' !in y && '-' !in m
    ensures FormatDate(y + "-" + m) == m + "/" + y
    ensures WordExport.FormatDate(y + "-" + m) == "undefined/" + m + "/" + y
  {
    var parts := [y, m];
    JoinTwo(y, m, "-");
    SplitJoin(parts, '-');
    assert Reverse(parts) == [m, y];
    JoinTwo(m, y, "/");
  }

  // ---------------------------------------------------------------------
  // Webconf
  // ---------------------------------------------------------------------

  /** The "Webconf" cell: for a custom webconf the URL, or a notice when it
      is empty; otherwise the standard tool. */
  function WebconfText(fields: StaticFields): (r: string)
    ensures CustomWebconf(fields) && Truthy(Field(fields, WebconfUrl)) ==> r == fields[WebconfUrl]
    ensures CustomWebconf(fields) && !Truthy(Field(fields, WebconfUrl)) ==> r == WordExport.MISSING_WEBCONF
    ensures !CustomWebconf(fields) ==> r == WordExport.DEFAULT_WEBCONF
  {
    if Field(fields, WebconfType) == Str(PERSONALIZADO) then
      Or(Field(fields, WebconfUrl), WordExport.MISSING_WEBCONF)
    else WordExport.DEFAULT_WEBCONF
  }

  /** The renderers agree on the webconf line except for a custom webconf
      without a URL, where the word-processor file shows "-" and the PDF a
      notice. */
  lemma WebconfAgreement(fields: StaticFields)
    ensures WebconfText(fields) == WordExport.WebconfText(fields)
            <==> !(CustomWebconf(fields) && !Truthy(Field(fields, WebconfUrl)))
  {
    if CustomWebconf(fields) && !Truthy(Field(fields, WebconfUrl)) {
      assert WebconfText(fields)[0] == 'L';
    }
  }

  // ---------------------------------------------------------------------
  // Table rows
  // ---------------------------------------------------------------------

  function Cells(cells: seq<string>): string {
    if cells == [] then "" else "<td>" + cells[0] + "</td>" + Cells(cells[1..])
  }

  /** A table row with one cell per text. */
  function Tr(cells: seq<string>): string {
    "<tr>" + Cells(cells) + "</tr>"
  }

  /** A row whose one cell spans both columns. */
  function WideRow(text: string): string {
    "<tr><td colspan=\"2\">" + text + "</td></tr>"
  }

  /** A formatted date followed by its time. */
  function Stamp(date: string, time: string): string {
    FormatDate(date) + " " + time
  }

  // ---------------------------------------------------------------------
  // Resources
  // ---------------------------------------------------------------------

  function StartPart(res: Resource): string {
    "Início: " + Stamp(res.startDate, res.startTime)
  }

  function EndPart(res: Resource): string {
    "Fim: " + Stamp(res.endDate, res.endTime)
  }

  /** The "Início: …" and "Fim: …" parts, each only for a non-empty date. */
  function DateParts(res: Resource): (dates: seq<string>)
    ensures |dates| == (if res.startDate != "" then 1 else 0) + (if res.endDate != "" then 1 else 0)
  {
    (if res.startDate != "" then [StartPart(res)] else [])
    + (if res.endDate != "" then [EndPart(res)] else [])
  }

  function PeriodLine(dates: seq<string>): string {
    "Período: " + Join(dates, " até ") + BR
  }

  /** The period line: "Período: " and the parts joined with " até ", only
      when there is a date. */
  function ResourcePeriod(res: Resource): (r: string)
    ensures r == "" <==> res.startDate == "" && res.endDate == ""
  {
    var dates := DateParts(res);
    if |dates| > 0 then PeriodLine(dates) else ""
  }

  /** The score text of a resource: it depends on the selected method only. */
  function ResourceScoreText(res: Resource): (r: string)
    ensures r != "" <==> res.evalMethod == PONTUACAO || res.evalMethod == RUBRICA
  {
    if res.evalMethod == PONTUACAO then "Nota: " + res.score
    else if res.evalMethod == RUBRICA then "Rúbrica: " + res.rubric
    else ""
  }

  function Bold(text: string): string {
    "<b>" + text + "</b>" + BR
  }

  /** The score fragment of the details cell, in bold. */
  function ScoreFragment(res: Resource): string {
    var s := ResourceScoreText(res);
    if s != "" then Bold(s) else ""
  }

  /** The details cell: period, score and description. */
  function ResourceDetails(res: Resource): string {
    ResourcePeriod(res) + ScoreFragment(res) + ProcessText(Str(res.desc))
  }

  /** The resource cell: type in bold, then the title. */
  function ResourceLabel(res: Resource): string {
    "<strong>" + res.kind + "</strong>" + BR + res.title
  }

  function ResourceHtml(res: Resource): string {
    Tr([ResourceLabel(res), ResourceDetails(res)])
  }

  /** The details cell as the renderer builds it: the date parts pushed one
      by one, the score text chosen by method, then the pieces in order. */
  method BuildDetails(res: Resource) returns (cell: string)
    ensures cell == ResourceDetails(res)
  {
    var dates: seq<string> := [];
    if res.startDate != "" {
      dates := dates + [StartPart(res)];
    }
    if res.endDate != "" {
      dates := dates + [EndPart(res)];
    }
    var scoreText := "";
    if res.evalMethod == PONTUACAO {
      scoreText := "Nota: " + res.score;
    } else if res.evalMethod == RUBRICA {
      scoreText := "Rúbrica: " + res.rubric;
    }
    assert dates == DateParts(res) && scoreText == ResourceScoreText(res);
    var period := "";
    if |dates| > 0 {
      period := PeriodLine(dates);
    }
    var score := "";
    if scoreText != "" {
      score := Bold(scoreText);
    }
    cell := period + score + ProcessText(Str(res.desc));
  }

  /** The word-processor file prints a score under "Nenhum" whenever one is
      typed in; the PDF prints none. */
  lemma ScoreUnderNenhum(res: Resource)
    requires res.evalMethod == NENHUM && res.score != ""
    ensures var nota := "Nota: " + res.score + "\n";
      WordExport.ScoringLines(res)[..|nota|] == nota
    ensures ResourceScoreText(res) == "" && ScoreFragment(res) == ""
  {
  }

  /** Under "Rúbrica" the PDF prints the rubric and not the score, whatever
      the score input holds. */
  lemma RubricHidesScore(res: Resource, score: string)
    requires res.evalMethod == RUBRICA
    ensures ResourceScoreText(res.(score := score)) == ResourceScoreText(res)
  {
  }

  // ---------------------------------------------------------------------
  // Modules
  // ---------------------------------------------------------------------

  const RESOURCES_HEADER_HTML: string := "<tr><td>Recurso</td><td>Detalhes</td></tr>"
  const NO_RESOURCES_HTML: string := "<tr><td colspan=\"2\">Nenhum recurso cadastrado.</td></tr>"

  /** The text of a module's header cell: "---" stands for an empty title. */
  function ModuleHeading(mod: ModuleData): string {
    MODULE_WORD + NatToString(mod.index) + ": " + Or(Str(mod.title), "---")
  }

  /** The header and, for a non-empty introduction, the introduction row. */
  function ModuleHeadHtml(mod: ModuleData): string {
    WideRow(ModuleHeading(mod)) + (if mod.intro != "" then WideRow(ProcessText(Str(mod.intro))) else "")
  }

  function ResourcesHtml(rs: seq<Resource>): string {
    if rs == [] then "" else ResourcesHtml(rs[..|rs| - 1]) + ResourceHtml(rs[|rs| - 1])
  }

  lemma ResourcesHtmlStep(rs: seq<Resource>, j: nat)
    requires j < |rs|
    ensures ResourcesHtml(rs[..j + 1]) == ResourcesHtml(rs[..j]) + ResourceHtml(rs[j])
  {
    assert rs[..j + 1][..j] == rs[..j];
  }

  /** The resources under their header row, or the "no resources" row. */
  function ModuleBodyHtml(rs: seq<Resource>): string {
    if |rs| > 0 then RESOURCES_HEADER_HTML + ResourcesHtml(rs) else NO_RESOURCES_HTML
  }

  function ModuleHtml(mod: ModuleData): string {
    ModuleHeadHtml(mod) + ModuleBodyHtml(mod.resources)
  }

  function ModulesHtml(mods: seq<ModuleData>): string {
    if mods == [] then "" else ModulesHtml(mods[..|mods| - 1]) + ModuleHtml(mods[|mods| - 1])
  }

  /** Both renderers head a module with "Módulo n: title"; they differ only
      for an empty title, which the PDF replaces by "---". */
  lemma ModuleHeadingsAgreeIffTitled(mod: ModuleData)
    ensures ModuleHeading(mod) == WordExport.ModuleHead(mod)[0][0] <==> mod.title != ""
  {
    var prefix := MODULE_WORD + NatToString(mod.index) + ": ";
    if mod.title == "" {
      assert ModuleHeading(mod) == prefix + "---";
      assert WordExport.ModuleHead(mod)[0][0] == prefix + "";
      assert |prefix + "---"| != |prefix + ""|;
    }
  }

  /** One resource row: its label cell beside the details the renderer builds. */
  method BuildResource(res: Resource) returns (row: string)
    ensures row == ResourceHtml(res)
  {
    var cell := BuildDetails(res);
    row := Tr([ResourceLabel(res), cell]);
  }

  /** The rows of a module's resources, appended in order. */
  method AppendResources(html: string, rs: seq<Resource>) returns (html': string)
    ensures html' == html + ResourcesHtml(rs)
  {
    html' := html;
    var j := 0;
    while j < |rs|
      invariant 0 <= j <= |rs|
      invariant html' == html + ResourcesHtml(rs[..j])
    {
      var row := BuildResource(rs[j]);
      ResourcesHtmlStep(rs, j);
      AppendAssoc(html, ResourcesHtml(rs[..j]), row);
      html' := html' + row;
      j := j + 1;
    }
    assert rs[..j] == rs;
  }

  /** The rows of one module, appended in order. */
  method AppendModule(html: string, mod: ModuleData) returns (html': string)
    ensures html' == html + ModuleHtml(mod)
  {
    var head := WideRow(ModuleHeading(mod));
    if mod.intro != "" {
      head := head + WideRow(ProcessText(Str(mod.intro)));
    }
    assert head == ModuleHeadHtml(mod);
    var body: string;
    if |mod.resources| > 0 {
      body := AppendResources(RESOURCES_HEADER_HTML, mod.resources);
    } else {
      body := NO_RESOURCES_HTML;
    }
    assert body == ModuleBodyHtml(mod.resources);
    html' := html + (head + body);
  }

  const MODULES_TITLE: string := "<h3>3. Módulos</h3><table>"
  const TABLE_END: string := "</table>"

  /** Section 3: the title, then every module's rows in one table. */
  method AppendModules(html: string, mods: seq<ModuleData>) returns (html': string)
    ensures html' == html + MODULES_TITLE + ModulesHtml(mods) + TABLE_END
  {
    var start := html + MODULES_TITLE;
    html' := start;
    var i := 0;
    while i < |mods|
      invariant 0 <= i <= |mods|
      invariant html' == start + ModulesHtml(mods[..i])
    {
      ghost var done := ModulesHtml(mods[..i]);
      assert ModulesHtml(mods[..i + 1]) == done + ModuleHtml(mods[i]) by {
        assert mods[..i + 1][..i] == mods[..i];
      }
      AppendAssoc(start, done, ModuleHtml(mods[i]));
      html' := AppendModule(html', mods[i]);
      i := i + 1;
    }
    assert mods[..i] == mods;
    html' := html' + TABLE_END;
  }

  // ---------------------------------------------------------------------
  // Evaluations
  // ---------------------------------------------------------------------

  const UNTIL: string := "<br>a<br>"

  /** The "Período" cell: both dates, or "-" unless both are set. */
  function EvalPeriod(ev: Evaluation): (r: string)
    ensures r == "-" <==> ev.startDate == "" || ev.endDate == ""
  {
    if ev.startDate != "" && ev.endDate != "" then
      var r := Stamp(ev.startDate, ev.startTime) + UNTIL + Stamp(ev.endDate, ev.endTime);
      assert |r| > 1;
      r
    else "-"
  }

  /** The "Pontuação" cell: the raw score under "Pontuação", the word
      "Rúbrica" under "Rúbrica", "-" otherwise. */
  function EvalScore(ev: Evaluation): string {
    if ev.evalMethod == PONTUACAO then ev.score
    else if ev.evalMethod == RUBRICA then RUBRICA
    else "-"
  }

  const AUTO_DESCRIPTION: string := "Padrão Moodle"

  /** The description under the type: fixed for an Autoavaliação. */
  function EvalDescription(ev: Evaluation): string {
    if ev.id == AUTOAVALIACAO then AUTO_DESCRIPTION else ProcessText(Str(ev.desc))
  }

  /** The "Detalhes" cell: always "Tipo: " and the type (or "-"), then the
      description. */
  function EvalDetails(ev: Evaluation): string {
    "Tipo: " + Or(Str(ev.kind), "-") + BR + EvalDescription(ev)
  }

  /** Both renderers put the same text in the score column, and both leave
      the period out exactly when a date is missing. */
  lemma EvaluationColumnsAgree(ev: Evaluation)
    ensures EvalScore(ev) == WordExport.EvalScore(ev)
    ensures EvalPeriod(ev) == "-" <==> WordExport.EvalPeriod(ev) == "-"
  {
  }

  /** The PDF keeps the "Tipo:" line for an Autoavaliação, where the
      word-processor file writes a fixed text only. */
  lemma AutoavaliacaoDetailsDiffer(ev: Evaluation)
    requires ev.id == AUTOAVALIACAO
    ensures EvalDetails(ev)[..6] == "Tipo: "
    ensures WordExport.EvalDetails(ev) == WordExport.AUTO_DETAILS
    ensures EvalDetails(ev) == "Tipo: " + Or(Str(ev.kind), "-") + BR + AUTO_DESCRIPTION
  {
  }

  function EvaluationHtml(ev: Evaluation): string {
    Tr([ev.id, EvalPeriod(ev), EvalScore(ev), EvalDetails(ev)])
  }

  function EvaluationsHtml(evs: seq<Evaluation>): string {
    if evs == [] then "" else EvaluationsHtml(evs[..|evs| - 1]) + EvaluationHtml(evs[|evs| - 1])
  }

  /** `period`, `score` and `desc` as the renderer assigns them. */
  method EvaluationCells(ev: Evaluation) returns (period: string, score: string, desc: string)
    ensures period == EvalPeriod(ev) && score == EvalScore(ev) && desc == EvalDescription(ev)
  {
    period := "-";
    if ev.startDate != "" && ev.endDate != "" {
      period := Stamp(ev.startDate, ev.startTime) + UNTIL + Stamp(ev.endDate, ev.endTime);
    }
    score := "-";
    if ev.evalMethod == PONTUACAO {
      score := ev.score;
    } else if ev.evalMethod == RUBRICA {
      score := RUBRICA;
    }
    desc := ProcessText(Str(ev.desc));
    if ev.id == AUTOAVALIACAO {
      desc := AUTO_DESCRIPTION;
    }
  }

  const EVALUATIONS_TITLE: string :=
    "<h3>4. Avaliações</h3><table><tr><td>ID</td><td>Período</td><td>Pontuação</td><td>Detalhes</td></tr>"

  /** Section 4: the title and header row, one row per evaluation. */
  method AppendEvaluations(html: string, evs: seq<Evaluation>) returns (html': string)
    ensures html' == html + EVALUATIONS_TITLE + EvaluationsHtml(evs) + TABLE_END
  {
    var start := html + EVALUATIONS_TITLE;
    html' := start;
    var e := 0;
    while e < |evs|
      invariant 0 <= e <= |evs|
      invariant html' == start + EvaluationsHtml(evs[..e])
    {
      var period, score, desc := EvaluationCells(evs[e]);
      var row := Tr([evs[e].id, period, score, "Tipo: " + Or(Str(evs[e].kind), "-") + BR + desc]);
      assert row == EvaluationHtml(evs[e]);
      html' := html' + row;
      assert evs[..e + 1][..e] == evs[..e];
      AppendAssoc(start, EvaluationsHtml(evs[..e]), row);
      e := e + 1;
    }
    assert evs[..e] == evs;
    html' := html' + TABLE_END;
  }

  // ---------------------------------------------------------------------
  // Attendance
  // ---------------------------------------------------------------------

  /** An attendance row: the date formatted, hours and description as typed. */
  function FrequencyHtml(row: FreqRow): string {
    Tr([FormatDate(row.date), row.ch, row.desc])
  }

  function FrequenciesHtml(rows: seq<FreqRow>): string {
    if rows == [] then "" else FrequenciesHtml(rows[..|rows| - 1]) + FrequencyHtml(rows[|rows| - 1])
  }

  const FREQUENCY_TITLE: string :=
    "<h3>6. Frequência</h3><table><tr><td>Data</td><td>CH</td><td>Descrição</td></tr>"

  function TotalHtml(totalCH: string): string {
    "<tr><td>Total CH:</td><td colspan=\"2\"><strong>" + totalCH + "</strong></td></tr>"
  }

  /** Section 6: one row per attendance row, then the total. */
  method AppendFrequency(html: string, rows: seq<FreqRow>, totalCH: string) returns (html': string)
    ensures html' == html + FREQUENCY_TITLE + FrequenciesHtml(rows) + TotalHtml(totalCH) + TABLE_END
  {
    var start := html + FREQUENCY_TITLE;
    html' := start;
    var i := 0;
    while i < |rows|
      invariant 0 <= i <= |rows|
      invariant html' == start + FrequenciesHtml(rows[..i])
    {
      var row := Tr([FormatDate(rows[i].date), rows[i].ch, rows[i].desc]);
      html' := html' + row;
      assert rows[..i + 1][..i] == rows[..i];
      AppendAssoc(start, FrequenciesHtml(rows[..i]), row);
      i := i + 1;
    }
    assert rows[..i] == rows;
    html' := html' + TotalHtml(totalCH) + TABLE_END;
  }

  // ---------------------------------------------------------------------
  // File name
  // ---------------------------------------------------------------------

  /** The name of the saved file: the course name, or "Disciplina". */
  function FileName(fields: StaticFields): (r: string)
    ensures |r| > |WordExport.FILE_PREFIX| + 4
    ensures r[..|WordExport.FILE_PREFIX|] == WordExport.FILE_PREFIX && r[|r| - 4..] == ".pdf"
  {
    WordExport.FILE_PREFIX + Or(Field(fields, Disciplina), WordExport.DEFAULT_STEM) + ".pdf"
  }

  /** The two files share their name and differ in the extension. */
  lemma FileNamesShareStem(fields: StaticFields)
    ensures var w := WordExport.FileName(fields);
      var p := FileName(fields);
      |w| == |p| + 1 && w[..|w| - 5] == p[..|p| - 4]
  {
  }
}

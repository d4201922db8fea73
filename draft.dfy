/** The records the page's getters read out of the form (`getStaticData`,
    `getModulesData`, `getEvaluationsData`, `getFrequencyData`), the option
    lists of its selects, the hours arithmetic, the module header labels and
    the rules that decide which inputs are shown. */
module Draft {
  import opened Text

  // ---------------------------------------------------------------------
  // Static fields
  // ---------------------------------------------------------------------

  /** The static inputs of the page, one per element id. */
  datatype StaticId =
    | Turma | Semestre | Curso | Disciplina | CargaHoraria | Polos
    | Livro | MaterialAdicional | WebconfType | WebconfUrl
    | Npc1 | Npc2 | Media

  /** The element id of each static input. */
  function ElementId(id: StaticId): string {
    match id
    case Turma => "id_turma"
    case Semestre => "id_semestre"
    case Curso => "id_curso"
    case Disciplina => "id_disciplina"
    case CargaHoraria => "id_ch"
    case Polos => "id_polos"
    case Livro => "mat_livro"
    case MaterialAdicional => "mat_adicional"
    case WebconfType => "webconf_type"
    case WebconfUrl => "mat_webconf"
    case Npc1 => "calc_npc1"
    case Npc2 => "calc_npc2"
    case Media => "calc_media"
  }

  const PERSONALIZADO: string := "personalizado"

  /** The ids `getStaticData` reads, in its order. */
  const STATIC_IDS: seq<StaticId> :=
    [Turma, Semestre, Curso, Disciplina, CargaHoraria, Polos,
     Livro, MaterialAdicional, WebconfType, WebconfUrl, Npc1, Npc2, Media]

  /** The ids `validateForm` requires to be non-blank, in its order. */
  const REQUIRED_STATIC_IDS: seq<StaticId> :=
    [Turma, Semestre, Curso, Disciplina, CargaHoraria, Polos,
     Livro, MaterialAdicional, Npc1, Npc2, Media]

  /** Every static input except the webconf choice and its URL is required. */
  predicate Required(id: StaticId) {
    id != WebconfType && id != WebconfUrl
  }

  lemma RequiredStaticIds(id: StaticId)
    ensures id in REQUIRED_STATIC_IDS <==> Required(id)
    ensures id in STATIC_IDS
  {
  }

  /** Static inputs by id; an absent key is an element the page lacks. */
  type StaticFields = map<StaticId, string>

  /** `data.static.<id>`: `undefined` when the page has no such input. */
  function Field(fields: StaticFields, id: StaticId): JsString {
    if id in fields then Str(fields[id]) else Undefined
  }

  // ---------------------------------------------------------------------
  // Select options
  // ---------------------------------------------------------------------

  const SIM: string := "Sim"
  const NAO: string := "Não"
  const NENHUM: string := "Nenhum"
  const PONTUACAO: string := "Pontuação"
  const RUBRICA: string := "Rúbrica"
  const AUTOAVALIACAO: string := "Autoavaliação"
  const NPC: string := "NPC"
  const NPC_SECOND_CALL: string := "2ª Chamada NPC"
  const NEF: string := "NEF"
  const NEF_SECOND_CALL: string := "2ª Chamada NEF"

  /** The "Data de Abertura"/"Data de Encerramento" selects; "" is the
      disabled "Selecione..." placeholder. */
  const TOGGLE_OPTIONS: seq<string> := ["", NAO, SIM]
  /** The "Método Avaliativo" select. */
  const METHOD_OPTIONS: seq<string> := ["", NENHUM, PONTUACAO, RUBRICA]
  /** The resource "Tipo" select. */
  const RESOURCE_KINDS: seq<string> := ["", "Fórum", "Tarefa", "Questionário", "Wiki"]
  /** The evaluation "Identificação" select; it has no placeholder. */
  const EVALUATION_IDS: seq<string> := [AUTOAVALIACAO, NPC, NPC_SECOND_CALL, NEF, NEF_SECOND_CALL]

  /** Assigning `v` to a select's `value`: it selects the matching option;
      with no matching option nothing is selected and the value reads "". */
  function SelectValue(options: seq<string>, v: string): (r: string)
    ensures r in options || r == ""
    ensures v in options ==> r == v
    ensures v !in options ==> r == ""
  {
    if v in options then v else ""
  }

  // ---------------------------------------------------------------------
  // Records
  // ---------------------------------------------------------------------

  /** A resource entry of a module, field for field as `getModulesData` reads it. */
  datatype Resource = Resource(
    kind: string, title: string,
    startDate: string, startTime: string, startToggle: string,
    endDate: string, endTime: string, endToggle: string,
    evalMethod: string, score: string, rubric: string, desc: string)

  /** An evaluation entry, as `getEvaluationsData` reads it. */
  datatype Evaluation = Evaluation(
    id: string, kind: string,
    startDate: string, startTime: string, startToggle: string,
    endDate: string, endTime: string, endToggle: string,
    evalMethod: string, score: string, rubric: string, desc: string)

  /** A row of the attendance ("frequência") table: date, hours ("CH") and description. */
  datatype FreqRow = FreqRow(date: string, ch: string, desc: string)

  /** A module card as the page holds it: header label, inputs, resources. */
  datatype ModuleCard = ModuleCard(header: string, title: string, intro: string, resources: seq<Resource>)

  /** A module as `getModulesData` exports it, with its 1-based position. */
  datatype ModuleData = ModuleData(index: nat, title: string, intro: string, resources: seq<Resource>)

  /** The object `saveDraft` stores. */
  datatype Draft = Draft(fields: StaticFields, modules: seq<ModuleData>,
                         evaluations: seq<Evaluation>, frequency: seq<FreqRow>)

  /** The object `handleExport` hands to a renderer. */
  datatype Payload = Payload(fields: StaticFields, modules: seq<ModuleData>,
                             evaluations: seq<Evaluation>, frequency: seq<FreqRow>,
                             totalCH: string)

  const EMPTY_RESOURCE: Resource := Resource("", "", "", "", "", "", "", "", "", "", "", "")
  const EMPTY_ROW: FreqRow := FreqRow("", "", "")

  /** An evaluation card filled from `{ id: id }`: every other field `undefined || ''`. */
  function EvaluationWithId(id: string): Evaluation {
    Evaluation(id, "", "", "", "", "", "", "", "", "", "", "")
  }

  /** A fresh evaluation card: the id select shows its first option. */
  const NEW_EVALUATION: Evaluation := EvaluationWithId(AUTOAVALIACAO)

  /** The four evaluations `addDefaultEvaluations` creates. */
  const DEFAULT_EVALUATIONS: seq<Evaluation> :=
    [EvaluationWithId(AUTOAVALIACAO), EvaluationWithId(NPC),
     EvaluationWithId(NPC_SECOND_CALL), EvaluationWithId(NEF)]

  /** Every select of a resource holds one of its options. */
  predicate WellFormedResource(r: Resource) {
    && r.kind in RESOURCE_KINDS
    && r.startToggle in TOGGLE_OPTIONS && r.endToggle in TOGGLE_OPTIONS
    && r.evalMethod in METHOD_OPTIONS
  }

  /** Every select of an evaluation holds one of its options, or (for the
      id select, which has no placeholder) nothing. */
  predicate WellFormedEvaluation(e: Evaluation) {
    && (e.id in EVALUATION_IDS || e.id == "")
    && e.startToggle in TOGGLE_OPTIONS && e.endToggle in TOGGLE_OPTIONS
    && e.evalMethod in METHOD_OPTIONS
  }

  /** `addResource(container, data)`: every input takes `data.x || ''`,
      which for the selects goes through `SelectValue`. */
  function LoadResource(d: Resource): (r: Resource)
    ensures WellFormedResource(r)
  {
    d.(kind := SelectValue(RESOURCE_KINDS, d.kind),
       startToggle := SelectValue(TOGGLE_OPTIONS, d.startToggle),
       endToggle := SelectValue(TOGGLE_OPTIONS, d.endToggle),
       evalMethod := SelectValue(METHOD_OPTIONS, d.evalMethod))
  }

  /** Filling a resource card from stored data changes nothing exactly when
      the stored selects already held options. */
  lemma LoadResourceIdentity(d: Resource)
    ensures LoadResource(d) == d <==> WellFormedResource(d)
  {
  }

  /** `addEvaluation(data)`: the id is `data.id || 'NPC'`. */
  function LoadEvaluation(d: Evaluation): (e: Evaluation)
    ensures WellFormedEvaluation(e)
    ensures d.id == "" ==> e.id == NPC
  {
    d.(id := SelectValue(EVALUATION_IDS, if d.id == "" then NPC else d.id),
       startToggle := SelectValue(TOGGLE_OPTIONS, d.startToggle),
       endToggle := SelectValue(TOGGLE_OPTIONS, d.endToggle),
       evalMethod := SelectValue(METHOD_OPTIONS, d.evalMethod))
  }

  /** Filling an evaluation card from stored data changes nothing exactly
      when the stored selects held options and the id is set. */
  lemma LoadEvaluationIdentity(d: Evaluation)
    ensures LoadEvaluation(d) == d <==> WellFormedEvaluation(d) && d.id != ""
  {
    if LoadEvaluation(d) == d {
      assert d.id == "" ==> LoadEvaluation(d).id == NPC;
    }
  }

  function LoadResources(rs: seq<Resource>): (r: seq<Resource>)
    ensures |r| == |rs|
  {
    seq(|rs|, j requires 0 <= j < |rs| => LoadResource(rs[j]))
  }

  function LoadEvaluations(evs: seq<Evaluation>): (r: seq<Evaluation>)
    ensures |r| == |evs|
  {
    seq(|evs|, j requires 0 <= j < |evs| => LoadEvaluation(evs[j]))
  }

  // ---------------------------------------------------------------------
  // Hours
  // ---------------------------------------------------------------------

  /** What one row adds to the total: `parseInt(ch)`, or 0 when that is NaN. */
  function HoursOf(row: FreqRow): int {
    match ParseInt(row.ch)
    case Some(v) => v
    case None => 0
  }

  /** The sum of `f` over `xs`, in order. */
  function Sum<T>(xs: seq<T>, f: T -> int): int {
    if xs == [] then 0 else Sum(xs[..|xs| - 1], f) + f(xs[|xs| - 1])
  }

  /** Terms that are all non-negative, or all zero, sum to the same. */
  lemma {:induction false} SumSigns<T>(xs: seq<T>, f: T -> int)
    ensures (forall i :: 0 <= i < |xs| ==> f(xs[i]) >= 0) ==> Sum(xs, f) >= 0
    ensures (forall i :: 0 <= i < |xs| ==> f(xs[i]) == 0) ==> Sum(xs, f) == 0
  {
    if xs != [] {
      var init := xs[..|xs| - 1];
      SumSigns(init, f);
      assert forall i :: 0 <= i < |init| ==> init[i] == xs[i];
    }
  }

  /** The sum over a concatenation is the sum of the sums. */
  lemma {:induction false} SumAppend<T>(a: seq<T>, b: seq<T>, f: T -> int)
    ensures Sum(a + b, f) == Sum(a, f) + Sum(b, f)
    decreases |b|
  {
    if b != [] {
      assert (a + b)[..|a + b| - 1] == a + b[..|b| - 1];
      SumAppend(a, b[..|b| - 1], f);
    } else {
      assert a + b == a;
    }
  }

  lemma SumSingle<T>(x: T, f: T -> int)
    ensures Sum([x], f) == f(x)
  {
    assert [x][..0] == [];
  }

  /** Removing element `i` takes exactly its value off the sum. */
  lemma SumRemove<T>(xs: seq<T>, i: nat, f: T -> int)
    requires i < |xs|
    ensures Sum(xs[..i] + xs[i + 1..], f) == Sum(xs, f) - f(xs[i])
  {
    var pre, rest, post := xs[..i], xs[i..], xs[i + 1..];
    assert Sum(xs, f) == Sum(pre, f) + Sum(rest, f) by {
      assert pre + rest == xs;
      SumAppend(pre, rest, f);
    }
    assert Sum(rest, f) == f(xs[i]) + Sum(post, f) by {
      assert [xs[i]] + post == rest;
      SumAppend([xs[i]], post, f);
      SumSingle(xs[i], f);
    }
    SumAppend(pre, post, f);
  }

  /** The sum `calculateTotalCH` accumulates over the rows in table order. */
  function SumHours(rows: seq<FreqRow>): int {
    Sum(rows, HoursOf)
  }

  /** Cells that hold no negative number give a total of at least zero;
      cells none of which parse (`isNaN`) give zero. */
  lemma SumHoursSigns(rows: seq<FreqRow>)
    ensures (forall i :: 0 <= i < |rows| ==> HoursOf(rows[i]) >= 0) ==> SumHours(rows) >= 0
    ensures (forall i :: 0 <= i < |rows| ==> ParseInt(rows[i].ch) == None) ==> SumHours(rows) == 0
  {
    SumSigns(rows, HoursOf);
  }

  /** The total of a concatenation is the sum of the totals. */
  lemma SumHoursAppend(a: seq<FreqRow>, b: seq<FreqRow>)
    ensures SumHours(a + b) == SumHours(a) + SumHours(b)
  {
    SumAppend(a, b, HoursOf);
  }

  /** Removing row `i` takes exactly that row's hours off the total. */
  lemma SumHoursRemove(rows: seq<FreqRow>, i: nat)
    requires i < |rows|
    ensures SumHours(rows[..i] + rows[i + 1..]) == SumHours(rows) - HoursOf(rows[i])
  {
    SumRemove(rows, i, HoursOf);
  }

  /** Changing one row's hours changes the total by the difference. */
  lemma SumHoursUpdate(rows: seq<FreqRow>, i: nat, row: FreqRow)
    requires i < |rows|
    ensures SumHours(rows[i := row]) == SumHours(rows) - HoursOf(rows[i]) + HoursOf(row)
  {
    SumRemove(rows, i, HoursOf);
    SumRemove(rows[i := row], i, HoursOf);
    assert rows[i := row][..i] == rows[..i];
    assert rows[i := row][i + 1..] == rows[i + 1..];
  }

  /** One more row of the table adds its hours, or nothing when its cell
      does not parse. */
  lemma SumHoursStep(rows: seq<FreqRow>, i: nat)
    requires i < |rows|
    ensures SumHours(rows[..i + 1]) == SumHours(rows[..i]) + HoursOf(rows[i])
    ensures ParseInt(rows[i].ch) == None ==> HoursOf(rows[i]) == 0
    ensures ParseInt(rows[i].ch).Some? ==> HoursOf(rows[i]) == ParseInt(rows[i].ch).value
  {
    assert rows[..i + 1][..i] == rows[..i];
  }

  /** Editing a row's date or description leaves the total alone. */
  lemma SumHoursTextEdit(rows: seq<FreqRow>, i: nat, date: string, desc: string)
    requires i < |rows|
    ensures SumHours(rows[i := rows[i].(date := date, desc := desc)]) == SumHours(rows)
  {
    var row := rows[i].(date := date, desc := desc);
    assert HoursOf(row) == HoursOf(rows[i]) by {
      assert row.ch == rows[i].ch;
    }
    SumHoursUpdate(rows, i, row);
  }

  // ---------------------------------------------------------------------
  // Blank attendance rows
  // ---------------------------------------------------------------------

  /** A row with nothing typed in it. */
  predicate EmptyRow(row: FreqRow) {
    row.date == "" && row.ch == "" && row.desc == ""
  }

  /** The rows `getFrequencyData` keeps: those with some field non-empty, in
      table order. */
  function NonBlankRows(rows: seq<FreqRow>): (kept: seq<FreqRow>)
    ensures |kept| <= |rows|
    ensures forall k :: 0 <= k < |kept| ==> !EmptyRow(kept[k]) && kept[k] in rows
    ensures forall i :: 0 <= i < |rows| && !EmptyRow(rows[i]) ==> rows[i] in kept
  {
    if rows == [] then []
    else
      var init := NonBlankRows(rows[..|rows| - 1]);
      var last := rows[|rows| - 1];
      assert forall i :: 0 <= i < |rows| - 1 ==> rows[i] == rows[..|rows| - 1][i];
      if EmptyRow(last) then init else init + [last]
  }

  /** A single row is kept exactly when something is typed in it. */
  lemma NonBlankRowsSingle(row: FreqRow)
    ensures NonBlankRows([row]) == if EmptyRow(row) then [] else [row]
  {
    assert [row][..0] == [];
  }

  /** The filter works row by row, in table order: filtering two tables
      placed end to end is filtering each and placing the results end to end. */
  lemma {:induction false} NonBlankRowsAppend(a: seq<FreqRow>, b: seq<FreqRow>)
    ensures NonBlankRows(a + b) == NonBlankRows(a) + NonBlankRows(b)
    decreases |b|
  {
    if b == [] {
      assert a + b == a;
    } else {
      var init := b[..|b| - 1];
      var last := b[|b| - 1];
      assert (a + b)[..|a + b| - 1] == a + init;
      assert (a + b)[|a + b| - 1] == last;
      NonBlankRowsAppend(a, init);
      if !EmptyRow(last) {
        AppendAssoc(NonBlankRows(a), NonBlankRows(init), [last]);
      }
    }
  }

  /** Dropping the empty rows does not change the total hours. */
  lemma {:induction false} NonBlankRowsSameHours(rows: seq<FreqRow>)
    ensures SumHours(NonBlankRows(rows)) == SumHours(rows)
  {
    if rows != [] {
      var init := rows[..|rows| - 1];
      var last := rows[|rows| - 1];
      NonBlankRowsSameHours(init);
      if !EmptyRow(last) {
        var kept := NonBlankRows(init) + [last];
        assert kept[..|kept| - 1] == NonBlankRows(init);
      }
    }
  }

  /** A table without empty rows is kept whole. */
  lemma {:induction false} NonBlankRowsKeepsFullTable(rows: seq<FreqRow>)
    requires forall i :: 0 <= i < |rows| ==> !EmptyRow(rows[i])
    ensures NonBlankRows(rows) == rows
  {
    if rows != [] {
      NonBlankRowsKeepsFullTable(rows[..|rows| - 1]);
      assert rows[..|rows| - 1] + [rows[|rows| - 1]] == rows;
    }
  }

  // ---------------------------------------------------------------------
  // Module header labels
  // ---------------------------------------------------------------------

  const MODULE_WORD: string := "Módulo "
  const TITLE_DASH: string := " – "

  /** The header of the module at 1-based position `n`: "Módulo n", followed
      by " – title" when the title is non-empty. */
  function ModuleLabel(n: nat, title: string): string {
    MODULE_WORD + NatToString(n) + (if title == "" then "" else TITLE_DASH + title)
  }

  /** Every card's header shows its 1-based position and its title. */
  predicate LabelsNumbered(cards: seq<ModuleCard>) {
    forall i :: 0 <= i < |cards| ==> cards[i].header == ModuleLabel(i + 1, cards[i].title)
  }

  /** The match of `/^Módulo \d+/` against a header, if any. */
  function LabelPrefix(header: string): Option<string> {
    if |header| >= |MODULE_WORD| && header[..|MODULE_WORD|] == MODULE_WORD then
      var ds := LeadingDigits(header[|MODULE_WORD|..]);
      if ds == [] then None else Some(MODULE_WORD + ds)
    else None
  }

  /** The title input's handler: keep the matched "Módulo N" and append the
      new title when it is non-empty; without a match the header stays. */
  function TitleEditLabel(header: string, title: string): string {
    match LabelPrefix(header)
    case None => header
    case Some(prefix) => if title == "" then prefix else prefix + TITLE_DASH + title
  }

  /** The header regex finds exactly "Módulo n" in a numbered header. */
  lemma LabelPrefixOfModuleLabel(n: nat, title: string)
    ensures LabelPrefix(ModuleLabel(n, title)) == Some(MODULE_WORD + NatToString(n))
  {
    var digits := NatToString(n);
    var rest := if title == "" then "" else TITLE_DASH + title;
    var hdr := ModuleLabel(n, title);
    assert hdr == MODULE_WORD + (digits + rest);
    assert hdr[..|MODULE_WORD|] == MODULE_WORD;
    assert hdr[|MODULE_WORD|..] == digits + rest;
    LeadingDigitsOfDigits(digits, rest);
  }

  /** Editing a title in a numbered header gives the header `renumberModules`
      would have written for the new title. */
  lemma TitleEditKeepsNumbering(n: nat, oldTitle: string, title: string)
    ensures TitleEditLabel(ModuleLabel(n, oldTitle), title) == ModuleLabel(n, title)
  {
    LabelPrefixOfModuleLabel(n, oldTitle);
  }

  /** `getModulesData`: each card with `index` its position + 1. */
  function ExportModules(cards: seq<ModuleCard>): (ms: seq<ModuleData>)
    ensures |ms| == |cards|
    ensures forall i :: 0 <= i < |ms| ==>
      && ms[i].index == i + 1
      && ms[i].title == cards[i].title && ms[i].intro == cards[i].intro
      && ms[i].resources == cards[i].resources
  {
    seq(|cards|, i requires 0 <= i < |cards| =>
      ModuleData(i + 1, cards[i].title, cards[i].intro, cards[i].resources))
  }

  /** The cards `loadDraft` rebuilds from stored modules: the stored index is
      ignored and the header is renumbered from the position. */
  function ImportModules(ms: seq<ModuleData>): (cards: seq<ModuleCard>)
    ensures |cards| == |ms|
    ensures LabelsNumbered(cards) && WellFormedCards(cards)
  {
    seq(|ms|, i requires 0 <= i < |ms| =>
      ModuleCard(ModuleLabel(i + 1, ms[i].title), ms[i].title, ms[i].intro, LoadResources(ms[i].resources)))
  }

  /** Every resource of every card is well formed. */
  predicate WellFormedCards(cards: seq<ModuleCard>) {
    forall i, j :: 0 <= i < |cards| && 0 <= j < |cards[i].resources| ==>
      WellFormedResource(cards[i].resources[j])
  }

  /** Saving the modules and loading them back rebuilds the same cards. */
  lemma ImportExportModules(cards: seq<ModuleCard>)
    requires LabelsNumbered(cards) && WellFormedCards(cards)
    ensures ImportModules(ExportModules(cards)) == cards
  {
    var back := ImportModules(ExportModules(cards));
    forall i | 0 <= i < |cards|
      ensures back[i] == cards[i]
    {
      var rs := cards[i].resources;
      forall j | 0 <= j < |rs|
        ensures LoadResources(rs)[j] == rs[j]
      {
        LoadResourceIdentity(rs[j]);
      }
    }
  }

  /** Stored modules numbered 1..n with well-formed resources survive
      loading and saving again unchanged. */
  lemma ExportImportModules(ms: seq<ModuleData>)
    requires forall i :: 0 <= i < |ms| ==> ms[i].index == i + 1
    requires forall i, j :: 0 <= i < |ms| && 0 <= j < |ms[i].resources| ==>
      WellFormedResource(ms[i].resources[j])
    ensures ExportModules(ImportModules(ms)) == ms
  {
    var back := ExportModules(ImportModules(ms));
    forall i | 0 <= i < |ms|
      ensures back[i] == ms[i]
    {
      var rs := ms[i].resources;
      forall j | 0 <= j < |rs|
        ensures LoadResources(rs)[j] == rs[j]
      {
        LoadResourceIdentity(rs[j]);
      }
    }
  }

  // ---------------------------------------------------------------------
  // Which inputs are shown
  // ---------------------------------------------------------------------

  /** The toggle handler shows the date/time pair only for "Sim". */
  predicate DateInputsShown(toggle: string) {
    toggle == SIM
  }

  /** The method handler shows the score input only for "Pontuação". */
  predicate ScoreShown(evalMethod: string) {
    evalMethod == PONTUACAO
  }

  /** The method handler shows the rubric input only for "Rúbrica". */
  predicate RubricShown(evalMethod: string) {
    evalMethod == RUBRICA
  }

  /** The id handler hides type, method and description of an Autoavaliação. */
  predicate CommonEvalFieldsShown(id: string) {
    id != AUTOAVALIACAO
  }

  /** The webconf select holds "personalizado": the case in which the
      validator asks for a URL, both renderers print it, and the select's
      change handler shows the URL input. */
  predicate CustomWebconf(fields: StaticFields) {
    WebconfType in fields && fields[WebconfType] == PERSONALIZADO
  }

  /** Score and rubric are never shown together. */
  lemma ScoreAndRubricExclusive(evalMethod: string)
    ensures !(ScoreShown(evalMethod) && RubricShown(evalMethod))
  {
  }
}

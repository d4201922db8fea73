/** The page's form as one object: the static inputs, the module cards with
    their resources, the evaluation cards, the attendance table, the
    "total_ch" output and the draft slot of the browser's storage. Every
    DOM container the page mutates in place is a sequence field here. */
module FormState {
  import opened Text
  import opened Draft
  import Validator

  /** The page has one input for every static id. */
  predicate CompleteFields(fields: StaticFields) {
    forall id: StaticId :: id in fields
  }

  /** Every evaluation select holds one of its options. */
  predicate WellFormedEvaluations(evs: seq<Evaluation>) {
    forall e :: 0 <= e < |evs| ==> WellFormedEvaluation(evs[e])
  }

  /** `s` without its element at `i` (a card's `remove()`). */
  function RemoveAt<T>(s: seq<T>, i: nat): (r: seq<T>)
    requires i < |s|
    ensures |r| == |s| - 1
    ensures forall k :: 0 <= k < i ==> r[k] == s[k]
    ensures forall k :: i <= k < |r| ==> r[k] == s[k + 1]
  {
    s[..i] + s[i + 1..]
  }

  // ---------------------------------------------------------------------
  // Module numbering
  // ---------------------------------------------------------------------

  /** `renumberModules`: every header rewritten from its position and title;
      nothing else of a card changes. */
  function Renumbered(cards: seq<ModuleCard>): (r: seq<ModuleCard>)
    ensures |r| == |cards| && LabelsNumbered(r)
    ensures forall i :: 0 <= i < |r| ==>
      r[i].title == cards[i].title && r[i].intro == cards[i].intro && r[i].resources == cards[i].resources
  {
    seq(|cards|, i requires 0 <= i < |cards| => cards[i].(header := ModuleLabel(i + 1, cards[i].title)))
  }

  /** Renumbering changes nothing exactly when the headers were already
      numbered; in particular it is idempotent. */
  lemma RenumberedIdentity(cards: seq<ModuleCard>)
    ensures Renumbered(cards) == cards <==> LabelsNumbered(cards)
    ensures Renumbered(Renumbered(cards)) == Renumbered(cards)
  {
    var r := Renumbered(cards);
    if LabelsNumbered(cards) {
      forall i | 0 <= i < |cards|
        ensures r[i] == cards[i]
      {
      }
    }
    var rr := Renumbered(r);
    forall i | 0 <= i < |r|
      ensures rr[i] == r[i]
    {
    }
  }

  /** Removing module `m` and renumbering keeps the cards before it and
      shifts every later card one place up, with its header renumbered. */
  lemma RemoveModuleShifts(cards: seq<ModuleCard>, m: nat)
    requires LabelsNumbered(cards) && m < |cards|
    ensures var r := Renumbered(RemoveAt(cards, m));
      && (forall k :: 0 <= k < m ==> r[k] == cards[k])
      && (forall k :: m <= k < |r| ==>
            r[k] == cards[k + 1].(header := ModuleLabel(k + 1, cards[k + 1].title)))
  {
  }

  /** The card `addModule()` appends at 1-based position `n`. */
  function NewModule(n: nat): ModuleCard {
    ModuleCard(ModuleLabel(n, ""), "", "", [])
  }

  /** Appending a fresh card to numbered cards needs no renumbering. */
  lemma AppendNewModuleNumbered(cards: seq<ModuleCard>)
    requires LabelsNumbered(cards)
    ensures LabelsNumbered(cards + [NewModule(|cards| + 1)])
    ensures Renumbered(cards + [NewModule(|cards| + 1)]) == cards + [NewModule(|cards| + 1)]
  {
    RenumberedIdentity(cards + [NewModule(|cards| + 1)]);
  }

  /** An empty attendance row adds nothing to the total. */
  lemma EmptyRowAddsNoHours(rows: seq<FreqRow>)
    ensures SumHours(rows + [EMPTY_ROW]) == SumHours(rows)
  {
    AppendRowHours(rows, EMPTY_ROW);
    EmptyRowNoHours();
  }

  lemma EmptyRowNoHours()
    ensures HoursOf(EMPTY_ROW) == 0
  {
  }

  lemma AppendRowHours(rows: seq<FreqRow>, row: FreqRow)
    ensures SumHours(rows + [row]) == SumHours(rows) + HoursOf(row)
  {
    assert (rows + [row])[..|rows|] == rows;
  }

  // ---------------------------------------------------------------------
  // The stored draft
  // ---------------------------------------------------------------------

  /** What `saveDraft` stores: the four getters' results. */
  function Capture(fields: StaticFields, cards: seq<ModuleCard>, evs: seq<Evaluation>,
                   rows: seq<FreqRow>): Draft
  {
    Draft(fields, ExportModules(cards), evs, NonBlankRows(rows))
  }

  /** `setStaticData`: every stored key the page has an input for is
      written; the page's other inputs keep their values. */
  function RestoreFields(page: StaticFields, saved: StaticFields): (r: StaticFields)
    ensures r.Keys == page.Keys
    ensures forall id :: id in page && id in saved ==> r[id] == saved[id]
    ensures forall id :: id in page && id !in saved ==> r[id] == page[id]
  {
    map id | id in page :: if id in saved then saved[id] else page[id]
  }

  /** Saving and loading back gives the same form, except that the
      attendance rows with nothing typed in are gone (and the total hours,
      recomputed on load, are the same). An evaluation with no id selected
      does not survive: loading turns it into an NPC. */
  lemma DraftRoundTrip(fields: StaticFields, cards: seq<ModuleCard>, evs: seq<Evaluation>,
                       rows: seq<FreqRow>)
    requires LabelsNumbered(cards) && WellFormedCards(cards)
    requires forall e :: 0 <= e < |evs| ==> WellFormedEvaluation(evs[e]) && evs[e].id != ""
    ensures var d := Capture(fields, cards, evs, rows);
      && RestoreFields(fields, d.fields) == fields
      && ImportModules(d.modules) == cards
      && LoadEvaluations(d.evaluations) == evs
      && d.frequency == NonBlankRows(rows)
      && SumHours(d.frequency) == SumHours(rows)
  {
    ImportExportModules(cards);
    forall e | 0 <= e < |evs|
      ensures LoadEvaluations(evs)[e] == evs[e]
    {
      LoadEvaluationIdentity(evs[e]);
    }
    NonBlankRowsSameHours(rows);
  }

  /** A draft the page itself could have stored (every stored key an input
      of the page, modules numbered from 1, selects holding options, an id on
      every evaluation, no empty attendance row), once loaded and saved
      again, is stored unchanged. */
  lemma ReloadedDraftStable(page: StaticFields, d: Draft)
    requires d.fields.Keys == page.Keys
    requires forall i :: 0 <= i < |d.modules| ==> d.modules[i].index == i + 1
    requires forall i, j :: 0 <= i < |d.modules| && 0 <= j < |d.modules[i].resources| ==>
      WellFormedResource(d.modules[i].resources[j])
    requires forall e :: 0 <= e < |d.evaluations| ==>
      WellFormedEvaluation(d.evaluations[e]) && d.evaluations[e].id != ""
    requires forall k :: 0 <= k < |d.frequency| ==> !EmptyRow(d.frequency[k])
    ensures RestoreFields(page, d.fields) == d.fields
    ensures Capture(RestoreFields(page, d.fields), ImportModules(d.modules),
                    LoadEvaluations(d.evaluations), d.frequency) == d
  {
    NonBlankRowsKeepsFullTable(d.frequency);
    ExportImportModules(d.modules);
    forall e | 0 <= e < |d.evaluations|
      ensures LoadEvaluations(d.evaluations)[e] == d.evaluations[e]
    {
      LoadEvaluationIdentity(d.evaluations[e]);
    }
  }

  // ---------------------------------------------------------------------
  // Export
  // ---------------------------------------------------------------------

  /** The two renderers `handleExport` can call. */
  datatype ExportKind = WordFile | PdfFile

  /** `type === 'word'` picks the word-processor file, anything else the PDF. */
  function KindOf(kind: string): (k: ExportKind)
    ensures k == WordFile <==> kind == "word"
  {
    if kind == "word" then WordFile else PdfFile
  }

  /** What the export button does: refuse, pointing at the first flagged
      input, or hand the payload to one renderer. */
  datatype ExportOutcome =
    | Refused(firstError: Option<Validator.FieldRef>)
    | Rendered(kind: ExportKind, payload: Payload)

  /** A page snapshot, to state which fields a method leaves alone. */
  datatype Page = Page(fields: StaticFields, urlShown: bool, modules: seq<ModuleCard>,
                       evaluations: seq<Evaluation>, rows: seq<FreqRow>, totalCH: string,
                       moduleCounter: nat, stored: Option<Draft>)

  // ---------------------------------------------------------------------
  // The form
  // ---------------------------------------------------------------------

  class Form {
    /** The static inputs by id. */
    var fields: StaticFields
    /** Whether `webconf_url_container` is shown. */
    var urlShown: bool
    /** `#modulesContainer`, in container order. */
    var modules: seq<ModuleCard>
    /** `#evaluationsContainer`, in container order. */
    var evaluations: seq<Evaluation>
    /** `#freqTable tbody`, in table order. */
    var rows: seq<FreqRow>
    /** The value of the `total_ch` output. */
    var totalCH: string
    /** How many modules have ever been added. */
    var moduleCounter: nat
    /** The storage slot of the draft. */
    var stored: Option<Draft>
    /** The static inputs and `total_ch` as the markup declares them. */
    const markup: StaticFields
    const urlMarkup: bool
    const totalMarkup: string

    function Snapshot(): Page
      reads this
    {
      Page(fields, urlShown, modules, evaluations, rows, totalCH, moduleCounter, stored)
    }

    /** What the page's markup and handlers keep true. */
    ghost predicate Valid()
      reads this
    {
      && CompleteFields(fields) && CompleteFields(markup)
      && LabelsNumbered(modules)
      && WellFormedCards(modules)
      && WellFormedEvaluations(evaluations)
    }

    /** The URL input is shown exactly for a custom webconf, as the
        select's change handler leaves it. */
    predicate UrlToggleCurrent()
      reads this
    {
      urlShown == CustomWebconf(fields)
    }

    /** `total_ch` shows the sum of the hours column. */
    predicate TotalCurrent()
      reads this
    {
      totalCH == IntToString(SumHours(rows))
    }

    /** The page as loaded, before its startup handler runs. */
    constructor (page: StaticFields, urlVisible: bool, total: string, storage: Option<Draft>)
      requires CompleteFields(page)
      ensures Valid()
      ensures markup == page && urlMarkup == urlVisible && totalMarkup == total
      ensures Snapshot() == Page(page, urlVisible, [], [], [], total, 0, storage)
    {
      fields, urlShown, modules, evaluations, rows := page, urlVisible, [], [], [];
      totalCH, moduleCounter, stored := total, 0, storage;
      markup, urlMarkup, totalMarkup := page, urlVisible, total;
    }

    /** The startup handler: load the draft; with none stored, seed two
        modules, the four default evaluations and one empty row. */
    method Start()
      modifies this
      requires Valid()
      ensures Valid()
      ensures old(stored) == None ==> Snapshot() == Seeded(old(Snapshot()))
      ensures old(stored).Some? ==> Snapshot() == Loaded(old(Snapshot()), old(stored).value)
    {
      LoadDraft();
      if stored == None {
        Seed();
      }
    }

    /** The page after the seeding part of the startup handler. */
    static function Seeded(p: Page): Page {
      p.(modules := p.modules + [NewModule(|p.modules| + 1), NewModule(|p.modules| + 2)],
         moduleCounter := p.moduleCounter + 2,
         evaluations := p.evaluations + DEFAULT_EVALUATIONS,
         rows := p.rows + [EMPTY_ROW])
    }

    /** `addModule(); addModule(); addDefaultEvaluations(); addFreqRow();` */
    method Seed()
      modifies this
      requires Valid()
      ensures Valid()
      ensures Snapshot() == Seeded(old(Snapshot()))
    {
      AddModule();
      AddModule();
      AddDefaultEvaluations();
      AddFreqRow();
    }

    /** The page after `loadDraft` has filled it from `d`. The change event
        `setStaticData` fires on the webconf select reaches no handler, since
        the listeners are attached only after `loadDraft`, so the URL input
        keeps the visibility it had. */
    static function Loaded(p: Page, d: Draft): Page {
      p.(fields := RestoreFields(p.fields, d.fields),
         modules := ImportModules(d.modules),
         moduleCounter := p.moduleCounter + |d.modules|,
         evaluations := LoadEvaluations(d.evaluations),
         rows := d.frequency,
         totalCH := IntToString(SumHours(d.frequency)))
    }

    // ----- modules -----

    /** `addModule()`: a fresh card "Módulo n" after the others. */
    method AddModule()
      modifies this
      requires Valid()
      ensures Valid()
      ensures Snapshot() == old(Snapshot()).(
        modules := old(modules) + [NewModule(|old(modules)| + 1)],
        moduleCounter := old(moduleCounter) + 1)
    {
      moduleCounter := moduleCounter + 1;
      AppendNewModuleNumbered(modules);
      modules := modules + [NewModule(|modules| + 1)];
      RenumberModules();
    }

    /** `renumberModules`: rewrite every header in container order. */
    method RenumberModules()
      modifies this
      ensures modules == Renumbered(old(modules))
      ensures Snapshot() == old(Snapshot()).(modules := modules)
    {
      var i := 0;
      while i < |modules|
        invariant 0 <= i <= |modules| == |old(modules)|
        invariant modules[..i] == Renumbered(old(modules))[..i]
        invariant modules[i..] == old(modules)[i..]
        invariant Snapshot() == old(Snapshot()).(modules := modules)
      {
        modules := modules[i := modules[i].(header := ModuleLabel(i + 1, modules[i].title))];
        i := i + 1;
      }
      assert modules == modules[..i];
    }

    /** Typing in a module's title input: the header keeps its "Módulo n"
        and shows the new title. */
    method SetModuleTitle(m: nat, title: string)
      modifies this
      requires Valid() && m < |modules|
      ensures Valid()
      ensures Snapshot() == old(Snapshot()).(modules := old(modules)[m := old(modules)[m].(
        header := ModuleLabel(m + 1, title), title := title)])
    {
      TitleEditKeepsNumbering(m + 1, modules[m].title, title);
      modules := modules[m := modules[m].(header := TitleEditLabel(modules[m].header, title), title := title)];
    }

    /** Typing in a module's introduction. */
    method SetModuleIntro(m: nat, intro: string)
      modifies this
      requires Valid() && m < |modules|
      ensures Valid()
      ensures Snapshot() == old(Snapshot()).(modules := old(modules)[m := old(modules)[m].(intro := intro)])
    {
      modules := modules[m := modules[m].(intro := intro)];
    }

    /** The module's "Remover" button: after confirmation the card and its
        resources go, the rest are renumbered and the draft is saved. */
    method RemoveModule(m: nat, confirmed: bool)
      modifies this
      requires Valid() && m < |modules|
      ensures Valid()
      ensures !confirmed ==> Snapshot() == old(Snapshot())
      ensures confirmed ==>
        && modules == Renumbered(RemoveAt(old(modules), m))
        && Snapshot() == old(Snapshot()).(modules := modules,
             stored := Some(Capture(fields, modules, evaluations, rows)))
    {
      if confirmed {
        modules := RemoveAt(modules, m);
        RenumberModules();
        SaveDraft();
      }
    }

    // ----- resources -----

    /** The module's "+ Adicionar Recurso" button: an empty resource card. */
    method AddResource(m: nat)
      modifies this
      requires Valid() && m < |modules|
      ensures Valid()
      ensures Snapshot() == old(Snapshot()).(modules := old(modules)[m := old(modules)[m].(
        resources := old(modules)[m].resources + [EMPTY_RESOURCE])])
    {
      modules := modules[m := modules[m].(resources := modules[m].resources + [EMPTY_RESOURCE])];
    }

    /** A resource's "Remover" button: no confirmation, no renumbering. */
    method RemoveResource(m: nat, r: nat)
      modifies this
      requires Valid() && m < |modules| && r < |modules[m].resources|
      ensures Valid()
      ensures Snapshot() == old(Snapshot()).(modules := old(modules)[m := old(modules)[m].(
        resources := RemoveAt(old(modules)[m].resources, r))])
    {
      modules := modules[m := modules[m].(resources := RemoveAt(modules[m].resources, r))];
    }

    /** Editing the inputs of a resource card; its selects offer only their options. */
    method SetResource(m: nat, r: nat, res: Resource)
      modifies this
      requires Valid() && m < |modules| && r < |modules[m].resources|
      requires WellFormedResource(res)
      ensures Valid()
      ensures Snapshot() == old(Snapshot()).(modules := old(modules)[m := old(modules)[m].(
        resources := old(modules)[m].resources[r := res])])
    {
      modules := modules[m := modules[m].(resources := modules[m].resources[r := res])];
    }

    // ----- evaluations -----

    /** The "+ Adicionar Avaliação" button: a card whose id select shows its
        first option. */
    method AddEvaluation()
      modifies this
      requires Valid()
      ensures Valid()
      ensures Snapshot() == old(Snapshot()).(evaluations := old(evaluations) + [NEW_EVALUATION])
    {
      evaluations := evaluations + [NEW_EVALUATION];
    }

    /** `addEvaluation(data)`: a card filled from stored data. */
    method AddEvaluationWith(data: Evaluation)
      modifies this
      requires Valid()
      ensures Valid()
      ensures Snapshot() == old(Snapshot()).(evaluations := old(evaluations) + [LoadEvaluation(data)])
    {
      evaluations := evaluations + [LoadEvaluation(data)];
    }

    /** `addDefaultEvaluations`: Autoavaliação, NPC, 2ª Chamada NPC, NEF. */
    method AddDefaultEvaluations()
      modifies this
      requires Valid()
      ensures Valid()
      ensures Snapshot() == old(Snapshot()).(evaluations := old(evaluations) + DEFAULT_EVALUATIONS)
    {
      AddEvaluationWith(EvaluationWithId(AUTOAVALIACAO));
      AddEvaluationWith(EvaluationWithId(NPC));
      AddEvaluationWith(EvaluationWithId(NPC_SECOND_CALL));
      AddEvaluationWith(EvaluationWithId(NEF));
    }

    /** An evaluation's "Remover" button, after confirmation. */
    method RemoveEvaluation(e: nat, confirmed: bool)
      modifies this
      requires Valid() && e < |evaluations|
      ensures Valid()
      ensures !confirmed ==> Snapshot() == old(Snapshot())
      ensures confirmed ==> Snapshot() == old(Snapshot()).(evaluations := RemoveAt(old(evaluations), e))
    {
      if confirmed {
        evaluations := RemoveAt(evaluations, e);
      }
    }

    /** Editing the inputs of an evaluation card. */
    method SetEvaluation(e: nat, ev: Evaluation)
      modifies this
      requires Valid() && e < |evaluations| && WellFormedEvaluation(ev)
      ensures Valid()
      ensures Snapshot() == old(Snapshot()).(evaluations := old(evaluations)[e := ev])
    {
      evaluations := evaluations[e := ev];
    }

    // ----- attendance rows -----

    /** The "+ Adicionar Linha" button: an empty row; the total stays right
        since an empty hours cell counts 0. */
    method AddFreqRow()
      modifies this
      requires Valid()
      ensures Valid()
      ensures Snapshot() == old(Snapshot()).(rows := old(rows) + [EMPTY_ROW])
      ensures old(TotalCurrent()) ==> TotalCurrent()
    {
      EmptyRowAddsNoHours(rows);
      rows := rows + [EMPTY_ROW];
    }

    /** `addFreqRow(data)`: a row filled from stored data. */
    method AddFreqRowWith(row: FreqRow)
      modifies this
      requires Valid()
      ensures Valid()
      ensures Snapshot() == old(Snapshot()).(rows := old(rows) + [row])
    {
      rows := rows + [row];
    }

    /** A row's "X" button: the row goes and the total is recomputed. */
    method RemoveFreqRow(i: nat)
      modifies this
      requires Valid() && i < |rows|
      ensures Valid() && TotalCurrent()
      ensures Snapshot() == old(Snapshot()).(rows := RemoveAt(old(rows), i), totalCH := totalCH)
      ensures SumHours(rows) == SumHours(old(rows)) - HoursOf(old(rows)[i])
    {
      SumHoursRemove(rows, i);
      rows := RemoveAt(rows, i);
      CalculateTotalCH();
    }

    /** Typing in a row's hours cell: the total is recomputed. */
    method SetFreqHours(i: nat, ch: string)
      modifies this
      requires Valid() && i < |rows|
      ensures Valid() && TotalCurrent()
      ensures Snapshot() == old(Snapshot()).(rows := old(rows)[i := old(rows)[i].(ch := ch)], totalCH := totalCH)
      ensures SumHours(rows) == SumHours(old(rows)) - HoursOf(old(rows)[i]) + HoursOf(rows[i])
    {
      SumHoursUpdate(rows, i, rows[i].(ch := ch));
      rows := rows[i := rows[i].(ch := ch)];
      CalculateTotalCH();
    }

    /** Typing in a row's date or description: the total is not touched,
        and stays right. */
    method SetFreqText(i: nat, date: string, desc: string)
      modifies this
      requires Valid() && i < |rows|
      ensures Valid()
      ensures Snapshot() == old(Snapshot()).(rows := old(rows)[i := old(rows)[i].(date := date, desc := desc)])
      ensures old(TotalCurrent()) ==> TotalCurrent()
    {
      SumHoursTextEdit(rows, i, date, desc);
      rows := rows[i := rows[i].(date := date, desc := desc)];
    }

    /** `calculateTotalCH`: the hours cells that parse as integers, summed
        in table order, written to `total_ch`. */
    method CalculateTotalCH()
      modifies this
      ensures TotalCurrent()
      ensures Snapshot() == old(Snapshot()).(totalCH := totalCH)
    {
      var total := 0;
      var i := 0;
      while i < |rows|
        invariant 0 <= i <= |rows|
        invariant total == SumHours(rows[..i])
        invariant Snapshot() == old(Snapshot())
      {
        SumHoursStep(rows, i);
        var parsed := ParseInt(rows[i].ch);
        if parsed.Some? {
          total := total + parsed.value;
        }
        i := i + 1;
      }
      assert rows[..i] == rows;
      totalCH := IntToString(total);
    }

    // ----- static inputs -----

    /** Typing in (or choosing) a static input; choosing a webconf runs
        the select's change handler, which shows the URL input exactly for
        "personalizado". */
    method SetStatic(id: StaticId, v: string)
      modifies this
      requires Valid()
      ensures Valid()
      ensures Snapshot() == old(Snapshot()).(fields := old(fields)[id := v],
        urlShown := if id == WebconfType then v == PERSONALIZADO else old(urlShown))
      ensures id == WebconfType || old(UrlToggleCurrent()) ==> UrlToggleCurrent()
    {
      fields := fields[id := v];
      if id == WebconfType {
        urlShown := v == PERSONALIZADO;
      }
    }

    // ----- getters -----

    /** `getStaticData`: the value of every static input the page has. */
    method GetStaticData() returns (data: StaticFields)
      ensures data == fields
    {
      data := map[];
      var i := 0;
      while i < |STATIC_IDS|
        invariant 0 <= i <= |STATIC_IDS|
        invariant data.Keys == set id | id in fields && id in STATIC_IDS[..i]
        invariant forall id :: id in data ==> data[id] == fields[id]
      {
        var id := STATIC_IDS[i];
        if id in fields {
          data := data[id := fields[id]];
        }
        assert STATIC_IDS[..i + 1] == STATIC_IDS[..i] + [id];
        i := i + 1;
      }
      forall id | id in fields
        ensures id in data
      {
        RequiredStaticIds(id);
        assert STATIC_IDS[..i] == STATIC_IDS;
      }
    }

    /** `getModulesData`: every card, with `index` its position + 1. */
    method GetModulesData() returns (ms: seq<ModuleData>)
      ensures ms == ExportModules(modules)
      ensures forall i :: 0 <= i < |ms| ==> ms[i].index == i + 1 && ms[i].title == modules[i].title
    {
      ms := [];
      var i := 0;
      while i < |modules|
        invariant 0 <= i <= |modules|
        invariant ms == ExportModules(modules[..i])
      {
        var card := modules[i];
        ms := ms + [ModuleData(i + 1, card.title, card.intro, card.resources)];
        i := i + 1;
      }
      assert modules[..i] == modules;
    }

    /** `getEvaluationsData`: every evaluation card, in order. */
    method GetEvaluationsData() returns (evs: seq<Evaluation>)
      ensures evs == evaluations
    {
      evs := [];
      var e := 0;
      while e < |evaluations|
        invariant 0 <= e <= |evaluations|
        invariant evs == evaluations[..e]
      {
        evs := evs + [evaluations[e]];
        e := e + 1;
      }
    }

    /** `getFrequencyData`: the rows with something typed in, in order. */
    method GetFrequencyData() returns (freq: seq<FreqRow>)
      ensures freq == NonBlankRows(rows)
      ensures forall k :: 0 <= k < |freq| ==> !EmptyRow(freq[k])
    {
      freq := [];
      var i := 0;
      while i < |rows|
        invariant 0 <= i <= |rows|
        invariant freq == NonBlankRows(rows[..i])
      {
        var row := rows[i];
        if row.date != "" || row.ch != "" || row.desc != "" {
          freq := freq + [row];
        }
        assert rows[..i + 1][..i] == rows[..i];
        i := i + 1;
      }
      assert rows[..i] == rows;
    }

    // ----- the draft -----

    /** `saveDraft`: store what the four getters read. */
    method SaveDraft()
      modifies this
      ensures Snapshot() == old(Snapshot()).(stored := Some(Capture(fields, modules, evaluations, rows)))
    {
      var s := GetStaticData();
      var ms := GetModulesData();
      var evs := GetEvaluationsData();
      var freq := GetFrequencyData();
      stored := Some(Draft(s, ms, evs, freq));
    }

    /** `loadDraft`: with a draft stored, refill the static inputs, rebuild
        the three containers from it and recompute the total. */
    method LoadDraft()
      modifies this
      requires Valid()
      ensures Valid()
      ensures old(stored) == None ==> Snapshot() == old(Snapshot())
      ensures old(stored).Some? ==> Snapshot() == Loaded(old(Snapshot()), old(stored).value)
      ensures old(stored).Some? ==> TotalCurrent()
    {
      if stored.Some? {
        var d := stored.value;
        fields := RestoreFields(fields, d.fields);
        LoadModules(d.modules);
        LoadEvaluationCards(d.evaluations);
        LoadRows(d.frequency);
        CalculateTotalCH();
      }
    }

    /** The module part of `loadDraft`: one `addModule(mod)` per stored
        module, each filled with its resources. */
    method LoadModules(ms: seq<ModuleData>)
      modifies this
      requires Valid()
      ensures Valid()
      ensures modules == ImportModules(ms)
      ensures Snapshot() == old(Snapshot()).(modules := modules, moduleCounter := old(moduleCounter) + |ms|)
    {
      modules := [];
      var i := 0;
      while i < |ms|
        invariant 0 <= i <= |ms|
        invariant modules == ImportModules(ms[..i])
        invariant Valid()
        invariant Snapshot() == old(Snapshot()).(modules := modules, moduleCounter := old(moduleCounter) + i)
      {
        var mod := ms[i];
        moduleCounter := moduleCounter + 1;
        modules := modules + [ModuleCard(ModuleLabel(i + 1, mod.title), mod.title, mod.intro,
                                         LoadResources(mod.resources))];
        i := i + 1;
      }
      assert ms[..i] == ms;
    }

    /** The evaluation part of `loadDraft`: one `addEvaluation(ev)` per
        stored evaluation. */
    method LoadEvaluationCards(evs: seq<Evaluation>)
      modifies this
      requires Valid()
      ensures Valid()
      ensures Snapshot() == old(Snapshot()).(evaluations := LoadEvaluations(evs))
    {
      evaluations := [];
      var e := 0;
      while e < |evs|
        invariant 0 <= e <= |evs|
        invariant Valid()
        invariant evaluations == LoadEvaluations(evs[..e])
        invariant Snapshot() == old(Snapshot()).(evaluations := evaluations)
      {
        AddEvaluationWith(evs[e]);
        e := e + 1;
      }
      assert evs[..e] == evs;
    }

    /** The attendance part of `loadDraft`: one `addFreqRow(freq)` per
        stored row. */
    method LoadRows(freq: seq<FreqRow>)
      modifies this
      requires Valid()
      ensures Valid()
      ensures Snapshot() == old(Snapshot()).(rows := freq)
    {
      rows := [];
      var i := 0;
      while i < |freq|
        invariant 0 <= i <= |freq|
        invariant Valid()
        invariant rows == freq[..i]
        invariant Snapshot() == old(Snapshot()).(rows := rows)
      {
        AddFreqRowWith(freq[i]);
        i := i + 1;
      }
      assert freq[..i] == freq;
    }

    /** The "Limpar rascunho" button: after confirmation the stored draft is
        removed and the page reloads into its seeded state. */
    method ClearDraft(confirmed: bool)
      modifies this
      requires Valid()
      ensures Valid()
      ensures !confirmed ==> Snapshot() == old(Snapshot())
      ensures confirmed ==>
        Snapshot() == Page(markup, urlMarkup, [NewModule(1), NewModule(2)], DEFAULT_EVALUATIONS,
                           [EMPTY_ROW], totalMarkup, 2, None)
    {
      if confirmed {
        stored := None;
        fields, urlShown, modules, evaluations, rows := markup, urlMarkup, [], [], [];
        totalCH, moduleCounter := totalMarkup, 0;
        Start();
      }
    }

    /** `handleExport(type)`: a renderer is called only when the validator
        flags nothing, and then with the getters' results and the value of
        `total_ch`; otherwise the first flagged input is reported. */
    method HandleExport(kind: string) returns (outcome: ExportOutcome)
      requires Valid()
      ensures var flagged := Validator.Violations(fields, modules, evaluations, rows);
        && (outcome.Rendered? <==> flagged == [])
        && (flagged != [] ==> outcome == Refused(Some(flagged[0])))
        && (flagged == [] ==> outcome == Rendered(KindOf(kind),
              Payload(fields, ExportModules(modules), evaluations, NonBlankRows(rows), totalCH)))
        && (flagged == [] ==> NonBlankRows(rows) == rows)
    {
      var isValid, firstError, flagged := Validator.ValidateForm(fields, modules, evaluations, rows);
      if !isValid {
        return Refused(firstError);
      }
      var s := GetStaticData();
      var ms := GetModulesData();
      var evs := GetEvaluationsData();
      var freq := GetFrequencyData();
      Validator.PassingFormKeepsAllRows(fields, modules, evaluations, rows);
      outcome := Rendered(KindOf(kind), Payload(s, ms, evs, freq, totalCH));
    }
  }

  /** Saving and then loading leaves the form as it was, without its empty
      attendance rows and with the total recomputed. */
  method SaveAndReload(f: Form)
    modifies f
    requires f.Valid()
    requires forall e :: 0 <= e < |f.evaluations| ==> f.evaluations[e].id != ""
    ensures f.Valid() && f.TotalCurrent()
    ensures f.fields == old(f.fields) && f.modules == old(f.modules)
    ensures f.evaluations == old(f.evaluations)
    ensures f.rows == NonBlankRows(old(f.rows))
    ensures SumHours(f.rows) == SumHours(old(f.rows))
  {
    f.SaveDraft();
    DraftRoundTrip(f.fields, f.modules, f.evaluations, f.rows);
    f.LoadDraft();
  }

  /** Startup with a stored custom webconf whose URL is blank, on a page
      whose markup hides the URL input: the input stays hidden, yet the
      validator flags it. */
  lemma ReloadedCustomUrlHidden(p: Page, d: Draft)
    requires !p.urlShown && CompleteFields(p.fields)
    requires WebconfType in d.fields && d.fields[WebconfType] == PERSONALIZADO
    requires WebconfUrl in d.fields && IsBlank(d.fields[WebconfUrl])
    ensures var q := Form.Loaded(p, d);
      && !q.urlShown && CustomWebconf(q.fields)
      && Validator.StaticField(WebconfUrl) in Validator.Violations(q.fields, q.modules, q.evaluations, q.rows)
      && !Validator.Shown(q.urlShown, q.modules, q.evaluations, Validator.StaticField(WebconfUrl))
  {
    var q := Form.Loaded(p, d);
    Validator.HiddenCustomUrlFlagged(q.fields, q.modules, q.evaluations, q.rows);
  }
}

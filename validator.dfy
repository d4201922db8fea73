/** `validateForm`: a walk over the form that flags every required input
    left empty, in a fixed order (static fields, modules and their
    resources, evaluations, attendance rows), and reports the first one. */
module Validator {
  import opened Text
  import opened Draft

  /** The inputs of a resource or an evaluation card that can be flagged. */
  datatype ItemField =
    | Kind | Title | Desc
    | StartToggle | StartDate | StartTime
    | EndToggle | EndDate | EndTime
    | Method | Score | Rubric

  datatype FreqColumn = FreqDate | FreqHours | FreqDesc

  /** A reference to one input of the form. Positions are 0-based. */
  datatype FieldRef =
    | StaticField(id: StaticId)
    | ModuleTitle(m: nat)
    | ModuleIntro(m: nat)
    | ResourceField(m: nat, r: nat, field: ItemField)
    | EvaluationField(e: nat, field: ItemField)
    | FreqField(row: nat, column: FreqColumn)

  // ---------------------------------------------------------------------
  // The rules, stated per input
  // ---------------------------------------------------------------------

  /** When an input of a resource is a violation. */
  predicate ResourceRule(res: Resource, f: ItemField) {
    match f
    case Kind => res.kind == ""
    case Title => IsBlank(res.title)
    case Desc => IsBlank(res.desc)
    case StartToggle => res.startToggle == ""
    case StartDate => DateInputsShown(res.startToggle) && res.startDate == ""
    case StartTime => DateInputsShown(res.startToggle) && res.startTime == ""
    case EndToggle => res.endToggle == ""
    case EndDate => DateInputsShown(res.endToggle) && res.endDate == ""
    case EndTime => DateInputsShown(res.endToggle) && res.endTime == ""
    case Method => res.evalMethod == ""
    case Score => ScoreShown(res.evalMethod) && IsBlank(res.score)
    case Rubric => RubricShown(res.evalMethod) && IsBlank(res.rubric)
  }

  /** When an input of an evaluation is a violation: never for an
      Autoavaliação; an evaluation has no title input, and its type is
      trimmed where a resource's type select is not. */
  predicate EvaluationRule(ev: Evaluation, f: ItemField) {
    ev.id != AUTOAVALIACAO &&
    match f
    case Kind => IsBlank(ev.kind)
    case Title => false
    case Desc => IsBlank(ev.desc)
    case StartToggle => ev.startToggle == ""
    case StartDate => DateInputsShown(ev.startToggle) && ev.startDate == ""
    case StartTime => DateInputsShown(ev.startToggle) && ev.startTime == ""
    case EndToggle => ev.endToggle == ""
    case EndDate => DateInputsShown(ev.endToggle) && ev.endDate == ""
    case EndTime => DateInputsShown(ev.endToggle) && ev.endTime == ""
    case Method => ev.evalMethod == ""
    case Score => ScoreShown(ev.evalMethod) && IsBlank(ev.score)
    case Rubric => RubricShown(ev.evalMethod) && IsBlank(ev.rubric)
  }

  /** When a cell of an attendance row is a violation: every existing row
      must be filled in. */
  predicate FreqRule(row: FreqRow, c: FreqColumn) {
    match c
    case FreqDate => row.date == ""
    case FreqHours => row.ch == ""
    case FreqDesc => IsBlank(row.desc)
  }

  /** The module rules: a title or introduction must not be blank, and
      every resource follows its own rules. */
  predicate ModuleFlagged(cards: seq<ModuleCard>, x: FieldRef) {
    match x
    case ModuleTitle(m) => m < |cards| && IsBlank(cards[m].title)
    case ModuleIntro(m) => m < |cards| && IsBlank(cards[m].intro)
    case ResourceField(m, r, f) =>
      m < |cards| && r < |cards[m].resources| && ResourceRule(cards[m].resources[r], f)
    case _ => false
  }

  /** Whether the validator must flag input `x`, independently of the walk. */
  predicate Flagged(fields: StaticFields, cards: seq<ModuleCard>, evs: seq<Evaluation>,
                    rows: seq<FreqRow>, x: FieldRef)
  {
    match x
    case StaticField(id) =>
      && id in fields && IsBlank(fields[id])
      && (Required(id) || (id == WebconfUrl && CustomWebconf(fields)))
    case ModuleTitle(_) => ModuleFlagged(cards, x)
    case ModuleIntro(_) => ModuleFlagged(cards, x)
    case ResourceField(_, _, _) => ModuleFlagged(cards, x)
    case EvaluationField(e, f) => e < |evs| && EvaluationRule(evs[e], f)
    case FreqField(i, c) => i < |rows| && FreqRule(rows[i], c)
  }

  // ---------------------------------------------------------------------
  // The walk
  // ---------------------------------------------------------------------

  /** The checks of one start/end window: an unset toggle is itself a
      violation, "Sim" requires date and time, "Não" requires nothing. */
  function WindowRefs(toggle: string, date: string, time: string,
                      toggleRef: FieldRef, dateRef: FieldRef, timeRef: FieldRef): seq<FieldRef>
  {
    if toggle == "" then [toggleRef]
    else if toggle == SIM then DateTimeRefs(date, time, dateRef, timeRef)
    else []
  }

  /** Under "Sim": the date, then the time. */
  function DateTimeRefs(date: string, time: string, dateRef: FieldRef, timeRef: FieldRef): seq<FieldRef> {
    (if date == "" then [dateRef] else []) + (if time == "" then [timeRef] else [])
  }

  /** The checks of a scoring method: unset is a violation, "Pontuação"
      requires a score, "Rúbrica" a rubric, anything else nothing. */
  function ScoringRefs(evalMethod: string, score: string, rubric: string,
                       methodRef: FieldRef, scoreRef: FieldRef, rubricRef: FieldRef): seq<FieldRef>
  {
    if evalMethod == "" then [methodRef]
    else if evalMethod == PONTUACAO then (if IsBlank(score) then [scoreRef] else [])
    else if evalMethod == RUBRICA then (if IsBlank(rubric) then [rubricRef] else [])
    else []
  }

  /** The first checks of a resource: title, description, type. */
  function ResourceHeadRefs(m: nat, r: nat, res: Resource): seq<FieldRef> {
    (if IsBlank(res.title) then [ResourceField(m, r, Title)] else [])
    + (if IsBlank(res.desc) then [ResourceField(m, r, Desc)] else [])
    + (if res.kind == "" then [ResourceField(m, r, Kind)] else [])
  }

  /** The inputs of resource `r` of module `m` the walk flags, in walk order. */
  function ResourceRefs(m: nat, r: nat, res: Resource): seq<FieldRef> {
    ResourceHeadRefs(m, r, res)
    + WindowRefs(res.startToggle, res.startDate, res.startTime,
                 ResourceField(m, r, StartToggle), ResourceField(m, r, StartDate), ResourceField(m, r, StartTime))
    + WindowRefs(res.endToggle, res.endDate, res.endTime,
                 ResourceField(m, r, EndToggle), ResourceField(m, r, EndDate), ResourceField(m, r, EndTime))
    + ScoringRefs(res.evalMethod, res.score, res.rubric,
                  ResourceField(m, r, Method), ResourceField(m, r, Score), ResourceField(m, r, Rubric))
  }

  /** The first checks of an evaluation: type and description. */
  function EvaluationHeadRefs(e: nat, ev: Evaluation): seq<FieldRef> {
    (if IsBlank(ev.kind) then [EvaluationField(e, Kind)] else [])
    + (if IsBlank(ev.desc) then [EvaluationField(e, Desc)] else [])
  }

  /** The inputs of evaluation `e` the walk flags, in walk order. */
  function EvaluationRefs(e: nat, ev: Evaluation): seq<FieldRef> {
    if ev.id == AUTOAVALIACAO then []
    else
      EvaluationHeadRefs(e, ev)
      + WindowRefs(ev.startToggle, ev.startDate, ev.startTime,
                   EvaluationField(e, StartToggle), EvaluationField(e, StartDate), EvaluationField(e, StartTime))
      + WindowRefs(ev.endToggle, ev.endDate, ev.endTime,
                   EvaluationField(e, EndToggle), EvaluationField(e, EndDate), EvaluationField(e, EndTime))
      + ScoringRefs(ev.evalMethod, ev.score, ev.rubric,
                    EvaluationField(e, Method), EvaluationField(e, Score), EvaluationField(e, Rubric))
  }

  /** The required static ids among `ids`, in order, that are present and blank. */
  function StaticViolations(fields: StaticFields, ids: seq<StaticId>): seq<FieldRef>
  {
    if ids == [] then []
    else
      var id := ids[|ids| - 1];
      StaticViolations(fields, ids[..|ids| - 1])
      + (if id in fields && IsBlank(fields[id]) then [StaticField(id)] else [])
  }

  /** The URL of a custom webconf must exist (the page reads it without a check). */
  predicate WebconfUrlPresent(fields: StaticFields) {
    CustomWebconf(fields) ==> WebconfUrl in fields
  }

  function WebconfViolations(fields: StaticFields): seq<FieldRef>
    requires WebconfUrlPresent(fields)
  {
    if CustomWebconf(fields) && IsBlank(fields[WebconfUrl]) then [StaticField(WebconfUrl)] else []
  }

  function ResourcesViolations(m: nat, rs: seq<Resource>): seq<FieldRef>
  {
    if rs == [] then []
    else
      var r := |rs| - 1;
      ResourcesViolations(m, rs[..r]) + ResourceRefs(m, r, rs[r])
  }

  function ModuleViolations(m: nat, card: ModuleCard): seq<FieldRef> {
    (if IsBlank(card.title) then [ModuleTitle(m)] else [])
    + (if IsBlank(card.intro) then [ModuleIntro(m)] else [])
    + ResourcesViolations(m, card.resources)
  }

  function ModulesViolations(cards: seq<ModuleCard>): seq<FieldRef>
  {
    if cards == [] then []
    else
      var m := |cards| - 1;
      ModulesViolations(cards[..m]) + ModuleViolations(m, cards[m])
  }

  function EvaluationsViolations(evs: seq<Evaluation>): seq<FieldRef>
  {
    if evs == [] then []
    else
      var e := |evs| - 1;
      EvaluationsViolations(evs[..e]) + EvaluationRefs(e, evs[e])
  }

  function RowViolations(i: nat, row: FreqRow): seq<FieldRef> {
    (if row.date == "" then [FreqField(i, FreqDate)] else [])
    + (if row.ch == "" then [FreqField(i, FreqHours)] else [])
    + (if IsBlank(row.desc) then [FreqField(i, FreqDesc)] else [])
  }

  function FreqViolations(rows: seq<FreqRow>): seq<FieldRef>
  {
    if rows == [] then []
    else
      var i := |rows| - 1;
      FreqViolations(rows[..i]) + RowViolations(i, rows[i])
  }

  /** Every input `validateForm` flags, in the order it flags them: the
      static inputs first, then the modules, the evaluations and the
      attendance rows, so that `firstError` lies in the earliest section
      holding a violation. */
  function Violations(fields: StaticFields, cards: seq<ModuleCard>, evs: seq<Evaluation>,
                      rows: seq<FreqRow>): (flagged: seq<FieldRef>)
    requires WebconfUrlPresent(fields)
    ensures forall i :: 0 < i < |flagged| ==> Section(flagged[i - 1]) <= Section(flagged[i])
  {
    SectionsOfParts(fields, cards, evs, rows);
    SectionsInOrder(StaticViolations(fields, REQUIRED_STATIC_IDS) + WebconfViolations(fields),
                    ModulesViolations(cards), EvaluationsViolations(evs), FreqViolations(rows));
    StaticViolations(fields, REQUIRED_STATIC_IDS) + WebconfViolations(fields)
    + ModulesViolations(cards) + EvaluationsViolations(evs) + FreqViolations(rows)
  }

  /** The section of the page an input belongs to, in page order. */
  function Section(x: FieldRef): nat {
    match x
    case StaticField(_) => 0
    case EvaluationField(_, _) => 2
    case FreqField(_, _) => 3
    case _ => 1
  }

  predicate InSection(xs: seq<FieldRef>, k: nat) {
    forall i :: 0 <= i < |xs| ==> Section(xs[i]) == k
  }

  /** Each part of the walk flags inputs of its own section only. */
  lemma SectionsOfParts(fields: StaticFields, cards: seq<ModuleCard>, evs: seq<Evaluation>,
                        rows: seq<FreqRow>)
    requires WebconfUrlPresent(fields)
    ensures InSection(StaticViolations(fields, REQUIRED_STATIC_IDS) + WebconfViolations(fields), 0)
    ensures InSection(ModulesViolations(cards), 1)
    ensures InSection(EvaluationsViolations(evs), 2)
    ensures InSection(FreqViolations(rows), 3)
  {
    StaticSection(fields);
    ModulesSection(cards);
    EvaluationsSection(evs);
    FreqSection(rows);
  }

  lemma StaticSection(fields: StaticFields)
    requires WebconfUrlPresent(fields)
    ensures InSection(StaticViolations(fields, REQUIRED_STATIC_IDS) + WebconfViolations(fields), 0)
  {
    var st := StaticViolations(fields, REQUIRED_STATIC_IDS);
    forall i | 0 <= i < |st| ensures st[i].StaticField? {
      InStaticViolations(fields, REQUIRED_STATIC_IDS, st[i]);
    }
  }

  lemma ModulesSection(cards: seq<ModuleCard>)
    ensures InSection(ModulesViolations(cards), 1)
  {
    var ms := ModulesViolations(cards);
    forall i | 0 <= i < |ms| ensures Section(ms[i]) == 1 {
      InModulesViolations(cards, ms[i]);
    }
  }

  lemma EvaluationsSection(evs: seq<Evaluation>)
    ensures InSection(EvaluationsViolations(evs), 2)
  {
    var es := EvaluationsViolations(evs);
    forall i | 0 <= i < |es| ensures es[i].EvaluationField? {
      InEvaluationsViolations(evs, es[i]);
    }
  }

  lemma FreqSection(rows: seq<FreqRow>)
    ensures InSection(FreqViolations(rows), 3)
  {
    var fs := FreqViolations(rows);
    forall i | 0 <= i < |fs| ensures fs[i].FreqField? {
      InFreqViolations(rows, fs[i]);
    }
  }

  /** Four runs of sections 0 to 3 placed end to end are in section order. */
  lemma SectionsInOrder(a: seq<FieldRef>, b: seq<FieldRef>, c: seq<FieldRef>, d: seq<FieldRef>)
    requires InSection(a, 0) && InSection(b, 1) && InSection(c, 2) && InSection(d, 3)
    ensures var v := a + b + c + d;
      forall i :: 0 < i < |v| ==> Section(v[i - 1]) <= Section(v[i])
  {
    var v := a + b + c + d;
    forall i | 0 <= i < |v|
      ensures Section(v[i]) == if i < |a| then 0 else if i < |a| + |b| then 1
                               else if i < |a| + |b| + |c| then 2 else 3
    {
      if i < |a| {
        assert v[i] == a[i];
      } else if i < |a| + |b| {
        assert v[i] == b[i - |a|];
      } else if i < |a| + |b| + |c| {
        assert v[i] == c[i - |a| - |b|];
      } else {
        assert v[i] == d[i - |a| - |b| - |c|];
      }
    }
  }

  // ---------------------------------------------------------------------
  // The walk flags exactly what the rules say
  // ---------------------------------------------------------------------

  lemma InWindowRefs(toggle: string, date: string, time: string,
                     toggleRef: FieldRef, dateRef: FieldRef, timeRef: FieldRef, x: FieldRef)
    ensures x in WindowRefs(toggle, date, time, toggleRef, dateRef, timeRef) <==>
      || (x == toggleRef && toggle == "")
      || (x == dateRef && DateInputsShown(toggle) && date == "")
      || (x == timeRef && DateInputsShown(toggle) && time == "")
  {
    if toggle == SIM {
      assert x in DateTimeRefs(date, time, dateRef, timeRef) <==>
        (x == dateRef && date == "") || (x == timeRef && time == "");
    }
  }

  lemma InScoringRefs(evalMethod: string, score: string, rubric: string,
                      methodRef: FieldRef, scoreRef: FieldRef, rubricRef: FieldRef, x: FieldRef)
    ensures x in ScoringRefs(evalMethod, score, rubric, methodRef, scoreRef, rubricRef) <==>
      || (x == methodRef && evalMethod == "")
      || (x == scoreRef && ScoreShown(evalMethod) && IsBlank(score))
      || (x == rubricRef && RubricShown(evalMethod) && IsBlank(rubric))
  {
  }

  lemma InResourceHeadRefs(m: nat, r: nat, res: Resource, x: FieldRef)
    ensures x in ResourceHeadRefs(m, r, res) <==>
      || (x == ResourceField(m, r, Title) && IsBlank(res.title))
      || (x == ResourceField(m, r, Desc) && IsBlank(res.desc))
      || (x == ResourceField(m, r, Kind) && res.kind == "")
  {
  }

  lemma InResourceRefsField(m: nat, r: nat, res: Resource, f: ItemField)
    ensures ResourceField(m, r, f) in ResourceRefs(m, r, res) <==> ResourceRule(res, f)
  {
    var x := ResourceField(m, r, f);
    InResourceHeadRefs(m, r, res, x);
    InWindowRefs(res.startToggle, res.startDate, res.startTime,
                 ResourceField(m, r, StartToggle), ResourceField(m, r, StartDate), ResourceField(m, r, StartTime), x);
    InWindowRefs(res.endToggle, res.endDate, res.endTime,
                 ResourceField(m, r, EndToggle), ResourceField(m, r, EndDate), ResourceField(m, r, EndTime), x);
    InScoringRefs(res.evalMethod, res.score, res.rubric,
                  ResourceField(m, r, Method), ResourceField(m, r, Score), ResourceField(m, r, Rubric), x);
  }

  lemma ResourceRefsShape(m: nat, r: nat, res: Resource, x: FieldRef)
    requires x in ResourceRefs(m, r, res)
    ensures x.ResourceField? && x.m == m && x.r == r
  {
    InResourceHeadRefs(m, r, res, x);
    InWindowRefs(res.startToggle, res.startDate, res.startTime,
                 ResourceField(m, r, StartToggle), ResourceField(m, r, StartDate), ResourceField(m, r, StartTime), x);
    InWindowRefs(res.endToggle, res.endDate, res.endTime,
                 ResourceField(m, r, EndToggle), ResourceField(m, r, EndDate), ResourceField(m, r, EndTime), x);
    InScoringRefs(res.evalMethod, res.score, res.rubric,
                  ResourceField(m, r, Method), ResourceField(m, r, Score), ResourceField(m, r, Rubric), x);
  }

  /** The walk over one resource flags exactly the inputs its rules name. */
  lemma InResourceRefs(m: nat, r: nat, res: Resource, x: FieldRef)
    ensures x in ResourceRefs(m, r, res) <==>
      x.ResourceField? && x.m == m && x.r == r && ResourceRule(res, x.field)
  {
    if x.ResourceField? && x.m == m && x.r == r {
      InResourceRefsField(m, r, res, x.field);
    } else if x in ResourceRefs(m, r, res) {
      ResourceRefsShape(m, r, res, x);
    }
  }

  lemma InEvaluationHeadRefs(e: nat, ev: Evaluation, x: FieldRef)
    ensures x in EvaluationHeadRefs(e, ev) <==>
      || (x == EvaluationField(e, Kind) && IsBlank(ev.kind))
      || (x == EvaluationField(e, Desc) && IsBlank(ev.desc))
  {
  }

  lemma InEvaluationRefsField(e: nat, ev: Evaluation, f: ItemField)
    requires ev.id != AUTOAVALIACAO
    ensures EvaluationField(e, f) in EvaluationRefs(e, ev) <==> EvaluationRule(ev, f)
  {
    var x := EvaluationField(e, f);
    InEvaluationHeadRefs(e, ev, x);
    InWindowRefs(ev.startToggle, ev.startDate, ev.startTime,
                 EvaluationField(e, StartToggle), EvaluationField(e, StartDate), EvaluationField(e, StartTime), x);
    InWindowRefs(ev.endToggle, ev.endDate, ev.endTime,
                 EvaluationField(e, EndToggle), EvaluationField(e, EndDate), EvaluationField(e, EndTime), x);
    InScoringRefs(ev.evalMethod, ev.score, ev.rubric,
                  EvaluationField(e, Method), EvaluationField(e, Score), EvaluationField(e, Rubric), x);
  }

  lemma EvaluationRefsShape(e: nat, ev: Evaluation, x: FieldRef)
    requires x in EvaluationRefs(e, ev)
    ensures x.EvaluationField? && x.e == e
  {
    InEvaluationHeadRefs(e, ev, x);
    InWindowRefs(ev.startToggle, ev.startDate, ev.startTime,
                 EvaluationField(e, StartToggle), EvaluationField(e, StartDate), EvaluationField(e, StartTime), x);
    InWindowRefs(ev.endToggle, ev.endDate, ev.endTime,
                 EvaluationField(e, EndToggle), EvaluationField(e, EndDate), EvaluationField(e, EndTime), x);
    InScoringRefs(ev.evalMethod, ev.score, ev.rubric,
                  EvaluationField(e, Method), EvaluationField(e, Score), EvaluationField(e, Rubric), x);
  }

  /** The walk over one evaluation flags exactly the inputs its rules name. */
  lemma InEvaluationRefs(e: nat, ev: Evaluation, x: FieldRef)
    ensures x in EvaluationRefs(e, ev) <==>
      x.EvaluationField? && x.e == e && EvaluationRule(ev, x.field)
  {
    if ev.id != AUTOAVALIACAO {
      if x.EvaluationField? && x.e == e {
        InEvaluationRefsField(e, ev, x.field);
      } else if x in EvaluationRefs(e, ev) {
        EvaluationRefsShape(e, ev, x);
      }
    }
  }

  lemma {:induction false} InStaticViolations(fields: StaticFields, ids: seq<StaticId>, x: FieldRef)
    ensures x in StaticViolations(fields, ids) <==>
      x.StaticField? && x.id in ids && x.id in fields && IsBlank(fields[x.id])
  {
    if ids != [] {
      var init := ids[..|ids| - 1];
      InStaticViolations(fields, init, x);
      assert ids == init + [ids[|ids| - 1]];
    }
  }

  lemma {:induction false} InResourcesViolations(m: nat, rs: seq<Resource>, x: FieldRef)
    ensures x in ResourcesViolations(m, rs) <==>
      x.ResourceField? && x.m == m && x.r < |rs| && ResourceRule(rs[x.r], x.field)
  {
    if rs != [] {
      var last := |rs| - 1;
      var init := rs[..last];
      InResourcesViolations(m, init, x);
      InResourceRefs(m, last, rs[last], x);
      if x.ResourceField? && x.r < last {
        assert init[x.r] == rs[x.r];
      }
    }
  }

  lemma InModuleViolations(m: nat, card: ModuleCard, x: FieldRef)
    ensures x in ModuleViolations(m, card) <==>
      || (x == ModuleTitle(m) && IsBlank(card.title))
      || (x == ModuleIntro(m) && IsBlank(card.intro))
      || (x.ResourceField? && x.m == m && x.r < |card.resources| && ResourceRule(card.resources[x.r], x.field))
  {
    InResourcesViolations(m, card.resources, x);
  }

  lemma {:induction false} InModulesViolations(cards: seq<ModuleCard>, x: FieldRef)
    ensures x in ModulesViolations(cards) <==> ModuleFlagged(cards, x)
  {
    if cards != [] {
      var last := |cards| - 1;
      var init := cards[..last];
      InModulesViolations(init, x);
      InModuleViolations(last, cards[last], x);
      if (x.ModuleTitle? || x.ModuleIntro? || x.ResourceField?) && x.m < last {
        assert init[x.m] == cards[x.m];
      }
    }
  }

  lemma {:induction false} InEvaluationsViolations(evs: seq<Evaluation>, x: FieldRef)
    ensures x in EvaluationsViolations(evs) <==>
      x.EvaluationField? && x.e < |evs| && EvaluationRule(evs[x.e], x.field)
  {
    if evs != [] {
      var last := |evs| - 1;
      var init := evs[..last];
      InEvaluationsViolations(init, x);
      InEvaluationRefs(last, evs[last], x);
      if x.EvaluationField? && x.e < last {
        assert init[x.e] == evs[x.e];
      }
    }
  }

  lemma InRowViolations(i: nat, row: FreqRow, x: FieldRef)
    ensures x in RowViolations(i, row) <==> x.FreqField? && x.row == i && FreqRule(row, x.column)
  {
  }

  lemma {:induction false} InFreqViolations(rows: seq<FreqRow>, x: FieldRef)
    ensures x in FreqViolations(rows) <==>
      x.FreqField? && x.row < |rows| && FreqRule(rows[x.row], x.column)
  {
    if rows != [] {
      var last := |rows| - 1;
      var init := rows[..last];
      InFreqViolations(init, x);
      InRowViolations(last, rows[last], x);
      if x.FreqField? && x.row < last {
        assert init[x.row] == rows[x.row];
      }
    }
  }

  /** The walk flags an input exactly when the rules say it must. */
  lemma ViolationsMatchRules(fields: StaticFields, cards: seq<ModuleCard>, evs: seq<Evaluation>,
                             rows: seq<FreqRow>, x: FieldRef)
    requires WebconfUrlPresent(fields)
    ensures x in Violations(fields, cards, evs, rows) <==> Flagged(fields, cards, evs, rows, x)
  {
    InStaticViolations(fields, REQUIRED_STATIC_IDS, x);
    if x.StaticField? {
      RequiredStaticIds(x.id);
    }
    InModulesViolations(cards, x);
    InEvaluationsViolations(evs, x);
    InFreqViolations(rows, x);
  }

  // ---------------------------------------------------------------------
  // Consequences
  // ---------------------------------------------------------------------

  /** `webconf_type` is never flagged; the URL is flagged only for a custom
      webconf, and then exactly when it is blank. */
  lemma WebconfRule(fields: StaticFields, cards: seq<ModuleCard>, evs: seq<Evaluation>, rows: seq<FreqRow>)
    requires WebconfUrlPresent(fields)
    ensures StaticField(WebconfType) !in Violations(fields, cards, evs, rows)
    ensures StaticField(WebconfUrl) in Violations(fields, cards, evs, rows)
            <==> CustomWebconf(fields) && IsBlank(fields[WebconfUrl])
  {
    ViolationsMatchRules(fields, cards, evs, rows, StaticField(WebconfType));
    ViolationsMatchRules(fields, cards, evs, rows, StaticField(WebconfUrl));
  }

  /** An Autoavaliação contributes no violation, whatever its other inputs hold. */
  lemma AutoavaliacaoExempt(fields: StaticFields, cards: seq<ModuleCard>, evs: seq<Evaluation>,
                            rows: seq<FreqRow>, e: nat, f: ItemField)
    requires WebconfUrlPresent(fields)
    requires e < |evs| && evs[e].id == AUTOAVALIACAO
    ensures EvaluationField(e, f) !in Violations(fields, cards, evs, rows)
  {
    ViolationsMatchRules(fields, cards, evs, rows, EvaluationField(e, f));
  }

  /** Evaluations that flag the same inputs give the same walk. */
  lemma {:induction false} EvaluationsViolationsPointwise(evs: seq<Evaluation>, evs': seq<Evaluation>)
    requires |evs| == |evs'|
    requires forall i :: 0 <= i < |evs| ==> EvaluationRefs(i, evs[i]) == EvaluationRefs(i, evs'[i])
    ensures EvaluationsViolations(evs) == EvaluationsViolations(evs')
  {
    if evs != [] {
      var last := |evs| - 1;
      EvaluationsViolationsPointwise(evs[..last], evs'[..last]);
    }
  }

  /** Replacing an Autoavaliação by any other Autoavaliação leaves the whole
      result of the walk unchanged. */
  lemma AutoavaliacaoContentIrrelevant(fields: StaticFields, cards: seq<ModuleCard>, evs: seq<Evaluation>,
                                       rows: seq<FreqRow>, e: nat, ev: Evaluation)
    requires WebconfUrlPresent(fields)
    requires e < |evs| && evs[e].id == AUTOAVALIACAO && ev.id == AUTOAVALIACAO
    ensures Violations(fields, cards, evs[e := ev], rows) == Violations(fields, cards, evs, rows)
  {
    EvaluationsViolationsPointwise(evs[e := ev], evs);
  }

  /** An attendance row with nothing typed in it makes the form invalid. */
  lemma EmptyRowFails(fields: StaticFields, cards: seq<ModuleCard>, evs: seq<Evaluation>,
                      rows: seq<FreqRow>, i: nat)
    requires WebconfUrlPresent(fields)
    requires i < |rows| && EmptyRow(rows[i])
    ensures FreqField(i, FreqDate) in Violations(fields, cards, evs, rows)
    ensures Violations(fields, cards, evs, rows) != []
  {
    InFreqViolations(rows, FreqField(i, FreqDate));
  }

  /** On a form that passes, saving or exporting drops no attendance row. */
  lemma PassingFormKeepsAllRows(fields: StaticFields, cards: seq<ModuleCard>, evs: seq<Evaluation>,
                                rows: seq<FreqRow>)
    requires WebconfUrlPresent(fields)
    requires Violations(fields, cards, evs, rows) == []
    ensures NonBlankRows(rows) == rows
  {
    assert FreqViolations(rows) == [];
    forall i | 0 <= i < |rows|
      ensures !EmptyRow(rows[i])
    {
      InFreqViolations(rows, FreqField(i, FreqDate));
    }
    NonBlankRowsKeepsFullTable(rows);
  }

  /** A small form that fills in everything the rules require: a standard
      webconf with its URL left empty, one module with one resource open
      in a dated window and scored by points, an Autoavaliação with nothing
      typed in followed by a fully filled NPC, one lesson. */
  const SAMPLE_FIELDS: StaticFields :=
    map[Turma := "x", Semestre := "x", Curso := "x", Disciplina := "x", CargaHoraria := "x",
        Polos := "x", Livro := "x", MaterialAdicional := "x", WebconfType := "padrao",
        WebconfUrl := "", Npc1 := "x", Npc2 := "x", Media := "x"]
  const SAMPLE_RESOURCE: Resource :=
    Resource("Fórum", "Boas-vindas", "2024-03-01", "08:00", SIM, "2024-03-08", "23:59", SIM,
             PONTUACAO, "10", "", "Apresente-se")
  const SAMPLE_CARDS: seq<ModuleCard> := [ModuleCard("Módulo 1", "Introdução", "Apresentação", [SAMPLE_RESOURCE])]
  const SAMPLE_NPC: Evaluation :=
    Evaluation(NPC, "Prova", "2024-04-01", "08:00", SIM, "2024-04-01", "12:00", SIM,
               PONTUACAO, "10", "", "Prova escrita")
  const SAMPLE_EVALUATIONS: seq<Evaluation> := [EvaluationWithId(AUTOAVALIACAO), SAMPLE_NPC]
  const SAMPLE_ROWS: seq<FreqRow> := [FreqRow("2024-03-01", "4", "Aula inaugural")]

  lemma SampleStaticPasses()
    ensures WebconfUrlPresent(SAMPLE_FIELDS)
    ensures StaticViolations(SAMPLE_FIELDS, REQUIRED_STATIC_IDS) + WebconfViolations(SAMPLE_FIELDS) == []
  {
    assert !CustomWebconf(SAMPLE_FIELDS);
    assert !IsBlank("x") by {
      assert !IsWhitespace("x"[0]);
    }
    var sv := StaticViolations(SAMPLE_FIELDS, REQUIRED_STATIC_IDS);
    if sv != [] {
      InStaticViolations(SAMPLE_FIELDS, REQUIRED_STATIC_IDS, sv[0]);
      RequiredStaticIds(sv[0].id);
      assert false;
    }
  }

  lemma SampleModulesPass()
    ensures ModulesViolations(SAMPLE_CARDS) == []
  {
    var res := SAMPLE_RESOURCE;
    var card := SAMPLE_CARDS[0];
    assert !IsWhitespace(res.title[0]) && !IsWhitespace(res.desc[0]) && !IsWhitespace(res.score[0]);
    assert ResourceRefs(0, 0, res) == [];
    assert [res][..0] == [];
    assert ResourcesViolations(0, [res]) == ResourcesViolations(0, []) + ResourceRefs(0, 0, res);
    assert !IsWhitespace(card.title[0]) && !IsWhitespace(card.intro[0]);
    assert ModuleViolations(0, card) == [];
    assert SAMPLE_CARDS[..0] == [];
  }

  /** The sample NPC meets every rule of a checked evaluation. */
  lemma SampleNpcPasses()
    ensures EvaluationRefs(1, SAMPLE_NPC) == []
  {
    var npc := SAMPLE_NPC;
    assert npc.id != AUTOAVALIACAO by { assert npc.id[0] != AUTOAVALIACAO[0]; }
    assert EvaluationHeadRefs(1, npc) == [] by {
      assert !IsWhitespace(npc.kind[0]) && !IsWhitespace(npc.desc[0]);
    }
    assert ScoringRefs(npc.evalMethod, npc.score, npc.rubric,
                       EvaluationField(1, Method), EvaluationField(1, Score), EvaluationField(1, Rubric)) == [] by {
      assert !IsWhitespace(npc.score[0]);
    }
  }

  lemma SampleEvaluationsAndRowsPass()
    ensures EvaluationsViolations(SAMPLE_EVALUATIONS) == []
    ensures FreqViolations(SAMPLE_ROWS) == []
  {
    var evs := SAMPLE_EVALUATIONS;
    assert EvaluationsViolations(evs[..1]) == [] by {
      assert evs[..1] == [EvaluationWithId(AUTOAVALIACAO)];
      assert evs[..1][..0] == [];
    }
    SampleNpcPasses();
    assert EvaluationsViolations(evs) == EvaluationsViolations(evs[..1]) + EvaluationRefs(1, SAMPLE_NPC);
    assert SAMPLE_ROWS[..0] == [];
    assert !IsWhitespace(SAMPLE_ROWS[0].desc[0]);
  }

  /** The rules can all be met: the sample form has no violation. */
  lemma MinimalFormPasses()
    ensures WebconfUrlPresent(SAMPLE_FIELDS)
    ensures Violations(SAMPLE_FIELDS, SAMPLE_CARDS, SAMPLE_EVALUATIONS, SAMPLE_ROWS) == []
  {
    SampleStaticPasses();
    SampleModulesPass();
    SampleEvaluationsAndRowsPass();
  }

  /** Whether an input of a resource card is shown: the date and time
      inputs only under "Sim", the score only under "Pontuação", the rubric
      only under "Rúbrica". */
  predicate ResourceInputShown(res: Resource, f: ItemField) {
    match f
    case StartDate => DateInputsShown(res.startToggle)
    case StartTime => DateInputsShown(res.startToggle)
    case EndDate => DateInputsShown(res.endToggle)
    case EndTime => DateInputsShown(res.endToggle)
    case Score => ScoreShown(res.evalMethod)
    case Rubric => RubricShown(res.evalMethod)
    case _ => true
  }

  /** Whether an input of an evaluation card is shown: there is no title
      input; type, description and scoring sit in the block an
      Autoavaliação hides; the windows follow their toggles. */
  predicate EvaluationInputShown(ev: Evaluation, f: ItemField) {
    match f
    case Title => false
    case StartToggle => true
    case EndToggle => true
    case StartDate => DateInputsShown(ev.startToggle)
    case StartTime => DateInputsShown(ev.startToggle)
    case EndDate => DateInputsShown(ev.endToggle)
    case EndTime => DateInputsShown(ev.endToggle)
    case Score => CommonEvalFieldsShown(ev.id) && ScoreShown(ev.evalMethod)
    case Rubric => CommonEvalFieldsShown(ev.id) && RubricShown(ev.evalMethod)
    case _ => CommonEvalFieldsShown(ev.id)
  }

  /** Whether input `x` is shown on the page, given whether the webconf URL
      input is shown: the cards' inputs follow their handlers' rules, which
      the cards' own change events apply whenever they are filled. */
  predicate Shown(urlShown: bool, cards: seq<ModuleCard>, evs: seq<Evaluation>, x: FieldRef) {
    match x
    case StaticField(id) => id != WebconfUrl || urlShown
    case ResourceField(m, r, f) =>
      m < |cards| && r < |cards[m].resources| && ResourceInputShown(cards[m].resources[r], f)
    case EvaluationField(e, f) => e < |evs| && EvaluationInputShown(evs[e], f)
    case _ => true
  }

  /** While the URL input's visibility follows the webconf select, as the
      select's change handler keeps it, the validator flags no input the
      handlers' rules hide. */
  lemma FlaggedInputsAreShown(fields: StaticFields, urlShown: bool, cards: seq<ModuleCard>,
                              evs: seq<Evaluation>, rows: seq<FreqRow>, x: FieldRef)
    requires WebconfUrlPresent(fields)
    requires urlShown == CustomWebconf(fields)
    requires x in Violations(fields, cards, evs, rows)
    ensures Shown(urlShown, cards, evs, x)
  {
    ViolationsMatchRules(fields, cards, evs, rows, x);
  }

  /** The validator tests the select, not the URL input's visibility: with
      a custom webconf and a blank URL the URL is flagged even while its
      input is hidden. */
  lemma HiddenCustomUrlFlagged(fields: StaticFields, cards: seq<ModuleCard>, evs: seq<Evaluation>,
                               rows: seq<FreqRow>)
    requires WebconfUrl in fields && CustomWebconf(fields) && IsBlank(fields[WebconfUrl])
    ensures StaticField(WebconfUrl) in Violations(fields, cards, evs, rows)
    ensures !Shown(false, cards, evs, StaticField(WebconfUrl))
  {
    WebconfRule(fields, cards, evs, rows);
  }

  // ---------------------------------------------------------------------
  // The loop
  // ---------------------------------------------------------------------

  /** The walk's state: what has been flagged, `isValid`, `firstError`. */
  datatype Marks = Marks(flagged: seq<FieldRef>, isValid: bool, firstError: Option<FieldRef>)

  predicate Consistent(k: Marks) {
    && (k.isValid <==> k.flagged == [])
    && k.firstError == (if k.flagged == [] then None else Some(k.flagged[0]))
  }

  /** `setError(el)`: flag, clear `isValid`, remember the first error. */
  function SetError(k: Marks, x: FieldRef): (k': Marks)
    ensures Consistent(k) ==> Consistent(k')
    ensures k'.flagged == k.flagged + [x]
  {
    Marks(k.flagged + [x], false, if k.firstError == None then Some(x) else k.firstError)
  }

  method CheckWindow(k: Marks, toggle: string, date: string, time: string,
                     toggleRef: FieldRef, dateRef: FieldRef, timeRef: FieldRef) returns (k': Marks)
    requires Consistent(k)
    ensures Consistent(k')
    ensures k'.flagged == k.flagged + WindowRefs(toggle, date, time, toggleRef, dateRef, timeRef)
  {
    k' := k;
    if toggle == "" {
      k' := SetError(k', toggleRef);
    } else if toggle == SIM {
      k' := CheckDateTime(k', date, time, dateRef, timeRef);
    }
  }

  method CheckDateTime(k: Marks, date: string, time: string, dateRef: FieldRef, timeRef: FieldRef)
    returns (k': Marks)
    requires Consistent(k)
    ensures Consistent(k')
    ensures k'.flagged == k.flagged + DateTimeRefs(date, time, dateRef, timeRef)
  {
    k' := k;
    if date == "" { k' := SetError(k', dateRef); }
    if time == "" { k' := SetError(k', timeRef); }
  }

  method CheckScoring(k: Marks, evalMethod: string, score: string, rubric: string,
                      methodRef: FieldRef, scoreRef: FieldRef, rubricRef: FieldRef) returns (k': Marks)
    requires Consistent(k)
    ensures Consistent(k')
    ensures k'.flagged == k.flagged + ScoringRefs(evalMethod, score, rubric, methodRef, scoreRef, rubricRef)
  {
    k' := k;
    if evalMethod == "" {
      k' := SetError(k', methodRef);
    } else if evalMethod == PONTUACAO {
      if IsBlank(score) { k' := SetError(k', scoreRef); }
    } else if evalMethod == RUBRICA {
      if IsBlank(rubric) { k' := SetError(k', rubricRef); }
    }
  }

  lemma AppendFour<T>(a: seq<T>, b: seq<T>, c: seq<T>, d: seq<T>, e: seq<T>)
    ensures a + (b + c + d + e) == a + b + c + d + e
  {
  }

  method CheckResourceHead(k: Marks, m: nat, r: nat, res: Resource) returns (k': Marks)
    requires Consistent(k)
    ensures Consistent(k')
    ensures k'.flagged == k.flagged + ResourceHeadRefs(m, r, res)
  {
    k' := k;
    if IsBlank(res.title) { k' := SetError(k', ResourceField(m, r, Title)); }
    if IsBlank(res.desc) { k' := SetError(k', ResourceField(m, r, Desc)); }
    if res.kind == "" { k' := SetError(k', ResourceField(m, r, Kind)); }
  }

  method CheckResource(k: Marks, m: nat, r: nat, res: Resource) returns (k': Marks)
    requires Consistent(k)
    ensures Consistent(k')
    ensures k'.flagged == k.flagged + ResourceRefs(m, r, res)
  {
    k' := CheckResourceHead(k, m, r, res);
    k' := CheckWindow(k', res.startToggle, res.startDate, res.startTime,
                      ResourceField(m, r, StartToggle), ResourceField(m, r, StartDate), ResourceField(m, r, StartTime));
    k' := CheckWindow(k', res.endToggle, res.endDate, res.endTime,
                      ResourceField(m, r, EndToggle), ResourceField(m, r, EndDate), ResourceField(m, r, EndTime));
    k' := CheckScoring(k', res.evalMethod, res.score, res.rubric,
                       ResourceField(m, r, Method), ResourceField(m, r, Score), ResourceField(m, r, Rubric));
    AppendFour(k.flagged, ResourceHeadRefs(m, r, res),
      WindowRefs(res.startToggle, res.startDate, res.startTime,
                 ResourceField(m, r, StartToggle), ResourceField(m, r, StartDate), ResourceField(m, r, StartTime)),
      WindowRefs(res.endToggle, res.endDate, res.endTime,
                 ResourceField(m, r, EndToggle), ResourceField(m, r, EndDate), ResourceField(m, r, EndTime)),
      ScoringRefs(res.evalMethod, res.score, res.rubric,
                  ResourceField(m, r, Method), ResourceField(m, r, Score), ResourceField(m, r, Rubric)));
  }

  method CheckEvaluationHead(k: Marks, e: nat, ev: Evaluation) returns (k': Marks)
    requires Consistent(k)
    ensures Consistent(k')
    ensures k'.flagged == k.flagged + EvaluationHeadRefs(e, ev)
  {
    k' := k;
    if IsBlank(ev.kind) { k' := SetError(k', EvaluationField(e, Kind)); }
    if IsBlank(ev.desc) { k' := SetError(k', EvaluationField(e, Desc)); }
  }

  method CheckEvaluation(k: Marks, e: nat, ev: Evaluation) returns (k': Marks)
    requires Consistent(k)
    ensures Consistent(k')
    ensures k'.flagged == k.flagged + EvaluationRefs(e, ev)
  {
    k' := k;
    if ev.id != AUTOAVALIACAO {
      k' := CheckEvaluationHead(k', e, ev);
      k' := CheckWindow(k', ev.startToggle, ev.startDate, ev.startTime,
                        EvaluationField(e, StartToggle), EvaluationField(e, StartDate), EvaluationField(e, StartTime));
      k' := CheckWindow(k', ev.endToggle, ev.endDate, ev.endTime,
                        EvaluationField(e, EndToggle), EvaluationField(e, EndDate), EvaluationField(e, EndTime));
      k' := CheckScoring(k', ev.evalMethod, ev.score, ev.rubric,
                         EvaluationField(e, Method), EvaluationField(e, Score), EvaluationField(e, Rubric));
      AppendFour(k.flagged, EvaluationHeadRefs(e, ev),
        WindowRefs(ev.startToggle, ev.startDate, ev.startTime,
                   EvaluationField(e, StartToggle), EvaluationField(e, StartDate), EvaluationField(e, StartTime)),
        WindowRefs(ev.endToggle, ev.endDate, ev.endTime,
                   EvaluationField(e, EndToggle), EvaluationField(e, EndDate), EvaluationField(e, EndTime)),
        ScoringRefs(ev.evalMethod, ev.score, ev.rubric,
                    EvaluationField(e, Method), EvaluationField(e, Score), EvaluationField(e, Rubric)));
    }
  }

  /** The required static fields, then the webconf URL. */
  method CheckStatic(k: Marks, fields: StaticFields) returns (k': Marks)
    requires Consistent(k) && WebconfUrlPresent(fields)
    ensures Consistent(k')
    ensures k'.flagged == k.flagged + (StaticViolations(fields, REQUIRED_STATIC_IDS) + WebconfViolations(fields))
  {
    k' := k;
    var i := 0;
    while i < |REQUIRED_STATIC_IDS|
      invariant 0 <= i <= |REQUIRED_STATIC_IDS|
      invariant Consistent(k')
      invariant k'.flagged == k.flagged + StaticViolations(fields, REQUIRED_STATIC_IDS[..i])
    {
      var id := REQUIRED_STATIC_IDS[i];
      if id in fields && IsBlank(fields[id]) {
        k' := SetError(k', StaticField(id));
      }
      assert REQUIRED_STATIC_IDS[..i + 1][..i] == REQUIRED_STATIC_IDS[..i];
      i := i + 1;
    }
    assert REQUIRED_STATIC_IDS[..i] == REQUIRED_STATIC_IDS;
    if CustomWebconf(fields) && IsBlank(fields[WebconfUrl]) {
      k' := SetError(k', StaticField(WebconfUrl));
    }
  }

  /** One module card: its title, its introduction, then its resources. */
  /** One step of the resource loop: the next resource's flags follow those of the ones before. */
  lemma ResourcesViolationsStep(m: nat, rs: seq<Resource>, r: nat)
    requires r < |rs|
    ensures ResourcesViolations(m, rs[..r + 1]) == ResourcesViolations(m, rs[..r]) + ResourceRefs(m, r, rs[r])
  {
    assert rs[..r + 1][..r] == rs[..r];
  }

  method CheckModule(k: Marks, m: nat, card: ModuleCard) returns (k': Marks)
    requires Consistent(k)
    ensures Consistent(k')
    ensures k'.flagged == k.flagged + ModuleViolations(m, card)
  {
    k' := k;
    if IsBlank(card.title) { k' := SetError(k', ModuleTitle(m)); }
    if IsBlank(card.intro) { k' := SetError(k', ModuleIntro(m)); }
    ghost var head := k'.flagged;
    ghost var titles := (if IsBlank(card.title) then [ModuleTitle(m)] else [])
                        + (if IsBlank(card.intro) then [ModuleIntro(m)] else []);
    assert head == k.flagged + titles;
    var r := 0;
    while r < |card.resources|
      invariant 0 <= r <= |card.resources|
      invariant Consistent(k')
      invariant k'.flagged == head + ResourcesViolations(m, card.resources[..r])
    {
      ResourcesViolationsStep(m, card.resources, r);
      AppendAssoc(head, ResourcesViolations(m, card.resources[..r]), ResourceRefs(m, r, card.resources[r]));
      k' := CheckResource(k', m, r, card.resources[r]);
      r := r + 1;
    }
    assert card.resources[..r] == card.resources;
    AppendAssoc(k.flagged, titles, ResourcesViolations(m, card.resources));
  }

  method CheckModules(k: Marks, cards: seq<ModuleCard>) returns (k': Marks)
    requires Consistent(k)
    ensures Consistent(k')
    ensures k'.flagged == k.flagged + ModulesViolations(cards)
  {
    k' := k;
    var m := 0;
    while m < |cards|
      invariant 0 <= m <= |cards|
      invariant Consistent(k')
      invariant k'.flagged == k.flagged + ModulesViolations(cards[..m])
    {
      k' := CheckModule(k', m, cards[m]);
      assert cards[..m + 1][..m] == cards[..m];
      AppendAssoc(k.flagged, ModulesViolations(cards[..m]), ModuleViolations(m, cards[m]));
      m := m + 1;
    }
    assert cards[..m] == cards;
  }

  method CheckEvaluations(k: Marks, evs: seq<Evaluation>) returns (k': Marks)
    requires Consistent(k)
    ensures Consistent(k')
    ensures k'.flagged == k.flagged + EvaluationsViolations(evs)
  {
    k' := k;
    var e := 0;
    while e < |evs|
      invariant 0 <= e <= |evs|
      invariant Consistent(k')
      invariant k'.flagged == k.flagged + EvaluationsViolations(evs[..e])
    {
      k' := CheckEvaluation(k', e, evs[e]);
      assert evs[..e + 1][..e] == evs[..e];
      AppendAssoc(k.flagged, EvaluationsViolations(evs[..e]), EvaluationRefs(e, evs[e]));
      e := e + 1;
    }
    assert evs[..e] == evs;
  }

  method CheckRow(k: Marks, t: nat, row: FreqRow) returns (k': Marks)
    requires Consistent(k)
    ensures Consistent(k')
    ensures k'.flagged == k.flagged + RowViolations(t, row)
  {
    k' := k;
    if row.date == "" { k' := SetError(k', FreqField(t, FreqDate)); }
    if row.ch == "" { k' := SetError(k', FreqField(t, FreqHours)); }
    if IsBlank(row.desc) { k' := SetError(k', FreqField(t, FreqDesc)); }
  }

  method CheckRows(k: Marks, rows: seq<FreqRow>) returns (k': Marks)
    requires Consistent(k)
    ensures Consistent(k')
    ensures k'.flagged == k.flagged + FreqViolations(rows)
  {
    k' := k;
    var t := 0;
    while t < |rows|
      invariant 0 <= t <= |rows|
      invariant Consistent(k')
      invariant k'.flagged == k.flagged + FreqViolations(rows[..t])
    {
      var row := rows[t];
      k' := CheckRow(k', t, row);
      assert rows[..t + 1][..t] == rows[..t];
      AppendAssoc(k.flagged, FreqViolations(rows[..t]), RowViolations(t, row));
      t := t + 1;
    }
    assert rows[..t] == rows;
  }

  /** `validateForm`: flags every violation in walk order; the form is valid
      exactly when nothing was flagged, and the reported error is the first
      flagged input. */
  method ValidateForm(fields: StaticFields, cards: seq<ModuleCard>, evs: seq<Evaluation>, rows: seq<FreqRow>)
    returns (isValid: bool, firstError: Option<FieldRef>, flagged: seq<FieldRef>)
    requires WebconfUrlPresent(fields)
    ensures flagged == Violations(fields, cards, evs, rows)
    ensures isValid <==> flagged == []
    ensures firstError == if flagged == [] then None else Some(flagged[0])
  {
    var k := Marks([], true, None);
    k := CheckStatic(k, fields);
    assert k.flagged == StaticViolations(fields, REQUIRED_STATIC_IDS) + WebconfViolations(fields);
    k := CheckModules(k, cards);
    k := CheckEvaluations(k, evs);
    k := CheckRows(k, rows);
    isValid, firstError, flagged := k.isValid, k.firstError, k.flagged;
  }
}

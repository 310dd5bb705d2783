/**
 * The four-step form that collects the figures and shows the valuation:
 * 1 business information, 2 financial information, 3 assets and
 * liabilities, 4 results.
 */
module Wizard {
  import opened Wrappers
  import opened Industries
  import opened Valuation

  /** The numeric fields of the form. */
  datatype AmountField =
    | AnnualRevenue | CostOfGoodsSold | OperatingExpenses | OwnerSalary | OwnerBenefits
    | DiscretionaryExpenses | Depreciation | TangibleAssets | IntangibleAssets | TotalLiabilities | Arr

  /** The fields the form collects but the valuation never reads. */
  datatype TextField =
    | BusinessAge | BusinessType | Mrr | ChurnRate | Cac | Ltv
    | SameStoreSales | InventoryTurnover | EcommercePenetration

  /**
   * The form's contents. A field absent from `amounts` or `texts` is empty;
   * a number input yields the empty value for text that is not a number.
   */
  datatype Form = Form(industry: Option<Industry>, amounts: map<AmountField, real>, texts: map<TextField, string>)

  const EmptyForm: Form := Form(None, map[], map[])

  predicate Filled(form: Form, f: AmountField) {
    f in form.amounts
  }

  /** The number a field contributes to the valuation: an empty field counts as 0. */
  function Amount(form: Form, f: AmountField): real {
    if f in form.amounts then form.amounts[f] else 0.0
  }

  /** Entering `v` in field `f` (`None` clears it); every other field keeps its value. */
  function SetAmount(form: Form, f: AmountField, v: Option<real>): (g: Form)
    ensures Filled(g, f) <==> v.Some?
    ensures Amount(g, f) == v.GetOr(0.0)
    ensures forall h :: h != f ==> (Filled(g, h) <==> Filled(form, h)) && Amount(g, h) == Amount(form, h)
    ensures g.industry == form.industry && g.texts == form.texts
  {
    match v
    case Some(n) => form.(amounts := form.amounts[f := n])
    case None => form.(amounts := form.amounts - {f})
  }

  /** The engine input's figure for a numeric field; an absent ARR counts as 0 here. */
  function InputAmount(x: Input, f: AmountField): real {
    match f
    case AnnualRevenue => x.annualRevenue
    case CostOfGoodsSold => x.costOfGoodsSold
    case OperatingExpenses => x.operatingExpenses
    case OwnerSalary => x.ownerSalary
    case OwnerBenefits => x.ownerBenefits
    case DiscretionaryExpenses => x.discretionaryExpenses
    case Depreciation => x.depreciation
    case TangibleAssets => x.tangibleAssets
    case IntangibleAssets => x.intangibleAssets
    case TotalLiabilities => x.totalLiabilities
    case Arr => x.arr.GetOr(0.0)
  }

  /**
   * The engine's input as the calculation reads it off the form: every field
   * passes its number through, an empty field passes 0, and only ARR keeps
   * the distinction between empty and filled.
   */
  function ToInput(form: Form): (x: Input)
    ensures x.industry == form.industry
    ensures forall f :: InputAmount(x, f) == Amount(form, f)
    ensures x.arr.Some? <==> Filled(form, Arr)
  {
    Input(
      form.industry,
      Amount(form, AnnualRevenue),
      Amount(form, CostOfGoodsSold),
      Amount(form, OperatingExpenses),
      Amount(form, OwnerSalary),
      Amount(form, OwnerBenefits),
      Amount(form, DiscretionaryExpenses),
      Amount(form, Depreciation),
      Amount(form, TangibleAssets),
      Amount(form, IntangibleAssets),
      Amount(form, TotalLiabilities),
      if Filled(form, Arr) then Some(form.amounts[Arr]) else None)
  }

  /** Whether step `step` displays numeric field `f` (ARR only for SaaS). */
  predicate ShowsAmount(step: int, industry: Option<Industry>, f: AmountField) {
    match f
    case TangibleAssets | IntangibleAssets | TotalLiabilities => step == 3
    case Arr => step == 2 && industry == Some(Saas)
    case _ => step == 2
  }

  /** Whether step `step` displays text field `f`; MRR has no input anywhere. */
  predicate ShowsText(step: int, industry: Option<Industry>, f: TextField) {
    match f
    case BusinessAge | BusinessType => step == 1
    case Mrr => false
    case ChurnRate | Cac | Ltv => step == 2 && industry == Some(Saas)
    case SameStoreSales | InventoryTurnover | EcommercePenetration => step == 2 && industry == Some(Retail)
  }

  /** What the user can do: edit a field or press a navigation button. */
  datatype Event =
    | ChooseIndustry(industry: Industry)
    | EditAmount(amountField: AmountField, value: Option<real>)
    | EditText(textField: TextField, text: string)
    | Next
    | Back
    | Calculate
    | StartOver

  datatype Wizard = Wizard(step: int, form: Form, results: Option<Result>)

  /**
   * What holds of every state the form can reach: the step is one of the
   * four, the later steps have the fields their Next buttons demanded, and
   * the results shown on step 4 are those of the form as it stands.
   */
  predicate Valid(w: Wizard) {
    && 1 <= w.step <= 4
    && (w.step >= 2 ==> w.form.industry.Some?)
    && (w.step >= 3 ==> Filled(w.form, AnnualRevenue))
    && (w.step == 4 ==> w.results == Some(Evaluate(ToInput(w.form))))
  }

  /** The step moves the buttons offer. */
  const Moves: set<(int, int)> := {(1, 2), (2, 3), (3, 4), (2, 1), (3, 2), (4, 1)}

  function Initial(): (w: Wizard)
    ensures Valid(w) && w.step == 1 && w.results == None
    ensures w.form.industry == None && w.form.amounts == map[] && w.form.texts == map[]
  {
    Wizard(1, EmptyForm, None)
  }

  /** One user action. An action whose control is not on the current step, or is disabled, changes nothing. */
  function Step(w: Wizard, e: Event): (w': Wizard)
    requires Valid(w)
    ensures Valid(w')
    ensures w'.step == w.step || (w.step, w'.step) in Moves
    ensures w'.step != w.step ==> w'.form == w.form
    ensures w'.results != w.results ==> e == Calculate && w'.step == 4
    ensures e == Calculate && w.step == 3 ==> w'.step == 4 && w'.results == Some(Evaluate(ToInput(w.form)))
    ensures e == Next ==>
              w'.form == w.form && w'.results == w.results && (w'.step == w.step || w'.step == w.step + 1)
    ensures e == Calculate && w.step != 3 ==> w' == w
    ensures e == StartOver ==> w' == (if w.step == 4 then w.(step := 1) else w)
    ensures e == Back ==>
              w'.form == w.form && w'.step == (if w.step == 2 || w.step == 3 then w.step - 1 else w.step)
    ensures e.ChooseIndustry? ==>
              w'.step == w.step && w'.form.industry == (if w.step == 1 then Some(e.industry) else w.form.industry)
              && w'.form.amounts == w.form.amounts && w'.form.texts == w.form.texts
    ensures e.EditAmount? ==>
              w'.step == w.step
              && w'.form == (if ShowsAmount(w.step, w.form.industry, e.amountField)
                             then SetAmount(w.form, e.amountField, e.value) else w.form)
    ensures e.EditText? ==>
              w'.step == w.step
              && w'.form == (if ShowsText(w.step, w.form.industry, e.textField)
                             then w.form.(texts := w.form.texts[e.textField := e.text]) else w.form)
  {
    match e
    case ChooseIndustry(i) =>
      if w.step == 1 then w.(form := w.form.(industry := Some(i))) else w
    case EditAmount(f, v) =>
      if ShowsAmount(w.step, w.form.industry, f) then w.(form := SetAmount(w.form, f, v)) else w
    case EditText(f, s) =>
      if ShowsText(w.step, w.form.industry, f) then w.(form := w.form.(texts := w.form.texts[f := s])) else w
    case Next =>
      if w.step == 1 && w.form.industry.Some? then w.(step := 2)
      else if w.step == 2 && Filled(w.form, AnnualRevenue) then w.(step := 3)
      else w
    case Back =>
      if w.step == 2 then w.(step := 1)
      else if w.step == 3 then w.(step := 2)
      else w
    case Calculate =>
      if w.step == 3 then Wizard(4, w.form, Some(Evaluate(ToInput(w.form)))) else w
    case StartOver =>
      if w.step == 4 then w.(step := 1) else w
  }

  /** Next leaves step 1 exactly when an industry has been chosen. */
  lemma NextFromBusinessInfo(w: Wizard)
    requires Valid(w) && w.step == 1
    ensures Step(w, Next) == (if w.form.industry.Some? then w.(step := 2) else w)
  {
  }

  /** Next leaves step 2 exactly when the annual revenue is filled in. */
  lemma NextFromFinancials(w: Wizard)
    requires Valid(w) && w.step == 2
    ensures Step(w, Next) == (if Filled(w.form, AnnualRevenue) then w.(step := 3) else w)
  {
  }

  /** Starting over keeps everything the user typed and the last results. */
  lemma StartOverKeepsForm(w: Wizard)
    requires Valid(w) && w.step == 4
    ensures Step(w, StartOver) == w.(step := 1)
  {
  }

  /** A session: the actions applied one after another. */
  function Run(w: Wizard, es: seq<Event>): (w': Wizard)
    requires Valid(w)
    ensures Valid(w')
    decreases |es|
  {
    if es == [] then w else Run(Step(w, es[0]), es[1..])
  }

  /** The results step is reached only by pressing Calculate. */
  lemma {:induction false} ResultsOnlyThroughCalculate(w: Wizard, es: seq<Event>)
    requires Valid(w) && w.step != 4 && Run(w, es).step == 4
    ensures Calculate in es
    decreases |es|
  {
    if es != [] && es[0] != Calculate {
      var w1 := Step(w, es[0]);
      assert w1.step != 4;
      ResultsOnlyThroughCalculate(w1, es[1..]);
      assert es == [es[0]] + es[1..];
    }
  }

  /** The shortest session that reaches the results: pick an industry, give a revenue, calculate. */
  lemma ShortestSession()
    ensures var w := Run(Initial(), [ChooseIndustry(General), Next, EditAmount(AnnualRevenue, Some(0.0)),
                                     Next, Calculate]);
            && w.step == 4 && w.results.Some? && w.results.value.basis == SdeMultiple
  {
  }

  /** The fields the valuation never reads can hold anything without changing the results. */
  lemma TextFieldsInert(form: Form, f: TextField, s: string)
    ensures Evaluate(ToInput(form.(texts := form.texts[f := s]))) == Evaluate(ToInput(form))
  {
  }

  /** The progress bar: the share of the four steps reached, in percent. */
  function Progress(w: Wizard): (p: real)
    requires 1 <= w.step <= 4
    ensures 25.0 <= p <= 100.0
    ensures p == 100.0 <==> w.step == 4
  {
    (w.step as real) / 4.0 * 100.0
  }

  /** Progress grows with the step and is 25 points per step. */
  lemma ProgressPerStep(w: Wizard, v: Wizard)
    requires 1 <= w.step <= 4 && 1 <= v.step <= 4
    ensures Progress(v) - Progress(w) == 25.0 * ((v.step - w.step) as real)
    ensures w.step < v.step ==> Progress(w) < Progress(v)
  {
  }
}

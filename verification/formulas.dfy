/** The three textbook earnings and asset formulas the valuation starts from. */
module Formulas {

  /**
   * Seller's Discretionary Earnings: net income (revenue less expenses) with
   * the owner's salary, benefits and discretionary spending added back.
   * Cost of goods sold is not a parameter: the tool's code leaves it out.
   */
  function Sde(revenue: real, expenses: real, ownerSalary: real, ownerBenefits: real,
               discretionaryExpenses: real): (r: real)
    ensures r - (revenue - expenses) == ownerSalary + ownerBenefits + discretionaryExpenses
  {
    var netIncome := revenue - expenses;
    netIncome + ownerSalary + ownerBenefits + discretionaryExpenses
  }

  /**
   * Earnings before interest, taxes, depreciation and amortisation: revenue
   * less both kinds of cost, with depreciation added back.
   */
  function Ebitda(revenue: real, cogs: real, operatingExpenses: real, depreciation: real): (r: real)
    ensures r + cogs + operatingExpenses == revenue + depreciation
    ensures cogs >= 0.0 && operatingExpenses >= 0.0 ==> r <= revenue + depreciation
  {
    revenue - cogs - operatingExpenses + depreciation
  }

  /** Asset-based value: what the business owns less what it owes. */
  function AssetValue(tangibleAssets: real, intangibleAssets: real, totalLiabilities: real): (r: real)
    ensures r + totalLiabilities == tangibleAssets + intangibleAssets
  {
    tangibleAssets + intangibleAssets - totalLiabilities
  }

  /** The form's placeholder figures give an SDE of 390,000. */
  lemma SdeOfPlaceholders()
    ensures Sde(1000000.0, 750000.0, 100000.0, 25000.0, 15000.0) == 390000.0
  {
  }

  /**
   * With the same revenue and operating expenses, SDE exceeds EBITDA by
   * exactly cost of goods sold plus the owner add-backs less depreciation.
   */
  lemma SdeEbitdaGap(revenue: real, cogs: real, operatingExpenses: real, ownerSalary: real,
                     ownerBenefits: real, discretionaryExpenses: real, depreciation: real)
    ensures Sde(revenue, operatingExpenses, ownerSalary, ownerBenefits, discretionaryExpenses)
            - Ebitda(revenue, cogs, operatingExpenses, depreciation)
            == cogs + ownerSalary + ownerBenefits + discretionaryExpenses - depreciation
  {
  }

  /** Every dollar of revenue adds a dollar to SDE and to EBITDA; every dollar of expense removes one. */
  lemma EarningsMoveWithRevenue(revenue: real, cogs: real, operatingExpenses: real, ownerSalary: real,
                                ownerBenefits: real, discretionaryExpenses: real, depreciation: real, d: real)
    ensures Sde(revenue + d, operatingExpenses, ownerSalary, ownerBenefits, discretionaryExpenses)
            == Sde(revenue, operatingExpenses, ownerSalary, ownerBenefits, discretionaryExpenses) + d
    ensures Sde(revenue, operatingExpenses + d, ownerSalary, ownerBenefits, discretionaryExpenses)
            == Sde(revenue, operatingExpenses, ownerSalary, ownerBenefits, discretionaryExpenses) - d
    ensures Ebitda(revenue + d, cogs, operatingExpenses, depreciation)
            == Ebitda(revenue, cogs, operatingExpenses, depreciation) + d
    ensures Ebitda(revenue, cogs + d, operatingExpenses, depreciation)
            == Ebitda(revenue, cogs, operatingExpenses, depreciation) - d
    ensures Ebitda(revenue, cogs, operatingExpenses + d, depreciation)
            == Ebitda(revenue, cogs, operatingExpenses, depreciation) - d
  {
  }
}

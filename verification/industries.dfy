/**
 * The industries a business can be filed under and the fixed table of
 * valuation multiples attached to each of them.
 */
module Industries {
  import opened Wrappers

  /** The nine values the industry selector offers. */
  datatype Industry =
    | Technology | Saas | Retail | Manufacturing | Services
    | Healthcare | Construction | Hospitality | General

  /** The three multiples of one table entry. */
  datatype Multiples = Multiples(sdeMultiple: real, ebitdaMultiple: real, revenueMultiple: real)

  /** The string the selector stores in the form for an industry; also its key in the table. */
  function Key(i: Industry): string {
    match i
    case Technology => "technology"
    case Saas => "saas"
    case Retail => "retail"
    case Manufacturing => "manufacturing"
    case Services => "services"
    case Healthcare => "healthcare"
    case Construction => "construction"
    case Hospitality => "hospitality"
    case General => "general"
  }

  /** The industry whose key is `s`, if any. */
  function FromKey(s: string): (r: Option<Industry>)
    ensures r.Some? ==> Key(r.value) == s
  {
    if s == "technology" then Some(Technology)
    else if s == "saas" then Some(Saas)
    else if s == "retail" then Some(Retail)
    else if s == "manufacturing" then Some(Manufacturing)
    else if s == "services" then Some(Services)
    else if s == "healthcare" then Some(Healthcare)
    else if s == "construction" then Some(Construction)
    else if s == "hospitality" then Some(Hospitality)
    else if s == "general" then Some(General)
    else None
  }

  /** Every key decodes back to its own industry, so the keys are pairwise distinct. */
  lemma FromKeyOfKey(i: Industry)
    ensures FromKey(Key(i)) == Some(i)
  {
  }

  /** The table of industry multiples, one entry per selectable industry. */
  function MultiplesOf(i: Industry): (m: Multiples)
    ensures m.sdeMultiple > 0.0 && m.ebitdaMultiple > 0.0 && m.revenueMultiple > 0.0
  {
    match i
    case Technology => Multiples(3.5, 8.0, 5.5)
    case Saas => Multiples(4.0, 12.0, 8.0)
    case Retail => Multiples(2.5, 4.5, 0.6)
    case Manufacturing => Multiples(3.0, 6.0, 0.8)
    case Services => Multiples(2.8, 5.0, 1.2)
    case Healthcare => Multiples(3.2, 7.0, 1.5)
    case Construction => Multiples(2.2, 4.0, 0.4)
    case Hospitality => Multiples(2.0, 6.5, 1.0)
    case General => Multiples(2.5, 5.0, 1.0)
  }

  /** The industry used for the multiples: an unselected industry falls back to `General`. */
  function Resolve(selected: Option<Industry>): (i: Industry)
    ensures selected.Some? ==> i == selected.value
    ensures selected.None? ==> i == General
  {
    selected.GetOr(General)
  }

  /**
   * Looking a raw form value up in the table: the empty string stands for
   * `general`; a string that is not one of the nine keys has no entry.
   */
  function Lookup(key: string): (r: Option<Multiples>)
    ensures r.Some? <==> key == "" || exists i :: Key(i) == key
    ensures key == "" ==> r == Some(Multiples(2.5, 5.0, 1.0))
    ensures forall i :: Key(i) == key ==> r == Some(MultiplesOf(i))
  {
    var k := if key == "" then "general" else key;
    match FromKey(k)
    case Some(i) => Some(MultiplesOf(i))
    case None => None
  }

  /** The string the form holds for a selection: empty until an industry is chosen. */
  function SelectedKey(selected: Option<Industry>): string {
    match selected
    case None => ""
    case Some(i) => Key(i)
  }

  /** The table lookup on the form's raw value agrees with `MultiplesOf` after the fallback. */
  lemma LookupSelected(selected: Option<Industry>)
    ensures Lookup(SelectedKey(selected)) == Some(MultiplesOf(Resolve(selected)))
  {
  }
}

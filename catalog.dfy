/**
 * The product catalog, the three budget tiers of the start page and the
 * cart total of the result page.
 */
module Catalog {
  import opened Wrappers
  import opened Format

  /**
   * One catalog row, as `row.to_dict()` copies it into the cart. Prices are
   * assumed non-negative whole numbers of won.
   */
  datatype Product = Product(name: string, price: nat, imageUrl: string)

  /** One entry of the start page's `budget_options` dictionary. */
  datatype Tier = Tier(title: string, budget: nat)

  /** The budget options, in the order the radio button lists them. */
  const BUDGET_OPTIONS: seq<Tier> := [
    Tier("기본 미션 (예산 10,000원)", 10000),
    Tier("중급 미션 (예산 20,000원)", 20000),
    Tier("고급 미션 (예산 30,000원)", 30000)
  ]

  /** Each caption shows its tier's budget, written as `f"{budget:,}원"`. */
  lemma TierTitlesShowBudgets()
    ensures BUDGET_OPTIONS[0].title == "기본 미션 (예산 " + Grouped(BUDGET_OPTIONS[0].budget) + "원)"
    ensures BUDGET_OPTIONS[1].title == "중급 미션 (예산 " + Grouped(BUDGET_OPTIONS[1].budget) + "원)"
    ensures BUDGET_OPTIONS[2].title == "고급 미션 (예산 " + Grouped(BUDGET_OPTIONS[2].budget) + "원)"
  {
    GroupedTensOfThousands(1);
    GroupedTensOfThousands(2);
    GroupedTensOfThousands(3);
    assert DigitChar(1) == '1' && DigitChar(2) == '2' && DigitChar(3) == '3';
  }

  predicate IsTierBudget(b: nat) {
    b == 10000 || b == 20000 || b == 30000
  }

  /** `budget_options[choice]`: `None` where Python would raise `KeyError`. */
  function BudgetFor(choice: string): (r: Option<nat>)
    ensures r.Some? <==> exists i :: 0 <= i < |BUDGET_OPTIONS| && BUDGET_OPTIONS[i].title == choice
    ensures r.Some? ==> IsTierBudget(r.value)
    ensures forall i :: 0 <= i < |BUDGET_OPTIONS| && BUDGET_OPTIONS[i].title == choice ==> r == Some(BUDGET_OPTIONS[i].budget)
  {
    Lookup(BUDGET_OPTIONS, choice)
  }

  function Lookup(options: seq<Tier>, key: string): (r: Option<nat>)
    requires forall i, j :: 0 <= i < j < |options| ==> options[i].title != options[j].title
    ensures r.Some? <==> exists i :: 0 <= i < |options| && options[i].title == key
    ensures forall i :: 0 <= i < |options| && options[i].title == key ==> r == Some(options[i].budget)
  {
    if options == [] then None
    else if options[0].title == key then Some(options[0].budget)
    else Lookup(options[1..], key)
  }

  /** `sum([item["price"] for item in cart])`. */
  function Total(cart: seq<Product>): (r: nat)
    ensures forall i :: 0 <= i < |cart| ==> cart[i].price <= r
  {
    if cart == [] then 0 else cart[0].price + Total(cart[1..])
  }

  /** Appending a product raises the total by exactly its price. */
  lemma {:induction false} TotalAppend(cart: seq<Product>, p: Product)
    ensures Total(cart + [p]) == Total(cart) + p.price
  {
    if cart != [] {
      assert (cart + [p])[1..] == cart[1..] + [p];
      TotalAppend(cart[1..], p);
    }
  }
}

/**
 * The session record of the shopping mission and the three page handlers
 * that the router runs, one per page.
 *
 * The state of one session is the page tag, the chosen budget and the cart,
 * beside the catalog loaded once at start-up. Each user action is one button
 * press, handled by the page that is on screen; a press of a button that the
 * current page does not show cannot happen and is modelled as having no
 * effect. `Step` is the pure transition function and `Session` is the
 * mutable record, whose methods are proved to perform exactly those steps.
 */
module Session {
  import opened Wrappers
  import opened Format
  import opened Catalog
  import opened Render

  datatype Page = Start | Shop | Result

  /** The order in which the pages are visited. */
  function Rank(p: Page): nat {
    match p
    case Start => 0
    case Shop => 1
    case Result => 2
  }

  datatype State = State(page: Page, budget: Option<nat>, cart: seq<Product>, products: seq<Product>)

  /** One button press, with the value of the page's input widget at the time. */
  datatype Event =
    | ConfirmPressed(choice: string)            // "선택 완료", with the radio button on `choice`
    | AddPressed(row: nat)                      // "담기" next to catalog row `row`
    | CheckoutPressed                           // "구매하기 (결과로 이동)"
    | SubmitPressed(reason: string, now: Timestamp)  // "제출", with the text area holding `reason`

  /** What the press shows besides the new state. */
  datatype Reply =
    | Silent
    | KeyError                 // `budget_options[choice]` with a choice that is not a key
    | EmptyReasonWarning       // "구매 이유를 입력해주세요."
    | Submitted(png: Png)      // the saved result image, offered for download

  datatype Outcome = Outcome(next: State, reply: Reply)

  /** The session as first created: start page, no budget, empty cart. */
  function Initial(products: seq<Product>): (r: State)
    ensures r.page == Start && r.budget == None && r.cart == [] && r.products == products
    ensures Consistent(r)
  {
    State(Start, None, [], products)
  }

  /**
   * The invariant of every reachable session: past the start page a budget
   * tier has been chosen, on the start page nothing has been chosen or added
   * yet, and every cart entry is a copy of a catalog row.
   */
  predicate Consistent(s: State) {
    && (s.page == Start ==> s.budget == None && s.cart == [])
    && (s.page != Start ==> s.budget.Some? && IsTierBudget(s.budget.value))
    && (forall i :: 0 <= i < |s.cart| ==> s.cart[i] in s.products)
  }

  /** `start_page`: confirming sets the budget of the chosen tier and moves to the shop. */
  function StartPage(s: State, e: Event): (r: Outcome)
    requires s.page == Start
    ensures r.next.cart == s.cart && r.next.products == s.products
    ensures e.ConfirmPressed? && BudgetFor(e.choice).Some? ==>
              r.next.page == Shop && r.next.budget == BudgetFor(e.choice) && IsTierBudget(r.next.budget.value)
    ensures !(e.ConfirmPressed? && BudgetFor(e.choice).Some?) ==> r.next == s
    ensures r.reply == KeyError <==> e.ConfirmPressed? && BudgetFor(e.choice).None?
    ensures r.reply != KeyError ==> r.reply == Silent
  {
    match e
    case ConfirmPressed(choice) =>
      (match BudgetFor(choice)
       case Some(b) => Outcome(s.(budget := Some(b), page := Shop), Silent)
       case None => Outcome(s, KeyError))
    case _ => Outcome(s, Silent)
  }

  /** `shopping_page`: "add" appends a copy of the row to the cart; checkout moves to the result page. */
  function ShoppingPage(s: State, e: Event): (r: Outcome)
    requires s.page == Shop
    ensures r.reply == Silent && r.next.budget == s.budget && r.next.products == s.products
    ensures e.AddPressed? && e.row < |s.products| ==>
              r.next.page == Shop && r.next.cart == s.cart + [s.products[e.row]]
    ensures e.CheckoutPressed? ==> r.next.page == Result && r.next.cart == s.cart
    ensures !(e.AddPressed? && e.row < |s.products|) && !e.CheckoutPressed? ==> r.next == s
  {
    match e
    case AddPressed(row) =>
      if row < |s.products| then Outcome(s.(cart := s.cart + [s.products[row]]), Silent)
      else Outcome(s, Silent)
    case CheckoutPressed => Outcome(s.(page := Result), Silent)
    case _ => Outcome(s, Silent)
  }

  /**
   * `result_page`: a blank justification is refused with a warning; any other
   * one is rendered with the current cart. Neither changes the session, and
   * neither looks at the budget or the total.
   */
  function ResultPage(s: State, e: Event): (r: Outcome)
    requires s.page == Result
    ensures r.next == s
    ensures r.reply == EmptyReasonWarning <==> e.SubmitPressed? && IsBlank(e.reason)
    ensures r.reply.Submitted? <==> e.SubmitPressed? && !IsBlank(e.reason)
    ensures r.reply.Submitted? ==> r.reply.png == ResultPng(e.reason, s.cart, e.now)
    ensures !e.SubmitPressed? ==> r.reply == Silent
  {
    match e
    case SubmitPressed(reason, now) =>
      if Strip(reason) == "" then Outcome(s, EmptyReasonWarning)
      else Outcome(s, Submitted(ResultPng(reason, s.cart, now)))
    case _ => Outcome(s, Silent)
  }

  /**
   * The router: exactly the handler of the current page runs. Whatever is
   * pressed, the page moves forward by at most one, the cart grows by at most
   * one entry at its end, the catalog stays, a chosen budget never changes,
   * the budget is chosen only when leaving the start page, and the session
   * invariant is kept.
   */
  function Step(s: State, e: Event): (r: Outcome)
    ensures Rank(s.page) <= Rank(r.next.page) <= Rank(s.page) + 1
    ensures s.cart <= r.next.cart && |r.next.cart| <= |s.cart| + 1
    ensures r.next.products == s.products
    ensures r.next.budget != s.budget ==> s.page == Start && r.next.page == Shop
    ensures Consistent(s) ==> Consistent(r.next)
    ensures r.reply == KeyError <==> s.page == Start && e.ConfirmPressed? && BudgetFor(e.choice).None?
    ensures r.reply == KeyError ==> r.next == s
    ensures r.reply == EmptyReasonWarning <==> s.page == Result && e.SubmitPressed? && IsBlank(e.reason)
    ensures r.reply.Submitted? <==> s.page == Result && e.SubmitPressed? && !IsBlank(e.reason)
    ensures r.reply.Submitted? ==> r.next == s && r.reply.png == ResultPng(e.reason, s.cart, e.now)
    ensures s.page == Shop ==> r.reply == Silent
  {
    match s.page
    case Start => StartPage(s, e)
    case Shop => ShoppingPage(s, e)
    case Result => ResultPage(s, e)
  }

  /** The session after a sequence of presses. */
  function Run(s: State, events: seq<Event>): (r: State)
    ensures Rank(s.page) <= Rank(r.page)
    ensures s.cart <= r.cart
    ensures r.products == s.products
    ensures Consistent(s) ==> Consistent(r)
    ensures Consistent(s) && s.budget.Some? ==> r.budget == s.budget
    decreases |events|
  {
    if events == [] then s else Run(Step(s, events[0]).next, events[1..])
  }

  /** Every session reached from start-up keeps the invariant, and once past the start page never returns. */
  lemma {:induction false} Reachable(products: seq<Product>, events: seq<Event>, more: seq<Event>)
    ensures Consistent(Run(Initial(products), events))
    ensures Run(Initial(products), events).page != Start ==> Run(Run(Initial(products), events), more).page != Start
  {
    var s := Run(Initial(products), events);
    var t := Run(s, more);
    assert Rank(s.page) <= Rank(t.page);
  }

  /** Adding a product raises the total by exactly its price. */
  lemma AddRaisesTotal(s: State, row: nat)
    requires s.page == Shop && row < |s.products|
    ensures Total(Step(s, AddPressed(row)).next.cart) == Total(s.cart) + s.products[row].price
  {
    TotalAppend(s.cart, s.products[row]);
  }

  /** Two presses of the same "add" button give two equal entries, after the earlier ones. */
  lemma AddTwice(s: State, row: nat)
    requires s.page == Shop && row < |s.products|
    ensures var t := Step(Step(s, AddPressed(row)).next, AddPressed(row)).next;
      t.cart == s.cart + [s.products[row], s.products[row]]
  {
    var t1 := Step(s, AddPressed(row)).next;
    assert t1.cart + [s.products[row]] == s.cart + [s.products[row], s.products[row]];
  }

  /** The mutable session record: `st.session_state`. */
  class Session {
    var page: Page
    var budget: Option<nat>
    var cart: seq<Product>
    const products: seq<Product>

    function Snapshot(): State
      reads this
    {
      State(page, budget, cart, products)
    }

    ghost predicate Valid()
      reads this
    {
      Consistent(Snapshot())
    }

    /** The first run of the script: every field is missing and gets its initial value. */
    constructor (catalog: seq<Product>)
      ensures Snapshot() == Initial(catalog) && Valid()
    {
      page := Start;
      budget := None;
      cart := [];
      products := catalog;
    }

    /** "선택 완료" on the start page. */
    method ConfirmBudget(choice: string) returns (reply: Reply)
      requires Valid() && page == Start
      modifies this
      ensures Valid()
      ensures Snapshot() == StartPage(old(Snapshot()), ConfirmPressed(choice)).next
      ensures reply == StartPage(old(Snapshot()), ConfirmPressed(choice)).reply
    {
      var b := BudgetFor(choice);
      if b.None? {
        return KeyError;
      }
      budget := b;
      page := Shop;
      reply := Silent;
    }

    /** "담기" next to catalog row `row`. */
    method AddToCart(row: nat)
      requires Valid() && page == Shop && row < |products|
      modifies this
      ensures Valid()
      ensures cart == old(cart) + [products[row]]
      ensures page == old(page) && budget == old(budget)
    {
      cart := cart + [products[row]];
    }

    /** "구매하기 (결과로 이동)" on the shop page. */
    method Checkout()
      requires Valid() && page == Shop
      modifies this
      ensures Valid()
      ensures page == Result && budget == old(budget) && cart == old(cart)
    {
      page := Result;
    }

    /** "제출" on the result page; the session is left as it is. */
    method Submit(reason: string, now: Timestamp) returns (reply: Reply)
      requires Valid() && page == Result
      ensures reply.EmptyReasonWarning? <==> IsBlank(reason)
      ensures reply.Submitted? <==> !IsBlank(reason)
      ensures reply.Submitted? ==> reply.png == ResultPng(reason, cart, now)
    {
      if Strip(reason) == "" {
        return EmptyReasonWarning;
      }
      var png := CreateResultPng(reason, cart, now);
      reply := Submitted(png);
    }

    /** One rerun of the script after a press: the router calls the current page's handler. */
    method Route(e: Event) returns (reply: Reply)
      requires Valid()
      modifies this
      ensures Valid()
      ensures Snapshot() == Step(old(Snapshot()), e).next
      ensures reply == Step(old(Snapshot()), e).reply
    {
      reply := Silent;
      match page
      case Start =>
        if e.ConfirmPressed? {
          reply := ConfirmBudget(e.choice);
        }
      case Shop =>
        if e.AddPressed? && e.row < |products| {
          AddToCart(e.row);
        } else if e.CheckoutPressed? {
          Checkout();
        }
      case Result =>
        if e.SubmitPressed? {
          reply := Submit(e.reason, e.now);
        }
    }
  }
}

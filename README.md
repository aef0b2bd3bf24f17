# Shopping mission: a verified model

The shopping mission is a one-session exercise built on Streamlit. The user
picks one of three budget tiers (10,000, 20,000 or 30,000 won), adds catalog
products to a cart, checks out, and writes a justification. The app renders
the justification into a PNG file named after the current time.

This project models what happens under the widget calls in `app.py`:

- **Session** (`session.dfy`). The session record has the page tag
  (`start`, `shop`, `result`), the optional budget, the ordered cart and the
  catalog. Each page has one handler. The router runs the handler of the
  current page.
  - `StartPage`, `ShoppingPage`, `ResultPage` and `Step` are the pure
    transition for one button press.
  - `Run` folds `Step` over a sequence of presses.
  - The `Session` class holds the fields that `st.session_state` updates in
    place. Its methods are proved to perform exactly those transitions.
  - The invariant `Consistent` is kept by every step:
    - past the start page a tier budget is set;
    - on the start page no budget is set and the cart is empty;
    - every cart entry is a catalog row.
  - Further properties:
    - the page only moves forward;
    - the cart only grows at its end;
    - a chosen budget never changes.
- **Cart total and blank justifications** (`catalog.dfy`, `format.dfy`).
  - The total is the sum of the prices.
  - A justification is refused when `reason.strip() == ""`. This is proved to
    hold exactly when every character is Python whitespace.
  - Acceptance does not depend on the budget or the total.
- **Result renderer** (`render.dfy`). `CreateResultPng` follows the source's
  loop that moves `y` down. It is proved equal to a closed-form `Layout`:
  - item `i` is drawn at (40, 120 + 30·i) with `- name / price원`, in cart order;
  - the reason header is at y = 140 + 30·n;
  - the reason is at (40, 180 + 30·n);
  - every line is below the one drawn before it.
- **Formatting** (`format.dfy`).
  - Python's `{n:,}` is proved to produce a well-grouped numeral. Without its
    commas it is `str(n)`, and it reads back as `n`.
  - The file name `result_YYYYMMDD_HHMMSS.png` has that shape and can be
    parsed back into its time stamp. So distinct seconds give distinct names.

External effects are parameters:
- the catalog is passed to the session's constructor;
- the time stamp of `datetime.now()` is passed to the submit event;
- the text a user enters or the option a user picks is carried by the event.

## Model

| member | source | states |
|---|---|---|
| `Session.Initial` | app.py:11-18 | the session as first created is on the start page with no budget, an empty cart and the given catalog, and it satisfies the invariant |
| `Session.Consistent` | app.py:11-18 | defines the invariant of the session state set up here and written by the start and shop pages: on the start page no budget and an empty cart, past it a tier budget, and every cart entry a catalog row; `Initial`, `Step`, `Run` and `Reachable` prove it is kept |
| `Session.Session.constructor` | app.py:11-18 | a new session is on the start page with no budget and an empty cart, and it satisfies the invariant |
| `Session.Reachable` | app.py:11-18 | every session reached from start-up by any presses satisfies the invariant, and once it has left the start page it never returns there |
| `Catalog.BudgetFor` | app.py:36-40 | the lookup succeeds exactly for the three captions, gives that caption's budget, and the budget is 10000, 20000 or 30000 |
| `Catalog.TierTitlesShowBudgets` | app.py:36-40 | each caption shows its own budget, formatted with thousands separators |
| `Session.StartPage` | app.py:31-47 | confirming a listed tier sets the budget to that tier's value and moves to the shop, leaving the cart unchanged; a non-key choice raises KeyError and changes nothing; any other press changes nothing; every reply other than KeyError is silent |
| `Session.Session.ConfirmBudget` | app.py:44-46 | the record's new state and the reply are those of `StartPage` for the confirm press, and the invariant is kept |
| `Session.ShoppingPage` | app.py:53-83 | "add" appends exactly one copy of the row at the end of the cart; checkout moves to the result page with the budget and cart unchanged; the budget never changes here |
| `Session.Session.AddToCart` | app.py:75-76 | the cart becomes the old cart plus the row, page and budget are unchanged, and the invariant is kept |
| `Session.AddTwice` | app.py:75-76 | two presses of one "add" button append two equal entries after the earlier ones |
| `Session.AddRaisesTotal` | app.py:75-76 | adding a row raises the cart total by exactly that row's price |
| `Catalog.Total` | app.py:123 | the total of the cart is at least the price of each entry; `TotalAppend` states how it grows |
| `Catalog.TotalAppend` | app.py:123 | the total of a cart with one more item is the old total plus that item's price |
| `Session.Session.Checkout` | app.py:81-82 | the page becomes result, and the budget and cart are unchanged |
| `Session.ResultPage` | app.py:119-139 | submission never changes the session; it warns exactly when the reason is blank; otherwise it produces the image of the current cart and reason; any other press is silent; the budget and total play no part |
| `Session.Session.Submit` | app.py:134-139 | the warning is given exactly for a blank reason; any other reason yields the rendered image of the current cart, unmodified and in order |
| `Session.Step` | app.py:154-161 | one page handler per press: only the start page can raise KeyError, the shop page is always silent, and only a submit on the result page warns (exactly when the reason is blank) or renders (exactly when it is not: the image of the current cart, with the session unchanged); the page advances by at most one; the cart only grows, by at most one at its end; the catalog stays; the budget changes only when leaving the start page; the invariant is preserved |
| `Session.Run` | app.py:154-161 | over any sequence of presses the page never moves back, the cart is extended and never shortened, the catalog stays, a set budget is never changed, and the invariant is preserved |
| `Session.Session.Route` | app.py:154-161 | one rerun of the router changes the record and replies exactly as `Step` |
| `Format.Strip` | app.py:135 | `reason.strip()` is no longer than the reason and is empty or starts and ends with a non-whitespace character |
| `Format.IsBlank` | app.py:135 | defines the source's test `reason.strip() == ""`; `BlankIffAllSpace` proves what it means |
| `Format.TrimStart` | app.py:135 | the result is a suffix of the input, everything removed is whitespace, and the result is empty or starts with a non-whitespace character |
| `Format.TrimEnd` | app.py:135 | the result is a prefix of the input, everything removed is whitespace, and the result is empty or ends with a non-whitespace character |
| `Format.BlankIffAllSpace` | app.py:135 | `reason.strip() == ""` holds exactly when every character of the reason is whitespace, in both directions |
| `Render.Layout` | app.py:94-108 | defines the draw commands at the absolute positions the running `y` reaches, four more than the cart's items; `LayoutPositions` and `LayoutTopToBottom` carry the properties |
| `Render.ResultPng` | app.py:89-113 | the image is 800×600, has one command per item plus four, and is named by `ResultFilename` of the time |
| `Render.CreateResultPng` | app.py:89-113 | the loop produces an 800×600 image with exactly the draw commands of `Layout` and the file name of the given time |
| `Render.ItemLinesAt` | app.py:101-103 | the k-th item line is the k-th cart item drawn at (40, 120 + 30·k) |
| `Render.LayoutPositions` | app.py:97-108 | for a cart of n items, item i is drawn at (40, 120 + 30·i) in cart order, the reason header at (20, 140 + 30·n) and the reason at (40, 180 + 30·n) |
| `Render.LayoutTopToBottom` | app.py:94-108 | every draw command is strictly below the one before it |
| `Render.BreakfastExample` | app.py:101-123 | a cart of Apple (1000) and Bread (2500) totals 3500, and is drawn as "- Apple / 1,000원" and then "- Bread / 2,500원", with the reason below them |
| `Format.Grouped` | app.py:102 | the formatted price has digits and commas only, with commas exactly every three digits counted from the right, and never a leading comma |
| `Format.GroupedDigits` | app.py:102 | the formatted price with its commas removed is the decimal representation of the price |
| `Format.GroupedRoundTrip` | app.py:102 | the formatted price reads back as the price |
| `Render.ItemText` | app.py:102 | defines the item line `f"- {name} / {price:,}원"`; `ItemTextShowsPrice` proves its parts |
| `Render.ItemTextShowsPrice` | app.py:102 | an item line is "- " + name + " / ", then a grouped numeral that reads back as the price and has the decimal digits of the price, then "원" |
| `Format.Strftime` | app.py:110 | the time stamp text is 8 digits, an underscore and 6 digits |
| `Render.ResultFilename` | app.py:110 | the file name is "result_", 8 digits, "_", 6 digits and ".png", 26 characters in all |
| `Render.FilenameRoundTrip` | app.py:110 | the file name can be parsed back into the exact time stamp it was generated from |
| `Render.FilenameInjective` | app.py:110 | two different valid time stamps never give the same file name |

## Left out

- Streamlit's widget calls are not modelled. This covers page configuration, titles, the radio button, columns, success and warning toasts, `st.experimental_rerun`, and the download button (app.py:8, 42, 47, 62-72, 77-79, 83, 140-148). A button press is an `Event`. A press of a button the current page does not show cannot happen, and the model treats it as doing nothing.
- The texts written on screen are not modelled. This covers the shop page's budget line, the result page's cost line and item list (app.py:56, 72, 124-127). The model does prove that a budget is always set on those pages, so their `{budget:,}` never meets `None`.
- CSV loading with pandas and the `st.stop` on a missing file are not modelled (app.py:20-25). They are external I/O. The catalog is a parameter of the session's constructor.
- Product images and their swallowed load failures are not modelled (app.py:65-68). They are a network or file fetch with no logic in it.
- PIL is not modelled: pixels, fonts, emoji glyphs, text width, the black fill and `img.save` (app.py:91-92, 95, 111). A drawing is the ordered list of `draw.text` calls. Like the source, the model does not clip lines that fall below the 600-pixel canvas.
- Failures while drawing or saving, which the source does not catch, are not modelled. The model's renderer always succeeds.
- `datetime.now()` is not modelled (app.py:110). The time stamp is a parameter.
- `ValidTimestamp` allows day 31 in every month. `datetime` is stricter, but only the field widths matter for the file name.
- `%Y` is modelled as four zero-padded digits, as Python documents it. Some C libraries do not pad years below 1000.
- The page tag is a string in the source but an enumeration here. The source only ever writes `"start"`, `"shop"` and `"result"`.
- Prices are modelled as `nat`. The source does not check sign or integrality, so this is an assumption about the catalog.
- A product has only name, price and image URL. `row.to_dict()` would also copy any other column of the CSV file.
- Whitespace is the fixed set of characters for which Python's `str.isspace` holds.
- Several sessions at once are not modelled. Each session owns its state, and the model has one.

# Storefront client state engines

This project models the two state engines of the storefront client and proves
their contracts in Dafny.

- **The cart slice** (`news-client/src/features/cart/cartSlice.tsx`). Its state
  is a sequence of line items in insertion order and a stored `total`. The
  reducers `addItem`, `removeItem`, `updateQuantity` and `clearCart` change it,
  and `calculateTotal` recomputes the total. `CartStore` is a class with the
  fields `items` and `total`. Each reducer is a method on it, and `Dispatch`
  runs the reducer that an action names. The object invariant `Valid` says
  three things: the total is `Total(items)`, product ids are unique, and every
  quantity is at least 1. The constructor (`initialState`) establishes `Valid`
  and every reducer keeps it. `InvariantAfterAnyActions` shows that it holds
  after any sequence of actions. The lemmas on `Total` and on the id filter
  `Without` give each reducer its exact effect on the total of a valid cart:
  - one unit price more for `addItem`, whether the line exists
    (`IncrementLine`) or is new (`AppendLine`);
  - for `removeItem` of a present id, the removed line's subtotal less
    (`RemoveLine`);
  - for `updateQuantity` of a present id, `price * (q - old quantity)` more when q > 0
    (`QuantitySetTotal`), and the removed line's subtotal less when q ≤ 0
    (`QuantityDroppedTotal`); an absent id leaves the total as it was.
- **The topic-management screen** (`news-client/src/components/News.tsx`). The
  class `NewsScreen` holds the component's state cells: `topics`, `loading`,
  `error`, `selectedIds`, the title in the form, and `editingId`. Its methods
  are the handlers. A remote call becomes a `Response` parameter, either
  `Resolved(value)` or `Rejected(thrown)`. `HandleSubmit` and `HandleDelete`
  also take the response of the reload that follows a successful mutation.
  This makes every handler one deterministic sequential transition. The
  selection filters (`WithoutIds`, `Toggled`) are functions with lemmas. The
  draft that gets sent (`Draft`, `DraftId`) and the error text chosen in each
  `catch` (`ErrorText`) are plain definitions; the handlers' contracts and the
  scenario methods (`SubmitAfterEdit`, `SubmitAfterReset`, `EditThenSave`,
  `RefusedDeletion`) state their effect.

A shared module `Collections` holds `Option` and the order-preserving `Filter`
(the semantics of `Array.prototype.filter`) with its lemmas.

Things to know about the model:
- Prices are integers, i.e. amounts in the smallest currency unit, so the total
  is exact arithmetic. In the source they are JavaScript numbers.
- A missing field and a `null` field of a topic are both `None`.
- An id is "truthy" exactly when it is not 0. `NaN` is not modelled.

Behaviour of the code worth knowing:
- `removeItem` and `updateQuantity` with quantity ≤ 0 remove every line with
  the id (a `filter`), while `addItem` and `updateQuantity` change only the
  first line with the id (a `find`). In a valid cart there is only one.
- `handleSubmit` builds its id with `editingId || undefined`.
  - A draft made while editing the id 0 carries no id, so it asks for a create.
  - The screen offers Edit, Delete and the selection checkbox only for truthy
    ids (`News.tsx:166`, `News.tsx:180`), so the id 0 never reaches
    `setupEdit` from there.
- Toggling a selected id twice restores the selection as a set, but not as a
  sequence: the id moves to the end (`ToggleTwiceMovesToEnd`). Toggling an
  unselected id twice restores the sequence exactly.
- `handleSubmit` passes `createOrUpdateTopics` a one-element array (`News.tsx:51`), so exactly one draft is sent per submit.
- Failures never propagate to the caller: each handler catches what its call
  throws, stores a message in `error` and stops.
- The fallback texts `Failed to load topics`, `Saving failed` and
  `Deletion failed` are used only when the thrown value is not an `Error`. The
  service functions in `news-client/src/api/topic_service.ts` always reject
  with an `Error`. For a non-ok response with a JSON body, its message is the
  body's `message` or the service's own fallback (`topic_service.ts:12-13`,
  `topic_service.ts:26-27`, `topic_service.ts:41-42`). When the request itself
  fails, or the body is not JSON, it is the platform's message. So the
  handlers' own fallbacks never show.
- The screen renders only "Loading topics..." while `loading` is true and only
  "Error: …" while `error` is set (`News.tsx:101-102`); the form, the table and
  the bulk-delete button are then hidden. Only a successful `loadTopics`
  clears `error` (`News.tsx:26`), and it runs only on mount or after a
  successful save or delete, which need those hidden controls. So after one
  failure the screen stays on the error view until it is mounted again.

## Model

| member | source | states |
|---|---|---|
| `Collections.Filter` | news-client/src/features/cart/cartSlice.tsx:26 | the result is no longer than the input; a value is in the result exactly when it is in the input and satisfies the predicate; when every element passes, the result is the input itself |
| `Collections.FilterConcat` | news-client/src/features/cart/cartSlice.tsx:26 | filtering a concatenation is the concatenation of the filtered parts, so the survivors keep their relative order |
| `Collections.FilterNoDuplicates` | news-client/src/components/News.tsx:84 | filtering a sequence without repeated elements yields one without repeated elements |
| `Cart.IndexOf` | news-client/src/features/cart/cartSlice.tsx:14 | `find` by id: a returned position holds the id and no earlier line does; no position is returned exactly when no line has the id |
| `Cart.Without` | news-client/src/features/cart/cartSlice.tsx:26 | `filter` by id: a line is kept exactly when it was present and has another id; for an id not in the cart the items are unchanged |
| `Cart.Total` | news-client/src/features/cart/cartSlice.tsx:50-52 | `calculateTotal`: price * quantity summed over the lines from left to right, as `reduce` with the start value 0 does; a definition without its own contract, whose properties are the `Total*` lemmas below |
| `Cart.TotalIsSumOfSubtotals` | news-client/src/features/cart/cartSlice.tsx:50-52 | the left-to-right `reduce` of `calculateTotal` (`Cart.Total`) equals the sum of price * quantity over all lines taken from the front |
| `Cart.TotalAppend` | news-client/src/features/cart/cartSlice.tsx:50-52 | the summed price * quantity of a concatenation is the sum of the two parts' totals |
| `Cart.TotalUpdate` | news-client/src/features/cart/cartSlice.tsx:50-52 | replacing one line changes the total by new subtotal minus old subtotal |
| `Cart.TotalRemoveAt` | news-client/src/features/cart/cartSlice.tsx:50-52 | dropping one line lowers the total by that line's price * quantity |
| `Cart.TotalNonNegative` | news-client/src/features/cart/cartSlice.tsx:50-52 | with non-negative prices and positive quantities the total is never negative |
| `Cart.TotalSetQuantity` | news-client/src/features/cart/cartSlice.tsx:34-38 | setting line i's quantity to q changes the total by price * (q - old quantity) |
| `Cart.IncrementLine` | news-client/src/features/cart/cartSlice.tsx:16-22 | one more unit on an existing line raises the total by that line's own price and keeps ids unique and quantities ≥ 1 |
| `Cart.AppendLine` | news-client/src/features/cart/cartSlice.tsx:18-22 | appending the line for a product whose id is absent raises the total by its price and keeps the invariant |
| `Cart.UpdateWellFormed` | news-client/src/features/cart/cartSlice.tsx:33-34 | giving one line a positive quantity keeps ids unique and quantities ≥ 1 |
| `Cart.WithoutConcat` | news-client/src/features/cart/cartSlice.tsx:26 | removing an id from a concatenation removes it from each part separately, so the lines that stay keep their relative order |
| `Cart.WithoutAt` | news-client/src/features/cart/cartSlice.tsx:25-28 | with unique ids, filtering out the id at position i yields exactly the items before i followed by the items after i |
| `Cart.WithoutIgnoresUpdate` | news-client/src/features/cart/cartSlice.tsx:34-37 | writing the new quantity into the line before filtering its id out does not change the filtered result |
| `Cart.FilterKeepsWellFormed` | news-client/src/features/cart/cartSlice.tsx:25-37 | any filter of a cart with unique ids and quantities ≥ 1 has unique ids and quantities ≥ 1 |
| `Cart.RemoveLine` | news-client/src/features/cart/cartSlice.tsx:25-28 | removing the id of line i from a valid cart deletes exactly that position, keeps the invariant and lowers the total by its subtotal |
| `Cart.QuantityUpdated` | news-client/src/features/cart/cartSlice.tsx:30-40 | an absent id leaves the items as they were; a present id with q > 0 sets only the first matching line's quantity to q; with q ≤ 0 the result is the items with every line of that id filtered out, whatever quantity was written first |
| `Cart.QuantitySetTotal` | news-client/src/features/cart/cartSlice.tsx:33-38 | a positive quantity q on the line at position i changes the total by price * (q - old quantity) |
| `Cart.QuantityDroppedTotal` | news-client/src/features/cart/cartSlice.tsx:33-38 | in a valid cart a quantity ≤ 0 removes exactly position i and lowers the total by that line's subtotal |
| `Cart.QuantityUpdatedWellFormed` | news-client/src/features/cart/cartSlice.tsx:30-40 | whatever id and quantity are given, a cart with unique ids and quantities ≥ 1 keeps both |
| `Cart.CartStore.constructor` | news-client/src/features/cart/cartSlice.tsx:4-7 | `initialState`: no items, total 0, and the invariant holds |
| `Cart.CartStore.AddItem` | news-client/src/features/cart/cartSlice.tsx:13-23 | a present id: that line's quantity goes up by exactly 1 and its name and price are kept. An absent id: the product's line with quantity 1 is appended. Either way the other lines and positions are unchanged, the total is recomputed, and in a valid cart it rises by that one unit price |
| `Cart.CartStore.RemoveItem` | news-client/src/features/cart/cartSlice.tsx:25-28 | the items become `Without` the id: every line with the id is removed and the others keep their order; an absent id leaves the items unchanged; the total is recomputed; the invariant is kept (the exact position removed and the drop in total are `RemoveLine`) |
| `Cart.CartStore.UpdateQuantity` | news-client/src/features/cart/cartSlice.tsx:30-40 | the items become `QuantityUpdated`; an absent id leaves the total untouched, a present one recomputes it; the invariant is kept (the changes in total are `QuantitySetTotal` and `QuantityDroppedTotal`) |
| `Cart.CartStore.ClearCart` | news-client/src/features/cart/cartSlice.tsx:42-45 | no items and total 0, the initial state |
| `Cart.CartStore.Dispatch` | news-client/src/features/cart/cartSlice.tsx:54-55 | the reducer runs the named case reducer; afterwards the total is recomputed, except for an update of an absent id, which leaves items and total unchanged; the invariant is kept |
| `Cart.InvariantAfterAnyActions` | news-client/src/features/cart/cartSlice.tsx:9-47 | after any sequence of actions from the initial state the total equals the sum of price * quantity, ids are unique and quantities are ≥ 1 |
| `Cart.AddSameProductTwice` | news-client/src/features/cart/cartSlice.tsx:13-22 | adding the same product twice to an empty cart gives one line with quantity 2 and total 2 * price |
| `Cart.TwoLinesFacts` | news-client/src/features/cart/cartSlice.tsx:13-40 | for two products with different ids: the second is absent from a cart holding only the first; the first is found at position 0 of both lines; quantity 2 on it gives `[first with quantity 2, second]`, totalling 2 * first price + second price; removing the first leaves the second alone, which totals its price |
| `Cart.RemoveFromTwoLines` | news-client/src/features/cart/cartSlice.tsx:13-40 | two units at 10 and one at 5 total 25, so the quantity enters the total; removing id 1 leaves only the second product's line and total 5 |
| `Cart.RaiseThenZero` | news-client/src/features/cart/cartSlice.tsx:30-40 | setting a line priced 10 to quantity 3 gives that one line and total 30; setting it to 0 then empties the cart and the total is 0 |
| `News.WithoutIds` | news-client/src/components/News.tsx:62 | an id stays selected exactly when it was selected and is not among the deleted ids; if none was deleted the selection is unchanged |
| `News.Toggled` | news-client/src/components/News.tsx:81-87 | the id is selected afterwards exactly when it was not before; other ids keep their membership; an absent id is appended at the end |
| `News.ToggledNoDuplicates` | news-client/src/components/News.tsx:82-86 | toggling never creates a duplicate |
| `News.ToggleTwiceSameSet` | news-client/src/components/News.tsx:82-86 | toggling the same id twice restores the selection as a set |
| `News.ToggleTwiceRestores` | news-client/src/components/News.tsx:82-86 | toggling an unselected id twice restores the selection sequence exactly |
| `News.ToggleTwiceMovesToEnd` | news-client/src/components/News.tsx:82-86 | toggling a selected id twice removes its occurrences and puts it once at the end |
| `News.NewsScreen.constructor` | news-client/src/components/News.tsx:12-19 | the initial state cells: no topics, loading, no error, empty selection, empty title, nothing edited |
| `News.NewsScreen.LoadTopics` | news-client/src/components/News.tsx:21-32 | success replaces the topics wholesale and clears the error. Failure keeps the topics and records the message (or `Failed to load topics`). Loading is false afterwards, and the selection and form are unchanged |
| `News.NewsScreen.HandleInputChange` | news-client/src/components/News.tsx:38-40 | the form title becomes the typed value; nothing else changes |
| `News.NewsScreen.ResetForm` | news-client/src/components/News.tsx:69-72 | empty title and no edited id; nothing else changes |
| `News.NewsScreen.SetupEdit` | news-client/src/components/News.tsx:74-79 | a topic without an id changes nothing; otherwise the title becomes the topic's title (or the empty string) and the edited id the topic's id |
| `News.NewsScreen.ToggleSelection` | news-client/src/components/News.tsx:81-87 | the selection becomes `Toggled` of the old one; nothing else changes |
| `News.NewsScreen.HandleSubmit` | news-client/src/components/News.tsx:42-57 | exactly one draft, built from the old title and edited id, is sent. On success the form is reset and the topics come only from the reload. On failure the error is the message (or `Saving failed`) and the topics, form, loading flag and selection are unchanged |
| `News.NewsScreen.HandleDelete` | news-client/src/components/News.tsx:59-67 | on success exactly the given ids leave the selection, the rest keep their order, and the topics come only from the reload. On failure the error is the message (or `Deletion failed`) and the topics, loading flag and selection are unchanged. The form is never touched |
| `News.EditThenSave` | news-client/src/components/News.tsx:42-79 | editing a stored topic with a non-zero id, retyping its title and saving submits one draft with the original id and the new title |
| `News.SubmitAfterEdit` | news-client/src/components/News.tsx:42-79 | on a screen whose first load succeeded, after `setupEdit(topic)` the one draft submitted carries an id exactly when the topic's id is non-zero, and then it is that id; for a topic with an id the draft's title is the topic's title (or the empty string) |
| `News.SubmitAfterReset` | news-client/src/components/News.tsx:38-79 | on a screen whose first load succeeded, after `setupEdit` of any topic, `resetForm` and typing a title, the submitted draft carries no id and the typed title: a create, never an update |
| `News.CreateThenRefresh` | news-client/src/components/News.tsx:42-57 | saving with nothing edited submits a draft without an id; after success the topics are the refetched ones and the form is reset |
| `News.RefusedDeletion` | news-client/src/components/News.tsx:59-67 | a refused deletion of a selected id shows the server's message verbatim and keeps the topics and the id selected |

## Left out

- `Cart.CartStore.Dispatch`: states the total and the invariant but not the new items. Those are stated by the reducer it calls.
- `news-client/src/api/topic_service.ts`: the HTTP calls and JSON parsing are not modelled. Each call's outcome is a `Response` parameter. The service's message fallback (`errorData.message || '…'`) is already settled in the `Thrown` value that the parameter carries.
- Payload decoding is not modelled. A resolved load is taken to be a sequence of well-shaped topics.
- The mount effect (`News.tsx:34-36`) is not modelled as a separate step. A caller runs `LoadTopics` once after the constructor.
- Asynchrony is not modelled: the `await` suspension, React's batching of state updates, and the stale read of `selectedIds` in `handleDelete`. Each handler is one sequential transition.
- Rendering and `formatDate` are left out because they are display only. The loading and error screens decide which handlers can run (`News.tsx:101-102`); the model lets every handler run in any state, a superset of what the source allows, so each handler contract holds for every state.
- Quantities are whole numbers in the model. In the source they are JavaScript numbers, but the only dispatch site sends `item.quantity - 1` or `item.quantity + 1` (`news-client/src/components/Cart.tsx:44`, `news-client/src/components/Cart.tsx:51`). A fractional payload such as 0.5 would pass the `<= 0` test at `cartSlice.tsx:35` and leave a line with 0 < quantity < 1, which the model cannot express; for such a line the "quantity ≥ 1" part of `Valid` and of `QuantityUpdatedWellFormed` would not hold.
- Floating point is left out. Prices and totals are exact integers, so rounding in JavaScript's number sums is not captured.
- The identity of the item object that `find` returns and Immer mutates is not modelled. Line items are values, and a reducer writes back the changed line.
- JavaScript values outside the declared types are not modelled: `NaN` ids, non-numeric quantities, and the extra fields that `{ ...product }` would copy.
- `news-client/src/News.tsx`, `App.tsx`, `ProductList.tsx`, `ProductItem.tsx`, `Cart.tsx` and `ApiGateway/Program.cs` are left out. They are layout, a static catalog, dispatch wiring and gateway configuration. The checkout button has no handler, so there is nothing to model.

# Advent till: a verified model of the cart, payment, catalogue and ledger logic

The program is a small point-of-sale till for a seasonal stand. Its home page shows the
cash balance, the cart and a grid of product tiles. A click on a tile adds the product to
the cart. The checkout button opens a payment dialog, where coins and notes are clicked
until the customer has paid; completing the payment adds the cart subtotal to the cash
balance and empties the cart. A product editor edits a working copy of the catalogue and
saves or discards it. The settings component resets the till. It also deletes the ledger
records that carry a target's product id and timestamp, and takes the target's price
times quantity plus tip off the balance once, however many records matched (none, one or
several).

This project models that logic in Dafny and proves what it promises:

- `types.dfy` (module `Types`): the records (product, cart line, ledger record, payment
  option) and the table of fourteen denominations.
- `seqs.dfy` (module `Seqs`): the list idioms the program is written in: `find`, `filter`
  and a sum.
- `cart.dfy` (module `Cart`): the line amounts and the subtotal fold of the register panel,
  the quantity lookup and badge of the product grid, and the cart update of a product click.
- `payment.dfy` (module `Payment`): the change rule and the payment dialog as a class.
- `catalog.dfy` (module `Catalog`): the editor's add, delete and field update as functions
  on lists, and the editor dialog as a class.
- `ledger.dfy` (module `Ledger`): the record filter and the product name lookup of the
  settings component.
- `pages.dfy` (module `Pages`): class `Till`, whose methods are the handlers of the home
  page and the settings component.

All money is a whole number of euro cents (`int`), so 0.01 becomes 1 and 200.00 becomes
20000. The code, and so the model, has these limits:
- the dialog does not block completion when too little was received;
- checkout writes no ledger records, and there are no tips or round-up;
- the editor accepts any price that parses, negative ones included;
- the cart has no remove-one-unit operation.

## Model

| member | source | states |
|---|---|---|
| Types.ProductOf | src/renderer/types/types.ts:29-31 | a cart line carries every product field: the product fields and the quantity rebuild the line |
| Types.PaymentOptionsRange | src/renderer/types/types.ts:39-54 | there are exactly 14 denominations, from 1 cent to 200 euro, each worth a positive number of cents |
| Types.DenominationsIncrease | src/renderer/types/types.ts:40-53 | denomination values strictly increase in list order |
| Types.CoinsBeforeBills | src/renderer/types/types.ts:40-53 | the first eight entries are exactly the coins; every coin is worth at most 2 euro and every note at least 5 euro |
| Cart.Amounts | src/renderer/components/CashRegister.tsx:121-133 | one displayed amount per cart line, in cart order, each price times quantity |
| Cart.SubtotalIsSumOfAmounts | src/renderer/components/CashRegister.tsx:111-132 | the left-to-right subtotal fold equals the sum of the displayed line amounts, and an empty cart gives 0 |
| Cart.SubtotalAppend | src/renderer/components/CashRegister.tsx:111 | the subtotal of two carts put end to end is the sum of their subtotals |
| Cart.SubtotalAppendLine | src/renderer/components/CashRegister.tsx:111 | appending a line adds exactly that line's price times quantity |
| Cart.SubtotalUpdate | src/renderer/components/CashRegister.tsx:111 | replacing one line changes the subtotal by the difference of the two line amounts |
| Cart.SubtotalNonNegative | src/renderer/components/CashRegister.tsx:111 | with prices of at least 0 and quantities of at least 1 the subtotal is at least 0 |
| Cart.SubtotalPermutation | src/renderer/components/CashRegister.tsx:111 | two carts holding the same lines in any order have the same subtotal |
| Cart.FirstLine | src/renderer/components/ProductGrid.tsx:102 | the lookup finds a line exactly when some line has the id, and then it finds the first such line |
| Cart.QtyOf | src/renderer/components/ProductGrid.tsx:101-104 | the grid quantity is 0 when no line has the id, else the quantity of the first line with it |
| Cart.BadgeShownIffInCart | src/renderer/components/ProductGrid.tsx:110-128 | in a well-formed cart a tile shows a badge exactly when its product has a line, and the badge shows that line's quantity |
| Cart.AddNewLine | src/renderer/pages/Homepage.tsx:33 | a click on a product without a line appends one line at the end, with the product's id, name and price and quantity 1 |
| Cart.AddExistingLine | src/renderer/pages/Homepage.tsx:25-31 | a click on a product with line k raises that line's quantity by 1; the other lines, the order and the price snapshot are unchanged |
| Cart.ClickPreservesWellFormed | src/renderer/pages/Homepage.tsx:23-35 | if no two lines share an id and every quantity is at least 1, the same holds after a click |
| Cart.ClickRaisesQuantity | src/renderer/pages/Homepage.tsx:23-35 | after a click the clicked product's grid quantity is higher by exactly 1 |
| Cart.ClickKeepsOtherQuantities | src/renderer/pages/Homepage.tsx:23-35 | after a click every other product's grid quantity is unchanged |
| Cart.ClickSubtotal | src/renderer/pages/Homepage.tsx:25-33 | a click raises the subtotal by the current price for a new line, and by the line's stored snapshot price otherwise |
| Cart.QuantityCountsClicks | src/renderer/pages/Homepage.tsx:23-39 | from an empty cart, the cart stays well-formed and each product's quantity equals the number of clicks on it |
| Cart.ClearedCartShowsNothing | src/renderer/pages/Homepage.tsx:37-39 | after a clear every product's quantity is 0 and no badge is shown |
| Payment.Change | src/renderer/components/PaymentDialog.tsx:20-22 | the change is never negative; if received is at least the total then received = total + change, otherwise change is 0 |
| Payment.TenderedGrows | src/renderer/components/PaymentDialog.tsx:71-73 | more denomination clicks always raise the received amount |
| Payment.PaymentSession.constructor | src/renderer/components/PaymentDialog.tsx:17-22 | a fresh dialog has received 0 and an empty click history; change is 0 for a non-negative total |
| Payment.PaymentSession.Tender | src/renderer/components/PaymentDialog.tsx:71-73 | a click adds exactly the option's value to received, which therefore grows; received stays the sum of all clicked values and change is recomputed |
| Payment.PaymentSession.Complete | src/renderer/components/PaymentDialog.tsx:116-120 | completion reports the current received amount and change, with no check that the total was reached |
| Catalog.TryAdd | src/renderer/components/ProductEditor.tsx:24-37 | the add succeeds exactly when name and price text are non-empty and the price parses; it then keeps the list and appends one product (fresh id, the name, the parsed price) |
| Catalog.DeleteById | src/renderer/components/ProductEditor.tsx:39-41 | a product remains exactly when it was in the list and has a different id |
| Catalog.DeleteAbsentIsNoOp | src/renderer/components/ProductEditor.tsx:39-41 | deleting an id no product carries leaves the list unchanged |
| Catalog.DeleteIdempotent | src/renderer/components/ProductEditor.tsx:39-41 | deleting the same id twice is deleting it once |
| Catalog.DeleteKeepsOrder | src/renderer/components/ProductEditor.tsx:39-41 | delete works piece by piece on a concatenation, so the kept products stay in order |
| Catalog.AddThenDelete | src/renderer/components/ProductEditor.tsx:24-41 | deleting the product just added under a new id gives back the list from before the add |
| Catalog.UpdateField | src/renderer/components/ProductEditor.tsx:43-57 | an edit keeps the list length, the order and every id, and leaves products with other ids unchanged |
| Catalog.UpdateNameSetsName | src/renderer/components/ProductEditor.tsx:43-57 | a name edit sets the name verbatim and keeps id and price |
| Catalog.UpdatePriceSetsPrice | src/renderer/components/ProductEditor.tsx:46-51 | a price edit sets the parsed price, and leaves the product as it was when the text does not parse |
| Catalog.UnparsablePriceIsNoOp | src/renderer/components/ProductEditor.tsx:46-51 | a price text that does not parse leaves the whole list unchanged |
| Catalog.UpdateAbsentIsNoOp | src/renderer/components/ProductEditor.tsx:44-56 | editing an id no product carries leaves the list unchanged |
| Catalog.ProductEditor.constructor | src/renderer/components/ProductEditor.tsx:17-22 | the working list starts equal to the catalogue and both add inputs start empty |
| Catalog.ProductEditor.SetNewName | src/renderer/components/ProductEditor.tsx:164-165 | typing in the name input sets the pending name |
| Catalog.ProductEditor.SetNewPrice | src/renderer/components/ProductEditor.tsx:172-173 | typing in the price input sets the pending price text |
| Catalog.ProductEditor.AddProduct | src/renderer/components/ProductEditor.tsx:24-37 | on valid input the working list becomes the extended list and both inputs are cleared; otherwise list and inputs are unchanged |
| Catalog.ProductEditor.DeleteProduct | src/renderer/components/ProductEditor.tsx:39-41 | the working list becomes the list without that id |
| Catalog.ProductEditor.UpdateProduct | src/renderer/components/ProductEditor.tsx:43-57 | the working list becomes the edited list |
| Catalog.ProductEditor.Save | src/renderer/components/ProductEditor.tsx:197-201 | save hands over the working list as it stands |
| Ledger.FilterTx | src/renderer/pages/Settings.tsx:26-29 | a record is kept exactly when it was in the ledger and differs from the target in product id or timestamp |
| Ledger.FilterTxKeepsOrder | src/renderer/pages/Settings.tsx:26-29 | the filter works piece by piece on a concatenation, so kept records stay in their original order |
| Ledger.FilterTxAbsentIsNoOp | src/renderer/pages/Settings.tsx:26-29 | when no record matches the target the ledger is unchanged |
| Ledger.FirstProduct | src/renderer/pages/Settings.tsx:55 | the lookup finds the first product with the id, or reports that none has it |
| Ledger.ProductName | src/renderer/pages/Settings.tsx:53-57 | the name of the first product with the id, or 'Unbekanntes Produkt' when there is none |
| Ledger.RenameShowsNewName | src/renderer/pages/Settings.tsx:53-57 | after a name edit in the editor the records of that product show the new name |
| Ledger.DeletedProductIsUnknown | src/renderer/pages/Settings.tsx:53-57 | after the editor deletes a product its records show 'Unbekanntes Produkt' |
| Pages.Till.Mount | src/renderer/pages/Homepage.tsx:18-21 | the page starts with the stored catalogue and balance, an empty cart and both dialogs closed |
| Pages.Till.ProductClick | src/renderer/pages/Homepage.tsx:23-35 | the cart becomes the clicked cart, stays well-formed, the clicked product's quantity rises by 1 and every other product's stays the same |
| Pages.Till.ClearCart | src/renderer/pages/Homepage.tsx:37-39 | the cart is empty, every product's quantity is 0, and nothing else changes |
| Pages.Till.Checkout | src/renderer/pages/Homepage.tsx:101-107 | the dialog opens with the cart subtotal as its total and nothing received |
| Pages.Till.PaymentComplete | src/renderer/pages/Homepage.tsx:45-53 | the balance becomes the old balance plus the cart subtotal, whatever was received; the cart is emptied and the dialog closed |
| Pages.Till.CompletePayment | src/renderer/components/PaymentDialog.tsx:116-120 | completing without any check on the amount received adds to the balance exactly the total the dialog was opened with |
| Pages.Till.CancelPayment | src/renderer/components/PaymentDialog.tsx:133-134 | cancel closes the dialog without touching cart or balance |
| Pages.Till.OpenEditor | src/renderer/pages/Homepage.tsx:89-99 | the editor opens on a copy of the catalogue with empty add inputs |
| Pages.Till.SaveProducts | src/renderer/pages/Homepage.tsx:55-58 | the catalogue is replaced; the cart lines, with their price snapshots, are untouched |
| Pages.Till.SaveEditor | src/renderer/components/ProductEditor.tsx:197-201 | save makes the working list the catalogue and closes the editor |
| Pages.Till.CancelEditor | src/renderer/components/ProductEditor.tsx:213-214 | cancel closes the editor and discards its edits |
| Pages.Till.ResetAll | src/renderer/pages/Settings.tsx:13-21 | a confirmed reset sets the balance to 0 and empties catalogue and ledger; a declined one changes nothing |
| Pages.Till.DeleteTransaction | src/renderer/pages/Settings.tsx:23-41 | a confirmed delete leaves the stored ledger equal, record for record, to the filtered list and lowers the balance once by price times quantity plus tip; a declined one changes nothing |

## Left out

- Rendering, styles, hover effects, date formatting and the two-decimal display are not
  modelled; amounts are exact cents, so the floating-point drift of JavaScript numbers is
  not modelled either.
- Number parsing (`parseFloat` with the `isNaN` test) is a parameter, a total function from
  text to an optional price in cents; its behaviour on particular texts is not modelled.
- The time-based id of a new product is a parameter; its freshness is not checked by the
  program and is not assumed by the model (only `Catalog.AddThenDelete` requires it).
- The confirmation prompts are boolean parameters and the information pop-ups are not
  modelled.
- The storage service (src/renderer/services/storage.ts) is not part of this model: the
  stored catalogue, balance and ledger are fields of `Pages.Till`. The ledger functions the
  settings page calls are not defined in the storage service, so the stored ledger is
  abstract state that only the settings page reads and writes.
- The app's router (src/renderer/renderer.tsx:37-40) mounts only the home page and the
  statistics page, and the settings component reads its ledger through a storage call the
  storage service does not define. `Pages.Till.ResetAll` and `Pages.Till.DeleteTransaction`
  model the settings component as written, although the app as shown never mounts it.
- `Pages.Till` keeps one catalogue and one balance for the home page and the store, because
  every home-page handler writes both with the same value. Page navigation is not modelled:
  in the program, leaving the home page discards its cart and returning reloads the store.
- The register panel declares a remove-one-unit callback, but the home page never supplies
  one, so there is no behaviour to model.
- Statistics, tips, round-up and the recording of ledger records at checkout do not exist
  in the modelled code; the statistics page is a placeholder.
- Cart.BadgeShownIffInCart: stated for well-formed carts only (distinct ids, quantities of
  at least 1), the carts a till can reach; for other carts the badge follows the first
  line's quantity, as `Cart.QtyOf` states.

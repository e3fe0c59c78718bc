/** The till as the home page and the settings page drive it. The stored products, cash
    balance and transaction list are fields of the till: each home-page handler writes the
    page state and the store with the same value, and the settings page keeps its list of
    records equal to the stored one, so one field stands for both. */
module Pages {
  import opened Types
  import opened Cart
  import opened Payment
  import opened Catalog
  import opened Ledger

  class Till {
    var products: seq<Product>
    var cart: seq<CartItem>
    /** The cash balance, in cents. */
    var balance: int
    var transactions: seq<Transaction>
    var paymentOpen: bool
    var editorOpen: bool

    /** The cart never holds two lines for one product, nor a line below quantity 1. */
    ghost predicate Valid()
      reads this
    {
      WellFormed(cart)
    }

    /** The home page loads the stored catalogue and balance; the cart starts empty. */
    constructor Mount(storedProducts: seq<Product>, storedBalance: int, storedTransactions: seq<Transaction>)
      ensures Valid() && cart == []
      ensures products == storedProducts && balance == storedBalance && transactions == storedTransactions
      ensures !paymentOpen && !editorOpen
    {
      products, balance, transactions := storedProducts, storedBalance, storedTransactions;
      cart := [];
      paymentOpen, editorOpen := false, false;
    }

    /** A click on a product tile: its line grows by one unit or a new line is appended. */
    method ProductClick(p: Product)
      requires Valid()
      modifies this`cart
      ensures Valid() && cart == AddToCart(old(cart), p)
      ensures QtyOf(cart, p.id) == QtyOf(old(cart), p.id) + 1
      ensures forall id :: id != p.id ==> QtyOf(cart, id) == QtyOf(old(cart), id)
    {
      ClickPreservesWellFormed(cart, p);
      ClickRaisesQuantity(cart, p);
      forall id | id != p.id
        ensures QtyOf(AddToCart(cart, p), id) == QtyOf(cart, id)
      {
        ClickKeepsOtherQuantities(cart, p, id);
      }
      cart := AddToCart(cart, p);
    }

    /** The clear button empties the cart and nothing else. */
    method ClearCart()
      modifies this`cart
      ensures Valid() && cart == []
      ensures forall id :: QtyOf(cart, id) == 0
    {
      cart := [];
    }

    /** The checkout button opens the payment dialog with the cart subtotal as its total. */
    method Checkout() returns (dialog: PaymentSession)
      modifies this`paymentOpen
      ensures paymentOpen && fresh(dialog) && dialog.Valid()
      ensures dialog.total == Subtotal(cart) && dialog.received == 0
    {
      dialog := new PaymentSession(Subtotal(cart));
      paymentOpen := true;
    }

    /** Completion handler: the balance grows by the cart subtotal, whatever was received
        and given back, the new balance is stored, the cart is emptied and the dialog closed. */
    method PaymentComplete(received: int, change: int)
      requires Valid()
      modifies this`balance, this`cart, this`paymentOpen
      ensures balance == old(balance) + Subtotal(old(cart))
      ensures cart == [] && !paymentOpen && Valid()
    {
      var total := Subtotal(cart);
      balance := balance + total;
      cart := [];
      paymentOpen := false;
    }

    /** The dialog's complete button: it reports its amounts to the handler above, with no
        check that the total was reached, and closes. The balance grows by the very total the
        dialog was opened with. */
    method CompletePayment(dialog: PaymentSession)
      requires Valid() && dialog.Valid() && dialog.total == Subtotal(cart)
      modifies this`balance, this`cart, this`paymentOpen
      ensures balance == old(balance) + dialog.total
      ensures cart == [] && !paymentOpen && Valid()
    {
      var paid, returned := dialog.Complete();
      PaymentComplete(paid, returned);
      paymentOpen := false;
    }

    /** The dialog's cancel button closes it; the cart and the balance stay as they were. */
    method CancelPayment()
      modifies this`paymentOpen
      ensures !paymentOpen
    {
      paymentOpen := false;
    }

    /** The edit button opens the editor on a copy of the catalogue. */
    method OpenEditor() returns (editor: ProductEditor)
      modifies this`editorOpen
      ensures editorOpen && fresh(editor)
      ensures editor.working == products && editor.newName == "" && editor.newPrice == ""
    {
      editor := new ProductEditor(products);
      editorOpen := true;
    }

    /** The save handler replaces and stores the catalogue; cart lines keep their price snapshots. */
    method SaveProducts(newProducts: seq<Product>)
      modifies this`products
      ensures products == newProducts && cart == old(cart)
    {
      products := newProducts;
    }

    /** The editor's save button: the working list becomes the catalogue and the editor closes. */
    method SaveEditor(editor: ProductEditor)
      modifies this`products, this`editorOpen
      ensures products == editor.working && !editorOpen && cart == old(cart)
    {
      var saved := editor.Save();
      SaveProducts(saved);
      editorOpen := false;
    }

    /** The editor's cancel button closes it; its edits are discarded. */
    method CancelEditor()
      modifies this`editorOpen
      ensures !editorOpen && products == old(products)
    {
      editorOpen := false;
    }

    /** The settings page's reset: once confirmed, the balance is 0 and the catalogue and the
        ledger are empty; declined, nothing changes. */
    method ResetAll(confirmed: bool)
      modifies this`balance, this`products, this`transactions
      ensures confirmed ==> balance == 0 && products == [] && transactions == []
      ensures !confirmed ==> balance == old(balance) && products == old(products) && transactions == old(transactions)
      ensures cart == old(cart)
    {
      if confirmed {
        balance := 0;
        products := [];
        transactions := [];
      }
    }

    /** The settings page's delete: once confirmed, the records that are the same record as
        the target are removed, the store is rewritten record by record from the kept list,
        and the balance drops by the target's price times quantity plus tip, once, however
        many records matched. Declined, nothing changes. */
    method DeleteTransaction(target: Transaction, confirmed: bool)
      modifies this`transactions, this`balance
      ensures confirmed ==> transactions == FilterTx(old(transactions), target)
      ensures confirmed ==> balance == old(balance) - Reversal(target)
      ensures !confirmed ==> transactions == old(transactions) && balance == old(balance)
    {
      if confirmed {
        var kept := FilterTx(transactions, target);
        transactions := [];
        var i := 0;
        while i < |kept|
          invariant 0 <= i <= |kept|
          invariant transactions == kept[..i]
          invariant balance == old(balance)
        {
          transactions := transactions + [kept[i]];
          i := i + 1;
        }
        balance := balance - Reversal(target);
      }
    }
  }
}

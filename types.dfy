/** Entities of the till and the table of coins and notes the payment dialog offers.
    Every amount of money is a whole number of euro cents. */
module Types {

  datatype Option<T> = None | Some(value: T)

  /** A catalogue entry. The price is not checked for sign anywhere in the till. */
  datatype Product = Product(id: string, name: string, price: int)

  /** A cart line: every field of the product it was made from, plus a quantity. */
  datatype CartItem = CartItem(id: string, name: string, price: int, quantity: int)

  /** A ledger record. The timestamp is kept in the string form the ledger compares. */
  datatype Transaction = Transaction(productId: string, quantity: int, price: int, timestamp: string, tip: int)

  datatype Kind = Coin | Bill

  /** One button of the payment dialog: its value in cents, coin or note, and its caption. */
  datatype PaymentOption = PaymentOption(value: int, kind: Kind, caption: string)

  /** A cart line made from a product: the product's fields are copied unchanged. */
  function LineOf(p: Product, quantity: int): CartItem
  {
    CartItem(p.id, p.name, p.price, quantity)
  }

  /** The product fields a cart line carries; with its quantity they rebuild the line. */
  function ProductOf(item: CartItem): (p: Product)
    ensures LineOf(p, item.quantity) == item
  {
    Product(item.id, item.name, item.price)
  }

  /** The denominations, in the order the dialog shows them: 1 cent to 200 euro. */
  const PaymentOptions: seq<PaymentOption> := [
    PaymentOption(1, Coin, "1 Cent"),
    PaymentOption(2, Coin, "2 Cent"),
    PaymentOption(5, Coin, "5 Cent"),
    PaymentOption(10, Coin, "10 Cent"),
    PaymentOption(20, Coin, "20 Cent"),
    PaymentOption(50, Coin, "50 Cent"),
    PaymentOption(100, Coin, "1 Euro"),
    PaymentOption(200, Coin, "2 Euro"),
    PaymentOption(500, Bill, "5 Euro"),
    PaymentOption(1000, Bill, "10 Euro"),
    PaymentOption(2000, Bill, "20 Euro"),
    PaymentOption(5000, Bill, "50 Euro"),
    PaymentOption(10000, Bill, "100 Euro"),
    PaymentOption(20000, Bill, "200 Euro")
  ]

  lemma PaymentOptionsRange()
    ensures |PaymentOptions| == 14
    ensures PaymentOptions[0].value == 1 && PaymentOptions[13].value == 20000
    ensures forall o :: o in PaymentOptions ==> o.value > 0
  {
  }

  /** Each value is below the next one in the list. */
  ghost predicate StepwiseIncreasing(s: seq<PaymentOption>)
  {
    forall i :: 0 <= i < |s| - 1 ==> s[i].value < s[i + 1].value
  }

  lemma {:induction false} StepwiseIncreasingIsSorted(s: seq<PaymentOption>)
    requires StepwiseIncreasing(s)
    ensures forall i, j :: 0 <= i < j < |s| ==> s[i].value < s[j].value
  {
    if |s| > 1 {
      var t := s[1..];
      assert StepwiseIncreasing(t) by {
        forall i | 0 <= i < |t| - 1 ensures t[i].value < t[i + 1].value {
          assert t[i] == s[i + 1] && t[i + 1] == s[i + 2];
        }
      }
      StepwiseIncreasingIsSorted(t);
      forall i, j | 0 <= i < j < |s| ensures s[i].value < s[j].value {
        if i == 0 {
          assert s[0].value < s[1].value;
          if j > 1 {
            assert s[1] == t[0] && s[j] == t[j - 1];
          }
        } else {
          assert s[i] == t[i - 1] && s[j] == t[j - 1];
        }
      }
    }
  }

  /** Denomination values strictly increase along the list. */
  lemma DenominationsIncrease()
    ensures forall i, j :: 0 <= i < j < |PaymentOptions| ==> PaymentOptions[i].value < PaymentOptions[j].value
  {
    StepwiseIncreasingIsSorted(PaymentOptions);
  }

  /** Coins are worth at most 2 euro and notes at least 5 euro; the eight coins come first. */
  lemma CoinsBeforeBills()
    ensures forall i :: 0 <= i < |PaymentOptions| ==> (PaymentOptions[i].kind == Coin <==> i < 8)
    ensures forall i :: 0 <= i < |PaymentOptions| && PaymentOptions[i].kind == Coin ==> PaymentOptions[i].value <= 200
    ensures forall i :: 0 <= i < |PaymentOptions| && PaymentOptions[i].kind == Bill ==> PaymentOptions[i].value >= 500
  {
  }
}

/** The payment dialog: the amount received grows by the value of each coin or note
    clicked, the change follows it, and completion hands both to the caller. */
module Payment {
  import opened Types

  /** The change shown: what was received beyond the total, never below 0. */
  function Change(total: int, received: int): (c: int)
    ensures c >= 0
    ensures received >= total ==> received == total + c
    ensures received < total ==> c == 0
  {
    if received - total > 0 then received - total else 0
  }

  /** The total value of a sequence of denomination clicks. */
  function Tendered(clicks: seq<PaymentOption>): int
  {
    if clicks == [] then 0 else Tendered(clicks[..|clicks| - 1]) + clicks[|clicks| - 1].value
  }

  /** Every click was on one of the dialog's denominations. */
  ghost predicate FromDialog(clicks: seq<PaymentOption>)
  {
    forall i :: 0 <= i < |clicks| ==> clicks[i] in PaymentOptions
  }

  /** The received amount only grows: any further clicks on denominations add a positive amount. */
  lemma {:induction false} TenderedGrows(before: seq<PaymentOption>, after: seq<PaymentOption>)
    requires FromDialog(after) && after != []
    ensures Tendered(before + after) > Tendered(before)
    decreases |after|
  {
    PaymentOptionsRange();
    var last := after[|after| - 1];
    assert last in PaymentOptions;
    assert (before + after)[..|before + after| - 1] == before + after[..|after| - 1];
    if |after| > 1 {
      TenderedGrows(before, after[..|after| - 1]);
    } else {
      assert before + after[..|after| - 1] == before;
    }
  }

  class PaymentSession {
    /** The amount to pay, fixed when the dialog opens. */
    var total: int
    var received: int
    var change: int
    /** The denominations clicked so far, in order. */
    ghost var clicks: seq<PaymentOption>

    /** Received is the sum of the clicked values and change is derived from it. */
    ghost predicate Valid()
      reads this
    {
      FromDialog(clicks) && received == Tendered(clicks) && change == Change(total, received)
    }

    /** A fresh dialog: nothing received. The change starts at 0 and the effect that
        follows the first render sets it from the amount received, which leaves it at 0
        unless the total is negative. */
    constructor (total: int)
      ensures Valid() && this.total == total
      ensures received == 0 && clicks == []
      ensures total >= 0 ==> change == 0
    {
      this.total := total;
      received := 0;
      change := 0;
      clicks := [];
      new;
      change := Change(total, received);
    }

    /** A click on a denomination adds its value to the amount received; the change is
        recomputed from the new amount. */
    method Tender(option: PaymentOption)
      requires Valid() && option in PaymentOptions
      modifies this
      ensures Valid() && total == old(total)
      ensures clicks == old(clicks) + [option]
      ensures received == old(received) + option.value && received > old(received)
      ensures change == Change(total, received)
    {
      PaymentOptionsRange();
      received := received + option.value;
      clicks := clicks + [option];
      assert clicks[..|clicks| - 1] == old(clicks);
      change := Change(total, received);
    }

    /** The complete button: reports the amount received and the change, whether or not
        the total was reached. */
    method Complete() returns (paid: int, returned: int)
      requires Valid()
      ensures paid == Tendered(clicks) && returned == Change(total, paid)
      ensures paid < total ==> returned == 0
    {
      paid, returned := received, change;
    }
  }
}

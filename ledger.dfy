/** The settings page's view of the ledger: which records a delete removes, how much it
    takes off the cash balance, and the product name shown beside a record. */
module Ledger {
  import opened Types
  import opened Seqs
  import opened Catalog

  /** The name shown for a record whose product is no longer in the catalogue. */
  const UnknownProduct: string := "Unbekanntes Produkt"

  /** Two records are the same for deletion when product id and timestamp text agree. */
  predicate SameRecord(t: Transaction, target: Transaction)
  {
    t.productId == target.productId && t.timestamp == target.timestamp
  }

  /** The ledger after deleting `target`: the records that are not the same record as it. */
  function FilterTx(ts: seq<Transaction>, target: Transaction): (r: seq<Transaction>)
    ensures forall t :: t in r <==> t in ts && !SameRecord(t, target)
  {
    Filter(ts, (t: Transaction) => !SameRecord(t, target))
  }

  /** The kept records stay in their original order. */
  lemma FilterTxKeepsOrder(a: seq<Transaction>, b: seq<Transaction>, target: Transaction)
    ensures FilterTx(a + b, target) == FilterTx(a, target) + FilterTx(b, target)
  {
    FilterAppend(a, b, (t: Transaction) => !SameRecord(t, target));
  }

  /** When no record matches, the ledger is unchanged. */
  lemma FilterTxAbsentIsNoOp(ts: seq<Transaction>, target: Transaction)
    requires forall i :: 0 <= i < |ts| ==> !SameRecord(ts[i], target)
    ensures FilterTx(ts, target) == ts
  {
    FilterKeepsAll(ts, (t: Transaction) => !SameRecord(t, target));
  }

  /** The amount a delete takes off the cash balance: price times quantity plus tip. */
  function Reversal(t: Transaction): int
  {
    t.price * t.quantity + t.tip
  }

  /** Product k is the first product with this id. */
  predicate IsFirstProduct(products: seq<Product>, id: string, k: int)
  {
    0 <= k < |products| && products[k].id == id && forall j :: 0 <= j < k ==> products[j].id != id
  }

  /** The index of the first product with this id, as `find` locates it. */
  function FirstProduct(products: seq<Product>, id: string): (r: Option<nat>)
    ensures r.None? ==> forall i :: 0 <= i < |products| ==> products[i].id != id
    ensures r.Some? ==> IsFirstProduct(products, id, r.value)
  {
    FindFirst(products, (p: Product) => p.id == id)
  }

  /** The name shown beside a record: that of the first product with the record's id,
      or the fixed text for an unknown product. */
  function ProductName(products: seq<Product>, id: string): (name: string)
    ensures (forall i :: 0 <= i < |products| ==> products[i].id != id) ==> name == UnknownProduct
    ensures forall k :: IsFirstProduct(products, id, k) ==> name == products[k].name
  {
    match FirstProduct(products, id)
    case None => UnknownProduct
    case Some(k) => products[k].name
  }

  /** The settings page looks names up in the current catalogue: after a name edit in the
      editor, every record of that product shows the new name. */
  lemma RenameShowsNewName(products: seq<Product>, id: string, value: string, parse: Parser, k: nat)
    requires k < |products| && products[k].id == id
    ensures ProductName(UpdateField(products, id, Name, value, parse), id) == value
  {
    var r := UpdateField(products, id, Name, value, parse);
    var first := FirstProduct(products, id).value;
    assert IsFirstProduct(r, id, first);
  }

  /** After the editor deletes a product, its records show the unknown-product text. */
  lemma DeletedProductIsUnknown(products: seq<Product>, id: string)
    ensures ProductName(DeleteById(products, id), id) == UnknownProduct
  {
    var r := DeleteById(products, id);
    assert forall i :: 0 <= i < |r| ==> r[i] in r;
  }
}

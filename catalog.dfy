/** The catalogue editor: a working copy of the product list that is edited by add,
    delete and field updates, then either handed back for saving or discarded.
    Number parsing (`parseFloat` followed by the `isNaN` test) is not modelled; it is a
    parameter that maps a text either to a price in cents or to None. */
module Catalog {
  import opened Types
  import opened Seqs

  type Parser = string -> Option<int>

  datatype Field = Name | Price

  /** The list after the add button: None (no change) when the name or the price text is
      empty or the price text does not parse; otherwise the new product at the end. */
  function TryAdd(list: seq<Product>, name: string, priceText: string, freshId: string, parse: Parser)
    : (r: Option<seq<Product>>)
    ensures r.Some? <==> name != "" && priceText != "" && parse(priceText).Some?
    ensures r.Some? ==> |r.value| == |list| + 1 && r.value[..|list|] == list
    ensures r.Some? ==> r.value[|list|] == Product(freshId, name, parse(priceText).value)
  {
    if name != "" && priceText != "" then
      match parse(priceText)
      case Some(price) => Some(list + [Product(freshId, name, price)])
      case None => None
    else None
  }

  /** The list without the products carrying this id. */
  function DeleteById(list: seq<Product>, id: string): (r: seq<Product>)
    ensures forall p :: p in r <==> p in list && p.id != id
  {
    Filter(list, (p: Product) => p.id != id)
  }

  /** Deleting an id no product carries changes nothing. */
  lemma DeleteAbsentIsNoOp(list: seq<Product>, id: string)
    requires forall i :: 0 <= i < |list| ==> list[i].id != id
    ensures DeleteById(list, id) == list
  {
    FilterKeepsAll(list, (p: Product) => p.id != id);
  }

  /** Deleting twice is deleting once. */
  lemma DeleteIdempotent(list: seq<Product>, id: string)
    ensures DeleteById(DeleteById(list, id), id) == DeleteById(list, id)
  {
    FilterIdempotent(list, (p: Product) => p.id != id);
  }

  /** Deleting keeps the remaining products in their order: it works piece by piece. */
  lemma DeleteKeepsOrder(a: seq<Product>, b: seq<Product>, id: string)
    ensures DeleteById(a + b, id) == DeleteById(a, id) + DeleteById(b, id)
  {
    FilterAppend(a, b, (p: Product) => p.id != id);
  }

  /** Deleting the product an add just created, under an id new to the list, gives back
      the list as it was before the add. */
  lemma AddThenDelete(list: seq<Product>, name: string, priceText: string, freshId: string, parse: Parser)
    requires TryAdd(list, name, priceText, freshId, parse).Some?
    requires forall i :: 0 <= i < |list| ==> list[i].id != freshId
    ensures DeleteById(TryAdd(list, name, priceText, freshId, parse).value, freshId) == list
  {
    var added := Product(freshId, name, parse(priceText).value);
    assert TryAdd(list, name, priceText, freshId, parse).value == list + [added];
    DeleteKeepsOrder(list, [added], freshId);
    DeleteAbsentIsNoOp(list, freshId);
    assert DeleteById([added], freshId) == [];
  }

  /** One product after a field edit: a name is taken verbatim, a price only if it parses. */
  function Edit(p: Product, field: Field, value: string, parse: Parser): Product
  {
    match field
    case Name => p.(name := value)
    case Price =>
      match parse(value)
      case Some(price) => p.(price := price)
      case None => p
  }

  /** The list after editing a field of the products with this id. */
  function UpdateField(list: seq<Product>, id: string, field: Field, value: string, parse: Parser)
    : (r: seq<Product>)
    ensures |r| == |list|
    ensures forall i :: 0 <= i < |list| ==> r[i].id == list[i].id
    ensures forall i :: 0 <= i < |list| && list[i].id != id ==> r[i] == list[i]
  {
    seq(|list|, i requires 0 <= i < |list| => if list[i].id == id then Edit(list[i], field, value, parse) else list[i])
  }

  /** A name edit sets the name verbatim and leaves id and price alone. */
  lemma UpdateNameSetsName(list: seq<Product>, id: string, value: string, parse: Parser, k: nat)
    requires k < |list| && list[k].id == id
    ensures UpdateField(list, id, Name, value, parse)[k] == Product(id, value, list[k].price)
  {
  }

  /** A price edit sets the parsed price, or leaves the product as it was when the text
      does not parse. */
  lemma UpdatePriceSetsPrice(list: seq<Product>, id: string, value: string, parse: Parser, k: nat)
    requires k < |list| && list[k].id == id
    ensures parse(value).Some? ==> UpdateField(list, id, Price, value, parse)[k] == Product(id, list[k].name, parse(value).value)
    ensures parse(value).None? ==> UpdateField(list, id, Price, value, parse)[k] == list[k]
  {
  }

  /** A price text that does not parse changes nothing in the list. */
  lemma UnparsablePriceIsNoOp(list: seq<Product>, id: string, value: string, parse: Parser)
    requires parse(value).None?
    ensures UpdateField(list, id, Price, value, parse) == list
  {
    var r := UpdateField(list, id, Price, value, parse);
    assert forall i :: 0 <= i < |list| ==> r[i] == list[i];
  }

  /** Editing an id no product carries changes nothing. */
  lemma UpdateAbsentIsNoOp(list: seq<Product>, id: string, field: Field, value: string, parse: Parser)
    requires forall i :: 0 <= i < |list| ==> list[i].id != id
    ensures UpdateField(list, id, field, value, parse) == list
  {
    var r := UpdateField(list, id, field, value, parse);
    assert forall i :: 0 <= i < |list| ==> r[i] == list[i];
  }

  /** The editor dialog: the working list and the two input fields of the add row. */
  class ProductEditor {
    var working: seq<Product>
    var newName: string
    var newPrice: string

    /** Opening the editor copies the catalogue; the add row starts empty. */
    constructor (products: seq<Product>)
      ensures working == products && newName == "" && newPrice == ""
    {
      working := products;
      newName, newPrice := "", "";
    }

    method SetNewName(text: string)
      modifies this`newName
      ensures newName == text
    {
      newName := text;
    }

    method SetNewPrice(text: string)
      modifies this`newPrice
      ensures newPrice == text
    {
      newPrice := text;
    }

    /** The add button: on valid input the product is appended and the add row cleared;
        otherwise the list and both inputs stay as they were. */
    method AddProduct(freshId: string, parse: Parser)
      modifies this
      ensures TryAdd(old(working), old(newName), old(newPrice), freshId, parse).Some? ==>
        working == TryAdd(old(working), old(newName), old(newPrice), freshId, parse).value &&
        newName == "" && newPrice == ""
      ensures TryAdd(old(working), old(newName), old(newPrice), freshId, parse).None? ==>
        working == old(working) && newName == old(newName) && newPrice == old(newPrice)
    {
      match TryAdd(working, newName, newPrice, freshId, parse)
      case Some(list) =>
        working := list;
        newName, newPrice := "", "";
      case None =>
    }

    method DeleteProduct(id: string)
      modifies this`working
      ensures working == DeleteById(old(working), id)
    {
      working := DeleteById(working, id);
    }

    method UpdateProduct(id: string, field: Field, value: string, parse: Parser)
      modifies this`working
      ensures working == UpdateField(old(working), id, field, value, parse)
    {
      working := UpdateField(working, id, field, value, parse);
    }

    /** The save button hands the working list to the caller; the caller closes the editor. */
    method Save() returns (saved: seq<Product>)
      ensures saved == working
    {
      saved := working;
    }
  }
}

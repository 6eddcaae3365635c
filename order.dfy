/** The product on sale and the order record the page sends for it: the form
    body built from the draft, the product and the order timestamp. */
module OrderForm {
  import opened Draft
  import Decimal

  /** The product record the page is built around. Prices are whole dollars. */
  datatype Product = Product(
    name: string,
    price: nat,
    description: string,
    features: seq<string>,
    images: seq<string>)

  /** The one product the page sells. */
  const Watch := Product(
    "Limited Edition Mechanical Watch",
    299,
    "Handcrafted timepiece with precision Japanese movement",
    ["Sapphire crystal glass", "316L stainless steel case", "Water resistant to 100m", "Genuine leather strap"],
    ["https://images.unsplash.com/photo-1524592094714-0f0654e20314?auto=format&fit=crop&q=80&w=1200",
     "https://images.unsplash.com/photo-1522312346375-d1a52e2b99b3?auto=format&fit=crop&q=80&w=1200"])

  /** A form body: the key/value entries in the order they were appended. */
  type FormBody = seq<(string, string)>

  /** The keys of an order record, in the order they are appended. */
  const OrderKeys: seq<string> :=
    ["name", "email", "phone", "address", "product", "quantity", "totalPrice", "orderDate"]

  /** What the order flow relies on about the product it sells: a positive
      price (so quantities are told apart by their totals), and at least one
      gallery image (so the first one can be on show at mount). */
  lemma WatchProduct()
    ensures Watch.price > 0
    ensures |Watch.images| >= 1
  {
  }

  /** The total for a quantity of a product: unit price times quantity. A
      quantity of at least one costs at least one unit price. */
  function TotalPrice(p: Product, quantity: nat): (total: nat)
    ensures quantity >= 1 ==> total >= p.price
    ensures total == 0 <==> p.price == 0 || quantity == 0
  {
    p.price * quantity
  }

  /** The price of `quantity` units added up one unit at a time. */
  function UnitsTotal(p: Product, quantity: nat): nat
    decreases quantity
  {
    if quantity == 0 then 0 else UnitsTotal(p, quantity - 1) + p.price
  }

  /** The product total is the sum of one unit price per unit ordered. */
  lemma {:induction false} TotalPriceIsSumOfUnits(p: Product, quantity: nat)
    ensures TotalPrice(p, quantity) == UnitsTotal(p, quantity)
    decreases quantity
  {
    if quantity > 0 {
      TotalPriceIsSumOfUnits(p, quantity - 1);
      assert TotalPrice(p, quantity) == TotalPrice(p, quantity - 1) + p.price;
    }
  }

  /** With a positive unit price, a larger quantity always costs more. */
  lemma TotalPriceStrictlyIncreasing(p: Product, q1: nat, q2: nat)
    requires p.price > 0 && q1 < q2
    ensures TotalPrice(p, q1) < TotalPrice(p, q2)
  {
  }

  /** The order record sent for a draft: the four contact fields, the product
      name, the quantity and the total as decimal numerals, and the timestamp. */
  function OrderRecord(c: ContactFields, quantity: nat, p: Product, orderDate: string): (r: FormBody)
    ensures |r| == |OrderKeys|
    ensures forall i :: 0 <= i < |r| ==> r[i].0 == OrderKeys[i]
  {
    [ ("name", c.name),
      ("email", c.email),
      ("phone", c.phone),
      ("address", c.address),
      ("product", p.name),
      ("quantity", Decimal.NatToString(quantity)),
      ("totalPrice", Decimal.NatToString(TotalPrice(p, quantity))),
      ("orderDate", orderDate) ]
  }

  /** The value of the first entry with the given key, as a form body's `get` reads it. */
  function Lookup(b: FormBody, key: string): Option<string>
    decreases |b|
  {
    if b == [] then None
    else if b[0].0 == key then Some(b[0].1)
    else Lookup(b[1..], key)
  }

  /** An entry whose key no earlier entry repeats is what a lookup of that key finds. */
  lemma {:induction false} LookupFindsEntry(b: FormBody, i: nat)
    requires i < |b|
    requires forall j :: 0 <= j < i ==> b[j].0 != b[i].0
    ensures Lookup(b, b[i].0) == Some(b[i].1)
    decreases i
  {
    if i > 0 {
      LookupFindsEntry(b[1..], i - 1);
    }
  }

  /** A key absent from every entry is not found. */
  lemma {:induction false} LookupMissing(b: FormBody, key: string)
    requires forall j :: 0 <= j < |b| ==> b[j].0 != key
    ensures Lookup(b, key) == None
    decreases |b|
  {
    if b != [] {
      LookupMissing(b[1..], key);
    }
  }

  /** No two keys of an order record coincide. */
  lemma OrderKeysDistinct()
    ensures forall i, j :: 0 <= i < j < |OrderKeys| ==> OrderKeys[i] != OrderKeys[j]
  {
  }

  /** Each key of an order record carries the value it was built from: the
      draft's contact fields, the product's name, the quantity, the total, and
      the timestamp; and the numerals read back as the quantity and the total. */
  lemma OrderRecordValues(c: ContactFields, quantity: nat, p: Product, orderDate: string)
    ensures var r := OrderRecord(c, quantity, p, orderDate);
      && Lookup(r, "name") == Some(c.name)
      && Lookup(r, "email") == Some(c.email)
      && Lookup(r, "phone") == Some(c.phone)
      && Lookup(r, "address") == Some(c.address)
      && Lookup(r, "product") == Some(p.name)
      && Lookup(r, "quantity") == Some(Decimal.NatToString(quantity))
      && Lookup(r, "totalPrice") == Some(Decimal.NatToString(p.price * quantity))
      && Lookup(r, "orderDate") == Some(orderDate)
      && Decimal.Value(Lookup(r, "quantity").value) == quantity
      && Decimal.Value(Lookup(r, "totalPrice").value) == p.price * quantity
  {
    var r := OrderRecord(c, quantity, p, orderDate);
    OrderKeysDistinct();
    forall i | 0 <= i < |r|
      ensures Lookup(r, r[i].0) == Some(r[i].1)
    {
      LookupFindsEntry(r, i);
    }
    assert r[0].0 == "name" && r[1].0 == "email" && r[2].0 == "phone" && r[3].0 == "address";
    assert r[4].0 == "product" && r[5].0 == "quantity" && r[6].0 == "totalPrice" && r[7].0 == "orderDate";
    Decimal.ValueOfNatToString(quantity);
    Decimal.ValueOfNatToString(p.price * quantity);
  }

  /** Keys that are not part of an order record are absent from it. */
  lemma OrderRecordHasNoOtherKeys(c: ContactFields, quantity: nat, p: Product, orderDate: string, key: string)
    requires key !in OrderKeys
    ensures Lookup(OrderRecord(c, quantity, p, orderDate), key) == None
  {
    LookupMissing(OrderRecord(c, quantity, p, orderDate), key);
  }

  /** Two orders for different quantities of the same product differ in their
      quantity entry, and, when the product is not free, in their total. */
  lemma OrderRecordSeparatesQuantities(c: ContactFields, q1: nat, q2: nat, p: Product, orderDate: string)
    requires q1 != q2
    ensures OrderRecord(c, q1, p, orderDate)[5] != OrderRecord(c, q2, p, orderDate)[5]
    ensures p.price > 0 ==> OrderRecord(c, q1, p, orderDate)[6] != OrderRecord(c, q2, p, orderDate)[6]
  {
    Decimal.NatToStringInjective(q1, q2);
    Decimal.NatToStringInjective(TotalPrice(p, q1), TotalPrice(p, q2));
    if p.price > 0 {
      if q1 < q2 {
        TotalPriceStrictlyIncreasing(p, q1, q2);
      } else {
        TotalPriceStrictlyIncreasing(p, q2, q1);
      }
    }
  }
}

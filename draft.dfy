/** The order draft the landing page keeps while the visitor fills the order
    dialog: four contact fields and a quantity, with the pure transitions the
    input handlers and the quantity buttons apply to them. */
module Draft {

  datatype Option<T> = None | Some(value: T)

  /** The four text inputs of the order form, named by their `name` attribute. */
  datatype Field = Name | Email | Phone | Address

  /** The `formData` record of the page, fields in the order it declares them. */
  datatype ContactFields = ContactFields(name: string, email: string, address: string, phone: string)

  /** Every field empty: the initial value and the value after a successful order. */
  const EmptyContact := ContactFields("", "", "", "")

  /** The quantity the draft starts at and returns to after a successful order. */
  const InitialQuantity := 1

  /** The input a change event names, if it is one of the four. */
  function FieldNamed(name: string): (f: Option<Field>)
    ensures f.Some? <==> name in ["name", "email", "phone", "address"]
  {
    if name == "name" then Some(Name)
    else if name == "email" then Some(Email)
    else if name == "phone" then Some(Phone)
    else if name == "address" then Some(Address)
    else None
  }

  /** The `name` attribute of the input bound to a field: a change event from
      that input selects that field and no other. */
  function InputName(f: Field): (s: string)
    ensures FieldNamed(s) == Some(f)
  {
    match f
    case Name => "name"
    case Email => "email"
    case Phone => "phone"
    case Address => "address"
  }

  /** The field a change event selects is the one whose input carries the
      event's name, so distinct inputs never update the same field. */
  lemma FieldNamedInverse(name: string)
    ensures FieldNamed(name).Some? ==> InputName(FieldNamed(name).value) == name
  {
  }

  /** The value a field currently holds. */
  function Get(c: ContactFields, f: Field): string {
    match f
    case Name => c.name
    case Email => c.email
    case Phone => c.phone
    case Address => c.address
  }

  /** The record after an input change: the spread of the previous record with
      the changed key overwritten. */
  function WithField(c: ContactFields, f: Field, v: string): (r: ContactFields)
    ensures Get(r, f) == v
    ensures forall g :: g != f ==> Get(r, g) == Get(c, g)
  {
    match f
    case Name => c.(name := v)
    case Email => c.(email := v)
    case Phone => c.(phone := v)
    case Address => c.(address := v)
  }

  /** Two records that agree on every field are the same record. */
  lemma {:induction false} ContactFieldsExtensional(c: ContactFields, d: ContactFields)
    requires forall f :: Get(c, f) == Get(d, f)
    ensures c == d
  {
    assert Get(c, Name) == Get(d, Name);
    assert Get(c, Email) == Get(d, Email);
    assert Get(c, Phone) == Get(d, Phone);
    assert Get(c, Address) == Get(d, Address);
  }

  /** Writing back the value a field already holds changes nothing, and a
      second write to the same field overrides the first. */
  lemma WithFieldLaws(c: ContactFields, f: Field, v: string, w: string)
    ensures WithField(c, f, Get(c, f)) == c
    ensures WithField(WithField(c, f, v), f, w) == WithField(c, f, w)
  {
    ContactFieldsExtensional(WithField(c, f, Get(c, f)), c);
    ContactFieldsExtensional(WithField(WithField(c, f, v), f, w), WithField(c, f, w));
  }

  /** Edits to two different fields do not interfere: their order does not matter. */
  lemma WithFieldCommutes(c: ContactFields, f: Field, v: string, g: Field, w: string)
    requires f != g
    ensures WithField(WithField(c, f, v), g, w) == WithField(WithField(c, g, w), f, v)
  {
    ContactFieldsExtensional(WithField(WithField(c, f, v), g, w), WithField(WithField(c, g, w), f, v));
  }

  /** What the `required` attribute of every input lets through: no field is the
      empty string (whitespace counts as content; nothing is trimmed). */
  predicate AllFilled(c: ContactFields): (filled: bool)
    ensures filled <==> forall f :: Get(c, f) != ""
  {
    assert Get(c, Name) == c.name && Get(c, Email) == c.email;
    assert Get(c, Phone) == c.phone && Get(c, Address) == c.address;
    c.name != "" && c.email != "" && c.phone != "" && c.address != ""
  }

  /** The reset draft can never be submitted as it is: every required input is empty. */
  lemma EmptyContactNotFilled()
    ensures !AllFilled(EmptyContact)
    ensures forall f :: Get(EmptyContact, f) == ""
  {
  }

  /** After an edit the form passes the `required` check exactly when the new
      value is non-empty and every other field already was. */
  lemma {:induction false} AllFilledAfterEdit(c: ContactFields, f: Field, v: string)
    ensures AllFilled(WithField(c, f, v)) <==> v != "" && forall g :: g != f ==> Get(c, g) != ""
  {
    var r := WithField(c, f, v);
    if AllFilled(r) {
      assert Get(r, f) != "";
      forall g | g != f
        ensures Get(c, g) != ""
      {
        assert Get(r, g) != "";
      }
    }
  }

  /** The quantity after the "-" button: one less, but never below 1. */
  function Decremented(q: int): (r: int)
    ensures r >= 1
    ensures q > 1 ==> r == q - 1
    ensures q <= 1 ==> r == 1
  {
    if 1 < q - 1 then q - 1 else 1
  }

  /** The quantity after the "+" button: one more, with no ceiling. */
  function Incremented(q: int): (r: int)
    ensures r > q
  {
    q + 1
  }

  /** "+" undoes "-" above the floor, and "-" always undoes "+". */
  lemma IncrementDecrementInverse(q: int)
    requires q >= 1
    ensures Decremented(Incremented(q)) == q
    ensures q > 1 ==> Incremented(Decremented(q)) == q
  {
  }

  /** The two quantity buttons of the order form. */
  datatype QuantityButton = Minus | Plus

  function Press(q: int, b: QuantityButton): int {
    match b
    case Minus => Decremented(q)
    case Plus => Incremented(q)
  }

  /** The quantity after a run of button presses, earliest first. */
  function PressAll(q: int, bs: seq<QuantityButton>): int
    decreases |bs|
  {
    if bs == [] then q else PressAll(Press(q, bs[0]), bs[1..])
  }

  /** No run of presses from a valid quantity ends below 1. */
  lemma {:induction false} QuantityFloor(q: int, bs: seq<QuantityButton>)
    requires q >= 1
    ensures PressAll(q, bs) >= 1
    decreases |bs|
  {
    if bs != [] {
      QuantityFloor(Press(q, bs[0]), bs[1..]);
    }
  }

  /** Pressing "-" repeatedly from a valid quantity stops at 1 and stays there. */
  lemma {:induction false} MinusRunsDownToOne(q: int, n: nat)
    requires q >= 1
    ensures PressAll(q, seq(n, _ => Minus)) == if q - n >= 1 then q - n else 1
    decreases n
  {
    if n > 0 {
      assert seq(n, _ => Minus)[1..] == seq(n - 1, _ => Minus);
      MinusRunsDownToOne(Decremented(q), n - 1);
    }
  }

  /** Pressing "+" n times adds exactly n: no upper bound is ever enforced. */
  lemma {:induction false} PlusRunsUnbounded(q: int, n: nat)
    ensures PressAll(q, seq(n, _ => Plus)) == q + n
    decreases n
  {
    if n > 0 {
      assert seq(n, _ => Plus)[1..] == seq(n - 1, _ => Plus);
      PlusRunsUnbounded(q + 1, n - 1);
    }
  }
}

/** The landing page's `Home` component as an object: its state hooks are the
    fields, its event handlers the methods. The toasts it raises and the form
    bodies it posts are kept as ghost logs, since they leave the component. */
module HomePage {
  import opened Draft
  import opened OrderForm
  import Decimal

  /** How the `fetch` promise of a submission settles. In no-cors mode the
      response is opaque, so a resolved promise is all success means. */
  datatype FetchOutcome = Resolved | Rejected

  /** A toast: title, description, and whether it uses the destructive variant. */
  datatype Notice = Notice(title: string, description: string, destructive: bool)

  const OrderPlacedNotice :=
    Notice("Order Submitted Successfully!", "We'll contact you soon with shipping details.", false)

  const OrderFailedNotice :=
    Notice("Error Submitting Order", "Please try again later.", true)

  class Home {
    var currentImage: nat
    var quantity: int
    var isSubmitting: bool
    var formData: ContactFields
    var isDialogOpen: bool

    /** Every toast raised, oldest first. */
    ghost var notices: seq<Notice>
    /** Every form body posted to the order endpoint, oldest first. */
    ghost var requests: seq<FormBody>

    /** The quantity floor, a selected image that exists, and single flight:
        every post but at most one has been answered by a toast, and the one
        left unanswered is exactly while the page is submitting. */
    ghost predicate Valid()
      reads this
    {
      && quantity >= 1 && currentImage < |Watch.images|
      && |requests| == |notices| + (if isSubmitting then 1 else 0)
    }

    /** The state the page mounts with. */
    constructor ()
      ensures Valid()
      ensures quantity == InitialQuantity && formData == EmptyContact
      ensures !isSubmitting && !isDialogOpen && currentImage == 0
      ensures notices == [] && requests == []
    {
      currentImage := 0;
      quantity := InitialQuantity;
      isSubmitting := false;
      formData := EmptyContact;
      isDialogOpen := false;
      notices := [];
      requests := [];
    }

    /** The total the order dialog shows under the quantity. */
    function DisplayedTotal(): (total: nat)
      reads this
      requires Valid()
      ensures total == Watch.price * quantity
      ensures total >= Watch.price
    {
      TotalPrice(Watch, quantity)
    }

    /** The "Place Order" button is disabled while a submission is in flight:
        it is enabled exactly when every post made so far has been answered. */
    predicate SubmitEnabled(): (enabled: bool)
      reads this
      requires Valid()
      ensures enabled <==> |requests| == |notices|
    {
      !isSubmitting
    }

    /** A change event from the input named `name`: that field takes the new
        value and nothing else changes. The inputs exist only in the open dialog. */
    method HandleInputChange(name: string, value: string)
      requires Valid()
      requires isDialogOpen
      requires FieldNamed(name).Some?
      modifies this
      ensures Valid()
      ensures formData == WithField(old(formData), FieldNamed(name).value, value)
      ensures Get(formData, FieldNamed(name).value) == value
      ensures forall g :: g != FieldNamed(name).value ==> Get(formData, g) == Get(old(formData), g)
      ensures quantity == old(quantity) && isSubmitting == old(isSubmitting)
      ensures isDialogOpen == old(isDialogOpen) && currentImage == old(currentImage)
      ensures notices == old(notices) && requests == old(requests)
    {
      formData := WithField(formData, FieldNamed(name).value, value);
    }

    /** The "-" button of the open dialog: one less, clamped at 1. */
    method DecrementQuantity()
      requires Valid()
      requires isDialogOpen
      modifies this
      ensures Valid()
      ensures quantity == Decremented(old(quantity))
      ensures old(quantity) > 1 ==> quantity == old(quantity) - 1
      ensures old(quantity) == 1 ==> quantity == 1
      ensures formData == old(formData) && isSubmitting == old(isSubmitting)
      ensures isDialogOpen == old(isDialogOpen) && currentImage == old(currentImage)
      ensures notices == old(notices) && requests == old(requests)
    {
      quantity := Decremented(quantity);
    }

    /** The "+" button of the open dialog: one more, with no upper bound. */
    method IncrementQuantity()
      requires Valid()
      requires isDialogOpen
      modifies this
      ensures Valid()
      ensures quantity == old(quantity) + 1
      ensures formData == old(formData) && isSubmitting == old(isSubmitting)
      ensures isDialogOpen == old(isDialogOpen) && currentImage == old(currentImage)
      ensures notices == old(notices) && requests == old(requests)
    {
      quantity := Incremented(quantity);
    }

    /** A thumbnail click selects that image of the gallery. */
    method SelectImage(index: nat)
      requires Valid()
      requires index < |Watch.images|
      modifies this
      ensures Valid()
      ensures currentImage == index
      ensures quantity == old(quantity) && formData == old(formData)
      ensures isSubmitting == old(isSubmitting) && isDialogOpen == old(isDialogOpen)
      ensures notices == old(notices) && requests == old(requests)
    {
      currentImage := index;
    }

    /** The dialog's trigger and close controls. */
    method SetDialogOpen(open: bool)
      requires Valid()
      modifies this
      ensures Valid()
      ensures isDialogOpen == open
      ensures quantity == old(quantity) && formData == old(formData)
      ensures isSubmitting == old(isSubmitting) && currentImage == old(currentImage)
      ensures notices == old(notices) && requests == old(requests)
    {
      isDialogOpen := open;
    }

    /** The first half of a submit, up to the awaited `fetch`: the page marks
        itself as submitting, appends the order's entries one by one and posts
        them. The form is reachable only in the open dialog, through an enabled
        button, with every required input filled in. */
    method BeginSubmit(orderDate: string) returns (body: FormBody)
      requires Valid()
      requires isDialogOpen && SubmitEnabled() && AllFilled(formData)
      modifies this
      ensures Valid()
      ensures isSubmitting && !SubmitEnabled()
      ensures body == OrderRecord(formData, quantity, Watch, orderDate)
      ensures Lookup(body, "totalPrice") == Some(Decimal.NatToString(DisplayedTotal()))
      ensures requests == old(requests) + [body]
      ensures quantity == old(quantity) && formData == old(formData)
      ensures isDialogOpen == old(isDialogOpen) && currentImage == old(currentImage)
      ensures notices == old(notices)
    {
      isSubmitting := true;
      body := [];
      body := body + [("name", formData.name)];
      body := body + [("email", formData.email)];
      body := body + [("phone", formData.phone)];
      body := body + [("address", formData.address)];
      body := body + [("product", Watch.name)];
      body := body + [("quantity", Decimal.NatToString(quantity))];
      body := body + [("totalPrice", Decimal.NatToString(TotalPrice(Watch, quantity)))];
      body := body + [("orderDate", orderDate)];
      requests := requests + [body];
      OrderRecordValues(formData, quantity, Watch, orderDate);
    }

    /** The second half of a submit, once the `fetch` promise settles. If it
        resolved, a success toast is raised, the dialog closes and the draft is
        reset; if it rejected, a destructive toast is raised and the draft and
        the dialog stay as they are. Either way the page stops submitting. */
    method CompleteSubmit(outcome: FetchOutcome)
      requires Valid()
      requires isSubmitting
      modifies this
      ensures Valid()
      ensures !isSubmitting && SubmitEnabled()
      ensures outcome == Resolved ==>
        && !isDialogOpen && formData == EmptyContact && quantity == InitialQuantity
        && notices == old(notices) + [OrderPlacedNotice]
      ensures outcome == Rejected ==>
        && isDialogOpen == old(isDialogOpen) && formData == old(formData) && quantity == old(quantity)
        && notices == old(notices) + [OrderFailedNotice]
      ensures currentImage == old(currentImage) && requests == old(requests)
    {
      match outcome {
        case Resolved =>
          notices := notices + [OrderPlacedNotice];
          isDialogOpen := false;
          formData := EmptyContact;
          quantity := InitialQuantity;
        case Rejected =>
          notices := notices + [OrderFailedNotice];
      }
      isSubmitting := false;
    }

    /** A whole submit with no other event between posting and settling:
        exactly one request carrying the current draft, then the reset or the
        preserved draft. */
    method HandleSubmit(orderDate: string, outcome: FetchOutcome) returns (body: FormBody)
      requires Valid()
      requires isDialogOpen && SubmitEnabled() && AllFilled(formData)
      modifies this
      ensures Valid()
      ensures !isSubmitting
      ensures body == OrderRecord(old(formData), old(quantity), Watch, orderDate)
      ensures requests == old(requests) + [body]
      ensures outcome == Resolved ==>
        && !isDialogOpen && formData == EmptyContact && quantity == InitialQuantity
        && notices == old(notices) + [OrderPlacedNotice]
      ensures outcome == Rejected ==>
        && isDialogOpen && formData == old(formData) && quantity == old(quantity)
        && notices == old(notices) + [OrderFailedNotice]
      ensures currentImage == old(currentImage)
    {
      body := BeginSubmit(orderDate);
      CompleteSubmit(outcome);
    }
  }

  /** The on-screen total and the total an order posts are one and the same number. */
  lemma PostedTotalIsDisplayedTotal(h: Home, orderDate: string)
    requires h.Valid()
    ensures Lookup(OrderRecord(h.formData, h.quantity, Watch, orderDate), "totalPrice")
      == Some(Decimal.NatToString(h.DisplayedTotal()))
    ensures Decimal.Value(Lookup(OrderRecord(h.formData, h.quantity, Watch, orderDate), "totalPrice").value)
      == Watch.price * h.quantity
  {
    OrderRecordValues(h.formData, h.quantity, Watch, orderDate);
  }

  /** A visitor orders two watches and the post succeeds: the body carries the
      quantity "2" and the total "598", and the page is back to a fresh draft. */
  method OrderTwoWatches() {
    var home := new Home();
    home.SetDialogOpen(true);
    home.HandleInputChange("name", "Jane Doe");
    home.HandleInputChange("email", "jane@x.com");
    home.HandleInputChange("phone", "555-1111");
    home.HandleInputChange("address", "1 Main St");
    home.IncrementQuantity();
    assert home.quantity == 2;
    assert AllFilled(home.formData);
    var body := home.HandleSubmit("2024-01-01T00:00:00.000Z", Resolved);
    OrderRecordValues(ContactFields("Jane Doe", "jane@x.com", "1 Main St", "555-1111"), 2, Watch, "2024-01-01T00:00:00.000Z");
    assert Lookup(body, "name") == Some("Jane Doe");
    assert Decimal.Value(Lookup(body, "quantity").value) == 2;
    assert Decimal.Value(Lookup(body, "totalPrice").value) == 598;
    assert home.formData == EmptyContact && home.quantity == 1 && !home.isDialogOpen;
  }

  /** The "-" button at the floor leaves the quantity at 1, and a failed post
      keeps everything the visitor typed. */
  method DecrementAtFloorThenFail() {
    var home := new Home();
    home.SetDialogOpen(true);
    home.DecrementQuantity();
    assert home.quantity == 1;
    home.HandleInputChange("name", "A");
    home.HandleInputChange("email", "b@c");
    home.HandleInputChange("phone", "1");
    home.HandleInputChange("address", "D");
    var kept := home.formData;
    var body := home.BeginSubmit("t");
    assert !home.SubmitEnabled();
    home.CompleteSubmit(Rejected);
    assert home.formData == kept && home.isDialogOpen && home.quantity == 1;
    assert home.notices[|home.notices| - 1].destructive;
  }
}

/** `CheckoutController.init`: the order summary and one payment link per
    line on the checkout page. */
module Checkout {
  import opened Options
  import opened Money
  import opened Cart
  import opened Store
  import opened Seqs
  import Drawer

  /** One summary line: name, "Size: …", unit price. */
  datatype SummaryRow = SummaryRow(name: string, size: string, price: string)

  /** One outbound payment link (opened in a new tab, `rel="noopener"`). */
  datatype PayLink = PayLink(href: string, text: string)

  /** What the checkout page shows. For an empty cart the empty notice is
      displayed and the content block hidden, and nothing else is written;
      otherwise the notice is hidden and the content shows the summary, the
      total and the links. The two are never shown together. */
  datatype View =
    | EmptyCheckout
    | Filled(rows: seq<SummaryRow>, total: string, links: seq<PayLink>)
  {
    predicate EmptyVisible() { EmptyCheckout? }
    predicate ContentVisible() { Filled? }
  }

  /** The summary row of a line: its name, a size caption, and a unit price
      that reads back as the line's price. */
  /** The checkout callbacks take no index; `idx` is there only so that
      this function and `PayLinkFor` have the shape `MapIndexed` maps. */
  function SummaryRowFor(it: Item, idx: nat): (r: SummaryRow)
    ensures r.name == it.name && |r.size| > 6 && r.size[..6] == "Size: "
    ensures ParseMoney(r.price) == Some(it.price)
  {
    FormatMoneyRoundTrip(it.price);
    SummaryRow(it.name, "Size: " + Drawer.SizeLabel(it.size), FormatMoney(it.price))
  }

  /** The pay link of a line: it leads to the line's own payment page and
      its caption starts with "Pay " and ends with the unit price in brackets. */
  function PayLinkFor(it: Item, idx: nat): (r: PayLink)
    ensures r.href == it.stripeLink
    ensures |r.text| > 4 && r.text[..4] == "Pay "
    ensures var m := " (" + FormatMoney(it.price) + ")"; |r.text| >= |m| && r.text[|r.text| - |m|..] == m
  {
    PayLink(it.stripeLink, "Pay " + it.name + " (" + FormatMoney(it.price) + ")")
  }

  /** The checkout view for a cart. */
  function Project(c: Cart): (v: View)
    ensures v.EmptyCheckout? <==> c == []
    ensures v.Filled? ==> |v.rows| == |c| && |v.links| == |c|
  {
    MapIndexedAt(c, SummaryRowFor);
    MapIndexedAt(c, PayLinkFor);
    if c == [] then EmptyCheckout
    else Filled(MapIndexed(c, SummaryRowFor), FormatMoney(Total(c)), MapIndexed(c, PayLinkFor))
  }

  /** The empty view is shown exactly when the cart is empty, and then no
      payment link is rendered. */
  lemma EmptyIff(c: Cart)
    ensures Project(c).EmptyVisible() <==> c == []
    ensures Project(c).EmptyVisible() != Project(c).ContentVisible()
  {
  }

  /** A non-empty cart gets one summary row and one link per line, in cart
      order; link i leads to line i's own payment page and names the line
      and its unit price; the total reads back as `cartTotal`. */
  lemma FilledMeaning(c: Cart)
    requires c != []
    ensures Project(c).Filled?
    ensures |Project(c).rows| == |c| && |Project(c).links| == |c|
    ensures forall i :: 0 <= i < |c| ==>
      Project(c).links[i].href == c[i].stripeLink
      && Project(c).links[i].text == "Pay " + c[i].name + " (" + FormatMoney(c[i].price) + ")"
    ensures forall i :: 0 <= i < |c| ==>
      Project(c).rows[i].name == c[i].name && Project(c).rows[i].price == FormatMoney(c[i].price)
      && Project(c).rows[i].size == "Size: " + Drawer.SizeLabel(c[i].size)
    ensures ParseMoney(Project(c).total) == Some(Total(c))
  {
    MapIndexedAt(c, SummaryRowFor);
    MapIndexedAt(c, PayLinkFor);
    FormatMoneyRoundTrip(Total(c));
  }

  /** Each link's target determines which line it pays for: two links
      go to different payment pages when their lines have different links. */
  lemma LinksFollowLines(c: Cart, i: nat, j: nat)
    requires i < |c| && j < |c| && c[i].stripeLink != c[j].stripeLink
    ensures Project(c).Filled? && |Project(c).links| == |c| && Project(c).links[i] != Project(c).links[j]
  {
    FilledMeaning(c);
  }

  /** The checkout view never shows the same thing for a cart and for that
      cart with a line removed: there is one link fewer, or the empty view. */
  lemma RemoveChangesCheckout(c: Cart, idx: nat)
    requires idx < |c|
    ensures Project(RemoveAt(c, idx)) != Project(c)
  {
  }

  /** The checkout page: the shared cart surfaces and its own view. */
  class CheckoutPage {
    const widget: Drawer.CartWidget
    var view: View

    constructor (widget: Drawer.CartWidget, initial: View)
      ensures this.widget == widget && view == initial
    {
      this.widget := widget;
      view := initial;
    }

    /** `init()`: render the cart surfaces, then load the cart once more and
        fill the checkout sections; the summary and the link list are each
        cleared before their rows are appended. */
    method Init()
      modifies this, widget
      ensures widget.view == Drawer.Project(LoadFrom(widget.storage.entries))
      ensures view == Project(LoadFrom(widget.storage.entries))
    {
      widget.Render();
      var cart := widget.storage.Load();
      if cart == [] {
        view := EmptyCheckout;
        return;
      }
      var rows := AppendEach(cart, SummaryRowFor);
      var total := FormatMoney(Total(cart));
      var links := AppendEach(cart, PayLinkFor);
      view := Filled(rows, total, links);
    }
  }

  /** A remove button in the drawer pressed on the checkout page. Its
      handler re-renders only the drawer surfaces; the summary and the pay
      links are written by `init` alone, so they keep showing the removed
      line and no longer agree with the stored cart. */
  method DrawerRemoveOnCheckout(page: CheckoutPage, idx: nat)
    requires page.view == Project(LoadFrom(page.widget.storage.entries))
    requires idx < |LoadFrom(page.widget.storage.entries)|
    modifies page.widget, page.widget.storage
    ensures page.view == old(page.view)
    ensures page.widget.view == Drawer.Project(LoadFrom(page.widget.storage.entries))
    ensures page.view != Project(LoadFrom(page.widget.storage.entries))
  {
    ghost var c := LoadFrom(page.widget.storage.entries);
    page.widget.Remove(idx);
    assert LoadFrom(page.widget.storage.entries) == RemoveAt(c, idx);
    RemoveChangesCheckout(c, idx);
  }
}

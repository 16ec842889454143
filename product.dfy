/** `ProductController.init`: the size picker and the add-to-cart button of
    one product page. */
module Product {
  import opened Options
  import opened Cart
  import opened Store
  import opened Drawer

  /** What a product page passes to `init`; the price is in cents. */
  datatype Config = Config(sku: string, name: string, price: nat, image: string, stripeLink: string)

  /** The two products of the `PRODUCTS` table in js/app.js, at $80 and $90.
      No code reads that table: each page passes its own configuration to
      `init`, and the session in scenario.dfy takes these values as the ones
      the jacket and pants pages pass. */
  const Jacket := Config("jacket", "Jacket — Black Chrome", 8000, "assets/product-jacket.png",
                         "https://buy.stripe.com/4gMbIT0WidVG9FOgqH5Rm09")
  const Pants := Config("pants", "Pants — Black Chrome", 9000, "assets/product-pants.png",
                        "https://buy.stripe.com/bJecMX5cy4l6dW4gqH5Rm08")

  const MissingSizeHint := "Please select a size."

  function AddedHint(size: string): string
  {
    "Added (Size " + size + ")."
  }

  /** `!selectedSize`: nothing chosen yet, or a button whose size is empty. */
  predicate NoSize(selected: Option<string>)
  {
    selected == None || selected == Some("")
  }

  /** The line the add handler builds: the page's product, the chosen size,
      a quantity of one. */
  function NewLine(cfg: Config, size: string): (it: Item)
    ensures it.sku == cfg.sku && it.name == cfg.name && it.price == cfg.price
    ensures it.image == cfg.image && it.stripeLink == cfg.stripeLink
    ensures it.size == Some(size) && EffectiveQty(it) == 1 && LineTotal(it) == cfg.price
    ensures WellFormedItem(it)
  {
    Item(cfg.sku, cfg.name, cfg.price, cfg.image, Some(size), Some(1), cfg.stripeLink)
  }

  /** Adding appends exactly one line at the end, keeps every earlier line,
      counts one more and costs the product's price more, even when a line
      with the same sku and size is already there. */
  lemma AddEffect(c: Cart, cfg: Config, size: string)
    ensures |c + [NewLine(cfg, size)]| == |c| + 1
    ensures forall i :: 0 <= i < |c| ==> (c + [NewLine(cfg, size)])[i] == c[i]
    ensures (c + [NewLine(cfg, size)])[|c|] == NewLine(cfg, size)
    ensures Count(c + [NewLine(cfg, size)]) == Count(c) + 1
    ensures Total(c + [NewLine(cfg, size)]) == Total(c) + cfg.price
  {
    PushAggregates(c, NewLine(cfg, size));
  }

  /** One product page: its configuration, the shared cart surfaces, the
      `selectedSize` closure variable, the selected-size label and the hint. */
  class ProductPage {
    const cfg: Config
    const widget: CartWidget
    var selectedSize: Option<string>
    var selectedLabel: string
    var hint: string

    /** `init(cfg)`: renders the cart and starts with no size chosen. */
    constructor (cfg: Config, widget: CartWidget, shown: string, hint: string)
      modifies widget
      ensures this.cfg == cfg && this.widget == widget
      ensures selectedSize == None && selectedLabel == shown && this.hint == hint
      ensures widget.view == Project(LoadFrom(widget.storage.entries))
    {
      this.cfg := cfg;
      this.widget := widget;
      selectedSize := None;
      selectedLabel := shown;
      this.hint := hint;
      new;
      widget.Render();
    }

    /** A click on a size button carrying `size` (its `data-size`, or None
        if the attribute is missing): remember it, show it, clear the hint. */
    method SelectSize(size: Option<string>)
      modifies this
      ensures selectedSize == size
      ensures selectedLabel == (if size.Some? then size.value else "")
      ensures hint == ""
    {
      selectedSize := size;
      selectedLabel := if size.Some? then size.value else "";
      hint := "";
    }

    /** A click on the add button. Without a size only the hint changes.
        With one, the line is appended to the freshly loaded cart, the whole
        cart is saved, the surfaces re-rendered and the hint confirms. */
    method AddToCart()
      modifies this, widget, widget.storage
      ensures selectedSize == old(selectedSize) && selectedLabel == old(selectedLabel)
      ensures NoSize(selectedSize) ==>
        hint == MissingSizeHint && widget.storage.entries == old(widget.storage.entries)
        && widget.view == old(widget.view)
      ensures !NoSize(selectedSize) ==>
        hint == AddedHint(selectedSize.value)
        && widget.storage.entries == old(widget.storage.entries)[StorageKey :=
             ItemArray(LoadFrom(old(widget.storage.entries)) + [NewLine(cfg, selectedSize.value)])]
        && widget.view == Project(LoadFrom(old(widget.storage.entries)) + [NewLine(cfg, selectedSize.value)])
    {
      if NoSize(selectedSize) {
        hint := MissingSizeHint;
        return;
      }
      var item := NewLine(cfg, selectedSize.value);
      var cart := widget.storage.Load();
      cart := cart + [item];
      widget.storage.Save(cart);
      widget.Render();
      hint := AddedHint(selectedSize.value);
    }
  }
}

/** `renderCart`: the header badge, the drawer's line list and its total,
    computed from the stored cart; and the drawer's remove buttons. */
module Drawer {
  import opened Options
  import opened Money
  import opened Cart
  import opened Store
  import opened Seqs

  const EmptyCartText := "Carrinho vazio."

  /** `it.size || "—"`: a missing or empty size shows a dash. */
  function SizeLabel(size: Option<string>): (s: string)
    ensures s == "—" <==> size == None || size == Some("") || size == Some("—")
    ensures size.Some? && size.value != "" ==> s == size.value
  {
    match size
    case None => "—"
    case Some(v) => if v == "" then "—" else v
  }

  /** One drawer line: picture, name, "Size: … · price", and a remove
      button bound to the line's position at render time. */
  datatype Row = Row(image: string, name: string, meta: string, removeIndex: nat)

  /** The drawer's list: the empty notice, or one row per line. */
  datatype Body = EmptyNotice(text: string) | Rows(rows: seq<Row>)

  /** Everything `renderCart` writes: badge text, total text, list. */
  datatype View = View(badge: string, total: string, body: Body)

  /** The row for line `idx`: it shows the line's picture and name, its
      meta text starts with the size label, and its button removes `idx`. */
  function RowFor(it: Item, idx: nat): (r: Row)
    ensures r.removeIndex == idx && r.name == it.name && r.image == it.image
    ensures |r.meta| > 6 && r.meta[..6] == "Size: "
  {
    Row(it.image, it.name, "Size: " + SizeLabel(it.size) + " · " + FormatMoney(it.price), idx)
  }

  function RowsFor(c: Cart): (rows: seq<Row>)
    ensures |rows| == |c|
  {
    MapIndexedAt(c, RowFor);
    MapIndexed(c, RowFor)
  }

  /** The view `renderCart` produces for a cart. It depends on the cart
      alone: the list is cleared before rows are appended. */
  function Project(c: Cart): (v: View)
    ensures v.body.EmptyNotice? <==> c == []
    ensures v.body.EmptyNotice? ==> v.body.text == EmptyCartText
    ensures v.body.Rows? ==> |v.body.rows| == |c|
  {
    View(IntToString(Count(c)), FormatMoney(Total(c)),
         if c == [] then EmptyNotice(EmptyCartText) else Rows(RowsFor(c)))
  }

  /** Row i shows line i's name, image, size label and unit price and its
      remove button is bound to index i; there is one row per line. */
  lemma RowsForAt(c: Cart)
    ensures |RowsFor(c)| == |c|
    ensures forall i :: 0 <= i < |c| ==>
      RowsFor(c)[i].removeIndex == i && RowsFor(c)[i].name == c[i].name && RowsFor(c)[i].image == c[i].image
      && RowsFor(c)[i].meta == "Size: " + SizeLabel(c[i].size) + " · " + FormatMoney(c[i].price)
  {
    MapIndexedAt(c, RowFor);
  }

  /** The badge reads back as `cartCount`, the total as `cartTotal`; the
      empty notice appears exactly when the cart is empty, and then alone. */
  lemma ProjectMeaning(c: Cart)
    ensures ParseInt(Project(c).badge) == Some(Count(c))
    ensures ParseMoney(Project(c).total) == Some(Total(c))
    ensures Project(c).body.EmptyNotice? <==> c == []
    ensures c == [] ==> Project(c).body == EmptyNotice(EmptyCartText) && Project(c).badge == "0"
    ensures c != [] ==> |Project(c).body.rows| == |c|
  {
    IntToStringRoundTrip(Count(c));
    FormatMoneyRoundTrip(Total(c));
    RowsForAt(c);
  }

  /** The surfaces `renderCart` writes (badge, drawer list, drawer total),
      reading the cart from `storage`. */
  class CartWidget {
    const storage: Storage
    var view: View

    constructor (storage: Storage, initial: View)
      ensures this.storage == storage && view == initial
    {
      this.storage := storage;
      view := initial;
    }

    /** `renderCart()`: every surface is fully replaced, so the new view is
        a function of the stored cart alone and re-rendering with unchanged
        storage leaves it as it is. */
    method Render()
      modifies this
      ensures view == Project(LoadFrom(storage.entries))
    {
      var cart := storage.Load();
      var badge := IntToString(Count(cart));
      var total := FormatMoney(Total(cart));
      if cart == [] {
        view := View(badge, total, EmptyNotice(EmptyCartText));
        return;
      }
      var rows := AppendEach(cart, RowFor);
      view := View(badge, total, Rows(rows));
    }

    /** The handler of remove button `idx`: reload the cart, `splice(idx, 1)`,
        save the whole cart back and re-render. An index past the end of the
        freshly loaded cart removes nothing, but the cart is still saved. */
    method Remove(idx: nat)
      modifies this, storage
      ensures storage.entries == old(storage.entries)[StorageKey := ItemArray(RemoveAt(LoadFrom(old(storage.entries)), idx))]
      ensures view == Project(RemoveAt(LoadFrom(old(storage.entries)), idx))
    {
      var next := storage.Load();
      next := RemoveAt(next, idx);
      storage.Save(next);
      Render();
    }
  }
}

/** A shopping session on the two configured products: jacket in M, pants
    in 32, then the first line removed. */
module Scenario {
  import opened Options
  import opened Money
  import opened Cart
  import opened Store
  import opened Drawer
  import opened Product

  lemma PrintedAmounts()
    ensures FormatMoney(8000) == "$80.00"
    ensures FormatMoney(9000) == "$90.00"
    ensures FormatMoney(17000) == "$170.00"
  {
    assert NatToString(80) == "80" by { assert NatToString(8) == "8"; }
    assert NatToString(90) == "90" by { assert NatToString(9) == "9"; }
    assert NatToString(170) == "170" by {
      assert NatToString(1) == "1";
      assert NatToString(17) == "17";
    }
  }

  /** One jacket line, and the jacket and pants lines: their counts and
      totals in cents. */
  lemma {:induction false} SessionAdds()
    ensures Count([NewLine(Jacket, "M")]) == 1 && Total([NewLine(Jacket, "M")]) == 8000
    ensures Count([NewLine(Jacket, "M"), NewLine(Pants, "32")]) == 2
    ensures Total([NewLine(Jacket, "M"), NewLine(Pants, "32")]) == 17000
  {
    var j, p := NewLine(Jacket, "M"), NewLine(Pants, "32");
    CountTotalSingle(j);
    PushAggregates([j], p);
    assert [j] + [p] == [j, p];
  }

  /** Removing the jacket leaves the pants line, at 9000 cents. */
  lemma {:induction false} SessionRemove()
    ensures RemoveAt([NewLine(Jacket, "M"), NewLine(Pants, "32")], 0) == [NewLine(Pants, "32")]
    ensures Total([NewLine(Pants, "32")]) == 9000
  {
    var j, p := NewLine(Jacket, "M"), NewLine(Pants, "32");
    assert [j, p][1..] == [p];
    CountTotalSingle(p);
  }

  /** The session on carts alone: counts and printed totals after each step. */
  lemma {:induction false} Session()
    ensures Count([NewLine(Jacket, "M")]) == 1
    ensures FormatMoney(Total([NewLine(Jacket, "M")])) == "$80.00"
    ensures Count([NewLine(Jacket, "M"), NewLine(Pants, "32")]) == 2
    ensures FormatMoney(Total([NewLine(Jacket, "M"), NewLine(Pants, "32")])) == "$170.00"
    ensures RemoveAt([NewLine(Jacket, "M"), NewLine(Pants, "32")], 0) == [NewLine(Pants, "32")]
    ensures FormatMoney(Total(RemoveAt([NewLine(Jacket, "M"), NewLine(Pants, "32")], 0))) == "$90.00"
  {
    SessionAdds();
    SessionRemove();
    PrintedAmounts();
  }

  /** The first half of the session on the page objects, starting from
      storage that holds unreadable text under the cart key: an add before
      choosing a size changes nothing, an add after choosing M stores the
      jacket line. */
  method PageSessionAdd()
  {
    var storage := new Storage(map[StorageKey := Unparsable, "lang" := EmptyText]);
    var widget := new CartWidget(storage, View("", "", EmptyNotice("")));
    var jacket := new ProductPage(Jacket, widget, "", "");

    jacket.AddToCart();
    assert jacket.hint == MissingSizeHint;
    assert storage.entries[StorageKey] == Unparsable;

    jacket.SelectSize(Some("M"));
    jacket.AddToCart();
    ghost var j := NewLine(Jacket, "M");
    assert [] + [j] == [j];
    assert LoadFrom(storage.entries) == [j];
    assert storage.entries["lang"] == EmptyText;
  }

  /** The second half: with the jacket and pants lines stored, a remove
      past the end keeps both, and removing line 0 leaves the pants. */
  method PageSessionRemove()
  {
    ghost var j, p := NewLine(Jacket, "M"), NewLine(Pants, "32");
    var storage := new Storage(map[StorageKey := ItemArray([NewLine(Jacket, "M"), NewLine(Pants, "32")])]);
    var widget := new CartWidget(storage, View("", "", EmptyNotice("")));

    widget.Remove(5);
    assert LoadFrom(storage.entries) == [j, p];
    widget.Remove(0);
    assert RemoveAt([j, p], 0) == [p];
    assert LoadFrom(storage.entries) == [p];
  }
}

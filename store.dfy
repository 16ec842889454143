/** `loadCart` / `saveCart`: the cart kept as one entry of the browser's
    key-value storage. JSON text is abstracted to what parsing it yields. */
module Store {
  import opened Cart

  /** The one key under which the cart is kept. */
  const StorageKey := "etr_cart_v1"

  /** What the text stored under a key amounts to once `JSON.parse` has
      looked at it: the empty string (falsy, never parsed), text that makes
      the parser throw, valid JSON that is not an array, or an array of
      lines. */
  datatype Raw = EmptyText | Unparsable | NonArray | ItemArray(items: Cart)

  /** The cart `loadCart` returns for a storage state: the stored array, or
      the empty cart when the key is missing, the text is empty, parsing
      throws, or the parsed value is not an array. */
  function LoadFrom(entries: map<string, Raw>): (c: Cart)
    ensures c == [] || (StorageKey in entries && entries[StorageKey] == ItemArray(c))
  {
    if StorageKey in entries && entries[StorageKey].ItemArray? then entries[StorageKey].items else []
  }

  /** Loading fails soft: every stored state that is not an array of lines
      reads as the empty cart, and an array reads as itself. */
  lemma LoadCases(entries: map<string, Raw>)
    ensures StorageKey !in entries ==> LoadFrom(entries) == []
    ensures StorageKey in entries && !entries[StorageKey].ItemArray? ==> LoadFrom(entries) == []
    ensures StorageKey in entries && entries[StorageKey].ItemArray? ==> LoadFrom(entries) == entries[StorageKey].items
  {
  }

  /** Saving and loading again gives back the same cart, lines and order
      preserved, whatever was stored before under any key. */
  lemma SaveLoadRoundTrip(entries: map<string, Raw>, c: Cart)
    ensures LoadFrom(entries[StorageKey := ItemArray(c)]) == c
  {
  }

  /** The browser storage a page sees. Only the cart key is written here;
      other keys (the language choice, say) belong to other code. */
  class Storage {
    var entries: map<string, Raw>

    constructor (initial: map<string, Raw>)
      ensures entries == initial
    {
      entries := initial;
    }

    /** `loadCart()`. */
    method Load() returns (c: Cart)
      ensures c == LoadFrom(entries)
    {
      c := LoadFrom(entries);
    }

    /** `saveCart(cart)`: overwrites the whole entry under the cart key and
        touches no other key. */
    method Save(c: Cart)
      modifies this
      ensures entries == old(entries)[StorageKey := ItemArray(c)]
      ensures LoadFrom(entries) == c
      ensures forall k :: k in old(entries) && k != StorageKey ==> k in entries && entries[k] == old(entries)[k]
    {
      entries := entries[StorageKey := ItemArray(c)];
    }
  }
}

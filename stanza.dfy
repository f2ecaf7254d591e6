/**
 * The OMEMO message stanza Omemo.createEncryptedStanza builds with Strophe's builder:
 * `<message type="chat" to=…><encrypted xmlns=…><header>` with one `<key rid=… [prekey="true"]>`
 * per wrapped key, and then, after two `.up()` calls, a `<payload>` element. Base64
 * encoding of the texts belongs to `btoa` and is left to the caller.
 */
module Stanzas {
  import opened Wrappers
  import opened JsValues
  import opened Devices

  /** An XML element with its attributes in insertion order, or a text node. */
  datatype Xml = Element(name: string, attrs: seq<(string, string)>, children: seq<Xml>) | Text(text: string)

  /** `.c('key', {rid: deviceId, prekey}).t(body)`: an attribute whose value is undefined is not written. */
  function KeyElement(k: EncryptedKey): Xml {
    Element("key", [("rid", DecimalText(k.deviceId))] + (if k.preKey then [("prekey", "true")] else []),
            [Text(k.ciphertext.body)])
  }

  /** The `<key>` children, one per key in order. */
  function KeyElements(keys: seq<EncryptedKey>): (xs: seq<Xml>)
    ensures |xs| == |keys|
  {
    if keys == [] then [] else KeyElements(keys[..|keys| - 1]) + [KeyElement(keys[|keys| - 1])]
  }

  /** What a receiver reads from a `<key>` element: the device id, the prekey flag and the body. */
  function ReadKey(x: Xml): Option<(nat, bool, string)> {
    if x.Element? && x.name == "key" && 1 <= |x.attrs| <= 2 && x.attrs[0].0 == "rid" && AllDigits(x.attrs[0].1)
       && |x.children| == 1 && x.children[0].Text?
    then Some((DecimalValue(x.attrs[0].1), |x.attrs| == 2 && x.attrs[1] == ("prekey", "true"), x.children[0].text))
    else None
  }

  /** Every key element reads back as the device id, prekey flag and body it was built from. */
  lemma ReadKeyRoundTrip(k: EncryptedKey)
    ensures ReadKey(KeyElement(k)) == Some((k.deviceId, k.preKey, k.ciphertext.body))
  {
    DecimalRoundTrip(k.deviceId);
  }

  /** The key elements of a stanza read back, position by position, as the keys it was given. */
  lemma {:induction false} KeyElementsReadBack(keys: seq<EncryptedKey>)
    ensures forall i :: 0 <= i < |keys| ==>
      ReadKey(KeyElements(keys)[i]) == Some((keys[i].deviceId, keys[i].preKey, keys[i].ciphertext.body))
  {
    if keys != [] {
      var front := keys[..|keys| - 1];
      KeyElementsReadBack(front);
      ReadKeyRoundTrip(keys[|keys| - 1]);
      assert forall i :: 0 <= i < |front| ==> keys[i] == front[i];
    }
  }

  /**
   * The stanza as the builder leaves it: `header` has no `sid` (the model's `device_id`
   * attribute is not a property of the object), and `payload` is a child of `message`.
   */
  function EncryptedStanza(ns: string, to: string, keys: seq<EncryptedKey>, payload: string): Xml {
    Element("message", [("type", "chat"), ("to", to)],
            [Element("encrypted", [("xmlns", ns)], [Element("header", [], KeyElements(keys))]),
             Element("payload", [], [Text(payload)])])
  }

  /** The first child element with the given name. */
  function Child(x: Xml, name: string): (c: Option<Xml>)
    ensures c.Some? ==> c.value.Element? && c.value.name == name && x.Element? && c.value in x.children
    ensures c.None? ==> !x.Element? || forall i :: 0 <= i < |x.children| ==> !(x.children[i].Element? && x.children[i].name == name)
  {
    if !x.Element? then None else FirstNamed(x.children, name)
  }

  function FirstNamed(xs: seq<Xml>, name: string): (c: Option<Xml>)
    ensures c.Some? ==> c.value.Element? && c.value.name == name && c.value in xs
    ensures c.None? ==> forall i :: 0 <= i < |xs| ==> !(xs[i].Element? && xs[i].name == name)
  {
    if xs == [] then None
    else if xs[0].Element? && xs[0].name == name then Some(xs[0])
    else
      var c := FirstNamed(xs[1..], name);
      assert forall i :: 1 <= i < |xs| ==> xs[i] == xs[1..][i - 1];
      c
  }

  /**
   * Where the builder puts things: the keys sit in `encrypted/header`, the header carries no
   * attribute (so no sender device id), and the payload is outside `encrypted`.
   */
  lemma StanzaLayout(ns: string, to: string, keys: seq<EncryptedKey>, payload: string)
    ensures var m := EncryptedStanza(ns, to, keys, payload);
      && Child(m, "encrypted").Some?
      && Child(Child(m, "encrypted").value, "payload").None?
      && Child(m, "payload") == Some(Element("payload", [], [Text(payload)]))
      && Child(Child(m, "encrypted").value, "header") == Some(Element("header", [], KeyElements(keys)))
  {
    var m := EncryptedStanza(ns, to, keys, payload);
    var e := Element("encrypted", [("xmlns", ns)], [Element("header", [], KeyElements(keys))]);
    assert FirstNamed(m.children, "encrypted") == Some(e);
    assert FirstNamed(e.children[1..], "payload") == None;
    assert FirstNamed(m.children[1..], "payload") == Some(Element("payload", [], [Text(payload)]));
    assert FirstNamed(e.children, "header") == Some(Element("header", [], KeyElements(keys)));
  }

  /**
   * `createEncryptedStanza(msg)`: builds the stanza for `to`, the wrapped keys and the
   * payload. The source discards the builder and returns nothing; the model returns
   * what was built.
   */
  method CreateEncryptedStanza(ns: string, to: string, keys: seq<EncryptedKey>, payload: string)
    returns (message: Xml)
    ensures message == EncryptedStanza(ns, to, keys, payload)
  {
    var header: seq<Xml> := [];
    for i := 0 to |keys|
      invariant header == KeyElements(keys[..i])
    {
      var rid := DecimalText(keys[i].deviceId);
      var attrs := [("rid", rid)];
      if keys[i].preKey {
        attrs := attrs + [("prekey", "true")];
      }
      var key := Element("key", attrs, [Text(keys[i].ciphertext.body)]);
      assert key == KeyElement(keys[i]);
      assert keys[..i + 1][..i] == keys[..i];
      assert KeyElements(keys[..i + 1]) == KeyElements(keys[..i]) + [KeyElement(keys[i])];
      header := header + [key];
    }
    assert keys[..|keys|] == keys;
    message := Element("message", [("type", "chat"), ("to", to)],
                       [Element("encrypted", [("xmlns", ns)], [Element("header", [], header)]),
                        Element("payload", [], [Text(payload)])]);
  }
}

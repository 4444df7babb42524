/** The keyed digest over the fields of a gateway request, and its verification
    (backend/internal/payment/gateway/jazzcash.go).  Maps are walked in no particular
    order, so what is signed must not depend on one. */
module SecureHash {
  import opened Outcomes
  import opened Uuids

  type Fields = map<string, string>

  const SECURE_HASH := "pp_SecureHash"

  /** A decoded response value; `shown` is the default text of one that is not a string. */
  datatype Value = Text(text: string) | Other(shown: string)

  // ----- byte-wise order of keys

  lemma {:induction false} LexTotal(a: string, b: string)
    ensures LexLess(a, b) || LexLess(b, a) || a == b
    ensures !(LexLess(a, b) && LexLess(b, a)) && !LexLess(a, a)
  {
    if a != [] {
      LexTotal(a[1..], a[1..]);
      if b != [] {
        LexTotal(a[1..], b[1..]);
        assert a == [a[0]] + a[1..] && b == [b[0]] + b[1..];
      }
    }
  }

  lemma {:induction false} LexTransitive(a: string, b: string, c: string)
    requires LexLess(a, b) && LexLess(b, c)
    ensures LexLess(a, c)
  {
    if a != [] && a[0] == b[0] == c[0] {
      LexTransitive(a[1..], b[1..], c[1..]);
    }
  }

  ghost predicate Rising(ks: seq<string>) {
    forall i, j :: 0 <= i < j < |ks| ==> LexLess(ks[i], ks[j])
  }

  function Insert(k: string, ks: seq<string>): seq<string> {
    if ks == [] || LexLess(k, ks[0]) then [k] + ks else [ks[0]] + Insert(k, ks[1..])
  }

  function Sorted(ks: seq<string>): seq<string> {
    if ks == [] then [] else Insert(ks[0], Sorted(ks[1..]))
  }

  lemma {:induction false} InsertRises(k: string, ks: seq<string>)
    requires Rising(ks) && k !in ks
    ensures Rising(Insert(k, ks)) && forall x :: x in Insert(k, ks) <==> x == k || x in ks
  {
    if ks != [] {
      LexTotal(k, ks[0]);
      if LexLess(k, ks[0]) {
        forall j | 0 < j < |ks|
          ensures LexLess(k, ks[j])
        {
          LexTransitive(k, ks[0], ks[j]);
        }
      } else {
        var rest := Insert(k, ks[1..]);
        InsertRises(k, ks[1..]);
        assert ks == [ks[0]] + ks[1..];
        forall j | 0 <= j < |rest|
          ensures LexLess(ks[0], rest[j])
        {
          assert rest[j] in rest;
        }
      }
    }
  }

  /** Sorting keys that do not repeat. */
  lemma {:induction false} SortedRises(ks: seq<string>)
    requires forall i, j :: 0 <= i < j < |ks| ==> ks[i] != ks[j]
    ensures Rising(Sorted(ks)) && forall x :: x in Sorted(ks) <==> x in ks
  {
    if ks != [] {
      SortedRises(ks[1..]);
      InsertRises(ks[0], Sorted(ks[1..]));
      assert ks == [ks[0]] + ks[1..];
    }
  }

  /** One rising list for each set of keys. */
  lemma {:induction false} RisingUnique(a: seq<string>, b: seq<string>)
    requires Rising(a) && Rising(b) && forall x :: x in a <==> x in b
    ensures a == b
  {
    assert b != [] ==> b[0] in a;
    if a != [] {
      assert a[0] in b && (b == [] || b[0] in a);
      RisingHead(a, b[0]);
      RisingHead(b, a[0]);
      LexTotal(a[0], b[0]);
      assert a == [a[0]] + a[1..] && b == [b[0]] + b[1..];
      forall x
        ensures x in a[1..] <==> x in b[1..]
      {
        LexTotal(a[0], a[0]);
        assert x in a[1..] ==> x in a && x != a[0];
        assert x in b[1..] ==> x in b && x != b[0];
      }
      RisingUnique(a[1..], b[1..]);
    }
  }

  lemma RisingHead(a: seq<string>, x: string)
    requires Rising(a) && x in a
    ensures a[0] == x || LexLess(a[0], x)
  {
  }

  ghost function InOrder(keys: set<string>): (ks: seq<string>)
    ensures Rising(ks) && forall k :: k in ks <==> k in keys
  {
    if keys == {} then []
    else
      var k :| k in keys;
      var rest := InOrder(keys - {k});
      InsertRises(k, rest);
      Insert(k, rest)
  }

  // ----- what is signed

  predicate HasPrefix(s: string, prefix: string) {
    |prefix| <= |s| && s[..|prefix|] == prefix
  }

  predicate IsSigned(key: string, value: string) {
    (HasPrefix(key, "pp_") || HasPrefix(key, "ppmpf_")) && key != SECURE_HASH && value != ""
  }

  function SignedFields(data: Fields): Fields {
    map k | k in data && IsSigned(k, data[k]) :: data[k]
  }

  function Join(values: seq<string>): string {
    if values == [] then ""
    else if |values| == 1 then values[0]
    else Join(values[..|values| - 1]) + "&" + values[|values| - 1]
  }

  function Values(fields: Fields, keys: seq<string>): (vs: seq<string>)
    requires forall k :: k in keys ==> k in fields
    ensures |vs| == |keys|
  {
    seq(|keys|, i requires 0 <= i < |keys| => fields[keys[i]])
  }

  /** The values of the signed fields in the order of their keys. */
  ghost function Message(data: Fields): string {
    Join(Values(SignedFields(data), InOrder(SignedFields(data).Keys)))
  }

  function Shown(v: Value): string {
    match v
    case Text(text) => text
    case Other(shown) => shown
  }

  function ShownFields(response: map<string, Value>): Fields {
    map k | k in response && k != SECURE_HASH :: Shown(response[k])
  }

  // ----- the client

  class JazzCashClient {
    const integritySalt: string
    /** Upper-case hexadecimal HMAC-SHA256 of a message under a key. */
    const mac: (string, string) -> string

    constructor (salt: string, mac: (string, string) -> string)
      ensures integritySalt == salt && this.mac == mac
    {
      integritySalt := salt;
      this.mac := mac;
    }

    ghost function HashOf(data: Fields): string {
      mac(integritySalt, integritySalt + "&" + Message(data))
    }

    method SelectFields(requestData: Fields) returns (ppFields: Fields)
      ensures ppFields == SignedFields(requestData)
    {
      ppFields := map[];
      var left := requestData.Keys;
      while left != {}
        invariant left <= requestData.Keys
        invariant forall k :: k in ppFields <==> k in requestData && k !in left && IsSigned(k, requestData[k])
        invariant forall k :: k in ppFields ==> ppFields[k] == requestData[k]
      {
        var k :| k in left;
        var v := requestData[k];
        if (HasPrefix(k, "pp_") || HasPrefix(k, "ppmpf_")) && k != SECURE_HASH && v != "" {
          ppFields := ppFields[k := v];
        }
        left := left - {k};
      }
    }

    method SortedKeys(ppFields: Fields) returns (keys: seq<string>)
      ensures keys == InOrder(ppFields.Keys)
    {
      keys := [];
      var left := ppFields.Keys;
      while left != {}
        invariant left <= ppFields.Keys
        invariant forall k :: k in keys <==> k in ppFields && k !in left
        invariant forall i, j :: 0 <= i < j < |keys| ==> keys[i] != keys[j]
      {
        var k :| k in left;
        keys := keys + [k];
        left := left - {k};
      }
      SortedRises(keys);
      keys := Sorted(keys);
      RisingUnique(keys, InOrder(ppFields.Keys));
    }

    method BuildMessage(ppFields: Fields, keys: seq<string>) returns (message: string)
      requires forall k :: k in keys ==> k in ppFields
      ensures message == Join(Values(ppFields, keys))
    {
      message := "";
      ghost var values := Values(ppFields, keys);
      for i := 0 to |keys|
        invariant message == Join(values[..i])
      {
        if i > 0 {
          message := message + "&";
        }
        message := message + ppFields[keys[i]];
        assert values[..i + 1][..i] == values[..i];
      }
      assert values[..|keys|] == values;
    }

    /** Whatever order the two maps are walked in, the digest is that of the message. */
    method JazzcashSecureHash(requestData: Fields) returns (hash: string)
      ensures hash == HashOf(requestData)
    {
      var ppFields := SelectFields(requestData);
      var keys := SortedKeys(ppFields);
      var message := BuildMessage(ppFields, keys);
      hash := mac(integritySalt, integritySalt + "&" + message);
    }

    /** `pp_SecureHash` is a string and equal to the digest of the other fields. */
    ghost predicate Accepts(response: map<string, Value>) {
      SECURE_HASH in response && response[SECURE_HASH] == Text(HashOf(ShownFields(response)))
    }

    method VerifyResponseHash(response: map<string, Value>) returns (r: Result<()>)
      ensures r.Ok? <==> Accepts(response)
    {
      if SECURE_HASH !in response || !response[SECURE_HASH].Text? {
        return Err(Internal);
      }
      var fields: Fields := map[];
      var left := response.Keys;
      while left != {}
        invariant left <= response.Keys
        invariant forall k :: k in fields <==> k in response && k !in left && k != SECURE_HASH
        invariant forall k :: k in fields ==> fields[k] == Shown(response[k])
      {
        var k :| k in left;
        if k != SECURE_HASH {
          fields := fields[k := Shown(response[k])];
        }
        left := left - {k};
      }
      assert fields == ShownFields(response);
      var expected := JazzcashSecureHash(fields);
      if response[SECURE_HASH].text != expected {
        return Err(Internal);
      }
      return Ok(());
    }
  }

  // ----- consequences

  /** Fields without the prefixes, empty fields and the hash itself are not signed. */
  lemma OnlySignedFieldsMatter(client: JazzCashClient, a: Fields, b: Fields)
    requires forall k :: IsSigned(k, if k in a then a[k] else "") || IsSigned(k, if k in b then b[k] else "") ==>
               k in a && k in b && a[k] == b[k]
    ensures client.HashOf(a) == client.HashOf(b)
  {
    assert SignedFields(a) == SignedFields(b) by {
      forall k
        ensures k in SignedFields(a) <==> k in SignedFields(b)
        ensures k in SignedFields(a) ==> SignedFields(a)[k] == SignedFields(b)[k]
      {
        assert IsSigned(k, if k in a then a[k] else "") || IsSigned(k, if k in b then b[k] else "") ==>
               k in a && k in b && a[k] == b[k];
      }
    }
  }

  /** A response that carries its own hash is accepted, and with any other string in
      its place it is not. */
  lemma OwnHashAccepted(client: JazzCashClient, response: map<string, Value>, hash: string)
    ensures client.Accepts(response[SECURE_HASH := Text(hash)]) <==> hash == client.HashOf(ShownFields(response))
  {
    assert ShownFields(response[SECURE_HASH := Text(hash)]) == ShownFields(response);
  }

  /** The pieces between separators. */
  function Split(s: string): seq<string> {
    if s == [] then [""]
    else
      var init := Split(s[..|s| - 1]);
      if s[|s| - 1] == '&' then init + [""]
      else if init == [] then [s]
      else init[..|init| - 1] + [init[|init| - 1] + [s[|s| - 1]]]
  }

  /** Puts `v` at the end of the last piece. */
  function Grow(pieces: seq<string>, v: string): seq<string>
    requires pieces != []
  {
    pieces[..|pieces| - 1] + [pieces[|pieces| - 1] + v]
  }

  lemma GrowTwice(pieces: seq<string>, v: string, c: char)
    requires pieces != []
    ensures Grow(Grow(pieces, v), [c]) == Grow(pieces, v + [c])
  {
    var grown := Grow(pieces, v);
    assert grown[..|grown| - 1] == pieces[..|pieces| - 1];
    assert (pieces[|pieces| - 1] + v) + [c] == pieces[|pieces| - 1] + (v + [c]);
  }

  lemma SplitStep(s: string, c: char)
    requires c != '&' && Split(s) != []
    ensures Split(s + [c]) == Grow(Split(s), [c])
  {
    assert (s + [c])[..|s|] == s;
  }

  lemma {:induction false} SplitAppend(s: string, v: string)
    requires '&' !in v && Split(s) != []
    ensures Split(s + v) == Grow(Split(s), v)
    decreases |v|
  {
    if v == "" {
      assert s + v == s && Split(s)[|Split(s)| - 1] + v == Split(s)[|Split(s)| - 1];
    } else {
      var w, c := v[..|v| - 1], v[|v| - 1];
      assert v == w + [c] && s + v == (s + w) + [c];
      assert c in v && forall x :: x in w ==> x in v;
      SplitAppend(s, w);
      SplitStep(s + w, c);
      GrowTwice(Split(s), w, c);
    }
  }

  /** Joining can be undone when no value holds the separator. */
  lemma {:induction false} SplitUndoesJoin(values: seq<string>)
    requires values != [] && forall v :: v in values ==> '&' !in v
    ensures Split(Join(values)) == values
  {
    var init, last := values[..|values| - 1], values[|values| - 1];
    assert values == init + [last];
    if init == [] {
      SplitAppend("", last);
      assert "" + last == last;
    } else {
      SplitUndoesJoin(init);
      var head := Join(init) + "&";
      assert head[..|head| - 1] == Join(init);
      assert Split(head) == init + [""];
      SplitAppend(head, last);
      assert Join(values) == head + last;
    }
  }

  /** Two requests that sign the same keys, with no separator inside a value, have the
      same message only if they sign the same values. */
  lemma MessageDeterminesFields(a: Fields, b: Fields)
    requires SignedFields(a).Keys == SignedFields(b).Keys
    requires forall k :: k in SignedFields(a) ==> '&' !in a[k] && '&' !in b[k]
    requires Message(a) == Message(b)
    ensures SignedFields(a) == SignedFields(b)
  {
    var keys := InOrder(SignedFields(a).Keys);
    if keys != [] {
      var va, vb := Values(SignedFields(a), keys), Values(SignedFields(b), keys);
      SplitUndoesJoin(va);
      SplitUndoesJoin(vb);
      forall k | k in keys
        ensures a[k] == b[k]
      {
        var i :| 0 <= i < |keys| && keys[i] == k;
        assert va[i] == vb[i];
      }
    }
    assert forall k :: k in SignedFields(a) ==> k in keys;
  }

  // ----- the signed text

  lemma {:induction false} JoinFirst(first: string, rest: seq<string>)
    requires rest != []
    ensures Join([first] + rest) == first + "&" + Join(rest)
  {
    var all := [first] + rest;
    assert all[..|all| - 1] == [first] + rest[..|rest| - 1];
    if |rest| == 1 {
      assert all[..1] == [first] && Join([first]) == first;
    } else {
      JoinFirst(first, rest[..|rest| - 1]);
      assert first + "&" + Join(rest[..|rest| - 1]) + "&" + rest[|rest| - 1] == first + "&" + Join(rest);
    }
  }

  /** The keys that are signed, in byte order. */
  ghost predicate SignedKeys(data: Fields, ks: seq<string>) {
    && Rising(ks)
    && forall k :: k in ks <==>
         && k in data && data[k] != "" && k != "pp_SecureHash"
         && ((|k| >= 3 && k[..3] == "pp_") || (|k| >= 6 && k[..6] == "ppmpf_"))
  }

  lemma SignedKeysAre(data: Fields, ks: seq<string>)
    requires SignedKeys(data, ks)
    ensures ks == InOrder(SignedFields(data).Keys)
    ensures forall k :: k in ks ==> k in SignedFields(data) && SignedFields(data)[k] == data[k]
  {
    RisingUnique(ks, InOrder(SignedFields(data).Keys));
  }

  function Pieces(salt: string, values: seq<string>): seq<string> {
    [salt] + if values == [] then [""] else values
  }

  lemma PiecesComeApart(salt: string, values: seq<string>)
    requires '&' !in salt && forall v :: v in values ==> '&' !in v
    ensures Split(Join(Pieces(salt, values))) == Pieces(salt, values)
  {
    SplitUndoesJoin(Pieces(salt, values));
  }

  lemma SignedValues(data: Fields, ks: seq<string>) returns (values: seq<string>)
    requires SignedKeys(data, ks)
    ensures |values| == |ks| && forall i :: 0 <= i < |ks| ==> values[i] == data[ks[i]]
    ensures Message(data) == Join(values)
  {
    SignedKeysAre(data, ks);
    values := Values(SignedFields(data), ks);
    assert forall i :: 0 <= i < |ks| ==> ks[i] in ks;
  }

  lemma SaltedJoin(salt: string, values: seq<string>)
    ensures Join(Pieces(salt, values)) == salt + "&" + Join(values)
  {
    JoinFirst(salt, if values == [] then [""] else values);
  }

  /** What is digested: the salt and then the values of the signed keys in byte order,
      with a separator between each two and after a salt that stands alone.  When the
      separator is in none of them, it can be taken apart again. */
  lemma SignedText(client: JazzCashClient, data: Fields, ks: seq<string>) returns (text: string, values: seq<string>)
    requires SignedKeys(data, ks)
    ensures |values| == |ks| && forall i :: 0 <= i < |ks| ==> values[i] == data[ks[i]]
    ensures client.HashOf(data) == client.mac(client.integritySalt, text)
    ensures text == Join(Pieces(client.integritySalt, values))
    ensures '&' !in client.integritySalt && (forall v :: v in values ==> '&' !in v) ==>
              Split(text) == Pieces(client.integritySalt, values)
  {
    values := SignedValues(data, ks);
    text := Join(Pieces(client.integritySalt, values));
    SaltedJoin(client.integritySalt, values);
    if '&' !in client.integritySalt && forall v :: v in values ==> '&' !in v {
      PiecesComeApart(client.integritySalt, values);
    }
  }
}

/**
 Canonical values and content hashes (kernel/canon.py).

 SHA-256 over RFC 8785 bytes is taken symbolically: the digest of a value is a term that
 holds the domain kind and the value itself.  Equal digests therefore have equal preimages,
 and, the terms being inductive, no value can contain its own digest.
 */
module Canon {

  datatype Option<+T> = None | Some(value: T) {
    function GetOr(default: T): T {
      match this
      case None => default
      case Some(v) => v
    }
  }

  datatype Result<+T, +E> = Ok(value: T) | Err(error: E)

  type Byte = n: nat | n < 256

  type Bytes = seq<Byte>

  /** A string: ordinary characters, or the hex digest of a canonical value of some kind. */
  datatype Text = Plain(chars: string) | Digest(kind: string, value: Value)

  /** A canonical JSON value.  `Sorted` is the array that lists a set in ascending order. */
  datatype Value =
    | Null
    | Bool(truth: bool)
    | Number(amount: real)
    | Str(text: Text)
    | Arr(items: seq<Value>)
    | Sorted(members: set<Text>)
    | Obj(fields: map<string, Value>)

  /** Stored bytes: the canonical form of a value, or bytes from elsewhere together with
      whatever value a JSON parser finds in them. */
  datatype Blob = Canonical(value: Value) | Foreign(raw: Bytes, parsed: Option<Value>)

  function ObjectHash(kind: string, value: Value): Text {
    Digest(kind, value)
  }

  function Loads(canon: Blob): Option<Value> {
    match canon
    case Canonical(value) => Some(value)
    case Foreign(_, parsed) => parsed
  }

  /** The array of the given strings, in the given order. */
  function Strs(texts: seq<Text>): Value {
    Arr(seq(|texts|, i requires 0 <= i < |texts| => Str(texts[i])))
  }

  lemma StrsInjective(a: seq<Text>, b: seq<Text>)
    requires Strs(a) == Strs(b)
    ensures a == b
  {
    assert |Strs(a).items| == |a| && |Strs(b).items| == |b|;
    forall i | 0 <= i < |a| ensures a[i] == b[i] {
      assert Strs(a).items[i] == Str(a[i]) && Strs(b).items[i] == Str(b[i]);
    }
  }

  predicate IsHexDigit(c: char) {
    '0' <= c <= '9' || 'a' <= c <= 'f'
  }

  /** The format ^[0-9a-f]{64}$. */
  predicate IsHash(text: Text) {
    text.Digest? || (|text.chars| == 64 && forall c | c in text.chars :: IsHexDigit(c))
  }

  /** A string held at a field of an object is a smaller term than the object's digest. */
  lemma DigestNotInside(outer: Text, key: string, inner: Text)
    requires outer.Digest? && outer.value.Obj?
    requires key in outer.value.fields && outer.value.fields[key] == Str(inner)
    ensures outer decreases to inner
  {
    assert outer.value.fields[key] < outer.value;
  }
}

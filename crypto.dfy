/**
 * The client's CryptoService (src/frontend/js/crypto.js) as the sync path
 * uses it. AES-GCM and RSA-PSS stay abstract: a Provider holds the three
 * primitives under the loaded keys, each of which may fail. What is modelled
 * is the shape of what they produce: `encrypt` answers an `{iv, data}` object
 * of byte arrays, and `sign` answers an array of bytes.
 */
module Crypto {
  import opened Wrappers
  import opened Json

  /** The primitives under the client's keys. */
  datatype Provider = Provider(
    // AES-GCM under the symmetric key: the JSON text of a value, encrypted with an IV
    seal: (seq<byte>, Value) -> Result<seq<byte>, string>,
    // AES-GCM decryption with an IV, then JSON.parse of the plaintext
    unseal: (seq<byte>, seq<byte>) -> Result<Value, string>,
    // RSA-PSS under the private key, over the JSON text of a value
    sign: Value -> Result<seq<byte>, string>)

  /**
   * The round trip the client's keys are trusted to give: decrypting what was
   * encrypted yields what JSON.parse(JSON.stringify(x)) yields.
   */
  ghost predicate RoundTrips(p: Provider)
  {
    forall iv, x, c :: x != Undefined && p.seal(iv, x) == Success(c) ==> p.unseal(iv, c) == Success(Wire(x))
  }

  /** `Array.from(bytes)`: an array of the byte values as numbers. */
  function ByteArray(bs: seq<byte>): (r: Value)
    ensures r.Arr? && |r.items| == |bs|
    ensures forall i :: 0 <= i < |bs| ==> r.items[i] == Num(bs[i])
  {
    Arr(seq(|bs|, i requires 0 <= i < |bs| => Num(bs[i])))
  }

  /** The bytes an array of byte-valued numbers stands for; anything else stands for none. */
  function BytesOf(items: seq<Value>): (r: Option<seq<byte>>)
    ensures r.Some? ==> |r.value| == |items|
  {
    if items == [] then Some([])
    else if !items[0].Num? || !(0 <= items[0].n < 256) then None
    else
      match BytesOf(items[1..])
      case None => None
      case Some(rest) => Some([items[0].n as byte] + rest)
  }

  /** Reading back the bytes of a byte array gives the bytes. */
  lemma {:induction false} BytesRoundTrip(bs: seq<byte>)
    ensures BytesOf(ByteArray(bs).items) == Some(bs)
  {
    if bs != [] {
      assert ByteArray(bs).items[1..] == ByteArray(bs[1..]).items;
      BytesRoundTrip(bs[1..]);
      assert [bs[0]] + bs[1..] == bs;
    }
  }

  /** A byte array holds no `undefined`, so it survives JSON. */
  lemma ByteArrayIsJson(bs: seq<byte>)
    ensures IsJson(ByteArray(bs))
  {
  }

  /** The `{iv, data}` object `encrypt` answers. */
  datatype Cipher = Cipher(iv: seq<byte>, data: seq<byte>)

  function CipherValue(c: Cipher): Value
  {
    Obj(map["iv" := ByteArray(c.iv), "data" := ByteArray(c.data)])
  }

  /** The IV and ciphertext `decrypt` reads from an `{iv, data}` object, if it is one. */
  function CipherOf(v: Value): Option<Cipher>
  {
    match Member(v, "iv")
    case Failure(_) => None
    case Success(iv) =>
      match Member(v, "data")
      case Failure(_) => None
      case Success(data) =>
        if !iv.Arr? || !data.Arr? then None
        else
          match (BytesOf(iv.items), BytesOf(data.items))
          case (Some(i), Some(d)) => Some(Cipher(i, d))
          case _ => None
  }

  /** An `{iv, data}` object reads back as the IV and ciphertext it was made from, before and after JSON. */
  lemma CipherRoundTrip(c: Cipher)
    ensures CipherOf(CipherValue(c)) == Some(c)
    ensures Wire(CipherValue(c)) == CipherValue(c)
  {
    BytesRoundTrip(c.iv);
    BytesRoundTrip(c.data);
    ByteArrayIsJson(c.iv);
    ByteArrayIsJson(c.data);
    WireOfJson(CipherValue(c));
  }

  /** `encrypt(data)` with `iv` as the twelve random bytes `crypto.getRandomValues` draws. */
  function Encrypt(p: Provider, iv: seq<byte>, data: Value): (r: Result<Value, string>)
    ensures r.Success? <==> p.seal(iv, data).Success?
    ensures r.Success? ==> r.value == CipherValue(Cipher(iv, p.seal(iv, data).value))
    ensures r.Failure? ==> r.error == p.seal(iv, data).error
  {
    match p.seal(iv, data)
    case Failure(e) => Failure(e)
    case Success(bytes) => Success(CipherValue(Cipher(iv, bytes)))
  }

  /** `decrypt(encryptedObj)`; an object that is no `{iv, data}` pair of byte arrays is refused. */
  function Decrypt(p: Provider, encrypted: Value): (r: Result<Value, string>)
    ensures CipherOf(encrypted).None? ==> r.Failure?
    ensures CipherOf(encrypted).Some? ==> r == p.unseal(CipherOf(encrypted).value.iv, CipherOf(encrypted).value.data)
  {
    match CipherOf(encrypted)
    case None => Failure("TypeError: not an encrypted object")
    case Some(c) => p.unseal(c.iv, c.data)
  }

  /** `sign(data)`: the signature as an array of bytes. */
  function Sign(p: Provider, data: Value): (r: Result<Value, string>)
    ensures r.Success? <==> p.sign(data).Success?
    ensures r.Success? ==> r.value == ByteArray(p.sign(data).value)
  {
    match p.sign(data)
    case Failure(e) => Failure(e)
    case Success(bytes) => Success(ByteArray(bytes))
  }

  /**
   * Decrypting what `encrypt` produced gives the data back as JSON would, and
   * so does decrypting it after it has crossed the network as JSON.
   */
  lemma DecryptEncrypt(p: Provider, iv: seq<byte>, data: Value)
    requires RoundTrips(p) && data != Undefined && Encrypt(p, iv, data).Success?
    ensures Decrypt(p, Encrypt(p, iv, data).value) == Success(Wire(data))
    ensures Decrypt(p, Wire(Encrypt(p, iv, data).value)) == Success(Wire(data))
  {
    var c := Cipher(iv, p.seal(iv, data).value);
    CipherRoundTrip(c);
  }

  /** For data that came from JSON, as in the client's own round-trip check, decryption gives it back exactly. */
  lemma DecryptEncryptJson(p: Provider, iv: seq<byte>, data: Value)
    requires RoundTrips(p) && IsJson(data) && Encrypt(p, iv, data).Success?
    ensures Decrypt(p, Encrypt(p, iv, data).value) == Success(data)
  {
    DecryptEncrypt(p, iv, data);
    WireOfJson(data);
  }
}

/** Request authentication helpers (src/worker/utils/auth.js). */
module Auth {
  import opened Wrappers
  import opened Json
  import opened Http

  /**
   * `verifySignature`: a placeholder that only checks that both the data and
   * the signature are present (truthy). No cryptography is involved.
   */
  function VerifySignature(data: Value, signature: Value): (r: bool)
    ensures !Truthy(data) || !Truthy(signature) ==> !r
  {
    if !Truthy(data) || !Truthy(signature) then false
    else true
  }

  /**
   * The check depends on presence alone: any two present ciphertexts are
   * treated alike under a present signature, so tampered data is accepted.
   */
  lemma SignatureIgnoresContent(data: Value, tampered: Value, signature: Value)
    requires Truthy(data) && Truthy(tampered) && Truthy(signature)
    ensures VerifySignature(data, signature) && VerifySignature(tampered, signature)
  {
  }

  /**
   * `expiry > now` with JavaScript's comparison against a number: the expiry
   * is converted with `Number(...)`, and NaN is never greater.
   */
  predicate GreaterThan(expiry: Value, now: int)
  {
    match ToNumber(expiry)
    case Some(e) => e > now
    case None => false
  }

  /**
   * What env.TOKENS holds under a token: the stored text, and that text as
   * `JSON.parse` reads it (`None` when it is not JSON, which makes the parse
   * throw).
   */
  datatype StoredText = StoredText(text: string, parsed: Option<Value>)

  /**
   * `validateToken`: a missing or empty stored text is invalid; otherwise the
   * text is parsed, and the token is valid exactly while the parsed record's
   * expiry lies strictly in the future. A text that is not JSON, or a stored
   * `null` whose `expiry` cannot be read, throws, which rejects the returned
   * promise.
   */
  function ValidateToken(token: string, tokens: map<string, StoredText>, now: int): (r: Result<bool, string>)
    ensures token !in tokens ==> r == Success(false)
    ensures token in tokens && tokens[token].text == "" ==> r == Success(false)
    ensures token in tokens && tokens[token].text != "" && tokens[token].parsed.None? ==>
              r == Failure(NotJson)
    ensures token in tokens && tokens[token].text != "" && tokens[token].parsed.Some? ==>
              var record := tokens[token].parsed.value;
              (record.Obj? ==> r == Success(GreaterThan(Lookup(record.fields, "expiry"), now))) &&
              (record.Null? ==> r.Failure?) &&
              (!record.Obj? && !record.Null? && !record.Undefined? ==> r == Success(false))
  {
    if token !in tokens || tokens[token].text == "" then Success(false)
    else
      match tokens[token].parsed
      case None => Failure(NotJson)
      case Some(record) =>
        match Member(record, "expiry")
        case Failure(e) => Failure(e)
        case Success(expiry) => Success(GreaterThan(expiry, now))
  }

  /**
   * An illustration of the strict comparison that `TokenValidIff` states in
   * general: a token whose expiry equals the current instant is already invalid.
   */
  lemma ExpiryIsStrict(token: string, tokens: map<string, StoredText>, now: int)
    requires token in tokens && tokens[token].text != ""
    requires tokens[token].parsed == Some(Obj(map["expiry" := Num(now)]))
    ensures ValidateToken(token, tokens, now) == Success(false)
  {
  }

  /**
   * An expiry stored as the numeral of a number, or as a one-element array
   * holding that number, is compared as that number.
   */
  lemma NumeralExpiry(now: int, e: int)
    ensures GreaterThan(Str(IntToString(e)), now) <==> e > now
    ensures GreaterThan(Arr([Num(e)]), now) <==> e > now
  {
    IntNumeralRoundTrip(e);
    var v := Arr([Num(e)]);
    assert ToString(Num(e)) == IntToString(e);
    assert Join(v, [Num(e)]) == ToString(Num(e));
  }

  /** For a stored numeric expiry, the token is valid iff the expiry is after now. */
  lemma TokenValidIff(token: string, tokens: map<string, StoredText>, now: int, expiry: int)
    requires token in tokens && tokens[token].text != ""
    requires tokens[token].parsed.Some? && tokens[token].parsed.value.Obj?
    requires Lookup(tokens[token].parsed.value.fields, "expiry") == Num(expiry)
    ensures ValidateToken(token, tokens, now) == Success(true) <==> expiry > now
  {
  }
}

/**
 The Argon2id PHC string (operatorcredentials/password/password.go): printer
 and strict parser.  Version and parameters follow section 3.1 of RFC 9106.
 */
module Phc {
  import opened Options
  import opened Texts
  import opened Base64

  const MIN_MEMORY := 8
  const MAX_MEMORY := 128 * 1024
  const MIN_ITERATIONS := 1
  const MAX_ITERATIONS := 6
  const MIN_PARALLELISM := 1
  const MAX_PARALLELISM := 4
  const MIN_SALT := 8
  const MAX_SALT := 64
  const MIN_KEY := 16
  const MAX_KEY := 64
  const MAX_ENCODED := 512
  const VERSION := 19

  datatype Parameters = Parameters(memory: nat, iterations: nat, parallelism: nat, saltLength: nat, keyLength: nat)

  datatype ParsedHash = ParsedHash(
    version: nat, memory: nat, iterations: nat, parallelism: nat, salt: seq<Byte>, key: seq<Byte>)

  datatype Result<T> = Ok(value: T) | Malformed | Unsupported

  /** Parameters.validate */
  predicate Valid(p: Parameters) {
    && MIN_MEMORY <= p.memory <= MAX_MEMORY && MIN_ITERATIONS <= p.iterations <= MAX_ITERATIONS
    && MIN_PARALLELISM <= p.parallelism <= MAX_PARALLELISM
    && MIN_SALT <= p.saltLength <= MAX_SALT && MIN_KEY <= p.keyLength <= MAX_KEY
    && p.memory >= 8 * p.parallelism
  }

  function EncodeParameters(memory: nat, iterations: nat, parallelism: nat): string {
    "m=" + Decimal(memory) + ",t=" + Decimal(iterations) + ",p=" + Decimal(parallelism)
  }

  /** encodePHC */
  function EncodePHC(p: Parameters, salt: seq<Byte>, key: seq<Byte>): string {
    "$argon2id$v=" + Decimal(VERSION) + "$" + EncodeParameters(p.memory, p.iterations, p.parallelism)
    + "$" + Encode(salt) + "$" + Encode(key)
  }

  function ParseParameter(encoded: string, name: char, maximum: nat): Result<nat> {
    if !([name, '='] <= encoded) then Malformed
    else
      var digits := encoded[2..];
      if digits == "" || (|digits| > 1 && digits[0] == '0') then Malformed
      else
        match ParseUint32(digits)
        case None => Malformed
        case Some(value) => if value > maximum then Malformed else Ok(value)
  }

  function ParseParameters(encoded: string): Result<(nat, nat, nat)> {
    var parts := Split(encoded, ',');
    if |parts| != 3 then Malformed
    else
      var memory := ParseParameter(parts[0], 'm', MAX_MEMORY);
      if !memory.Ok? then Malformed else
      var iterations := ParseParameter(parts[1], 't', MAX_ITERATIONS);
      if !iterations.Ok? then Malformed else
      var parallelism := ParseParameter(parts[2], 'p', MAX_PARALLELISM);
      if !parallelism.Ok? then Malformed else
      if memory.value < MIN_MEMORY || iterations.value < MIN_ITERATIONS || parallelism.value < MIN_PARALLELISM
         || memory.value < 8 * parallelism.value then Malformed
      else Ok((memory.value, iterations.value, parallelism.value))
  }

  /** decodeComponent */
  function DecodeComponent(encoded: string, minimum: nat, maximum: nat): Result<seq<Byte>> {
    if encoded == "" || '=' in encoded then Malformed
    else if |encoded| > EncodedLen(maximum) then Malformed
    else if DecodedLen(|encoded|) < minimum || DecodedLen(|encoded|) > maximum then Malformed
    else
      match Decode(encoded)
      case None => Malformed
      case Some(decoded) =>
        if |decoded| < minimum || |decoded| > maximum || Encode(decoded) != encoded then Malformed else Ok(decoded)
  }

  function ParsePHC(encoded: string): Result<ParsedHash> {
    if |encoded| == 0 || |encoded| > MAX_ENCODED then Malformed
    else
      var parts := Split(encoded, '$');
      if |parts| != 6 || parts[0] != "" || parts[1] != "argon2id" then
        if |parts| > 1 && parts[1] != "argon2id" then Unsupported else Malformed
      else if parts[2] != "v=19" then Unsupported
      else
        match ParseParameters(parts[3])
        case Malformed => Malformed
        case Unsupported => Unsupported
        case Ok(costs) =>
          var salt := DecodeComponent(parts[4], MIN_SALT, MAX_SALT);
          if !salt.Ok? then Malformed else
          var key := DecodeComponent(parts[5], MIN_KEY, MAX_KEY);
          if !key.Ok? then Malformed else
          Ok(ParsedHash(VERSION, costs.0, costs.1, costs.2, salt.value, key.value))
  }

  // ------------------------------------------------------------------- one field

  lemma ParameterRoundTrip(name: char, value: nat, maximum: nat)
    requires value <= maximum < 0x1_0000_0000
    ensures ParseParameter([name, '='] + Decimal(value), name, maximum) == Ok(value)
  {
    ValueOfDecimal(value);
    assert ([name, '='] + Decimal(value))[2..] == Decimal(value);
  }

  lemma ParameterIsPrinted(encoded: string, name: char, maximum: nat)
    requires ParseParameter(encoded, name, maximum).Ok?
    ensures var value := ParseParameter(encoded, name, maximum).value;
            encoded == [name, '='] + Decimal(value) && value <= maximum
  {
    DecimalOfValue(encoded[2..]);
    assert encoded == [name, '='] + encoded[2..];
  }

  /** The image of Encode on the allowed lengths is exactly what is decoded. */
  lemma ComponentDecodesExactly(encoded: string, minimum: nat, maximum: nat, b: seq<Byte>)
    requires 1 <= minimum <= maximum
    ensures DecodeComponent(encoded, minimum, maximum) == Ok(b)
            <==> encoded == Encode(b) && minimum <= |b| <= maximum
  {
    RoundTrip(b);
    if encoded == Encode(b) && minimum <= |b| <= maximum {
      assert |encoded| > 0;
      assert EncodedLen(|b|) <= EncodedLen(maximum);
    }
  }

  // ------------------------------------------------------------------ parameters

  function ParameterParts(memory: nat, iterations: nat, parallelism: nat): seq<string> {
    ["m=" + Decimal(memory), "t=" + Decimal(iterations), "p=" + Decimal(parallelism)]
  }

  lemma ParametersAreJoined(memory: nat, iterations: nat, parallelism: nat)
    ensures EncodeParameters(memory, iterations, parallelism) == Join(ParameterParts(memory, iterations, parallelism), ',')
    ensures forall c <- EncodeParameters(memory, iterations, parallelism) :: c != '$'
    ensures forall part <- ParameterParts(memory, iterations, parallelism) :: ',' !in part
  {
    var parts := ParameterParts(memory, iterations, parallelism);
    assert parts[1..] == ["t=" + Decimal(iterations), "p=" + Decimal(parallelism)];
    assert parts[1..][1..] == ["p=" + Decimal(parallelism)];
    assert Join(parts[1..], ',') == "t=" + Decimal(iterations) + [','] + ("p=" + Decimal(parallelism));
  }

  predicate ValidCosts(memory: nat, iterations: nat, parallelism: nat) {
    && MIN_MEMORY <= memory <= MAX_MEMORY && MIN_ITERATIONS <= iterations <= MAX_ITERATIONS
    && MIN_PARALLELISM <= parallelism <= MAX_PARALLELISM && memory >= 8 * parallelism
  }

  lemma ParametersRoundTrip(memory: nat, iterations: nat, parallelism: nat)
    requires ValidCosts(memory, iterations, parallelism)
    ensures ParseParameters(EncodeParameters(memory, iterations, parallelism)) == Ok((memory, iterations, parallelism))
  {
    ParametersAreJoined(memory, iterations, parallelism);
    SplitOfJoin(ParameterParts(memory, iterations, parallelism), ',');
    ParameterRoundTrip('m', memory, MAX_MEMORY);
    ParameterRoundTrip('t', iterations, MAX_ITERATIONS);
    ParameterRoundTrip('p', parallelism, MAX_PARALLELISM);
  }

  lemma ParametersArePrinted(encoded: string)
    requires ParseParameters(encoded).Ok?
    ensures var (memory, iterations, parallelism) := ParseParameters(encoded).value;
            encoded == EncodeParameters(memory, iterations, parallelism) && ValidCosts(memory, iterations, parallelism)
  {
    var (memory, iterations, parallelism) := ParseParameters(encoded).value;
    var parts := Split(encoded, ',');
    ParameterIsPrinted(parts[0], 'm', MAX_MEMORY);
    ParameterIsPrinted(parts[1], 't', MAX_ITERATIONS);
    ParameterIsPrinted(parts[2], 'p', MAX_PARALLELISM);
    assert parts == ParameterParts(memory, iterations, parallelism);
    JoinOfSplit(encoded, ',');
    ParametersAreJoined(memory, iterations, parallelism);
  }

  // ------------------------------------------------------------------- the string

  function Parts(costs: string, salt: string, key: string): seq<string> {
    ["", "argon2id", "v=19", costs, salt, key]
  }

  function Dollars(costs: string, salt: string, key: string): string {
    "$argon2id$v=19$" + costs + "$" + salt + "$" + key
  }

  lemma DollarsAreJoined(costs: string, salt: string, key: string)
    ensures Dollars(costs, salt, key) == Join(Parts(costs, salt, key), '$')
  {
    var parts := Parts(costs, salt, key);
    assert parts[1..] == ["argon2id", "v=19", costs, salt, key];
    assert parts[1..][1..] == ["v=19", costs, salt, key];
    assert parts[1..][1..][1..] == [costs, salt, key];
    assert parts[1..][1..][1..][1..] == [salt, key];
    assert parts[1..][1..][1..][1..][1..] == [key];
    assert Join([salt, key], '$') == salt + "$" + key;
    assert Join([costs, salt, key], '$') == costs + "$" + (salt + "$" + key);
    var tail := costs + "$" + (salt + "$" + key);
    assert Join(parts[1..][1..], '$') == "v=19" + "$" + tail;
    assert Join(parts[1..], '$') == "argon2id" + "$" + ("v=19" + "$" + tail);
    assert Join(parts, '$') == "" + "$" + ("argon2id" + "$" + ("v=19" + "$" + tail));
  }

  lemma EncodePHCIsDollars(p: Parameters, salt: seq<Byte>, key: seq<Byte>)
    ensures EncodePHC(p, salt, key)
            == Dollars(EncodeParameters(p.memory, p.iterations, p.parallelism), Encode(salt), Encode(key))
  {
  }

  predicate Fits(p: Parameters, salt: seq<Byte>, key: seq<Byte>) {
    Valid(p) && |salt| == p.saltLength && |key| == p.keyLength
  }

  /** The printed string is far below the parser's size limit. */
  lemma EncodedFits(p: Parameters, salt: seq<Byte>, key: seq<Byte>)
    requires Fits(p, salt, key)
    ensures 0 < |EncodePHC(p, salt, key)| <= MAX_ENCODED
  {
    DecimalLength(p.memory, 6, Power10(6));
    RoundTrip(salt);
    RoundTrip(key);
    EncodePHCIsDollars(p, salt, key);
  }

  /** Parsing what was printed gives back every parameter and every byte. */
  lemma ParseOfEncode(p: Parameters, salt: seq<Byte>, key: seq<Byte>)
    requires Fits(p, salt, key)
    ensures ParsePHC(EncodePHC(p, salt, key))
            == Ok(ParsedHash(VERSION, p.memory, p.iterations, p.parallelism, salt, key))
  {
    var costs := EncodeParameters(p.memory, p.iterations, p.parallelism);
    EncodedFits(p, salt, key);
    EncodePHCIsDollars(p, salt, key);
    DollarsAreJoined(costs, Encode(salt), Encode(key));
    ParametersAreJoined(p.memory, p.iterations, p.parallelism);
    RoundTrip(salt);
    RoundTrip(key);
    SplitOfJoin(Parts(costs, Encode(salt), Encode(key)), '$');
    ParametersRoundTrip(p.memory, p.iterations, p.parallelism);
    ComponentDecodesExactly(Encode(salt), MIN_SALT, MAX_SALT, salt);
    ComponentDecodesExactly(Encode(key), MIN_KEY, MAX_KEY, key);
  }

  function ParametersOf(h: ParsedHash): Parameters {
    Parameters(h.memory, h.iterations, h.parallelism, |h.salt|, |h.key|)
  }

  /** Every accepted string is the one that its own value prints. */
  lemma EncodeOfParse(encoded: string)
    requires ParsePHC(encoded).Ok?
    ensures var h := ParsePHC(encoded).value;
            && Fits(ParametersOf(h), h.salt, h.key) && h.version == VERSION
            && EncodePHC(ParametersOf(h), h.salt, h.key) == encoded
  {
    var h, parts := ParsePHC(encoded).value, Split(encoded, '$');
    ParametersArePrinted(parts[3]);
    ComponentDecodesExactly(parts[4], MIN_SALT, MAX_SALT, h.salt);
    ComponentDecodesExactly(parts[5], MIN_KEY, MAX_KEY, h.key);
    JoinOfSplit(encoded, '$');
    assert parts == Parts(parts[3], parts[4], parts[5]);
    DollarsAreJoined(parts[3], parts[4], parts[5]);
    EncodePHCIsDollars(ParametersOf(h), h.salt, h.key);
  }

  /** The parser accepts exactly the image of the printer. */
  lemma AcceptsExactlyThePrinted(encoded: string)
    ensures ParsePHC(encoded).Ok? <==> exists p, salt, key :: Fits(p, salt, key) && EncodePHC(p, salt, key) == encoded
  {
    if ParsePHC(encoded).Ok? {
      EncodeOfParse(encoded);
    }
    forall p, salt, key | Fits(p, salt, key) && EncodePHC(p, salt, key) == encoded ensures ParsePHC(encoded).Ok? {
      ParseOfEncode(p, salt, key);
    }
  }

  /** A string is unsupported exactly if it names another algorithm, or is a whole Argon2id string of another version. */
  lemma OnlyForeignIsUnsupported(encoded: string)
    ensures var parts := Split(encoded, '$');
            ParsePHC(encoded) == Unsupported <==>
              && 0 < |encoded| <= 512 && |parts| > 1
              && (parts[1] != "argon2id" || (|parts| == 6 && parts[0] == "" && parts[2] != "v=19"))
  {
  }

  /** What may be printed: the bounds on each cost and length, and eight blocks of memory per lane. */
  lemma FitsExactly(p: Parameters, salt: seq<Byte>, key: seq<Byte>)
    ensures Fits(p, salt, key) <==>
      && 8 <= p.memory <= 131072 && 1 <= p.iterations <= 6 && 1 <= p.parallelism <= 4 && p.memory >= 8 * p.parallelism
      && 8 <= |salt| <= 64 && 16 <= |key| <= 64 && p.saltLength == |salt| && p.keyLength == |key|
  {
  }

  /** The layout: algorithm, version, costs in the order m, t, p, salt and key. */
  lemma PrintsTheLayout(p: Parameters, salt: seq<Byte>, key: seq<Byte>)
    ensures EncodePHC(p, salt, key)
            == "$argon2id$v=19$m=" + Decimal(p.memory) + ",t=" + Decimal(p.iterations) + ",p=" + Decimal(p.parallelism)
               + "$" + Encode(salt) + "$" + Encode(key)
  {
    EncodePHCIsDollars(p, salt, key);
    LayoutOf(Decimal(p.memory), Decimal(p.iterations), Decimal(p.parallelism), Encode(salt), Encode(key));
  }

  lemma LayoutOf(memory: string, iterations: string, parallelism: string, salt: string, key: string)
    ensures Dollars("m=" + memory + ",t=" + iterations + ",p=" + parallelism, salt, key)
            == "$argon2id$v=19$m=" + memory + ",t=" + iterations + ",p=" + parallelism + "$" + salt + "$" + key
  {
    assert "$argon2id$v=19$" + "m=" == "$argon2id$v=19$m=";
  }
}

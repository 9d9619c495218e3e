/**
 * Package gomongo: the record types of the certificate service, the
 * normalisation of a caller's find options, the collection-name dispatch of
 * `Modeling`, and the millisecond date stamp of `GetDate`.
 *
 * The Mongo driver, BSON/JSON codecs and the clock are outside the model:
 * the codecs are passed in as functions and the clock as a number.
 */
module GoMongo {
  import opened Wrappers
  import opened GoTypes

  // ---------------------------------------------------------------------
  // Records
  // ---------------------------------------------------------------------

  /** A decoded BSON/JSON value, as held by an `interface{}` field. */
  datatype Value =
    | Bool(b: bool)
    | Int(i: int)
    | Str(s: string)
    | Doc(entries: seq<(string, Value)>)
    | Arr(items: seq<Value>)

  /** The find options a caller sends inside a payload; `None` is a nil interface. */
  datatype FindOptions = FindOptions(
    limit: int64,
    projection: Option<Value>,
    sort: Option<Value>,
    skip: int64,
    pagination: Option<Value>)

  /** A caller's request: the kind, the query values and the find options. */
  datatype Payload = Payload(kind: string, values: Option<Value>, options: FindOptions)

  /** A font colour as stored with a template. */
  datatype RGB = RGB(r: int, g: int, b: int)

  /** An anchor point on the page, in millimetres. */
  datatype TextPosition = TextPosition(x: real, y: real)

  /** How and where one text field of a certificate is drawn. */
  datatype TemplateProperty = TemplateProperty(
    textPosition: TextPosition,
    textAlign: string,
    fontColor: RGB,
    fontName: string,
    fontSize: real,
    fontDir: string)

  /** The styles of the three fields of a certificate, one per role. */
  datatype TemplateProperties = TemplateProperties(
    callSign: TemplateProperty,
    identityName: TemplateProperty,
    frequency: TemplateProperty)

  /** A certificate template: background image and the three field styles. */
  datatype ImageCertTemplate = ImageCertTemplate(
    fileName: string,
    b64: string,
    templateProperties: TemplateProperties)

  // ---------------------------------------------------------------------
  // ParseOptions
  // ---------------------------------------------------------------------

  /** The largest number of documents a find may return. */
  const MaxLimit: int64 := 100

  /** The limit a find runs with, given the caller's requested limit. */
  function ClampLimit(requested: int64): (limit: int64)
    ensures 1 <= limit <= MaxLimit
    ensures 1 <= requested < MaxLimit ==> limit == requested
    ensures requested >= MaxLimit ==> limit == MaxLimit
    ensures requested <= 0 ==> limit == MaxLimit
  {
    if requested > 0 then
      if requested >= MaxLimit then MaxLimit else requested
    else
      MaxLimit
  }

  /** The skip a find runs with, given the caller's requested skip. */
  function ClampSkip(requested: int64): (skip: int64)
    ensures skip >= 0
    ensures requested >= 0 ==> skip == requested
    ensures requested < 0 ==> skip == 0
  {
    if requested >= 0 then requested else 0
  }

  /** The settings held by the driver's find options; `None` is a nil pointer. */
  datatype OptionsState = OptionsState(
    limit: Option<int64>,
    skip: Option<int64>,
    sort: Option<Value>,
    projection: Option<Value>,
    others: map<string, Value>)  // every other driver option (batch size, collation, ...)

  /** The driver's find options after `ParseOptions` has applied `requested` to `before`. */
  function Normalize(requested: FindOptions, before: OptionsState): (after: OptionsState)
    ensures after.limit.Some? && 1 <= after.limit.value <= MaxLimit
    ensures after.limit == Some(ClampLimit(requested.limit))
    ensures after.skip.Some? && after.skip.value >= 0
    ensures after.skip == Some(ClampSkip(requested.skip))
    ensures requested.sort.Some? ==> after.sort == requested.sort
    ensures requested.sort.None? ==> after.sort == before.sort
    ensures requested.projection.Some? ==> after.projection == requested.projection
    ensures requested.projection.None? ==> after.projection == before.projection
    ensures after.others == before.others
  {
    OptionsState(
      Some(ClampLimit(requested.limit)),
      Some(ClampSkip(requested.skip)),
      if requested.sort.Some? then requested.sort else before.sort,
      if requested.projection.Some? then requested.projection else before.projection,
      before.others)
  }

  /** The pagination a caller sends plays no part in the options a find runs with. */
  lemma PaginationIgnored(requested: FindOptions, pagination: Option<Value>, before: OptionsState)
    ensures Normalize(requested.(pagination := pagination), before) == Normalize(requested, before)
  {
  }

  /** Applying the same request twice leaves the options as applying it once. */
  lemma NormalizeIdempotent(requested: FindOptions, before: OptionsState)
    ensures Normalize(requested, Normalize(requested, before)) == Normalize(requested, before)
  {
  }

  /** The Mongo driver's `options.FindOptions`, updated in place through its setters. */
  class DriverFindOptions {
    var limit: Option<int64>
    var skip: Option<int64>
    var sort: Option<Value>
    var projection: Option<Value>
    var others: map<string, Value>

    /** `options.Find()`: every option unset. */
    constructor ()
      ensures State() == OptionsState(None, None, None, None, map[])
    {
      limit, skip, sort, projection, others := None, None, None, None, map[];
    }

    function State(): OptionsState
      reads this
    {
      OptionsState(limit, skip, sort, projection, others)
    }

    method SetLimit(i: int64)
      modifies this`limit
      ensures limit == Some(i)
    {
      limit := Some(i);
    }

    method SetSkip(i: int64)
      modifies this`skip
      ensures skip == Some(i)
    {
      skip := Some(i);
    }

    method SetSort(s: Value)
      modifies this`sort
      ensures sort == Some(s)
    {
      sort := Some(s);
    }

    method SetProjection(p: Value)
      modifies this`projection
      ensures projection == Some(p)
    {
      projection := Some(p);
    }
  }

  /**
   * Clamps the payload's limit and skip into safe bounds and copies its sort
   * and projection, when present, into the driver's find options.
   */
  method ParseOptions(payload: Payload, options: DriverFindOptions)
    modifies options
    ensures options.State() == Normalize(payload.options, old(options.State()))
  {
    // LIMIT
    var limitVal := payload.options.limit;
    if limitVal > 0 {
      if limitVal >= 100 {
        options.SetLimit(100);
      } else {
        options.SetLimit(limitVal);
      }
    } else {
      options.SetLimit(100);
    }

    // SORT
    if payload.options.sort.Some? {
      options.SetSort(payload.options.sort.value);
    }

    // SKIP
    var skipVal := payload.options.skip;
    if skipVal >= 0 {
      options.SetSkip(skipVal);
    } else {
      options.SetSkip(0);
    }

    // PROJECTION
    if payload.options.projection.Some? {
      options.SetProjection(payload.options.projection.value);
    }
  }

  // ---------------------------------------------------------------------
  // Modeling
  // ---------------------------------------------------------------------

  /** The collections whose documents `Modeling` reshapes through a record type. */
  datatype Model = IdentityModel | EventModel

  /** The record type `Modeling` uses for a collection, if any. */
  function ModelFor(collName: string): (m: Option<Model>)
    ensures m == Some(IdentityModel) <==> collName == "identity"
    ensures m == Some(EventModel) <==> collName == "event"
    ensures m.None? <==> collName != "identity" && collName != "event"
  {
    if collName == "identity" then Some(IdentityModel)
    else if collName == "event" then Some(EventModel)
    else None
  }

  /** A byte slice reached through a pointer (`*[]byte`). */
  class ByteSlice {
    var bytes: seq<byte>

    constructor (bytes: seq<byte>)
      ensures this.bytes == bytes
    {
      this.bytes := bytes;
    }
  }

  /**
   * Reshapes the JSON in `jsonByte` through the record type of `collName`:
   * decodes it into that record and re-encodes the record in place. The
   * codecs are parameters: `unmarshal` decodes into the model's record and
   * `marshal` encodes a record, each with its error (`None` for nil).
   */
  method Modeling<R>(
    jsonByte: ByteSlice,
    collName: string,
    unmarshal: (Model, seq<byte>) -> (R, Option<string>),
    marshal: R -> (seq<byte>, Option<string>))
    returns (err: Option<string>)
    modifies jsonByte
    ensures ModelFor(collName).None? ==> jsonByte.bytes == old(jsonByte.bytes) && err.None?
    ensures ModelFor(collName).Some? ==>
      var record := unmarshal(ModelFor(collName).value, old(jsonByte.bytes)).0;
      jsonByte.bytes == marshal(record).0 && err == marshal(record).1
  {
    err := None;
    if collName == "identity" {
      var decoded := unmarshal(IdentityModel, jsonByte.bytes);
      err := decoded.1;  // overwritten by the encoder's error just below
      var encoded := marshal(decoded.0);
      jsonByte.bytes, err := encoded.0, encoded.1;
    } else if collName == "event" {
      var decoded := unmarshal(EventModel, jsonByte.bytes);
      err := decoded.1;
      var encoded := marshal(decoded.0);
      jsonByte.bytes, err := encoded.0, encoded.1;
    }
  }

  // ---------------------------------------------------------------------
  // GetDate
  // ---------------------------------------------------------------------

  /** The decimal digit character for `d`. */
  function DigitChar(d: nat): (c: char)
    requires d < 10
    ensures '0' <= c <= '9'
  {
    ('0' as int + d) as char
  }

  predicate IsDigit(c: char) {
    '0' <= c <= '9'
  }

  /** The decimal rendering of `n`, without leading zeros. */
  function NatToString(n: nat): (s: string)
    ensures |s| >= 1
    ensures forall i | 0 <= i < |s| :: IsDigit(s[i])
    decreases n
  {
    if n < 10 then [DigitChar(n)] else NatToString(n / 10) + [DigitChar(n % 10)]
  }

  /** `strconv.Itoa`: the decimal rendering of `n`, with a leading '-' when negative. */
  function Itoa(n: int): (s: string)
    ensures |s| >= 1
    ensures s[0] == '-' <==> n < 0
    ensures n >= 0 ==> IsDigit(s[0])
    ensures forall i | 1 <= i < |s| :: IsDigit(s[i])
  {
    if n < 0 then "-" + NatToString(-n) else NatToString(n)
  }

  /** The number a rendering of `Itoa` denotes: an optional '-', then decimal digits. */
  function SignedValue(s: string): int
    requires |s| >= 1 && (s[0] == '-' || IsDigit(s[0]))
    requires forall i | 1 <= i < |s| :: IsDigit(s[i])
  {
    if s[0] == '-' then -(DigitsValue(s[1..]) as int) else DigitsValue(s)
  }

  /** The number a string of decimal digits denotes. */
  function DigitsValue(s: string): nat
    requires forall i | 0 <= i < |s| :: IsDigit(s[i])
  {
    if s == [] then 0
    else
      assert IsDigit(s[|s| - 1]);
      DigitsValue(s[..|s| - 1]) * 10 + (s[|s| - 1] as int - '0' as int)
  }

  /** Reading the digits back gives the number: the rendering loses nothing. */
  lemma {:induction false} NatToStringRoundTrip(n: nat)
    ensures DigitsValue(NatToString(n)) == n
    decreases n
  {
    var s := NatToString(n);
    if n >= 10 {
      NatToStringRoundTrip(n / 10);
      assert s[..|s| - 1] == NatToString(n / 10);
    }
  }

  function Pow10(k: nat): (p: nat)
    ensures p >= 1
  {
    if k == 0 then 1 else 10 * Pow10(k - 1)
  }

  /** A number has at least `k` >= 2 digits exactly when it is at least 10^(k-1). */
  lemma {:induction false} NatToStringLength(n: nat, k: nat)
    requires k >= 2
    ensures |NatToString(n)| >= k <==> n >= Pow10(k - 1)
    decreases n
  {
    if n >= 10 {
      if k - 1 >= 2 {
        NatToStringLength(n / 10, k - 1);
      }
    } else {
      Pow10Monotone(1, k - 1);
    }
  }

  /** Reading an `Itoa` rendering back, sign included, gives the number. */
  lemma ItoaRoundTrip(n: int)
    ensures SignedValue(Itoa(n)) == n
  {
    if n < 0 {
      NatToStringRoundTrip(-n);
      assert Itoa(n)[1..] == NatToString(-n);
    } else {
      NatToStringRoundTrip(n);
    }
  }

  /**
   * A rendering has at least `k` >= 3 characters exactly when the number is
   * at least 10^(k-1), or at most -10^(k-2) (whose '-' takes one character).
   */
  lemma ItoaLength(n: int, k: nat)
    requires k >= 3
    ensures |Itoa(n)| >= k <==> n >= Pow10(k - 1) || n <= -(Pow10(k - 2) as int)
  {
    if n < 0 {
      NatToStringLength(-n, k - 1);
      Pow10Monotone(k - 2, k - 1);
    } else {
      NatToStringLength(n, k);
    }
  }

  lemma {:induction false} Pow10Monotone(i: nat, j: nat)
    requires i <= j
    ensures Pow10(i) <= Pow10(j)
    decreases j
  {
    if i < j {
      Pow10Monotone(i, j - 1);
    }
  }

  lemma Pow10Values()
    ensures Pow10(6) == 1_000_000
    ensures Pow10(11) == 100_000_000_000
    ensures Pow10(12) == 1_000_000_000_000
    ensures Pow10(18) == 1_000_000_000_000_000_000
    ensures Pow10(19) == 10_000_000_000_000_000_000
  {
    assert Pow10(3) == 1_000;
    assert Pow10(6) == 1_000_000;
    assert Pow10(9) == 1_000_000_000;
    assert Pow10(11) == 100_000_000_000;
    assert Pow10(12) == 1_000_000_000_000;
    assert Pow10(15) == 1_000_000_000_000_000;
    assert Pow10(18) == 1_000_000_000_000_000_000;
  }

  /** Dividing by 10 and then by `p` is dividing by `10 * p`. */
  lemma DivTenThen(a: nat, p: nat)
    requires p >= 1
    ensures a / 10 / p == a / (10 * p)
  {
    var q, r := a / 10, a % 10;
    var q2, r2 := q / p, q % p;
    assert a == 10 * q + r;
    assert q == p * q2 + r2;
    assert a == (10 * p) * q2 + (10 * r2 + r);
    assert 0 <= 10 * r2 + r < 10 * p;
    DivUnique(a, 10 * p, q2, 10 * r2 + r);
  }

  lemma DivUnique(a: int, d: int, k: int, t: int)
    requires d > 0 && a == d * k + t && 0 <= t < d
    ensures a / d == k
  {
    var k', t' := a / d, a % d;
    assert a == d * k' + t' && 0 <= t' < d;
    if k' < k {
      MulMonotone(d, k' + 1, k);
    } else if k' > k {
      MulMonotone(d, k + 1, k');
    }
  }

  lemma MulMonotone(d: int, x: int, y: int)
    requires d >= 0 && x <= y
    ensures d * x <= d * y
  {
    assert d * y - d * x == d * (y - x);
  }

  /** `n` with its last `m` decimal digits removed. */
  function DropDigits(n: nat, m: nat): nat {
    if m == 0 then n else DropDigits(n / 10, m - 1)
  }

  lemma {:induction false} DropDigitsDivides(n: nat, m: nat)
    ensures DropDigits(n, m) == n / Pow10(m)
    decreases m
  {
    if m > 0 {
      DropDigitsDivides(n / 10, m - 1);
      DivTenThen(n, Pow10(m - 1));
    }
  }

  /** A prefix of a number's rendering is the rendering of the number with its tail digits dropped. */
  lemma {:induction false} PrefixIsDropDigits(n: nat, m: nat)
    requires m < |NatToString(n)|
    ensures NatToString(n)[..|NatToString(n)| - m] == NatToString(DropDigits(n, m))
    decreases m
  {
    if m > 0 {
      var s := NatToString(n);
      assert n >= 10;
      assert s == NatToString(n / 10) + [DigitChar(n % 10)];
      PrefixIsDropDigits(n / 10, m - 1);
    }
  }

  /** The number of characters `GetDate` keeps. */
  const DateLength: nat := 13

  /**
   * `s` followed by NUL runes up to length `n`: the contents of a zeroed
   * buffer of `n` runes that holds `s` at its start.
   */
  function ZeroPadded(s: string, n: nat): (r: string)
    ensures |r| == if |s| < n then n else |s|
    ensures r[..|s|] == s
    ensures forall i | |s| <= i < |r| :: r[i] == '\0'
  {
    if |s| < n then s + seq(n - |s|, _ => '\0') else s
  }

  /**
   * `GetDate` with the clock reading `unixNano` (nanoseconds since the Unix
   * epoch) as a parameter, and `capacity`, the capacity of the rune slice the
   * rendering is converted into. Go guarantees only that the capacity is at
   * least the rendering's length; the slice `[0:13]` is checked against the
   * capacity, and the runes past the rendering are zero.
   */
  function GetDate(unixNano: int64, capacity: nat): (r: Result<string, Panic>)
    requires capacity >= |Itoa(unixNano as int)|
    ensures r.Success? <==> capacity >= DateLength
    ensures r.Failure? ==> r.error == SliceBoundsOutOfRange(DateLength, capacity)
    ensures r.Success? ==> |r.value| == DateLength
    ensures |Itoa(unixNano as int)| >= DateLength ==> r == Success(Itoa(unixNano as int)[..DateLength])
    ensures r.Success? && |Itoa(unixNano as int)| < DateLength ==>
      && r.value[..|Itoa(unixNano as int)|] == Itoa(unixNano as int)
      && forall i | |Itoa(unixNano as int)| <= i < DateLength :: r.value[i] == '\0'
  {
    var dateRune := ZeroPadded(Itoa(unixNano as int), capacity);
    if capacity < DateLength then Failure(SliceBoundsOutOfRange(DateLength, capacity))
    else
      var rendering := Itoa(unixNano as int);
      assert dateRune[..|rendering|] == rendering;
      assert |rendering| >= DateLength ==> dateRune[..DateLength] == rendering[..DateLength] by {
        if |rendering| >= DateLength {
          assert dateRune[..DateLength] == dateRune[..|rendering|][..DateLength];
        }
      }
      Success(dateRune[0..DateLength])
  }

  /**
   * The clock readings whose rendering fills the 13 characters: from 10^12 ns
   * (about 16 minutes after the epoch) on, and from 10^11 ns before it back.
   * For those `GetDate` is the rendering's 13-character prefix, whatever the
   * slice's capacity.
   */
  lemma GetDateLongClock(unixNano: int64, capacity: nat)
    requires capacity >= |Itoa(unixNano as int)|
    ensures |Itoa(unixNano as int)| >= DateLength <==>
              unixNano >= 1_000_000_000_000 || unixNano <= -100_000_000_000
    ensures unixNano >= 1_000_000_000_000 || unixNano <= -100_000_000_000 ==>
              GetDate(unixNano, capacity) == Success(Itoa(unixNano as int)[..DateLength])
  {
    ItoaLength(unixNano as int, 13);
    Pow10Values();
  }

  /**
   * From 10^18 ns after the epoch (September 2001) on, every int64 clock
   * reading has 19 digits, so `GetDate` is the Unix time in milliseconds.
   */
  lemma GetDateIsUnixMillis(unixNano: int64, capacity: nat)
    requires capacity >= |Itoa(unixNano as int)|
    requires unixNano >= 1_000_000_000_000_000_000
    ensures GetDate(unixNano, capacity) == Success(Itoa(unixNano as int / 1_000_000))
  {
    var n := unixNano as int;
    NatToStringLength(n, 19);
    NatToStringLength(n, 20);
    Pow10Values();
    assert |NatToString(n)| == 19;
    PrefixIsDropDigits(n, 6);
    DropDigitsDivides(n, 6);
  }
}

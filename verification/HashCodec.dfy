/**
  Saving a timeframe's state to a hash of strings and restoring it (cascade.go, ToHash and
  RestoreFromHash). Integers are written out digit by digit; the float text codec is a pair of
  functions assumed to round-trip.
*/
module HashCodec {
  import opened Options
  import opened Cascade
  import opened CascadeRuns
  import Calendar

  const MAX_UINT64: nat := 0xFFFF_FFFF_FFFF_FFFF
  const TWO_63: int := 0x8000_0000_0000_0000

  // ---- Decimal integers ----

  function DigitChar(d: nat): char
    requires d < 10
  {
    ('0' as int + d) as char
  }

  function Digits(n: nat): (s: string)
    ensures s != "" && s[0] != '-' && s[0] != '+'
  {
    if n < 10 then [DigitChar(n)] else Digits(n / 10) + [DigitChar(n % 10)]
  }

  function FormatInt(n: int): string {
    if n < 0 then "-" + Digits(-n) else Digits(n)
  }

  datatype Parsed = Syntax | Range | Value(n: nat)

  /** The library's unsigned scan: left to right, stopping at the first bad character or overflow. */
  function Scan(s: string): Parsed {
    if s == "" then Value(0)
    else
      match Scan(s[..|s| - 1])
      case Value(n) =>
        var c := s[|s| - 1];
        if c < '0' || c > '9' then Syntax
        else
          var next := n * 10 + (c as int - '0' as int);
          if next > MAX_UINT64 then Range else Value(next)
      case failed => failed
  }

  /** The value the library returns, errors ignored: 0 for bad syntax, the nearest end for overflow. */
  function ParseInt(s: string): int {
    var negative := s != "" && s[0] == '-';
    var body := if s != "" && (s[0] == '-' || s[0] == '+') then s[1..] else s;
    if body == "" then 0
    else
      match Scan(body)
      case Syntax => 0
      case Range => if negative then -TWO_63 else TWO_63 - 1
      case Value(n) =>
        if negative then (if n > TWO_63 then -TWO_63 else 0 - n as int)
        else if n >= TWO_63 then TWO_63 - 1 else n
  }

  lemma {:induction false} ScanDigits(n: nat)
    ensures Scan(Digits(n)) == if n <= MAX_UINT64 then Value(n) else Range
  {
    var s := Digits(n);
    if n < 10 {
      assert s[..0] == "";
    } else {
      ScanDigits(n / 10);
      assert s[..|s| - 1] == Digits(n / 10);
    }
  }

  /** Digits are read as the number they write, or as the nearest one that fits 64 bits. */
  lemma {:induction false} ParseFormat(n: int)
    ensures ParseInt(FormatInt(n)) == if n >= TWO_63 then TWO_63 - 1 else if n < -TWO_63 then -TWO_63 else n
  {
    hide Scan, Digits;
    if n < 0 {
      ScanDigits(-n);
      assert FormatInt(n)[1..] == Digits(-n);
    } else {
      ScanDigits(n);
    }
  }

  /** Only zero is written as "0", and nothing as the empty string. */
  lemma {:induction false} ZeroIsWrittenZero(n: int)
    ensures FormatInt(n) != "" && (FormatInt(n) == "0" <==> n == 0)
  {
    if n >= 10 {
      assert |Digits(n)| == |Digits(n / 10)| + 1;
    }
  }

  // ---- The hash ----

  function FloatOrEmpty(x: Option<real>, format: real -> string): string {
    if x.None? then "" else format(x.value)
  }

  function ParseFloatPtr(s: string, parse: string -> Option<real>): Option<real> {
    if s == "" then None else parse(s)
  }

  function ToHash(a: AccState, format: real -> string): map<string, string> {
    map["open_ts" := FormatInt(a.openTs),
        "open" := FloatOrEmpty(a.open, format),
        "high" := FloatOrEmpty(a.high, format),
        "low" := FloatOrEmpty(a.low, format),
        "close" := FloatOrEmpty(a.close, format),
        "volume" := format(a.volume),
        "quote_vol" := format(a.quoteVol),
        "trade_count" := FormatInt(a.tradeCount),
        "bar_count" := FormatInt(a.barCount),
        "gap_count" := FormatInt(a.gapCount),
        "buy_volume" := format(a.buyVolume)]
  }

  function Field(fields: map<string, string>, name: string): string {
    if name in fields then fields[name] else ""
  }

  /** Absent and unparseable fields become zero or nil. */
  function FromHash(fields: map<string, string>, parse: string -> Option<real>): AccState {
    AccState(
      ParseInt(Field(fields, "open_ts")),
      ParseFloatPtr(Field(fields, "open"), parse), ParseFloatPtr(Field(fields, "high"), parse),
      ParseFloatPtr(Field(fields, "low"), parse), ParseFloatPtr(Field(fields, "close"), parse),
      FloatField(fields, "volume", parse), FloatField(fields, "quote_vol", parse),
      ParseInt(Field(fields, "trade_count")), ParseInt(Field(fields, "bar_count")), ParseInt(Field(fields, "gap_count")),
      FloatField(fields, "buy_volume", parse), 0.0, 0)
  }

  function FloatField(fields: map<string, string>, name: string, parse: string -> Option<real>): real {
    if name in fields then OrZero(parse(fields[name])) else 0.0
  }

  /** Each field is read on its own: what is absent or no number becomes zero or nil, whatever the others hold. */
  lemma {:induction false} FieldsAreRead(fields: map<string, string>, parse: string -> Option<real>)
    ensures var a := FromHash(fields, parse);
            && (if "volume" in fields && parse(fields["volume"]).Some? then Some(a.volume) == parse(fields["volume"]) else a.volume == 0.0)
            && (if "quote_vol" in fields && parse(fields["quote_vol"]).Some? then Some(a.quoteVol) == parse(fields["quote_vol"]) else a.quoteVol == 0.0)
            && (if "buy_volume" in fields && parse(fields["buy_volume"]).Some? then Some(a.buyVolume) == parse(fields["buy_volume"]) else a.buyVolume == 0.0)
            && a.open == (if "open" in fields && fields["open"] != "" then parse(fields["open"]) else None)
            && a.high == (if "high" in fields && fields["high"] != "" then parse(fields["high"]) else None)
            && a.low == (if "low" in fields && fields["low"] != "" then parse(fields["low"]) else None)
            && a.close == (if "close" in fields && fields["close"] != "" then parse(fields["close"]) else None)
            && a.openTs == (if "open_ts" in fields then ParseInt(fields["open_ts"]) else 0)
            && a.tradeCount == (if "trade_count" in fields then ParseInt(fields["trade_count"]) else 0)
            && a.barCount == (if "bar_count" in fields then ParseInt(fields["bar_count"]) else 0)
            && a.gapCount == (if "gap_count" in fields then ParseInt(fields["gap_count"]) else 0)
            && a.spreadSum == 0.0 && a.spreadCount == 0
  {
    hide Scan;
  }

  /** The float text codec gives this value back. */
  predicate RoundTrips(x: real, format: real -> string, parse: string -> Option<real>) {
    format(x) != "" && parse(format(x)) == Some(x)
  }

  predicate OptionalRoundTrips(x: Option<real>, format: real -> string, parse: string -> Option<real>) {
    x.Some? ==> RoundTrips(x.value, format, parse)
  }

  /** ... and every float of the state. */
  predicate FloatsRoundTrip(a: AccState, format: real -> string, parse: string -> Option<real>) {
    && OptionalRoundTrips(a.open, format, parse) && OptionalRoundTrips(a.high, format, parse)
    && OptionalRoundTrips(a.low, format, parse) && OptionalRoundTrips(a.close, format, parse)
    && RoundTrips(a.volume, format, parse) && RoundTrips(a.quoteVol, format, parse) && RoundTrips(a.buyVolume, format, parse)
  }

  predicate FitsInt64(n: int) {
    -TWO_63 <= n < TWO_63
  }

  ghost predicate Fits(a: AccState) {
    FitsInt64(a.openTs) && FitsInt64(a.tradeCount) && FitsInt64(a.barCount) && FitsInt64(a.gapCount)
  }

  lemma {:induction false} SavedFields(a: AccState, format: real -> string)
    ensures var h := ToHash(a, format);
            && Field(h, "open_ts") == FormatInt(a.openTs) && Field(h, "trade_count") == FormatInt(a.tradeCount)
            && Field(h, "bar_count") == FormatInt(a.barCount) && Field(h, "gap_count") == FormatInt(a.gapCount)
            && Field(h, "open") == FloatOrEmpty(a.open, format) && Field(h, "high") == FloatOrEmpty(a.high, format)
            && Field(h, "low") == FloatOrEmpty(a.low, format) && Field(h, "close") == FloatOrEmpty(a.close, format)
  {
    hide FormatInt, FloatOrEmpty;
  }

  lemma {:induction false} SavedFloats(a: AccState, format: real -> string, parse: string -> Option<real>)
    ensures var h := ToHash(a, format);
            && FloatField(h, "volume", parse) == OrZero(parse(format(a.volume)))
            && FloatField(h, "quote_vol", parse) == OrZero(parse(format(a.quoteVol)))
            && FloatField(h, "buy_volume", parse) == OrZero(parse(format(a.buyVolume)))
  {
    hide FormatInt, FloatOrEmpty;
  }

  /** Restoring what was saved gives the same state with only the spread tracking cleared. */
  lemma {:induction false} RestoreAfterSave(a: AccState, format: real -> string, parse: string -> Option<real>)
    requires FloatsRoundTrip(a, format, parse) && Fits(a)
    ensures FromHash(ToHash(a, format), parse) == Core(a)
  {
    ParseFormat(a.openTs);
    ParseFormat(a.tradeCount);
    ParseFormat(a.barCount);
    ParseFormat(a.gapCount);
    OptionalRestored(a.open, format, parse);
    OptionalRestored(a.high, format, parse);
    OptionalRestored(a.low, format, parse);
    OptionalRestored(a.close, format, parse);
    assert OrZero(parse(format(a.volume))) == a.volume;
    assert OrZero(parse(format(a.quoteVol))) == a.quoteVol;
    assert OrZero(parse(format(a.buyVolume))) == a.buyVolume;
    hide ParseInt, FormatInt, ParseFloatPtr, FloatOrEmpty, RoundTrips, FloatsRoundTrip, OrZero, Fits, ToHash, Field, FloatField;
    SavedFields(a, format);
    SavedFloats(a, format, parse);
  }

  lemma {:induction false} OptionalRestored(x: Option<real>, format: real -> string, parse: string -> Option<real>)
    requires OptionalRoundTrips(x, format, parse)
    ensures ParseFloatPtr(FloatOrEmpty(x, format), parse) == x
  {}

  /**
    Crash and restore: for every later run of seconds the restored timeframe closes the same bars
    but for the spread mean, and is in exactly the same state from its first close on.
  */
  lemma {:induction false} CrashRestoreBisimulation(a: AccState, xs: seq<Second>, tf: Calendar.TF,
                                                    format: real -> string, parse: string -> Option<real>)
    requires FloatsRoundTrip(a, format, parse) && Fits(a) && xs != []
    ensures var r := FromHash(ToHash(a, format), parse);
            && WithoutSpread(LastEmitted(a, xs, tf)) == WithoutSpread(LastEmitted(r, xs, tf))
            && (SomeClose(xs, tf) ==> StateFrom(a, xs, tf) == StateFrom(r, xs, tf))
            && (SomeClose(xs[..|xs| - 1], tf) ==> LastEmitted(a, xs, tf) == LastEmitted(r, xs, tf))
  {
    RestoreAfterSave(a, format, parse);
    hide ToHash, FromHash;
    RestoredEngineGoesOn(a, FromHash(ToHash(a, format), parse), xs, tf);
  }
}

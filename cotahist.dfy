/** The B3 COTAHIST reader (data/b3/cotahist.py): the fixed-width quote
    record parser `_parse_line` and the filtering and ordering of
    `load_cotahist`. The file's lines are an input; reading the TXT or ZIP
    file is not modelled. */
module Cotahist {
  import opened Common

  /** `CotahistRow`: one parsed quote record. */
  datatype CotahistRow = CotahistRow(date: string, ticker: string, marketType: string,
                                     open: real, high: real, low: real, close: real,
                                     volume: int, trades: int)

  /** One row of the loaded frame, its date parsed to a day number. */
  datatype FrameRow = FrameRow(date: int, ticker: string, marketType: string,
                               open: real, high: real, low: real, close: real,
                               volume: int, trades: int)

  const RecordLength := 245
  const FloatError := "could not convert string to float: "
  const IntError := "invalid literal for int() with base 10: "
  const NoRowsPrefix := "Nenhum negócio encontrado em "
  const NoRowsSuffix := " para os tickers escolhidos"

  // ---------------------------------------------------------------------
  // Python string primitives

  /** `line[a:b]`, clipped to the line as Python clips slices. */
  function Slice(line: string, a: nat, b: nat): (r: string)
    requires a <= b
    ensures |r| == if |line| <= a then 0 else if |line| < b then |line| - a else b - a
    ensures forall i :: 0 <= i < |r| ==> r[i] == line[a + i]
  {
    if |line| <= a then "" else if |line| < b then line[a..] else line[a..b]
  }

  /** `str.isspace()` on a Latin-1 character. */
  predicate IsSpace(c: char)
  {
    c == ' ' || '\t' <= c <= '\r' || '\U{1c}' <= c <= '\U{1f}' || c == '\U{85}' || c == '\U{a0}'
  }

  function StripLeft(s: string): (r: string)
    ensures |r| <= |s| && r == s[|s| - |r|..]
    ensures |r| > 0 ==> !IsSpace(r[0])
    ensures forall i :: 0 <= i < |s| - |r| ==> IsSpace(s[i])
  {
    if |s| > 0 && IsSpace(s[0]) then StripLeft(s[1..]) else s
  }

  function StripRight(s: string): (r: string)
    ensures |r| <= |s| && r == s[..|r|]
    ensures |r| > 0 ==> !IsSpace(r[|r| - 1])
    ensures forall i :: |r| <= i < |s| ==> IsSpace(s[i])
  {
    if |s| > 0 && IsSpace(s[|s| - 1]) then StripRight(s[..|s| - 1]) else s
  }

  /** `str.strip()`: the longest middle part without surrounding whitespace. */
  function Strip(s: string): (r: string)
    ensures |r| == 0 || (!IsSpace(r[0]) && !IsSpace(r[|r| - 1]))
  {
    StripRight(StripLeft(s))
  }

  predicate AllDigits(s: string)
  {
    forall i :: 0 <= i < |s| ==> IsDigit(s[i])
  }

  /** The integers `int()` reads: an optional sign and ASCII digits within
      whitespace. */
  function ParseInteger(field: string): Option<int>
  {
    var t := Strip(field);
    if |t| > 0 && (t[0] == '+' || t[0] == '-') then
      var d := t[1..];
      var v: int := if |d| > 0 && AllDigits(d) then DigitsValue(d) else 0;
      if |d| > 0 && AllDigits(d) then Some(if t[0] == '-' then -v else v) else None
    else if |t| > 0 && AllDigits(t) then Some(DigitsValue(t))
    else None
  }

  /** A price stored in cents, in currency units. */
  function Cents(v: int): real
  {
    v as real / 100.0
  }

  /** `float(field) / 100.0` */
  function Price(field: string): Result<real>
  {
    match ParseInteger(field)
    case Some(v) => Ok(Cents(v))
    case None => Err(FloatError + Quote(field))
  }

  /** `int(field)` */
  function Count(field: string): Result<int>
  {
    match ParseInteger(field)
    case Some(v) => Ok(v)
    case None => Err(IntError + Quote(field))
  }

  // ---------------------------------------------------------------------
  // _parse_line

  /** `_parse_line`: nothing unless the record type is "01"; otherwise
      the quote record's fields. */
  function ParseLine(line: string): (r: Result<Option<CotahistRow>>)
    ensures Slice(line, 0, 2) != "01" ==> r == Ok(None)
  {
    if Slice(line, 0, 2) != "01" then Ok(None) else ParseQuote(line)
  }

  /** The fields of a quote record at their fixed offsets, the prices in
      cents; the first field that does not read as a number raises. */
  function ParseQuote(line: string): Result<Option<CotahistRow>>
  {
    match Price(Slice(line, 56, 69))
    case Err(e) => Err(e)
    case Ok(open) =>
      match Price(Slice(line, 69, 82))
      case Err(e) => Err(e)
      case Ok(high) =>
        match Price(Slice(line, 82, 95))
        case Err(e) => Err(e)
        case Ok(low) =>
          match Price(Slice(line, 108, 121))
          case Err(e) => Err(e)
          case Ok(close) =>
            match Count(Slice(line, 147, 152))
            case Err(e) => Err(e)
            case Ok(trades) =>
              match Count(Slice(line, 170, 188))
              case Err(e) => Err(e)
              case Ok(volume) =>
                Ok(Some(CotahistRow(Slice(line, 2, 10), Strip(Slice(line, 12, 24)), Strip(Slice(line, 24, 27)),
                                    open, high, low, close, volume, trades)))
  }

  /** A parsed row holds the date verbatim, the ticker and market type
      stripped, and the values the numeric fields read as. */
  lemma ParseLineFields(line: string)
    ensures var r := ParseLine(line);
            r.Ok? && r.value.Some? ==>
              var row := r.value.value;
              Slice(line, 0, 2) == "01" &&
              row.date == Slice(line, 2, 10) && row.ticker == Strip(Slice(line, 12, 24)) &&
              row.marketType == Strip(Slice(line, 24, 27)) &&
              Price(Slice(line, 56, 69)) == Ok(row.open) && Price(Slice(line, 69, 82)) == Ok(row.high) &&
              Price(Slice(line, 82, 95)) == Ok(row.low) && Price(Slice(line, 108, 121)) == Ok(row.close) &&
              Count(Slice(line, 147, 152)) == Ok(row.trades) && Count(Slice(line, 170, 188)) == Ok(row.volume)
  {
  }

  // ---------------------------------------------------------------------
  // Writing a quote record, the partner of the parser

  /** The values one quote record carries: prices in cents. */
  datatype QuoteRecord = QuoteRecord(date: string, ticker: string, marketType: string,
                                     open: nat, high: nat, low: nat, close: nat, trades: nat, volume: nat)

  /** A text field that strips to itself. */
  predicate Trimmed(s: string)
  {
    |s| == 0 || (!IsSpace(s[0]) && !IsSpace(s[|s| - 1]))
  }

  /** The record fits its layout: an 8-character date, a ticker of at most
      12 and a market type of at most 3 characters without surrounding
      whitespace, and numbers within their field widths. */
  predicate Fits(q: QuoteRecord)
  {
    |q.date| == 8 && |q.ticker| <= 12 && Trimmed(q.ticker) && |q.marketType| <= 3 && Trimmed(q.marketType) &&
    |NatToString(q.open)| <= 13 && |NatToString(q.high)| <= 13 && |NatToString(q.low)| <= 13 &&
    |NatToString(q.close)| <= 13 && |NatToString(q.trades)| <= 5 && |NatToString(q.volume)| <= 18
  }

  function Repeat(c: char, n: nat): (r: string)
    ensures |r| == n && forall i :: 0 <= i < n ==> r[i] == c
  {
    seq(n, i => c)
  }

  /** A text field padded with spaces on the right. */
  function PadRight(s: string, w: nat): (r: string)
    requires |s| <= w
    ensures |r| == w
  {
    s + Repeat(' ', w - |s|)
  }

  /** A number written with leading zeros. */
  function ZeroPad(n: nat, w: nat): (r: string)
    requires |NatToString(n)| <= w
    ensures |r| == w
  {
    Repeat('0', w - |NatToString(n)|) + NatToString(n)
  }

  /** The character at position `i` of the record: the type "01", the
      fields at their offsets, blanks elsewhere. */
  function RecordChar(q: QuoteRecord, i: nat): char
    requires Fits(q) && i < RecordLength
  {
    if i < 2 then "01"[i]
    else if i < 10 then q.date[i - 2]
    else if i < 12 then ' '
    else if i < 24 then PadRight(q.ticker, 12)[i - 12]
    else if i < 27 then PadRight(q.marketType, 3)[i - 24]
    else if i < 56 then ' '
    else if i < 69 then ZeroPad(q.open, 13)[i - 56]
    else if i < 82 then ZeroPad(q.high, 13)[i - 69]
    else if i < 95 then ZeroPad(q.low, 13)[i - 82]
    else if i < 108 then ' '
    else if i < 121 then ZeroPad(q.close, 13)[i - 108]
    else if i < 147 then ' '
    else if i < 152 then ZeroPad(q.trades, 5)[i - 147]
    else if i < 170 then ' '
    else if i < 188 then ZeroPad(q.volume, 18)[i - 170]
    else ' '
  }

  function Encode(q: QuoteRecord): (line: string)
    requires Fits(q)
    ensures |line| == RecordLength
  {
    seq(RecordLength, i requires 0 <= i < RecordLength => RecordChar(q, i))
  }

  lemma SliceOfEncode(q: QuoteRecord, a: nat, b: nat, field: string)
    requires Fits(q) && a <= b <= RecordLength && |field| == b - a
    requires forall k :: 0 <= k < b - a ==> RecordChar(q, a + k) == field[k]
    ensures Slice(Encode(q), a, b) == field
  {
  }

  lemma {:induction false} DigitsValueOfZeros(z: nat, s: string)
    requires AllDigits(s)
    ensures AllDigits(Repeat('0', z) + s)
    ensures DigitsValue(Repeat('0', z) + s) == DigitsValue(s)
  {
    var t := Repeat('0', z) + s;
    if |s| == 0 {
      assert t == Repeat('0', z);
      ZerosValue(z);
    } else {
      var init := s[..|s| - 1];
      DigitsValueOfZeros(z, init);
      assert t[..|t| - 1] == Repeat('0', z) + init;
    }
  }

  lemma {:induction false} ZerosValue(z: nat)
    ensures DigitsValue(Repeat('0', z)) == 0
  {
    if z > 0 {
      assert Repeat('0', z)[..z - 1] == Repeat('0', z - 1);
      ZerosValue(z - 1);
    }
  }

  lemma StripTrimmed(s: string)
    requires Trimmed(s)
    ensures Strip(s) == s
  {
  }

  lemma StripPadded(s: string, w: nat)
    requires |s| <= w && Trimmed(s)
    ensures Strip(PadRight(s, w)) == s
  {
    var p := PadRight(s, w);
    if |s| == 0 {
      assert forall i :: 0 <= i < |p| ==> IsSpace(p[i]);
      assert |StripLeft(p)| == 0;
    } else {
      assert StripLeft(p) == p;
      var r := StripRight(p);
      assert forall i :: |s| <= i < |p| ==> IsSpace(p[i]);
      assert !IsSpace(p[|s| - 1]);
      assert |r| == |s|;
    }
  }

  /** A zero-padded number reads back as itself. */
  lemma ZeroPadReads(n: nat, w: nat)
    requires |NatToString(n)| <= w
    ensures Price(ZeroPad(n, w)) == Ok(Cents(n)) && Count(ZeroPad(n, w)) == Ok(n)
  {
    var s := ZeroPad(n, w);
    DigitsValueOfZeros(w - |NatToString(n)|, NatToString(n));
    DigitsValueOfNatToString(n);
    ParseDigits(s);
  }

  /** A non-empty string of digits reads as its value. */
  lemma ParseDigits(s: string)
    requires |s| > 0 && AllDigits(s)
    ensures ParseInteger(s) == Some(DigitsValue(s))
  {
    assert IsDigit(s[0]) && IsDigit(s[|s| - 1]);
    StripTrimmed(s);
  }

  /** The text fields of a written record sit at their offsets. */
  lemma EncodeTextSlices(q: QuoteRecord)
    requires Fits(q)
    ensures var line := Encode(q);
            Slice(line, 0, 2) == "01" && Slice(line, 2, 10) == q.date &&
            Slice(line, 12, 24) == PadRight(q.ticker, 12) && Slice(line, 24, 27) == PadRight(q.marketType, 3)
  {
    SliceOfEncode(q, 0, 2, "01");
    SliceOfEncode(q, 2, 10, q.date);
    SliceOfEncode(q, 12, 24, PadRight(q.ticker, 12));
    SliceOfEncode(q, 24, 27, PadRight(q.marketType, 3));
  }

  /** The prices of a written record sit at their offsets. */
  lemma EncodePriceSlices(q: QuoteRecord)
    requires Fits(q)
    ensures var line := Encode(q);
            Slice(line, 56, 69) == ZeroPad(q.open, 13) && Slice(line, 69, 82) == ZeroPad(q.high, 13) &&
            Slice(line, 82, 95) == ZeroPad(q.low, 13) && Slice(line, 108, 121) == ZeroPad(q.close, 13)
  {
    SliceOfEncode(q, 56, 69, ZeroPad(q.open, 13));
    SliceOfEncode(q, 69, 82, ZeroPad(q.high, 13));
    SliceOfEncode(q, 82, 95, ZeroPad(q.low, 13));
    SliceOfEncode(q, 108, 121, ZeroPad(q.close, 13));
  }

  /** The counts of a written record sit at their offsets. */
  lemma EncodeCountSlices(q: QuoteRecord)
    requires Fits(q)
    ensures var line := Encode(q);
            Slice(line, 147, 152) == ZeroPad(q.trades, 5) && Slice(line, 170, 188) == ZeroPad(q.volume, 18)
  {
    SliceOfEncode(q, 147, 152, ZeroPad(q.trades, 5));
    SliceOfEncode(q, 170, 188, ZeroPad(q.volume, 18));
  }

  /** Parsing a written quote record gives back its values: the record
      type, the fields at their offsets and the cents scaling agree. */
  lemma ParseEncode(q: QuoteRecord)
    requires Fits(q)
    ensures ParseLine(Encode(q)) ==
              Ok(Some(CotahistRow(q.date, q.ticker, q.marketType,
                                  Cents(q.open), Cents(q.high), Cents(q.low),
                                  Cents(q.close), q.volume, q.trades)))
  {
    EncodeTextSlices(q);
    EncodePriceSlices(q);
    EncodeCountSlices(q);
    ParseLaidOut(q, Encode(q));
  }

  /** A line holding the record's fields at their offsets parses to the
      record's values. */
  lemma ParseLaidOut(q: QuoteRecord, line: string)
    requires Fits(q) && |line| >= 188
    requires Slice(line, 0, 2) == "01" && Slice(line, 2, 10) == q.date
    requires Slice(line, 12, 24) == PadRight(q.ticker, 12) && Slice(line, 24, 27) == PadRight(q.marketType, 3)
    requires Slice(line, 56, 69) == ZeroPad(q.open, 13) && Slice(line, 69, 82) == ZeroPad(q.high, 13)
    requires Slice(line, 82, 95) == ZeroPad(q.low, 13) && Slice(line, 108, 121) == ZeroPad(q.close, 13)
    requires Slice(line, 147, 152) == ZeroPad(q.trades, 5) && Slice(line, 170, 188) == ZeroPad(q.volume, 18)
    ensures ParseLine(line) ==
              Ok(Some(CotahistRow(q.date, q.ticker, q.marketType,
                                  Cents(q.open), Cents(q.high), Cents(q.low),
                                  Cents(q.close), q.volume, q.trades)))
  {
    TextFieldsRead(q, line);
    PriceFieldRead(line, 56, 69, q.open, 13);
    PriceFieldRead(line, 69, 82, q.high, 13);
    PriceFieldRead(line, 82, 95, q.low, 13);
    PriceFieldRead(line, 108, 121, q.close, 13);
    PriceFieldRead(line, 147, 152, q.trades, 5);
    PriceFieldRead(line, 170, 188, q.volume, 18);
    ParseQuoteOk(line, Cents(q.open), Cents(q.high), Cents(q.low),
                 Cents(q.close), q.trades, q.volume);
  }

  lemma TextFieldsRead(q: QuoteRecord, line: string)
    requires Fits(q)
    requires Slice(line, 12, 24) == PadRight(q.ticker, 12) && Slice(line, 24, 27) == PadRight(q.marketType, 3)
    ensures Strip(Slice(line, 12, 24)) == q.ticker && Strip(Slice(line, 24, 27)) == q.marketType
  {
    StripPadded(q.ticker, 12);
    StripPadded(q.marketType, 3);
  }

  lemma PriceFieldRead(line: string, a: nat, b: nat, n: nat, w: nat)
    requires a <= b && |NatToString(n)| <= w && Slice(line, a, b) == ZeroPad(n, w)
    ensures Price(Slice(line, a, b)) == Ok(Cents(n)) && Count(Slice(line, a, b)) == Ok(n)
  {
    ZeroPadReads(n, w);
  }

  /** A quote record whose numeric fields all read parses to those values. */
  lemma ParseQuoteOk(line: string, open: real, high: real, low: real, close: real, trades: int, volume: int)
    requires Slice(line, 0, 2) == "01"
    requires Price(Slice(line, 56, 69)) == Ok(open) && Price(Slice(line, 69, 82)) == Ok(high)
    requires Price(Slice(line, 82, 95)) == Ok(low) && Price(Slice(line, 108, 121)) == Ok(close)
    requires Count(Slice(line, 147, 152)) == Ok(trades) && Count(Slice(line, 170, 188)) == Ok(volume)
    ensures ParseLine(line) == Ok(Some(CotahistRow(Slice(line, 2, 10), Strip(Slice(line, 12, 24)), Strip(Slice(line, 24, 27)),
                                                   open, high, low, close, volume, trades)))
  {
  }

  /** Any line whose first two characters are not "01" is skipped. */
  lemma OnlyQuoteRecords(line: string)
    ensures ParseLine(line).Ok? && ParseLine(line).value.Some? ==> |line| >= 2 && line[..2] == "01"
    ensures |line| >= 2 && line[..2] != "01" ==> ParseLine(line) == Ok(None)
    ensures ParseLine("99COTAHIST") == Ok(None) && ParseLine("0") == Ok(None)
  {
    assert Slice("99COTAHIST", 0, 2) == "99";
    assert Slice("0", 0, 2) == "0";
  }

  // ---------------------------------------------------------------------
  // load_cotahist

  /** The upper-cased allow-list, or None (keep everything) when no
      tickers or an empty list are given. */
  function Allowed(tickers: Option<seq<string>>): Option<set<string>>
  {
    if tickers.Some? && |tickers.value| > 0 then Some(set t | t in tickers.value :: Upper(t)) else None
  }

  predicate Keep(allowed: Option<set<string>>, row: CotahistRow)
  {
    allowed.None? || Upper(row.ticker) in allowed.value
  }

  /** The kept rows of the first lines, in line order; the first line that
      fails to parse ends the load with its error. */
  function Collected(lines: seq<string>, allowed: Option<set<string>>): Result<seq<CotahistRow>>
  {
    if |lines| == 0 then Ok([])
    else
      match Collected(lines[..|lines| - 1], allowed)
      case Err(e) => Err(e)
      case Ok(rows) =>
        match ParseLine(lines[|lines| - 1])
        case Err(e) => Err(e)
        case Ok(None) => Ok(rows)
        case Ok(Some(row)) => if Keep(allowed, row) then Ok(rows + [row]) else Ok(rows)
  }

  function NoRows(path: string): string
  {
    NoRowsPrefix + path + NoRowsSuffix
  }

  /** Sort key order: by ticker in Python's string order, then by date. */
  function TickerThenDate(a: FrameRow, b: FrameRow): bool
  {
    if a.ticker == b.ticker then a.date <= b.date else LexLe(a.ticker, b.ticker)
  }

  lemma TickerThenDateTotal()
    ensures TotalPreorder(TickerThenDate)
  {
    forall a: FrameRow, b: FrameRow ensures TickerThenDate(a, b) || TickerThenDate(b, a) {
      LexLeTotal(a.ticker, b.ticker);
    }
    forall a: FrameRow, b: FrameRow, c: FrameRow | TickerThenDate(a, b) && TickerThenDate(b, c)
      ensures TickerThenDate(a, c)
    {
      if a.ticker != b.ticker && b.ticker != c.ticker {
        LexLeTransitive(a.ticker, b.ticker, c.ticker);
        if a.ticker == c.ticker {
          LexLeAntisymmetric(a.ticker, b.ticker);
        }
      }
    }
  }

  /** `ensure_datetime`: rows whose date string does not parse are dropped;
      `parseDate` stands for `pd.to_datetime`. */
  function Dated(rows: seq<CotahistRow>, parseDate: string -> Option<int>): (r: seq<FrameRow>)
    ensures |r| <= |rows|
  {
    if |rows| == 0 then []
    else
      var row := rows[|rows| - 1];
      Dated(rows[..|rows| - 1], parseDate) +
        match parseDate(row.date)
        case None => []
        case Some(d) => [FrameRow(d, row.ticker, row.marketType, row.open, row.high, row.low, row.close, row.volume, row.trades)]
  }

  /** What `load_cotahist` returns: the first parse error; the "no rows"
      error when no quote record passes the filter; otherwise the kept
      rows with a parsed date, sorted by ticker and date. */
  function Loaded(lines: seq<string>, tickers: Option<seq<string>>, path: string,
                  parseDate: string -> Option<int>): Result<seq<FrameRow>>
  {
    match Collected(lines, Allowed(tickers))
    case Err(e) => Err(e)
    case Ok(rows) =>
      if |rows| == 0 then Err(NoRows(path))
      else
        TickerThenDateTotal();
        Ok(SortBy(Dated(rows, parseDate), TickerThenDate))
  }

  /** The line loop of `load_cotahist`. */
  method CollectRows(lines: seq<string>, allowed: Option<set<string>>) returns (r: Result<seq<CotahistRow>>)
    ensures r == Collected(lines, allowed)
  {
    var rows: seq<CotahistRow> := [];
    var i := 0;
    while i < |lines|
      invariant 0 <= i <= |lines|
      invariant Collected(lines[..i], allowed) == Ok(rows)
    {
      assert lines[..i + 1][..i] == lines[..i];
      var parsed := ParseLine(lines[i]);
      if parsed.Err? {
        CollectedErrPersists(lines, allowed, i + 1);
        return Err(parsed.error);
      }
      if parsed.value.Some? && Keep(allowed, parsed.value.value) {
        rows := rows + [parsed.value.value];
      }
      i := i + 1;
    }
    assert lines[..i] == lines;
    r := Ok(rows);
  }

  /** `load_cotahist` over the file's lines. */
  method LoadCotahist(lines: seq<string>, tickers: Option<seq<string>>, path: string,
                      parseDate: string -> Option<int>) returns (r: Result<seq<FrameRow>>)
    ensures r == Loaded(lines, tickers, path, parseDate)
  {
    var allowed := Allowed(tickers);
    var collected := CollectRows(lines, allowed);
    if collected.Err? {
      return Err(collected.error);
    }
    if |collected.value| == 0 {
      return Err(NoRows(path));
    }
    TickerThenDateTotal();
    r := Ok(SortBy(Dated(collected.value, parseDate), TickerThenDate));
  }

  lemma {:induction false} CollectedErrPersists(lines: seq<string>, allowed: Option<set<string>>, k: nat)
    requires k <= |lines| && Collected(lines[..k], allowed).Err?
    ensures Collected(lines, allowed) == Collected(lines[..k], allowed)
  {
    if k < |lines| {
      assert lines[..|lines| - 1][..k] == lines[..k];
      CollectedErrPersists(lines[..|lines| - 1], allowed, k);
    } else {
      assert lines[..k] == lines;
    }
  }

  // ---------------------------------------------------------------------
  // Properties of the load

  /** The load fails with a parse error exactly when some line is a quote
      record whose numbers do not read, whatever its ticker; the error is
      that of the first such line. */
  lemma {:induction false} CollectedErr(lines: seq<string>, allowed: Option<set<string>>)
    ensures Collected(lines, allowed).Err? <==> AnyParseError(lines)
    ensures Collected(lines, allowed).Err? ==>
              exists i :: FirstParseError(lines, i) && ParseLine(lines[i]) == Err(Collected(lines, allowed).error)
  {
    if |lines| > 0 {
      var init := lines[..|lines| - 1];
      var n := |lines| - 1;
      CollectedErr(init, allowed);
      if Collected(init, allowed).Err? {
        var i :| FirstParseError(init, i) && ParseLine(init[i]) == Err(Collected(init, allowed).error);
        FirstErrorInPrefix(lines, i);
      } else if ParseLine(lines[n]).Err? {
        FirstErrorLast(lines);
      } else {
        NoErrorAfter(lines);
      }
    }
  }

  predicate AnyParseError(lines: seq<string>)
  {
    exists i :: 0 <= i < |lines| && ParseLine(lines[i]).Err?
  }

  /** Line `i` is the first that fails to parse. */
  predicate FirstParseError(lines: seq<string>, i: int)
  {
    0 <= i < |lines| && ParseLine(lines[i]).Err? && forall j :: 0 <= j < i ==> ParseLine(lines[j]).Ok?
  }

  lemma FirstErrorInPrefix(lines: seq<string>, i: int)
    requires |lines| > 0 && FirstParseError(lines[..|lines| - 1], i)
    ensures FirstParseError(lines, i) && lines[..|lines| - 1][i] == lines[i]
  {
    assert forall j :: 0 <= j <= i ==> lines[..|lines| - 1][j] == lines[j];
  }

  lemma FirstErrorLast(lines: seq<string>)
    requires |lines| > 0 && !AnyParseError(lines[..|lines| - 1]) && ParseLine(lines[|lines| - 1]).Err?
    ensures FirstParseError(lines, |lines| - 1)
  {
    forall j | 0 <= j < |lines| - 1 ensures ParseLine(lines[j]).Ok? {
      assert lines[..|lines| - 1][j] == lines[j];
    }
  }

  lemma NoErrorAfter(lines: seq<string>)
    requires |lines| > 0 && !AnyParseError(lines[..|lines| - 1]) && ParseLine(lines[|lines| - 1]).Ok?
    ensures !AnyParseError(lines)
  {
    forall j | 0 <= j < |lines| ensures ParseLine(lines[j]).Ok? {
      if j < |lines| - 1 {
        assert lines[..|lines| - 1][j] == lines[j];
      }
    }
  }

  /** Without a parse error, the collected rows are exactly the quote
      records that pass the filter: each comes from such a line, and each
      such line's row is among them. */
  lemma {:induction false} CollectedRows(lines: seq<string>, allowed: Option<set<string>>)
    requires Collected(lines, allowed).Ok?
    ensures forall row :: row in Collected(lines, allowed).value <==>
              Keep(allowed, row) && exists i :: 0 <= i < |lines| && ParseLine(lines[i]) == Ok(Some(row))
  {
    if |lines| > 0 {
      var init := lines[..|lines| - 1];
      CollectedRows(init, allowed);
      assert forall i :: 0 <= i < |init| ==> init[i] == lines[i];
      assert forall i :: 0 <= i < |lines| ==> i == |lines| - 1 || lines[i] == init[i];
    }
  }

  /** The filter ignores case, and no allow-list or an empty one keeps every
      quote record. */
  lemma FilterIgnoresCase(tickers: seq<string>, row: CotahistRow)
    ensures Keep(Allowed(Some(tickers)), row) <==>
              |tickers| == 0 || exists t :: t in tickers && Upper(t) == Upper(row.ticker)
    ensures Keep(Allowed(Some(tickers)), row) <==> Keep(Allowed(Some(LowerAll(tickers))), row)
    ensures Keep(Allowed(None), row) && Keep(Allowed(Some([])), row)
  {
    var lowered := LowerAll(tickers);
    forall t | t in tickers ensures Upper(Lower(t)) == Upper(t) {
      UpperOfLower(t);
    }
    if |tickers| > 0 && Keep(Allowed(Some(tickers)), row) {
      var t :| t in tickers && Upper(t) == Upper(row.ticker);
      var k :| 0 <= k < |tickers| && tickers[k] == t;
      assert lowered[k] in lowered;
    }
    if |tickers| > 0 && Keep(Allowed(Some(lowered)), row) {
      var u :| u in lowered && Upper(u) == Upper(row.ticker);
      var k :| 0 <= k < |lowered| && lowered[k] == u;
      assert tickers[k] in tickers;
    }
  }

  function LowerAll(names: seq<string>): (r: seq<string>)
    ensures |r| == |names| && forall k :: 0 <= k < |r| ==> r[k] == Lower(names[k])
  {
    seq(|names|, k requires 0 <= k < |names| => Lower(names[k]))
  }

  /** A successful load is sorted by ticker then date and holds exactly the
      dated kept rows. */
  lemma LoadedSorted(lines: seq<string>, tickers: Option<seq<string>>, path: string,
                     parseDate: string -> Option<int>)
    ensures var r := Loaded(lines, tickers, path, parseDate);
            r.Ok? ==>
              Collected(lines, Allowed(tickers)).Ok? && |Collected(lines, Allowed(tickers)).value| > 0 &&
              SortedBy(r.value, TickerThenDate) &&
              multiset(r.value) == multiset(Dated(Collected(lines, Allowed(tickers)).value, parseDate))
  {
  }

  /** The "no rows" error comes exactly when every line parses and none is
      a quote record that passes the filter. */
  lemma LoadedNoRows(lines: seq<string>, tickers: Option<seq<string>>, path: string,
                     parseDate: string -> Option<int>)
    requires forall i :: 0 <= i < |lines| ==> ParseLine(lines[i]).Ok?
    ensures Loaded(lines, tickers, path, parseDate) == Err(NoRows(path)) <==>
              forall i :: 0 <= i < |lines| && ParseLine(lines[i]).value.Some? ==>
                !Keep(Allowed(tickers), ParseLine(lines[i]).value.value)
  {
    var allowed := Allowed(tickers);
    CollectedErr(lines, allowed);
    CollectedRows(lines, allowed);
    var rows := Collected(lines, allowed).value;
    if |rows| > 0 {
      assert rows[0] in rows;
    }
    if exists i :: 0 <= i < |lines| && ParseLine(lines[i]).value.Some? && Keep(allowed, ParseLine(lines[i]).value.value) {
      var i :| 0 <= i < |lines| && ParseLine(lines[i]).value.Some? && Keep(allowed, ParseLine(lines[i]).value.value);
      assert ParseLine(lines[i]).value.value in rows;
    }
  }
}

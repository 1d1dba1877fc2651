// Portfolio workflow: resolving the configured assets of a portfolio file,
// deciding how each asset is downloaded, and merging freshly downloaded
// price rows into the rows already stored for that asset.

module Portfolio {
  import opened Common

  /** A YAML mapping of one asset entry (or of the defaults); a key mapped
      to None is present with a null value. */
  type Entry = map<string, Option<string>>

  /** `mapping.get(key, fallback)`: the stored value when the key is present,
      even a null one, and the fallback otherwise. */
  function Get(m: Entry, key: string, fallback: Option<string>): Option<string>
  {
    if key in m then m[key] else fallback
  }

  datatype AssetConfig = AssetConfig(
    name: Option<string>,
    provider: Option<string>,
    ticker: Option<string>,
    start: Option<string>,
    end: Option<string>,
    interval: Option<string>,
    raw: Entry)

  /** A key of a YAML mapping: absent, present with a null value, or
      present with a value. */
  datatype Field<T> = Absent | Null | Present(value: T)

  /** The `portfolio` section of a portfolio file: its name, its defaults
      and its asset entries in file order (None for a null entry). */
  datatype Section = Section(name: Field<string>, defaults: Field<Entry>, assets: Field<seq<Option<Entry>>>)

  /** What `yaml.safe_load` returns: None for an empty document, otherwise
      a mapping whose `portfolio` value is a section, or None when that key
      is absent, null or an empty mapping. */
  datatype Document = EmptyDocument | Mapping(portfolio: Option<Section>)

  /** The name is None when the file gives a null name, and the defaults
      are None when the file gives null defaults. */
  datatype PortfolioConfig = PortfolioConfig(name: Option<string>, assets: seq<AssetConfig>, defaults: Option<Entry>)

  const Yahoo := "yahoo"
  const DailyInterval := "1d"

  /** `.get` called on None. */
  const NoAttributeGet := "'NoneType' object has no attribute 'get'"
  /** A `for` loop over None. */
  const NotIterable := "'NoneType' object is not iterable"

  /** One asset entry resolved against the portfolio defaults. */
  function Resolve(entry: Entry, defaults: Entry): AssetConfig
  {
    AssetConfig(
      name := Get(entry, "name", Get(entry, "ticker", None)),
      provider := Get(entry, "provider", Get(defaults, "provider", Some(Yahoo))),
      ticker := Get(entry, "ticker", None),
      start := Get(entry, "start", Get(defaults, "start", None)),
      end := Get(entry, "end", Get(defaults, "end", None)),
      interval := Get(entry, "interval", Get(defaults, "interval", Some(DailyInterval))),
      raw := entry)
  }

  /** The provider is the entry's own, else the default one, else Yahoo. */
  lemma ProviderResolution(entry: Entry, defaults: Entry)
    ensures "provider" in entry ==> Resolve(entry, defaults).provider == entry["provider"]
    ensures "provider" !in entry && "provider" in defaults ==>
              Resolve(entry, defaults).provider == defaults["provider"]
    ensures "provider" !in entry && "provider" !in defaults ==>
              Resolve(entry, defaults).provider == Some(Yahoo)
  {
  }

  /** The display name is the entry's name, else its ticker; the ticker is
      never taken from the defaults. */
  lemma NameResolution(entry: Entry, defaults: Entry)
    ensures "name" in entry ==> Resolve(entry, defaults).name == entry["name"]
    ensures "name" !in entry ==> Resolve(entry, defaults).name == Resolve(entry, defaults).ticker
    ensures Resolve(entry, defaults).ticker == (if "ticker" in entry then entry["ticker"] else None)
  {
  }

  /** Start and end come from the entry, else from the defaults, else stay
      unset; the interval falls back to daily bars. */
  lemma PeriodResolution(entry: Entry, defaults: Entry)
    ensures "start" !in entry && "start" !in defaults ==> Resolve(entry, defaults).start == None
    ensures "start" !in entry && "start" in defaults ==> Resolve(entry, defaults).start == defaults["start"]
    ensures "start" in entry ==> Resolve(entry, defaults).start == entry["start"]
    ensures "end" !in entry && "end" !in defaults ==> Resolve(entry, defaults).end == None
    ensures "end" !in entry && "end" in defaults ==> Resolve(entry, defaults).end == defaults["end"]
    ensures "end" in entry ==> Resolve(entry, defaults).end == entry["end"]
    ensures "interval" !in entry && "interval" !in defaults ==>
              Resolve(entry, defaults).interval == Some(DailyInterval)
    ensures "interval" !in entry && "interval" in defaults ==>
              Resolve(entry, defaults).interval == defaults["interval"]
    ensures "interval" in entry ==> Resolve(entry, defaults).interval == entry["interval"]
  {
  }

  /** `data.get("portfolio") or {}`. */
  function SectionOf(doc: Document): Section
    requires doc.Mapping?
  {
    if doc.portfolio.Some? then doc.portfolio.value else Section(Absent, Absent, Absent)
  }

  /** `portfolio_data.get("name", path.stem)`. */
  function NameOf(sec: Section, stem: string): Option<string>
  {
    match sec.name
    case Absent => Some(stem)
    case Null => None
    case Present(n) => Some(n)
  }

  /** `portfolio_data.get("defaults", {})`. */
  function DefaultsOf(sec: Section): Option<Entry>
  {
    match sec.defaults
    case Absent => Some(map[])
    case Null => None
    case Present(d) => Some(d)
  }

  /** The entries `portfolio_data.get("assets", [])` iterates over (a null
      list is handled apart: iterating it raises). */
  function EntriesOf(sec: Section): seq<Option<Entry>>
  {
    if sec.assets.Present? then sec.assets.value else []
  }

  /** The configuration resolves each entry of the section, in file order,
      against the section's defaults. */
  predicate ConfigOf(config: PortfolioConfig, sec: Section, stem: string)
  {
    config.name == NameOf(sec, stem) && config.defaults == DefaultsOf(sec) &&
    |config.assets| == |EntriesOf(sec)| &&
    forall i :: 0 <= i < |config.assets| ==>
      EntriesOf(sec)[i].Some? && config.defaults.Some? &&
      config.assets[i] == Resolve(EntriesOf(sec)[i].value, config.defaults.value)
  }

  /** `load_portfolio_config` on the parsed document: `.get` on an empty
      document, iterating a null asset list, and `.get` on a null entry or
      on null defaults raise; otherwise one resolved asset per entry. */
  method LoadPortfolioConfig(doc: Document, stem: string) returns (r: Result<PortfolioConfig>)
    ensures doc.EmptyDocument? ==> r == Err(NoAttributeGet)
    ensures doc.Mapping? && SectionOf(doc).assets.Null? ==> r == Err(NotIterable)
    ensures doc.Mapping? && !SectionOf(doc).assets.Null? ==>
              (r.Err? ==> r == Err(NoAttributeGet)) &&
              (r.Err? <==> |EntriesOf(SectionOf(doc))| > 0 &&
                           (SectionOf(doc).defaults.Null? || None in EntriesOf(SectionOf(doc))))
    ensures r.Ok? ==> doc.Mapping? && ConfigOf(r.value, SectionOf(doc), stem)
  {
    if doc.EmptyDocument? {
      return Err(NoAttributeGet);
    }
    var sec := SectionOf(doc);
    var name := NameOf(sec, stem);
    var defaults := DefaultsOf(sec);
    if sec.assets.Null? {
      return Err(NotIterable);
    }
    var entries := EntriesOf(sec);
    var assets: seq<AssetConfig> := [];
    var i := 0;
    while i < |entries|
      invariant 0 <= i <= |entries|
      invariant |assets| == i
      invariant i > 0 ==> defaults.Some?
      invariant forall k :: 0 <= k < i ==>
                  entries[k].Some? && assets[k] == Resolve(entries[k].value, defaults.value)
    {
      if entries[i].None? || defaults.None? {
        return Err(NoAttributeGet);
      }
      assets := assets + [Resolve(entries[i].value, defaults.value)];
      i := i + 1;
    }
    r := Ok(PortfolioConfig(name, assets, defaults));
  }

  /** Each configured asset keeps its own entry, in file order. */
  lemma AssetsInFileOrder(config: PortfolioConfig, sec: Section, stem: string)
    requires ConfigOf(config, sec, stem)
    ensures forall i :: 0 <= i < |config.assets| ==> Some(config.assets[i].raw) == EntriesOf(sec)[i]
  {
  }

  // ---------------------------------------------------------------------
  // Download request

  /** Python truthiness of an optional string: set and non-empty. */
  predicate Truthy(s: Option<string>)
  {
    s.Some? && |s.value| > 0
  }

  /** How an optional value reads inside an f-string. */
  function Show(s: Option<string>): string
  {
    if s.Some? then s.value else "None"
  }

  datatype Request = Request(ticker: string, start: Option<string>, end: Option<string>, interval: string)

  /** What the download step does: fetch with a request, or raise. */
  datatype Plan =
    | Fetch(request: Request)
    | Unsupported(message: string)  // UnsupportedProviderError
    | MissingTicker(message: string) // ValueError

  function UnsupportedMessage(asset: AssetConfig): string
  {
    "Provider '" + Show(asset.provider) + "' ainda n\U{e3}o suportado para o ativo '" + Show(asset.name) + "'."
  }

  function MissingTickerMessage(asset: AssetConfig): string
  {
    "Ticker ausente para o ativo '" + Show(asset.name) + "'."
  }

  /** The download plan for one asset; a set, non-empty override replaces
      the configured start. */
  function PlanDownload(asset: AssetConfig, startOverride: Option<string>): (p: Plan)
    ensures p.Fetch? <==> asset.provider == Some(Yahoo) && Truthy(asset.ticker)
    ensures p.Unsupported? <==> asset.provider != Some(Yahoo)
    ensures p.Fetch? ==> p.request.ticker == asset.ticker.value && p.request.end == asset.end
    ensures p.Fetch? && Truthy(startOverride) ==> p.request.start == startOverride
    ensures p.Fetch? && !Truthy(startOverride) ==> p.request.start == asset.start
    ensures p.Fetch? ==> p.request.interval == (if Truthy(asset.interval) then asset.interval.value else DailyInterval)
  {
    if asset.provider != Some(Yahoo) then Unsupported(UnsupportedMessage(asset))
    else if !Truthy(asset.ticker) then MissingTicker(MissingTickerMessage(asset))
    else
      var start := if Truthy(startOverride) then startOverride else asset.start;
      var interval := if Truthy(asset.interval) then asset.interval.value else DailyInterval;
      Fetch(Request(asset.ticker.value, start, asset.end, interval))
  }

  // ---------------------------------------------------------------------
  // Price rows and the incremental merge

  /** One price row: its date as a day number (None when it does not parse
      as a date) and the remaining column values. */
  datatype Row = Row(date: Option<int>, values: seq<Option<real>>)

  /** A price table; `hasDate` tells whether it has a Date column. */
  datatype Frame = Frame(hasDate: bool, rows: seq<Row>)

  predicate HasDay(rows: seq<Row>, d: int)
  {
    exists i :: 0 <= i < |rows| && rows[i].date == Some(d)
  }

  predicate Dated(rows: seq<Row>)
  {
    forall i :: 0 <= i < |rows| ==> rows[i].date.Some?
  }

  predicate DistinctDays(rows: seq<Row>)
  {
    forall i, j :: 0 <= i < j < |rows| ==> rows[i].date != rows[j].date
  }

  /** Dated rows in strictly ascending date order: one row per date. */
  predicate Ascending(rows: seq<Row>)
  {
    Dated(rows) && forall i, j :: 0 <= i < j < |rows| ==> rows[i].date.value < rows[j].date.value
  }

  /** `x` is a dated row of `rows` that no later row shares its date with. */
  predicate IsLastOfDay(x: Row, rows: seq<Row>)
  {
    x.date.Some? && exists i :: 0 <= i < |rows| && rows[i] == x && !HasDay(rows[i + 1..], x.date.value)
  }

  lemma LastOfDayStep(x: Row, rows: seq<Row>)
    requires |rows| > 0
    ensures IsLastOfDay(x, rows) <==>
              (x.date.Some? && x == rows[0] && !HasDay(rows[1..], x.date.value)) || IsLastOfDay(x, rows[1..])
  {
    if IsLastOfDay(x, rows) {
      var i :| 0 <= i < |rows| && rows[i] == x && !HasDay(rows[i + 1..], x.date.value);
      if i > 0 {
        assert rows[1..][i - 1] == x && rows[1..][i - 1 + 1..] == rows[i + 1..];
      }
    }
    if IsLastOfDay(x, rows[1..]) {
      var i :| 0 <= i < |rows[1..]| && rows[1..][i] == x && !HasDay(rows[1..][i + 1..], x.date.value);
      assert rows[i + 1] == x && rows[i + 1 + 1..] == rows[1..][i + 1..];
    }
  }

  lemma DayOfMember(x: Row, rows: seq<Row>)
    requires x in rows && x.date.Some?
    ensures HasDay(rows, x.date.value)
  {
    var i :| 0 <= i < |rows| && rows[i] == x;
  }

  /** Drops the rows without a date, then keeps, of the rows sharing a date,
      only the last one (`dropna` followed by `drop_duplicates(keep="last")`). */
  function {:induction false} LastPerDay(rows: seq<Row>): (r: seq<Row>)
    ensures forall x :: x in r <==> IsLastOfDay(x, rows)
    ensures Dated(r) && DistinctDays(r)
    decreases |rows|
  {
    if |rows| == 0 then []
    else
      var rest := LastPerDay(rows[1..]);
      var keep := rows[0].date.Some? && !HasDay(rows[1..], rows[0].date.value);
      LastPerDayStep(rows, rest, keep);
      Prepend(keep, rows[0], rest)
  }

  function Prepend(keep: bool, x: Row, s: seq<Row>): seq<Row>
  {
    if keep then [x] + s else s
  }

  lemma LastPerDayStep(rows: seq<Row>, rest: seq<Row>, keep: bool)
    requires |rows| > 0
    requires forall x :: x in rest <==> IsLastOfDay(x, rows[1..])
    requires Dated(rest) && DistinctDays(rest)
    requires keep == (rows[0].date.Some? && !HasDay(rows[1..], rows[0].date.value))
    ensures forall x :: x in Prepend(keep, rows[0], rest) <==> IsLastOfDay(x, rows)
    ensures Dated(Prepend(keep, rows[0], rest)) && DistinctDays(Prepend(keep, rows[0], rest))
  {
    forall x ensures IsLastOfDay(x, rows) <==>
                     (x.date.Some? && x == rows[0] && !HasDay(rows[1..], x.date.value)) || IsLastOfDay(x, rows[1..])
    {
      LastOfDayStep(x, rows);
    }
    if keep {
      forall j | 0 <= j < |rest| ensures rest[j].date != rows[0].date {
        assert rest[j] in rest;
        var i :| 0 <= i < |rows[1..]| && rows[1..][i] == rest[j];
        assert rows[1..][i].date == rest[j].date;
      }
    }
  }

  /** Inserts a row whose date is new into an ascending sequence. */
  function InsertRow(x: Row, s: seq<Row>): (r: seq<Row>)
    requires x.date.Some? && Ascending(s) && !HasDay(s, x.date.value)
    ensures Ascending(r) && |r| == |s| + 1
    ensures forall y :: y in r <==> y == x || y in s
  {
    if |s| == 0 then [x]
    else if x.date.value < s[0].date.value then [x] + s
    else
      assert s[0].date != x.date;
      assert !HasDay(s[1..], x.date.value) by {
        forall i | 0 <= i < |s[1..]| ensures s[1..][i].date != x.date {
          assert s[1..][i] == s[i + 1];
        }
      }
      var t := InsertRow(x, s[1..]);
      forall y | y in t ensures s[0].date.value < y.date.value {
        if y != x {
          var i :| 0 <= i < |s[1..]| && s[1..][i] == y;
          assert s[i + 1] == y;
        }
      }
      [s[0]] + t
  }

  /** Sorts rows with pairwise distinct dates by date (`sort_values("Date")`). */
  function {:induction false} SortByDate(s: seq<Row>): (r: seq<Row>)
    requires Dated(s) && DistinctDays(s)
    ensures Ascending(r) && |r| == |s|
    ensures forall y :: y in r <==> y in s
    decreases |s|
  {
    if |s| == 0 then []
    else
      var t := SortByDate(s[1..]);
      assert !HasDay(t, s[0].date.value) by {
        forall i | 0 <= i < |t| ensures t[i].date != s[0].date {
          assert t[i] in s[1..];
          var k :| 0 <= k < |s[1..]| && s[1..][k] == t[i];
          assert s[k + 1] == t[i];
        }
      }
      InsertRow(s[0], t)
  }

  /** The date normalisation of a merged table: a table without rows or
      without a Date column is returned as it is; otherwise undated rows are
      dropped, each date keeps its last row, and rows are sorted by date. */
  function Normalize(f: Frame): Frame
  {
    if |f.rows| == 0 || !f.hasDate then f
    else Frame(true, SortByDate(LastPerDay(f.rows)))
  }

  /** The rows of a table as they appear once concatenated with a table
      that has a Date column: without one of its own, their dates are empty. */
  function DateRows(f: Frame): (r: seq<Row>)
    ensures |r| == |f.rows|
  {
    if f.hasDate then f.rows
    else seq(|f.rows|, i requires 0 <= i < |f.rows| => Row(None, f.rows[i].values))
  }

  function Concat(existing: Frame, incoming: Frame): Frame
  {
    Frame(existing.hasDate || incoming.hasDate, DateRows(existing) + DateRows(incoming))
  }

  predicate Blank(f: Option<Frame>)
  {
    f.None? || |f.value.rows| == 0
  }

  /** Merges the stored table of an asset with the newly downloaded one. */
  function MergeFrames(existing: Option<Frame>, incoming: Option<Frame>): Option<Frame>
  {
    var combined :=
      if Blank(existing) then incoming
      else if Blank(incoming) then existing
      else Some(Concat(existing.value, incoming.value));
    if combined.None? then None else Some(Normalize(combined.value))
  }

  /** A normalised table with a Date column holds, for every date of the
      input, exactly the last row with that date, in ascending date order. */
  lemma NormalizeMeaning(f: Frame)
    requires f.hasDate && |f.rows| > 0
    ensures Normalize(f).hasDate && Ascending(Normalize(f).rows)
    ensures forall x :: x in Normalize(f).rows <==> IsLastOfDay(x, f.rows)
  {
  }

  /** Every dated row has a last row of its date. */
  lemma {:induction false} LastOfDayExists(rows: seq<Row>, d: int)
    requires HasDay(rows, d)
    ensures exists x: Row :: x.date == Some(d) && IsLastOfDay(x, rows)
    decreases |rows|
  {
    if HasDay(rows[1..], d) {
      LastOfDayExists(rows[1..], d);
      var x: Row :| x.date == Some(d) && IsLastOfDay(x, rows[1..]);
      LastOfDayStep(x, rows);
    } else {
      forall j | 0 < j < |rows| ensures rows[j].date != Some(d) {
        assert rows[1..][j - 1] == rows[j];
      }
      LastOfDayStep(rows[0], rows);
    }
  }

  /** The dates of a normalised table are exactly the dates of its input. */
  lemma NormalizeDays(f: Frame, d: int)
    requires f.hasDate && |f.rows| > 0
    ensures HasDay(Normalize(f).rows, d) <==> HasDay(f.rows, d)
  {
    var r := Normalize(f).rows;
    if HasDay(f.rows, d) {
      LastOfDayExists(f.rows, d);
      var x: Row :| x.date == Some(d) && IsLastOfDay(x, f.rows);
      DayOfMember(x, r);
    }
    if HasDay(r, d) {
      var i :| 0 <= i < |r| && r[i].date == Some(d);
      assert IsLastOfDay(r[i], f.rows);
      DayOfMember(r[i], f.rows);
    }
  }

  /** A table is normalised to no rows exactly when it has none, or it has a
      Date column and no row with a date. */
  lemma NormalizeEmpty(f: Frame)
    ensures |Normalize(f).rows| == 0 <==>
              |f.rows| == 0 || (f.hasDate && forall i :: 0 <= i < |f.rows| ==> f.rows[i].date.None?)
  {
    if f.hasDate && |f.rows| > 0 {
      NormalizeMeaning(f);
      var r := Normalize(f).rows;
      if |r| > 0 {
        assert r[0] in r;
        var i :| 0 <= i < |f.rows| && f.rows[i] == r[0] && !HasDay(f.rows[i + 1..], r[0].date.value);
        assert f.rows[i].date.Some?;
      }
      if exists i :: 0 <= i < |f.rows| && f.rows[i].date.Some? {
        var i :| 0 <= i < |f.rows| && f.rows[i].date.Some?;
        assert HasDay(f.rows, f.rows[i].date.value);
        NormalizeDays(f, f.rows[i].date.value);
      }
    }
  }

  /** When one side is missing or empty, the merge is the other side,
      normalised. */
  lemma MergeOneSide(existing: Option<Frame>, incoming: Option<Frame>)
    ensures Blank(existing) && incoming.None? ==> MergeFrames(existing, incoming) == None
    ensures Blank(existing) && incoming.Some? ==> MergeFrames(existing, incoming) == Some(Normalize(incoming.value))
    ensures !Blank(existing) && Blank(incoming) ==> MergeFrames(existing, incoming) == Some(Normalize(existing.value))
  {
  }

  /** Merging two tables with dates: the result is in ascending date order
      and holds exactly the dates found on either side. */
  lemma MergeBothSides(existing: Frame, incoming: Frame, d: int)
    requires existing.hasDate && incoming.hasDate && |existing.rows| > 0 && |incoming.rows| > 0
    ensures MergeFrames(Some(existing), Some(incoming)).Some?
    ensures Ascending(MergeFrames(Some(existing), Some(incoming)).value.rows)
    ensures HasDay(MergeFrames(Some(existing), Some(incoming)).value.rows, d) <==>
              HasDay(existing.rows, d) || HasDay(incoming.rows, d)
  {
    var f := Concat(existing, incoming);
    assert f.rows == existing.rows + incoming.rows;
    NormalizeMeaning(f);
    NormalizeDays(f, d);
    HasDayConcat(existing.rows, incoming.rows, d);
  }

  /** Where both tables have a date, the merged row of that date is the new
      table's last row for it; a date only the stored table has keeps the
      stored table's last row. */
  lemma MergeNewWins(existing: Frame, incoming: Frame, x: Row)
    requires existing.hasDate && incoming.hasDate && |existing.rows| > 0 && |incoming.rows| > 0
    requires MergeFrames(Some(existing), Some(incoming)).Some?
    requires x in MergeFrames(Some(existing), Some(incoming)).value.rows
    ensures x.date.Some?
    ensures HasDay(incoming.rows, x.date.value) ==> IsLastOfDay(x, incoming.rows)
    ensures !HasDay(incoming.rows, x.date.value) ==> IsLastOfDay(x, existing.rows)
  {
    var f := Concat(existing, incoming);
    assert f.rows == existing.rows + incoming.rows;
    NormalizeMeaning(f);
    LastOfConcat(x, existing.rows, incoming.rows);
  }

  lemma HasDayConcat(a: seq<Row>, b: seq<Row>, d: int)
    ensures HasDay(a + b, d) <==> HasDay(a, d) || HasDay(b, d)
  {
    if HasDay(a + b, d) {
      var i :| 0 <= i < |a + b| && (a + b)[i].date == Some(d);
      if i >= |a| { assert b[i - |a|].date == Some(d); }
    }
    if HasDay(b, d) {
      var i :| 0 <= i < |b| && b[i].date == Some(d);
      assert (a + b)[|a| + i] == b[i];
    }
    if HasDay(a, d) {
      var i :| 0 <= i < |a| && a[i].date == Some(d);
      assert (a + b)[i] == a[i];
    }
  }

  /** The last row of a date in a concatenation is the last one of the
      second part when that part has the date, and of the first otherwise. */
  lemma LastOfConcat(x: Row, a: seq<Row>, b: seq<Row>)
    requires IsLastOfDay(x, a + b)
    ensures HasDay(b, x.date.value) ==> IsLastOfDay(x, b)
    ensures !HasDay(b, x.date.value) ==> IsLastOfDay(x, a)
  {
    var d := x.date.value;
    var i :| 0 <= i < |a + b| && (a + b)[i] == x && !HasDay((a + b)[i + 1..], d);
    if i < |a| {
      assert (a + b)[i + 1..] == a[i + 1..] + b;
      HasDayConcat(a[i + 1..], b, d);
      assert a[i] == x && !HasDay(a[i + 1..], d);
      assert !HasDay(b, d);
    } else {
      var k := i - |a|;
      assert b[k] == x && (a + b)[i + 1..] == b[k + 1..];
      assert !HasDay(b[k + 1..], d);
      DayOfMember(x, b);
    }
  }

  // ---------------------------------------------------------------------
  // One asset's download task

  /** The latest date of the rows, when any row has a date (`max` skips
      missing dates). */
  function {:induction false} LatestDay(rows: seq<Row>): (m: Option<int>)
    ensures m.None? <==> forall i :: 0 <= i < |rows| ==> rows[i].date.None?
    ensures m.Some? ==> HasDay(rows, m.value)
    ensures m.Some? ==> forall i :: 0 <= i < |rows| && rows[i].date.Some? ==> rows[i].date.value <= m.value
    decreases |rows|
  {
    if |rows| == 0 then None
    else
      var rest := LatestDay(rows[..|rows| - 1]);
      var last := rows[|rows| - 1];
      assert forall i :: 0 <= i < |rows| - 1 ==> rows[..|rows| - 1][i] == rows[i];
      if last.date.None? then
        (if rest.Some? then
           var i :| 0 <= i < |rows| - 1 && rows[..|rows| - 1][i].date == Some(rest.value);
           assert rows[i].date == Some(rest.value);
           rest
         else rest)
      else if rest.None? || rest.value < last.date.value then last.date
      else
        var i :| 0 <= i < |rows| - 1 && rows[..|rows| - 1][i].date == Some(rest.value);
        assert rows[i].date == Some(rest.value);
        rest
  }

  /** The start of an incremental download: the day after the latest stored
      date, rendered by `iso`, when the stored table has a dated row. */
  function StartOverride(existing: Option<Frame>, iso: int -> string): (s: Option<string>)
    ensures s.Some? <==>
              existing.Some? && existing.value.hasDate &&
              exists i :: 0 <= i < |existing.value.rows| && existing.value.rows[i].date.Some?
    ensures s.Some? ==>
              exists m :: s == Some(iso(m + 1)) && HasDay(existing.value.rows, m) &&
                forall i :: 0 <= i < |existing.value.rows| && existing.value.rows[i].date.Some? ==>
                  existing.value.rows[i].date.value <= m
  {
    if existing.None? || |existing.value.rows| == 0 || !existing.value.hasDate then None
    else
      var latest := LatestDay(existing.value.rows);
      if latest.None? then None else Some(iso(latest.value + 1))
  }

  /** What the download of a request does: return a table, raise a
      ValueError (no new data), or raise any other error. */
  datatype Fetched = Got(frame: Frame) | NoData | Crashed(message: string)

  /** The outcome of one asset's task: its merged table, a skip for an
      unsupported provider, or an error message. */
  datatype TaskOutcome =
    | Done(name: Option<string>, frame: Frame)
    | Skipped
    | Failed(message: string)

  const NoDataMessage := "Nenhum dado dispon\U{ed}vel para o ativo"

  /** One asset's task: plan the download (incremental when a stored table
      has dates), fetch, and merge with the stored table. */
  function Task(asset: AssetConfig, existing: Option<Frame>, iso: int -> string, fetch: Request -> Fetched): TaskOutcome
  {
    var plan := PlanDownload(asset, StartOverride(existing, iso));
    if plan.Unsupported? then Skipped
    else
      var got := if plan.Fetch? then fetch(plan.request) else NoData;
      if got.Crashed? then Failed(got.message)
      else
        var frame := if got.Got? then Some(got.frame) else None;
        var combined := MergeFrames(existing, frame);
        if Blank(combined) then Failed(NoDataMessage) else Done(asset.name, combined.value)
  }

  /** An unsupported provider is skipped before anything is fetched. */
  lemma TaskSkipsUnsupported(asset: AssetConfig, existing: Option<Frame>, iso: int -> string, fetch: Request -> Fetched)
    ensures Task(asset, existing, iso, fetch) == Skipped <==> asset.provider != Some(Yahoo)
  {
  }

  /** When nothing new arrives (a ValueError, including a missing ticker),
      the stored table is kept, normalised; `_task` fails only when that
      leaves no rows. */
  lemma TaskKeepsExisting(asset: AssetConfig, existing: Option<Frame>, iso: int -> string, fetch: Request -> Fetched)
    requires asset.provider == Some(Yahoo)
    requires !Truthy(asset.ticker) || fetch(PlanDownload(asset, StartOverride(existing, iso)).request) == NoData
    ensures existing.Some? && |Normalize(existing.value).rows| > 0 ==>
              Task(asset, existing, iso, fetch) == Done(asset.name, Normalize(existing.value))
    ensures existing.None? || |Normalize(existing.value).rows| == 0 ==>
              Task(asset, existing, iso, fetch) == Failed(NoDataMessage)
  {
    MergeOneSide(existing, None);
    if existing.Some? {
      NormalizeEmpty(existing.value);
    }
  }

  /** A fetched table is merged with the stored one; `_task` fails with the
      no-data message exactly when the merge leaves no rows. */
  lemma TaskMerges(asset: AssetConfig, existing: Option<Frame>, iso: int -> string, fetch: Request -> Fetched, frame: Frame)
    requires asset.provider == Some(Yahoo) && Truthy(asset.ticker)
    requires fetch(PlanDownload(asset, StartOverride(existing, iso)).request) == Got(frame)
    ensures MergeFrames(existing, Some(frame)).Some?
    ensures Task(asset, existing, iso, fetch) ==
              (if |MergeFrames(existing, Some(frame)).value.rows| == 0 then Failed(NoDataMessage)
               else Done(asset.name, MergeFrames(existing, Some(frame)).value))
  {
  }
}

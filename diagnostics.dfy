// Column diagnostics for price tables (quantfinance/utils/diagnostics.py):
// flattening two-level column headers, detecting repeated column names,
// and coalescing repeated OHLCV columns into one by the row-wise maximum.

module Diagnostics {
  import opened Common

  /** A cell after `pd.to_numeric(errors="coerce")`: a number, or blank
      (missing, or text that does not read as a number). */
  datatype Cell = Num(x: real) | Blank

  /** Column labels: plain names, or two-level (MultiIndex) labels. */
  datatype Header = Flat(names: seq<string>) | Levels(pairs: seq<(string, string)>)

  /** A frame stored column by column; every column has `height` cells. */
  datatype Frame = Frame(header: Header, height: nat, cols: seq<seq<Cell>>)

  /** A frame whose labels are plain names. */
  datatype Table = Table(names: seq<string>, height: nat, cols: seq<seq<Cell>>)

  const OhlcvKeys: seq<string> := ["Open", "High", "Low", "Close", "AdjClose", "Volume"]

  function Width(h: Header): nat
  {
    match h
    case Flat(names) => |names|
    case Levels(pairs) => |pairs|
  }

  predicate Rectangular(height: nat, cols: seq<seq<Cell>>)
  {
    forall i :: 0 <= i < |cols| ==> |cols[i]| == height
  }

  predicate WellFormed(f: Frame)
  {
    |f.cols| == Width(f.header) && Rectangular(f.height, f.cols)
  }

  predicate Shaped(t: Table)
  {
    |t.cols| == |t.names| && Rectangular(t.height, t.cols)
  }

  // ---------------------------------------------------------------------
  // _flatten_columns

  /** The name a two-level label flattens to: its first part, or the
      second when the first is empty. */
  function LevelName(pair: (string, string)): string
  {
    if pair.0 != "" then pair.0 else pair.1
  }

  /** `_flatten_columns`: plain names stay; two-level labels flatten. */
  function FlatNames(h: Header): (r: seq<string>)
    ensures |r| == Width(h)
  {
    match h
    case Flat(names) => names
    case Levels(pairs) => seq(|pairs|, i requires 0 <= i < |pairs| => LevelName(pairs[i]))
  }

  function Flatten(f: Frame): (t: Table)
    requires WellFormed(f)
    ensures Shaped(t)
  {
    Table(FlatNames(f.header), f.height, f.cols)
  }

  /** Flattening keeps plain names and the cells; a two-level label
      becomes its first non-empty part, and an empty first part gives the
      second. */
  lemma FlattenNames(f: Frame)
    requires WellFormed(f)
    ensures Flatten(f).cols == f.cols && Flatten(f).height == f.height
    ensures f.header.Flat? ==> Flatten(f).names == f.header.names
    ensures f.header.Levels? ==>
              forall i :: 0 <= i < |f.header.pairs| ==>
                (f.header.pairs[i].0 != "" ==> Flatten(f).names[i] == f.header.pairs[i].0) &&
                (f.header.pairs[i].0 == "" ==> Flatten(f).names[i] == f.header.pairs[i].1)
  {
  }

  // ---------------------------------------------------------------------
  // has_duplicate_columns

  /** Some label occurs twice. */
  function HasDuplicates<T(==)>(s: seq<T>): (r: bool)
    ensures r <==> exists i, j :: 0 <= i < j < |s| && s[i] == s[j]
  {
    if |s| == 0 then false
    else
      var init := s[..|s| - 1];
      assert forall i, j :: 0 <= i < j < |init| ==> init[i] == s[i] && init[j] == s[j];
      if s[|s| - 1] in init then
        var i :| 0 <= i < |init| && init[i] == s[|s| - 1];
        assert s[i] == s[|s| - 1];
        true
      else HasDuplicates(init)
  }

  /** `has_duplicate_columns`, on the labels as given (two-level labels
      compare as pairs). */
  function HasDuplicateColumns(h: Header): (r: bool)
    ensures h.Flat? ==> (r <==> exists i, j :: 0 <= i < j < |h.names| && h.names[i] == h.names[j])
    ensures h.Levels? ==> (r <==> exists i, j :: 0 <= i < j < |h.pairs| && h.pairs[i] == h.pairs[j])
  {
    match h
    case Flat(names) => HasDuplicates(names)
    case Levels(pairs) => HasDuplicates(pairs)
  }

  // ---------------------------------------------------------------------
  // coalesce_ohlcv: the row-wise maximum of repeated columns

  /** The larger of two cells, blanks skipped. */
  function Larger(a: Cell, b: Cell): (r: Cell)
    ensures r == a || r == b
    ensures r.Blank? <==> a.Blank? && b.Blank?
    ensures r.Num? ==> (a.Num? ==> a.x <= r.x) && (b.Num? ==> b.x <= r.x)
  {
    if a.Blank? then b
    else if b.Blank? then a
    else if a.x >= b.x then a else b
  }

  /** The maximum, skipping blanks, of row `row` over the first `k`
      columns named `name`; blank when none of them has a number there. */
  function {:induction false} RowMax(names: seq<string>, cols: seq<seq<Cell>>, name: string, row: nat, k: nat): (r: Cell)
    requires k <= |names| == |cols|
    requires forall i :: 0 <= i < |cols| ==> row < |cols[i]|
    ensures r.Blank? <==> forall i :: 0 <= i < k && names[i] == name ==> cols[i][row].Blank?
    ensures r.Num? ==> exists i :: 0 <= i < k && names[i] == name && cols[i][row] == r
    ensures r.Num? ==> forall i :: 0 <= i < k && names[i] == name && cols[i][row].Num? ==> cols[i][row].x <= r.x
  {
    if k == 0 then Blank
    else
      var prev := RowMax(names, cols, name, row, k - 1);
      Larger(prev, if names[k - 1] == name then cols[k - 1][row] else Blank)
  }

  /** The coalesced column for `name`: per row, the maximum of the
      numeric values among the columns named `name`. */
  function MaxColumn(t: Table, name: string): (c: seq<Cell>)
    requires Shaped(t)
    ensures |c| == t.height
  {
    seq(t.height, row requires 0 <= row < t.height => RowMax(t.names, t.cols, name, row, |t.names|))
  }

  /** How many columns are named `name` (`mask.sum()`). */
  function Occurrences(names: seq<string>, name: string): nat
  {
    multiset(names)[name]
  }

  /** One iteration of the loop over OHLCV_KEYS: a name that occurs more
      than once has every column of that name replaced by the maximum. */
  function MergeKey(t: Table, name: string): (r: Table)
    requires Shaped(t)
    ensures Shaped(r) && r.names == t.names && r.height == t.height
  {
    if Occurrences(t.names, name) <= 1 then t
    else
      var merged := MaxColumn(t, name);
      Table(t.names, t.height, seq(|t.cols|, i requires 0 <= i < |t.cols| => if t.names[i] == name then merged else t.cols[i]))
  }

  /** The table after the loop has visited `keys`. */
  function Merged(t: Table, keys: seq<string>): (r: Table)
    requires Shaped(t)
    ensures Shaped(r) && r.names == t.names && r.height == t.height
  {
    if |keys| == 0 then t else MergeKey(Merged(t, keys[..|keys| - 1]), keys[|keys| - 1])
  }

  /** The note appended for a coalesced name. */
  function Action(name: string, count: nat): string
  {
    "coalesce:" + name + "[" + NatToString(count) + "]"
  }

  /** The keys among `keys` that occur more than once, in the order of
      `keys`. */
  function DuplicatedKeys(names: seq<string>, keys: seq<string>): seq<string>
  {
    Select(keys, k => Occurrences(names, k) > 1)
  }

  /** The notes the loop appends: one per duplicated key, in key order. */
  function Actions(names: seq<string>, keys: seq<string>): (r: seq<string>)
  {
    var dup := DuplicatedKeys(names, keys);
    seq(|dup|, i requires 0 <= i < |dup| => Action(dup[i], Occurrences(names, dup[i])))
  }

  // ---------------------------------------------------------------------
  // Keeping the first occurrence of every name

  /** The positions holding the first occurrence of their name, ascending. */
  function {:induction false} FirstOccurrences(names: seq<string>): (r: seq<nat>)
    ensures forall k :: 0 <= k < |r| ==> r[k] < |names| && names[r[k]] !in names[..r[k]]
    ensures forall k, l :: 0 <= k < l < |r| ==> r[k] < r[l]
    ensures forall i :: 0 <= i < |names| && names[i] !in names[..i] ==> i in r
  {
    if |names| == 0 then []
    else
      var n := |names| - 1;
      var init := names[..n];
      var prev := FirstOccurrences(init);
      assert forall i :: 0 <= i <= n ==> names[..i] == init[..i];
      if names[n] !in init then prev + [n] else prev
  }

  /** `data.loc[:, ~data.columns.duplicated()]`. */
  function KeepFirst(t: Table): (r: Table)
    requires Shaped(t)
    ensures Shaped(r) && r.height == t.height
    ensures var idx := FirstOccurrences(t.names);
            |r.names| == |idx| &&
            forall k :: 0 <= k < |idx| ==> r.names[k] == t.names[idx[k]] && r.cols[k] == t.cols[idx[k]]
  {
    var idx := FirstOccurrences(t.names);
    Table(seq(|idx|, k requires 0 <= k < |idx| => t.names[idx[k]]), t.height,
          seq(|idx|, k requires 0 <= k < |idx| => t.cols[idx[k]]))
  }

  /** After keeping first occurrences no name repeats, and every name of
      the table is still present. */
  lemma KeepFirstDistinct(t: Table)
    requires Shaped(t)
    ensures !HasDuplicates(KeepFirst(t).names)
    ensures forall name :: name in t.names <==> name in KeepFirst(t).names
  {
    var r := KeepFirst(t);
    var idx := FirstOccurrences(t.names);
    forall k, l | 0 <= k < l < |r.names|
      ensures r.names[k] != r.names[l]
    {
      assert t.names[idx[k]] in t.names[..idx[l]];
    }
    forall name | name in t.names
      ensures name in r.names
    {
      var i := FirstIndex(t.names, name);
      var k :| 0 <= k < |idx| && idx[k] == i;
      assert r.names[k] == name;
    }
  }

  /** The first position of a name present in `names`. */
  function FirstIndex(names: seq<string>, name: string): (i: nat)
    requires name in names
    ensures i < |names| && names[i] == name && name !in names[..i]
  {
    if names[0] == name then 0
    else
      assert name in names[1..];
      var j := FirstIndex(names[1..], name);
      assert names[..j + 1] == [names[0]] + names[1..][..j];
      j + 1
  }

  // ---------------------------------------------------------------------
  // coalesce_ohlcv

  /** What `coalesce_ohlcv` returns for a table with plain names. */
  function Coalesce(t: Table): (r: (Table, seq<string>))
    requires Shaped(t)
  {
    var merged := Merged(t, OhlcvKeys);
    var actions := Actions(t.names, OhlcvKeys);
    (if |actions| > 0 then KeepFirst(merged) else merged, actions)
  }

  /** `coalesce_ohlcv`: flattens the labels, then for each OHLCV key that
      names more than one column replaces those columns by their row-wise
      maximum and notes it; if anything was noted, repeated names keep
      their first column. */
  method CoalesceOhlcv(f: Frame) returns (data: Table, actions: seq<string>)
    requires WellFormed(f)
    ensures (data, actions) == Coalesce(Flatten(f))
  {
    data, actions := MergeKeys(Flatten(f), OhlcvKeys);
    if |actions| > 0 {
      data := KeepFirst(data);
    }
  }

  /** The loop over the keys: each key naming several columns is merged
      and noted with its column count. */
  method MergeKeys(t: Table, keys: seq<string>) returns (data: Table, actions: seq<string>)
    requires Shaped(t)
    ensures data == Merged(t, keys) && actions == Actions(t.names, keys)
  {
    data := t;
    actions := [];
    var i := 0;
    while i < |keys|
      invariant 0 <= i <= |keys|
      invariant Shaped(data) && data == Merged(t, keys[..i])
      invariant actions == Actions(t.names, keys[..i])
    {
      var name := keys[i];
      LoopStep(t, keys, i);
      if name in data.names {
        var count := multiset(data.names)[name];
        if count > 1 {
          data := MergeKey(data, name);
          actions := actions + [Action(name, count)];
        }
      }
      i := i + 1;
    }
    assert keys[..i] == keys;
  }

  /** One turn of the loop over `keys`, in terms of the prefixes. */
  lemma LoopStep(t: Table, keys: seq<string>, i: nat)
    requires Shaped(t) && i < |keys|
    ensures Merged(t, keys[..i + 1]) == MergeKey(Merged(t, keys[..i]), keys[i])
    ensures Actions(t.names, keys[..i + 1]) ==
              Actions(t.names, keys[..i]) +
                if Occurrences(t.names, keys[i]) > 1 then [Action(keys[i], Occurrences(t.names, keys[i]))] else []
    ensures keys[i] !in t.names ==> Occurrences(t.names, keys[i]) == 0
  {
    var pre, name := keys[..i], keys[i];
    assert keys[..i + 1] == pre + [name];
    assert (pre + [name])[..|pre|] == pre;
  }

  // ---------------------------------------------------------------------
  // Properties of coalesce_ohlcv

  /** Columns named after a key are only ever replaced by that key's
      maximum, which reads only those columns. */
  lemma {:induction false} MergedColumns(t: Table, keys: seq<string>)
    requires Shaped(t)
    requires forall a, b :: 0 <= a < b < |keys| ==> keys[a] != keys[b]
    ensures forall i :: 0 <= i < |t.cols| ==>
              Merged(t, keys).cols[i] ==
                if t.names[i] in keys && Occurrences(t.names, t.names[i]) > 1 then MaxColumn(t, t.names[i]) else t.cols[i]
  {
    if |keys| > 0 {
      var init, last := keys[..|keys| - 1], keys[|keys| - 1];
      assert keys == init + [last];
      MergedColumns(t, init);
      var m := Merged(t, init);
      assert forall a :: 0 <= a < |init| ==> init[a] == keys[a];
      if Occurrences(t.names, last) > 1 {
        SameMaxColumn(t, m, last);
      }
    }
  }

  /** Two tables that agree on the columns named `name` have the same
      maximum for `name`. */
  lemma SameMaxColumn(t: Table, m: Table, name: string)
    requires Shaped(t) && Shaped(m) && m.names == t.names && m.height == t.height
    requires forall i :: 0 <= i < |t.cols| && t.names[i] == name ==> m.cols[i] == t.cols[i]
    ensures MaxColumn(m, name) == MaxColumn(t, name)
  {
    forall row | 0 <= row < t.height
      ensures RowMax(m.names, m.cols, name, row, |m.names|) == RowMax(t.names, t.cols, name, row, |t.names|)
    {
      SameRowMax(t, m, name, row, |t.names|);
    }
  }

  lemma {:induction false} SameRowMax(t: Table, m: Table, name: string, row: nat, k: nat)
    requires Shaped(t) && Shaped(m) && m.names == t.names && m.height == t.height
    requires forall i :: 0 <= i < |t.cols| && t.names[i] == name ==> m.cols[i] == t.cols[i]
    requires row < t.height && k <= |t.names|
    ensures RowMax(m.names, m.cols, name, row, k) == RowMax(t.names, t.cols, name, row, k)
  {
    if k > 0 {
      SameRowMax(t, m, name, row, k - 1);
    }
  }

  /** The notes are exactly one per OHLCV key named by more than one
      column, each with the key and its column count, in key order. */
  lemma ActionsMeaning(names: seq<string>)
    ensures var acts := Actions(names, OhlcvKeys);
            var dup := DuplicatedKeys(names, OhlcvKeys);
            |acts| == |dup| &&
            (forall i :: 0 <= i < |acts| ==> acts[i] == Action(dup[i], Occurrences(names, dup[i]))) &&
            (forall k :: k in dup <==> k in OhlcvKeys && Occurrences(names, k) > 1) &&
            InOrderOf(dup, OhlcvKeys) &&
            (|acts| == 0 <==> forall k :: k in OhlcvKeys ==> Occurrences(names, k) <= 1)
  {
    var dup := DuplicatedKeys(names, OhlcvKeys);
    if |dup| > 0 {
      assert dup[0] in dup;
    }
  }

  /** Without notes the table is returned as flattened, even when other
      names repeat. */
  lemma NoActionsUnchanged(t: Table)
    requires Shaped(t)
    requires |Coalesce(t).1| == 0
    ensures Coalesce(t).0 == t
  {
    ActionsMeaning(t.names);
    MergedColumns(t, OhlcvKeys);
    var m := Merged(t, OhlcvKeys);
    assert m.cols == t.cols;
  }

  /** With notes, no name repeats in the result; the column kept for a
      duplicated OHLCV key holds, per row, the maximum of the numbers in
      the columns of that name, and every other column is the first
      column of its name. */
  lemma CoalescedColumns(t: Table)
    requires Shaped(t)
    requires |Coalesce(t).1| > 0
    ensures var out := Coalesce(t).0;
            !HasDuplicates(out.names) &&
            (forall name :: name in out.names <==> name in t.names) &&
            forall j :: 0 <= j < |out.names| ==>
              var i := FirstIndex(t.names, out.names[j]);
              out.cols[j] == if out.names[j] in OhlcvKeys && Occurrences(t.names, out.names[j]) > 1
                             then MaxColumn(t, out.names[j]) else t.cols[i]
  {
    OhlcvKeysDistinct();
    KeptColumns(t, OhlcvKeys);
  }

  lemma OhlcvKeysDistinct()
    ensures forall a, b :: 0 <= a < b < |OhlcvKeys| ==> OhlcvKeys[a] != OhlcvKeys[b]
  {
  }

  /** Merging distinct keys and then keeping first occurrences: no name
      repeats, and each kept column is the merged maximum of its key or
      the first column of its name. */
  lemma KeptColumns(t: Table, keys: seq<string>)
    requires Shaped(t)
    requires forall a, b :: 0 <= a < b < |keys| ==> keys[a] != keys[b]
    ensures var out := KeepFirst(Merged(t, keys));
            !HasDuplicates(out.names) &&
            (forall name :: name in out.names <==> name in t.names) &&
            forall j :: 0 <= j < |out.names| ==>
              var i := FirstIndex(t.names, out.names[j]);
              out.cols[j] == if out.names[j] in keys && Occurrences(t.names, out.names[j]) > 1
                             then MaxColumn(t, out.names[j]) else t.cols[i]
  {
    var m := Merged(t, keys);
    MergedColumns(t, keys);
    KeepFirstDistinct(m);
    var out := KeepFirst(m);
    var idx := FirstOccurrences(m.names);
    forall j | 0 <= j < |out.names|
      ensures FirstIndex(t.names, out.names[j]) == idx[j]
    {
      FirstIndexUnique(t.names, out.names[j], idx[j]);
    }
  }

  lemma FirstIndexUnique(names: seq<string>, name: string, i: nat)
    requires i < |names| && names[i] == name && name !in names[..i]
    ensures FirstIndex(names, name) == i
  {
    var j := FirstIndex(names, name);
  }

  /** The coalesced maximum: blank only where all the columns of that name
      are blank, otherwise the largest of their numbers. */
  lemma MaxColumnMeaning(t: Table, name: string, row: nat)
    requires Shaped(t) && row < t.height
    ensures var c := MaxColumn(t, name)[row];
            (c.Blank? <==> forall i :: 0 <= i < |t.names| && t.names[i] == name ==> t.cols[i][row].Blank?) &&
            (c.Num? ==> exists i :: 0 <= i < |t.names| && t.names[i] == name && t.cols[i][row] == c) &&
            (c.Num? ==> forall i :: 0 <= i < |t.names| && t.names[i] == name && t.cols[i][row].Num? ==> t.cols[i][row].x <= c.x)
  {
  }

  /** Coalescing twice notes nothing the second time and changes nothing. */
  lemma CoalesceIdempotent(t: Table)
    requires Shaped(t)
    ensures var out := Coalesce(t).0;
            Coalesce(out) == (out, [])
  {
    var out := Coalesce(t).0;
    ActionsMeaning(t.names);
    if |Coalesce(t).1| > 0 {
      CoalescedColumns(t);
      forall k | k in OhlcvKeys
        ensures Occurrences(out.names, k) <= 1
      {
        DistinctOccurrences(out.names, k);
      }
    } else {
      NoActionsUnchanged(t);
    }
    ActionsMeaning(out.names);
    NoActionsUnchanged(out);
  }

  lemma {:induction false} DistinctOccurrences(names: seq<string>, name: string)
    requires !HasDuplicates(names)
    ensures Occurrences(names, name) <= 1
  {
    if |names| > 0 {
      var init := names[..|names| - 1];
      assert names == init + [names[|names| - 1]];
      assert forall i, j :: 0 <= i < j < |init| ==> init[i] == names[i] && init[j] == names[j];
      DistinctOccurrences(init, name);
      if names[|names| - 1] == name {
        assert name !in init;
      }
    }
  }
}

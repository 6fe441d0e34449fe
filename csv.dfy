/** parseCsvData (src/lib/trading.ts:206-219): trim the text, split it into lines, drop the
    header line, split each line at commas into timestamp, open, high, low, close and volume,
    and keep the rows whose timestamp and close are numbers. Date parsing (`new Date(...)`) and
    `parseFloat` are foreign; they are given as functions that answer `None` for NaN. */
module Csv {
  import opened Wrappers

  /** The characters `String.prototype.trim` removes: white space and line terminators. */
  predicate IsJsSpace(c: char)
  {
    var n := c as int;
    || 0x09 <= n <= 0x0D || n == 0x20 || n == 0xA0 || n == 0x1680 || 0x2000 <= n <= 0x200A
    || n == 0x2028 || n == 0x2029 || n == 0x202F || n == 0x205F || n == 0x3000 || n == 0xFEFF
  }

  /** The text after its leading spaces: a suffix, and everything cut off is a space. */
  function TrimStart(s: string): (r: string)
    ensures |r| <= |s| && r == s[|s| - |r|..]
    ensures forall k :: 0 <= k < |s| - |r| ==> IsJsSpace(s[k])
    ensures |r| > 0 ==> !IsJsSpace(r[0])
  {
    if |s| > 0 && IsJsSpace(s[0]) then TrimStart(s[1..]) else s
  }

  /** The text before its trailing spaces: a prefix, and everything cut off is a space. */
  function TrimEnd(s: string): (r: string)
    ensures |r| <= |s| && r == s[..|r|]
    ensures forall k :: |r| <= k < |s| ==> IsJsSpace(s[k])
    ensures |r| > 0 ==> !IsJsSpace(r[|r| - 1])
  {
    if |s| > 0 && IsJsSpace(s[|s| - 1]) then TrimEnd(s[..|s| - 1]) else s
  }

  /** `trim()`: the spaces at the start, then the spaces at the end, are cut off. The result is
      the slice of `s` from `i` that neither starts nor ends with a space, and everything cut
      off on either side is a space. */
  function Trim(s: string): (r: string)
    ensures |r| > 0 ==> !IsJsSpace(r[0]) && !IsJsSpace(r[|r| - 1])
    ensures var i := |s| - |TrimStart(s)|;
            && i + |r| <= |s| && r == s[i..i + |r|]
            && (forall k :: 0 <= k < i ==> IsJsSpace(s[k]))
            && (forall k :: i + |r| <= k < |s| ==> IsJsSpace(s[k]))
  {
    TrimEndOfSuffix(s, TrimStart(s), |s| - |TrimStart(s)|);
    TrimEnd(TrimStart(s))
  }

  /** Trimming the end of the suffix `t` of `s` from `i` leaves a slice of `s`, and cuts off only
      spaces of `s`. */
  lemma TrimEndOfSuffix(s: string, t: string, i: nat)
    requires i <= |s| && t == s[i..]
    ensures i + |TrimEnd(t)| <= |s| && TrimEnd(t) == s[i..i + |TrimEnd(t)|]
    ensures forall k :: i + |TrimEnd(t)| <= k < |s| ==> IsJsSpace(s[k])
  {
    var r := TrimEnd(t);
    forall k | i + |r| <= k < |s| ensures IsJsSpace(s[k]) {
      assert s[k] == t[k - i];
    }
  }

  /** `split(sep)`: the pieces between the separators, in order; a text without the separator
      is one piece, so the empty text gives `[""]`. */
  function Split(s: string, sep: char): (r: seq<string>)
    ensures |r| >= 1
    ensures forall k :: 0 <= k < |r| ==> sep !in r[k]
    decreases |s|
  {
    if sep in s then
      var i := IndexOf(s, sep);
      [s[..i]] + Split(s[i + 1..], sep)
    else [s]
  }

  function IndexOf(s: string, c: char): (i: nat)
    requires c in s
    ensures i < |s| && s[i] == c && c !in s[..i]
  {
    if s[0] == c then 0 else 1 + IndexOf(s[1..], c)
  }

  /** The pieces joined back with the separator. */
  function Join(pieces: seq<string>, sep: char): string
    requires |pieces| >= 1
  {
    if |pieces| == 1 then pieces[0] else pieces[0] + [sep] + Join(pieces[1..], sep)
  }

  /** Splitting loses nothing: joining the pieces gives the text back. */
  lemma {:induction false} SplitJoin(s: string, sep: char)
    ensures Join(Split(s, sep), sep) == s
    decreases |s|
  {
    if sep in s {
      var i := IndexOf(s, sep);
      var rest := Split(s[i + 1..], sep);
      SplitJoin(s[i + 1..], sep);
      var pieces := [s[..i]] + rest;
      assert Split(s, sep) == pieces;
      assert pieces[1..] == rest;
      assert Join(pieces, sep) == s[..i] + [sep] + Join(rest, sep);
      assert s == s[..i] + [sep] + s[i + 1..];
    }
  }

  /** A first piece without the separator, then the separator, comes off as the first piece. */
  lemma SplitFirst(head: string, sep: char, rest: string)
    requires sep !in head
    ensures Split(head + [sep] + rest, sep) == [head] + Split(rest, sep)
  {
    var s := head + [sep] + rest;
    assert s[|head|] == sep;
    var i := IndexOf(s, sep);
    assert s[..|head|] == head;
    assert i == |head|;
    assert s[i + 1..] == rest;
  }

  /** A parsed row; `None` stands for NaN. `timestamp` and `close` are never NaN in the result,
      the other fields may be. */
  datatype ParsedCandle = ParsedCandle(timestamp: int, open: Option<real>, high: Option<real>,
                                       low: Option<real>, close: real, volume: Option<real>)

  /** `new Date(text).getTime()` and `parseFloat(text)`, with `None` for NaN. */
  datatype Parsers = Parsers(date: string -> Option<int>, number: string -> Option<real>)

  /** A field of the destructured row: missing fields are `undefined`, which both parsers turn
      into NaN. */
  function DateField(fields: seq<string>, k: nat, p: Parsers): Option<int>
  {
    if k < |fields| then p.date(fields[k]) else None
  }

  function NumberField(fields: seq<string>, k: nat, p: Parsers): Option<real>
  {
    if k < |fields| then p.number(fields[k]) else None
  }

  /** The `map` and the `filter` for one row: a candle exactly when its timestamp and its close
      are numbers. */
  function ParseRow(row: string, p: Parsers): (r: Option<ParsedCandle>)
    ensures var fields := Split(row, ',');
            r.Some? <==> DateField(fields, 0, p).Some? && NumberField(fields, 4, p).Some?
    ensures r.Some? ==> var fields := Split(row, ',');
                        && Some(r.value.timestamp) == DateField(fields, 0, p)
                        && r.value.open == NumberField(fields, 1, p)
                        && r.value.high == NumberField(fields, 2, p)
                        && r.value.low == NumberField(fields, 3, p)
                        && Some(r.value.close) == NumberField(fields, 4, p)
                        && r.value.volume == NumberField(fields, 5, p)
  {
    var fields := Split(row, ',');
    var timestamp := DateField(fields, 0, p);
    var close := NumberField(fields, 4, p);
    if timestamp.Some? && close.Some? then
      Some(ParsedCandle(timestamp.value, NumberField(fields, 1, p), NumberField(fields, 2, p),
                        NumberField(fields, 3, p), close.value, NumberField(fields, 5, p)))
    else None
  }

  /** The candles of the rows that parse, in row order. */
  function KeepRows(rows: seq<string>, p: Parsers): (r: seq<ParsedCandle>)
    ensures |r| <= |rows|
  {
    if |rows| == 0 then []
    else
      var last := ParseRow(rows[|rows| - 1], p);
      KeepRows(rows[..|rows| - 1], p) + (if last.Some? then [last.value] else [])
  }

  /** `parseCsvData`. */
  function ParseCsv(csv: string, p: Parsers): (r: seq<ParsedCandle>)
    ensures |r| < |Split(Trim(csv), '\n')|
    ensures forall c :: c in r ==>
              exists k :: 1 <= k < |Split(Trim(csv), '\n')| && ParseRow(Split(Trim(csv), '\n')[k], p) == Some(c)
  {
    var lines := Split(Trim(csv), '\n');
    KeptFromRows(lines[1..], p);
    assert forall k :: 0 <= k < |lines| - 1 ==> lines[1..][k] == lines[k + 1];
    KeepRows(lines[1..], p)
  }

  /** Rows are kept in order: the candles of two runs of rows are the candles of each. */
  lemma {:induction false} KeepRowsAppend(a: seq<string>, b: seq<string>, p: Parsers)
    ensures KeepRows(a + b, p) == KeepRows(a, p) + KeepRows(b, p)
    decreases |b|
  {
    if |b| > 0 {
      var b0 := b[..|b| - 1];
      KeepRowsAppend(a, b0, p);
      assert (a + b)[..|a + b| - 1] == a + b0;
      assert (a + b)[|a + b| - 1] == b[|b| - 1];
    } else {
      assert a + b == a;
    }
  }

  /** At most one candle per row, and every row that parses gives one. */
  lemma {:induction false} KeepRowsCount(rows: seq<string>, p: Parsers)
    ensures |KeepRows(rows, p)| <= |rows|
    ensures (forall k :: 0 <= k < |rows| ==> ParseRow(rows[k], p).Some?) ==> |KeepRows(rows, p)| == |rows|
    ensures (forall k :: 0 <= k < |rows| ==> ParseRow(rows[k], p).None?) ==> KeepRows(rows, p) == []
  {
    if |rows| > 0 {
      var init := rows[..|rows| - 1];
      KeepRowsCount(init, p);
      assert forall k :: 0 <= k < |init| ==> init[k] == rows[k];
    }
  }

  /** Every candle comes from a row whose timestamp and close parse. */
  lemma {:induction false} KeptFromRows(rows: seq<string>, p: Parsers)
    ensures forall c :: c in KeepRows(rows, p) ==> exists k :: 0 <= k < |rows| && ParseRow(rows[k], p) == Some(c)
  {
    if |rows| > 0 {
      var init := rows[..|rows| - 1];
      KeptFromRows(init, p);
      forall c | c in KeepRows(rows, p)
        ensures exists k :: 0 <= k < |rows| && ParseRow(rows[k], p) == Some(c)
      {
        if c in KeepRows(init, p) {
          var k :| 0 <= k < |init| && ParseRow(init[k], p) == Some(c);
          assert rows[k] == init[k];
        } else {
          assert ParseRow(rows[|rows| - 1], p) == Some(c);
        }
      }
    }
  }

  /** The first line is a header and never becomes a candle: after the header only the lines
      that follow it are parsed, and there are at most as many candles as those lines. */
  lemma HeaderDropped(csv: string, header: string, body: string, p: Parsers)
    requires Trim(csv) == header + ['\n'] + body && '\n' !in header
    ensures ParseCsv(csv, p) == KeepRows(Split(body, '\n'), p)
    ensures |ParseCsv(csv, p)| <= |Split(body, '\n')|
  {
    SplitFirst(header, '\n', body);
    KeepRowsCount(Split(body, '\n'), p);
  }

  /** A text of a single line, the header alone, gives no candle. */
  lemma HeaderOnly(csv: string, p: Parsers)
    requires '\n' !in Trim(csv)
    ensures ParseCsv(csv, p) == []
  {
  }
}

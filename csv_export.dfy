/** The CSV text built by the Export button (handleExport in
    frontend/src/components/FilterControls.jsx), up to the point where it is handed
    to the browser.

    The header line is the first record's keys joined by ','. Each record gives one
    line with one cell per header: an object value is written as its JSON text, any
    other value as String(value) in double quotes with every inner quote doubled,
    which is the escaping of rule 7 in section 2 of RFC 4180. Lines are separated by
    '\n' rather than the CRLF of rule 2, and a JSON cell is not quoted. */
module CsvExport {
  import opened JsValues

  const DataUriPrefix: string := "data:text/csv;charset=utf-8,"

  /** `parts.join(sep)`. */
  function Join(parts: seq<string>, sep: string): string {
    if parts == [] then ""
    else if |parts| == 1 then parts[0]
    else parts[0] + sep + Join(parts[1..], sep)
  }

  /** `s.replace(/"/g, '""')`. */
  function DoubleQuotes(s: string): string {
    if s == [] then ""
    else (if s[0] == '"' then "\"\"" else [s[0]]) + DoubleQuotes(s[1..])
  }

  /** `"${s.replace(/"/g, '""')}"`. */
  function Quote(s: string): string {
    "\"" + DoubleQuotes(s) + "\""
  }

  /** Reads a quoted field after its opening quote: the field's text with each doubled
      quote halved, and whatever follows the closing quote. None when no closing quote. */
  function ReadQuoted(s: string): (r: Option<(string, string)>)
    ensures r.Some? ==> |r.value.1| < |s|
    decreases |s|
  {
    if s == [] then None
    else if s[0] == '"' then
      if |s| >= 2 && s[1] == '"' then
        match ReadQuoted(s[2..])
        case None => None
        case Some((t, rest)) => Some(("\"" + t, rest))
      else Some(("", s[1..]))
    else
      match ReadQuoted(s[1..])
      case None => None
      case Some((t, rest)) => Some(([s[0]] + t, rest))
  }

  /** The RFC 4180 reading of one quoted field: None unless f is exactly one quoted field. */
  function Unquote(f: string): Option<string> {
    if |f| >= 1 && f[0] == '"' then
      match ReadQuoted(f[1..])
      case None => None
      case Some((t, rest)) => if rest == "" then Some(t) else None
    else None
  }

  /** Reads one or more quoted fields separated by ','. */
  function ParseFields(s: string): Option<seq<string>>
    decreases |s|
  {
    if |s| >= 1 && s[0] == '"' then
      match ReadQuoted(s[1..])
      case None => None
      case Some((t, rest)) =>
        if rest == "" then Some([t])
        else if rest[0] == ',' then
          match ParseFields(rest[1..])
          case None => None
          case Some(ts) => Some([t] + ts)
        else None
    else None
  }

  /** Reads a line of quoted fields; the empty line has no fields. */
  function ParseRow(s: string): Option<seq<string>> {
    if s == "" then Some([]) else ParseFields(s)
  }

  lemma {:induction false} ReadQuotedDoubled(x: string, rest: string)
    requires rest == [] || rest[0] != '"'
    ensures ReadQuoted(DoubleQuotes(x) + "\"" + rest) == Some((x, rest))
  {
    var s := DoubleQuotes(x) + "\"" + rest;
    if x == [] {
      assert s == "\"" + rest;
      assert s[1..] == rest;
    } else {
      ReadQuotedDoubled(x[1..], rest);
      var tail := DoubleQuotes(x[1..]) + "\"" + rest;
      if x[0] == '"' {
        assert s == "\"\"" + tail;
        assert s[2..] == tail;
        assert "\"" + x[1..] == x;
      } else {
        assert s == [x[0]] + tail;
        assert s[1..] == tail;
        assert [x[0]] + x[1..] == x;
      }
    }
  }

  /** Rule 7 round trip: unquoting a quoted field and halving its doubled quotes gives
      back the original text. */
  lemma QuoteRoundTrip(x: string)
    ensures Unquote(Quote(x)) == Some(x)
  {
    ReadQuotedDoubled(x, "");
    assert Quote(x)[1..] == DoubleQuotes(x) + "\"" + "";
  }

  /** The text of one cell: an object's JSON, or the quoted String() of anything else
      (undefined and null included). A non-object cell reads back as String(value). */
  function Cell(v: Value): (c: string)
    ensures v.Obj? ==> c == v.o.json
    ensures !v.Obj? ==> Unquote(c) == Some(ToStr(v))
  {
    if v.Obj? then v.o.json
    else
      QuoteRoundTrip(ToStr(v));
      Quote(ToStr(v))
  }

  /** `headers.map(header => cell of e[header])`. */
  function Cells(e: Record, headers: seq<string>): (cs: seq<string>)
    ensures |cs| == |headers|
    ensures forall j :: 0 <= j < |headers| ==> cs[j] == Cell(Get(e, headers[j]))
  {
    seq(|headers|, j requires 0 <= j < |headers| => Cell(Get(e, headers[j])))
  }

  /** One data line. */
  function Row(e: Record, headers: seq<string>): string {
    Join(Cells(e, headers), ",")
  }

  /** One data line per record, in order. */
  function Rows(apps: seq<Record>, headers: seq<string>): (rs: seq<string>)
    ensures |rs| == |apps|
    ensures forall i :: 0 <= i < |apps| ==> rs[i] == Row(apps[i], headers)
  {
    seq(|apps|, i requires 0 <= i < |apps| => Row(apps[i], headers))
  }

  /** The header line: the first record's keys. */
  function HeaderLine(apps: seq<Record>): string
    requires |apps| > 0
  {
    Join(Keys(apps[0]), ",")
  }

  /** handleExport's csvContent; None for an empty list, where it alerts and stops. */
  function HandleExport(apps: seq<Record>): Option<string> {
    if |apps| == 0 then None
    else
      var headers := Keys(apps[0]);
      Some(DataUriPrefix + Join(headers, ",") + "\n" + Join(Rows(apps, headers), "\n"))
  }

  /** `s.split(c)`. */
  function Split(s: string, c: char): (r: seq<string>)
    ensures |r| >= 1
  {
    if s == [] then [""]
    else
      var rest := Split(s[1..], c);
      if s[0] == c then [""] + rest else [[s[0]] + rest[0]] + rest[1..]
  }

  lemma {:induction false} SplitPrefix(p: string, t: string, c: char)
    requires c !in p
    ensures Split(p + t, c) == [p + Split(t, c)[0]] + Split(t, c)[1..]
  {
    var st := Split(t, c);
    if p != [] {
      SplitPrefix(p[1..], t, c);
      assert (p + t)[1..] == p[1..] + t;
      assert p[0] in p;
      var r := Split(p[1..] + t, c);
      assert r == [p[1..] + st[0]] + st[1..];
      assert r[0] == p[1..] + st[0] && r[1..] == st[1..];
      assert Split(p + t, c) == [[p[0]] + r[0]] + r[1..];
      assert [p[0]] + (p[1..] + st[0]) == p + st[0];
    } else {
      assert p + t == t;
      assert p + st[0] == st[0];
      assert st == [st[0]] + st[1..];
    }
  }

  /** Splitting on a separator that no part contains gives back the parts. */
  lemma {:induction false} SplitJoin(parts: seq<string>, c: char)
    requires |parts| >= 1
    requires forall i :: 0 <= i < |parts| ==> c !in parts[i]
    ensures Split(Join(parts, [c]), c) == parts
  {
    if |parts| == 1 {
      SplitPrefix(parts[0], "", c);
      assert Split("", c) == [""];
      assert parts[0] + "" == parts[0];
      assert Join(parts, [c]) == parts[0];
      assert Split(parts[0], c) == [parts[0]];
    } else {
      var tail := Join(parts[1..], [c]);
      SplitJoin(parts[1..], c);
      var u := [c] + tail;
      SplitPrefix(parts[0], u, c);
      assert Join(parts, [c]) == parts[0] + u;
      assert u[1..] == tail;
      assert Split(u, c) == [""] + Split(tail, c);
      assert parts[0] + "" == parts[0];
      assert parts == [parts[0]] + parts[1..];
    }
  }

  /** `qs.map(Quote)`. */
  function QuoteAll(xs: seq<string>): (qs: seq<string>)
    ensures |qs| == |xs|
    ensures forall i :: 0 <= i < |xs| ==> qs[i] == Quote(xs[i])
  {
    seq(|xs|, i requires 0 <= i < |xs| => Quote(xs[i]))
  }

  lemma {:induction false} ParseQuotedFields(xs: seq<string>)
    requires |xs| >= 1
    ensures ParseFields(Join(QuoteAll(xs), ",")) == Some(xs)
  {
    var qs := QuoteAll(xs);
    var s := Join(qs, ",");
    if |xs| == 1 {
      ReadQuotedDoubled(xs[0], "");
      assert s == Quote(xs[0]);
      assert s[1..] == DoubleQuotes(xs[0]) + "\"" + "";
      assert xs == [xs[0]];
    } else {
      var tail := Join(qs[1..], ",");
      ParseQuotedFields(xs[1..]);
      assert QuoteAll(xs[1..]) == qs[1..];
      ReadQuotedDoubled(xs[0], "," + tail);
      assert s[1..] == DoubleQuotes(xs[0]) + "\"" + ("," + tail);
      assert ("," + tail)[1..] == tail;
      assert xs == [xs[0]] + xs[1..];
    }
  }

  /** `headers.map(header => String(e[header]))`. */
  function Texts(e: Record, headers: seq<string>): (ts: seq<string>)
    ensures |ts| == |headers|
    ensures forall j :: 0 <= j < |headers| ==> ts[j] == ToStr(Get(e, headers[j]))
  {
    seq(|headers|, j requires 0 <= j < |headers| => ToStr(Get(e, headers[j])))
  }

  /** A line whose values are all non-objects parses back, as RFC 4180 quoted fields,
      into exactly one String(value) per header, in header order. */
  lemma RowRoundTrip(e: Record, headers: seq<string>)
    requires forall j :: 0 <= j < |headers| ==> !Get(e, headers[j]).Obj?
    ensures ParseRow(Row(e, headers)) == Some(Texts(e, headers))
  {
    var texts := Texts(e, headers);
    var cs := Cells(e, headers);
    forall j | 0 <= j < |headers| ensures cs[j] == QuoteAll(texts)[j] {
      assert cs[j] == Cell(Get(e, headers[j]));
    }
    assert cs == QuoteAll(texts);
    if |headers| > 0 {
      ParseQuotedFields(texts);
    }
  }

  /** A header the record lacks renders as the quoted text "undefined". */
  lemma MissingKeyCell(e: Record, headers: seq<string>, j: nat)
    requires j < |headers| && headers[j] !in Keys(e)
    ensures Cells(e, headers)[j] == "\"undefined\""
  {
    GetMissing(e, headers[j]);
  }

  /** An empty list exports nothing. */
  lemma EmptyExportsNothing()
    ensures HandleExport([]) == None
  {
  }

  /** The text a cell's value contributes before quoting. */
  function CellSource(v: Value): string {
    if v.Obj? then v.o.json else ToStr(v)
  }

  lemma {:induction false} DoubleQuotesKeeps(s: string, c: char)
    requires c != '"' && c !in s
    ensures c !in DoubleQuotes(s)
  {
    if s != [] {
      DoubleQuotesKeeps(s[1..], c);
    }
  }

  lemma {:induction false} JoinKeeps(parts: seq<string>, sep: string, c: char)
    requires c !in sep
    requires forall i :: 0 <= i < |parts| ==> c !in parts[i]
    ensures c !in Join(parts, sep)
  {
    if |parts| > 1 {
      JoinKeeps(parts[1..], sep, c);
    }
  }

  /** A data line has no newline when no value's text has one. */
  lemma RowKeepsNewlines(e: Record, headers: seq<string>)
    requires forall j :: 0 <= j < |headers| ==> '\n' !in CellSource(Get(e, headers[j]))
    ensures '\n' !in Row(e, headers)
  {
    var cs := Cells(e, headers);
    forall j | 0 <= j < |headers| ensures '\n' !in cs[j] {
      var v := Get(e, headers[j]);
      if !v.Obj? {
        DoubleQuotesKeeps(ToStr(v), '\n');
        assert cs[j] == "\"" + DoubleQuotes(ToStr(v)) + "\"";
      }
    }
    JoinKeeps(cs, ",", '\n');
  }

  /** The text handleExport builds after the prefix, as a list of lines joined by '\n'. */
  lemma ExportIsLines(apps: seq<Record>)
    requires |apps| > 0
    ensures HandleExport(apps) ==
              Some(DataUriPrefix + Join([HeaderLine(apps)] + Rows(apps, Keys(apps[0])), "\n"))
  {
    var rows := Rows(apps, Keys(apps[0]));
    var lines := [HeaderLine(apps)] + rows;
    assert lines[1..] == rows;
    assert Join(lines, "\n") == HeaderLine(apps) + "\n" + Join(rows, "\n");
    assert DataUriPrefix + Join(lines, "\n") == DataUriPrefix + HeaderLine(apps) + "\n" + Join(rows, "\n");
  }

  /** When no key and no value's text contains a newline, the export is the data-URI
      prefix followed by exactly |apps| + 1 lines: the header line, then one line per
      record in input order. */
  lemma ExportLines(apps: seq<Record>)
    requires |apps| > 0
    requires forall j :: 0 <= j < |Keys(apps[0])| ==> '\n' !in Keys(apps[0])[j]
    requires forall i, j :: 0 <= i < |apps| && 0 <= j < |Keys(apps[0])| ==>
               '\n' !in CellSource(Get(apps[i], Keys(apps[0])[j]))
    ensures HandleExport(apps).Some?
    ensures var out := HandleExport(apps).value;
            |DataUriPrefix| <= |out| && out[..|DataUriPrefix|] == DataUriPrefix &&
            Split(out[|DataUriPrefix|..], '\n') == [HeaderLine(apps)] + Rows(apps, Keys(apps[0]))
    ensures |Split(HandleExport(apps).value[|DataUriPrefix|..], '\n')| == |apps| + 1
  {
    var headers := Keys(apps[0]);
    var rows := Rows(apps, headers);
    var lines := [HeaderLine(apps)] + rows;
    JoinKeeps(headers, ",", '\n');
    forall i | 0 <= i < |lines| ensures '\n' !in lines[i] {
      if i > 0 {
        RowKeepsNewlines(apps[i - 1], headers);
      }
    }
    SplitJoin(lines, '\n');
    ExportIsLines(apps);
    var out := DataUriPrefix + Join(lines, "\n");
    assert out[|DataUriPrefix|..] == Join(lines, "\n");
  }
}

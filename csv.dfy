/**
 * CSV field escaping as the report exporter does it, and a reader for the
 * quoting rules of section 2 of RFC 4180 (rules 4-7: fields separated by
 * commas, a field with a comma, a double quote or a line break enclosed in
 * double quotes, an embedded double quote written twice). Records end with
 * "\n" rather than CRLF, as the exporter writes them. The reader is the
 * partner of the writer: reading back a written file gives the values.
 */
module Csv {
  import opened Wrappers

  /** The exporter quotes a value iff it contains a comma, a double quote or a line feed. */
  predicate NeedsQuoting(v: string) {
    ',' in v || '"' in v || '\n' in v
  }

  /** Every double quote written twice. */
  function DoubleQuotes(v: string): (r: string)
    ensures |r| >= |v|
    ensures '"' !in v ==> r == v
  {
    if v == [] then []
    else (if v[0] == '"' then "\"\"" else [v[0]]) + DoubleQuotes(v[1..])
  }

  /** `escapeCSV`. A lone carriage return does not trigger quoting. */
  function Escape(v: string): (e: string)
    ensures !NeedsQuoting(v) ==> e == v
    ensures NeedsQuoting(v) ==> |e| >= |v| + 2 && e[0] == '"' && e[|e| - 1] == '"'
  {
    if NeedsQuoting(v) then "\"" + DoubleQuotes(v) + "\"" else v
  }

  /** A cell of a written row: text goes through `escapeCSV`, numbers and
      the Yes/No flag are written raw. */
  datatype Cell = Text(text: string) | Raw(raw: string) {
    function Encoded(): string {
      match this
      case Text(t) => Escape(t)
      case Raw(r) => r
    }

    function Value(): string {
      match this
      case Text(t) => t
      case Raw(r) => r
    }

    /** A raw cell is readable back only when it needs no quoting. */
    predicate WellFormed() {
      Raw? ==> !NeedsQuoting(raw)
    }
  }

  /** `listOf(...).joinToString(",")` over the encoded cells. */
  function Join(cells: seq<Cell>): string {
    if cells == [] then ""
    else if |cells| == 1 then cells[0].Encoded()
    else cells[0].Encoded() + "," + Join(cells[1..])
  }

  /** One written record: the joined row and its line feed. */
  function Line(cells: seq<Cell>): string {
    Join(cells) + "\n"
  }

  /** All records, in order. */
  function Render(rows: seq<seq<Cell>>): string {
    if rows == [] then "" else Line(rows[0]) + Render(rows[1..])
  }

  function Values(cells: seq<Cell>): (vs: seq<string>)
    ensures |vs| == |cells|
    ensures forall i :: 0 <= i < |cells| ==> vs[i] == cells[i].Value()
  {
    if cells == [] then [] else [cells[0].Value()] + Values(cells[1..])
  }

  function RowValues(rows: seq<seq<Cell>>): (vss: seq<seq<string>>)
    ensures |vss| == |rows|
    ensures forall i :: 0 <= i < |rows| ==> vss[i] == Values(rows[i])
  {
    if rows == [] then [] else [Values(rows[0])] + RowValues(rows[1..])
  }

  ghost predicate RowsWellFormed(rows: seq<seq<Cell>>) {
    forall i :: 0 <= i < |rows| ==> |rows[i]| >= 1 && forall j :: 0 <= j < |rows[i]| ==> rows[i][j].WellFormed()
  }

  /** Appending a row appends its line: what a writer loop relies on. */
  lemma {:induction false} RenderAppend(rows: seq<seq<Cell>>, row: seq<Cell>)
    ensures Render(rows + [row]) == Render(rows) + Line(row)
  {
    if rows == [] {
      assert rows + [row] == [row];
      assert Render([row]) == Line(row) + Render([]);
    } else {
      var all := rows + [row];
      assert all[0] == rows[0];
      assert all[1..] == rows[1..] + [row];
      RenderAppend(rows[1..], row);
    }
  }

  // ---- Reading back ----

  predicate AtDelimiter(t: string) {
    t == [] || t[0] == ',' || t[0] == '\n'
  }

  /** The body of a quoted field (after its opening quote) up to its closing
      quote; a doubled quote stands for one quote. None when unterminated. */
  function ParseQuoted(s: string): (r: Option<(string, string)>)
    ensures r.Some? ==> |r.value.1| < |s|
  {
    if s == [] then None
    else if s[0] == '"' then
      if |s| > 1 && s[1] == '"' then
        match ParseQuoted(s[2..])
        case None => None
        case Some(p) => Some(("\"" + p.0, p.1))
      else Some(("", s[1..]))
    else
      match ParseQuoted(s[1..])
      case None => None
      case Some(p) => Some(([s[0]] + p.0, p.1))
  }

  /** The characters of an unquoted field, up to the next comma or line feed. */
  function ParseRaw(s: string): (r: (string, string))
    ensures r.0 + r.1 == s
    ensures AtDelimiter(r.1)
  {
    if AtDelimiter(s) then ("", s)
    else
      var p := ParseRaw(s[1..]);
      assert s == [s[0]] + s[1..];
      ([s[0]] + p.0, p.1)
  }

  /** One field at the head of `s` and what follows it; the rest starts at a
      delimiter. An unquoted field must hold no double quote. */
  function ParseField(s: string): (r: Option<(string, string)>)
    ensures r.Some? ==> |r.value.1| <= |s| && AtDelimiter(r.value.1)
  {
    if s != [] && s[0] == '"' then
      match ParseQuoted(s[1..])
      case None => None
      case Some(p) => if AtDelimiter(p.1) then Some(p) else None
    else
      var p := ParseRaw(s);
      if '"' in p.0 then None else Some(p)
  }

  /** The fields of the record at the head of `s`, and the text after its line feed. */
  function ParseRecord(s: string): (r: Option<(seq<string>, string)>)
    ensures r.Some? ==> |r.value.1| < |s| || s == []
    decreases |s|
  {
    match ParseField(s)
    case None => None
    case Some(p) =>
      if p.1 == [] then Some(([p.0], []))
      else if p.1[0] == '\n' then Some(([p.0], p.1[1..]))
      else
        match ParseRecord(p.1[1..])
        case None => None
        case Some(q) => Some(([p.0] + q.0, q.1))
  }

  /** All records of a file. */
  function ParseRows(s: string): Option<seq<seq<string>>>
    decreases |s|
  {
    if s == [] then Some([])
    else
      match ParseRecord(s)
      case None => None
      case Some(q) =>
        match ParseRows(q.1)
        case None => None
        case Some(rows) => Some([q.0] + rows)
  }

  lemma {:induction false} ParseQuotedDoubled(v: string, t: string)
    requires t == [] || t[0] != '"'
    ensures ParseQuoted(DoubleQuotes(v) + "\"" + t) == Some((v, t))
  {
    var s := DoubleQuotes(v) + "\"" + t;
    if v == [] {
      assert s == "\"" + t;
    } else {
      ParseQuotedDoubled(v[1..], t);
      var s' := DoubleQuotes(v[1..]) + "\"" + t;
      if v[0] == '"' {
        assert s == "\"\"" + s';
        assert s[2..] == s';
        assert "\"" + v[1..] == v;
      } else {
        assert s == [v[0]] + s';
        assert s[1..] == s';
        assert [v[0]] + v[1..] == v;
      }
    }
  }

  lemma {:induction false} ParseRawPlain(v: string, t: string)
    requires !NeedsQuoting(v) && AtDelimiter(t)
    ensures ParseRaw(v + t) == (v, t)
  {
    if v != [] {
      assert v[0] in v;
      var s := v + t;
      assert s[1..] == v[1..] + t;
      assert !NeedsQuoting(v[1..]) by {
        forall c | c in v[1..] ensures c in v { }
      }
      ParseRawPlain(v[1..], t);
      assert [v[0]] + v[1..] == v;
    } else {
      assert v + t == t;
    }
  }

  lemma ParseFieldQuoted(v: string, t: string)
    requires AtDelimiter(t)
    ensures ParseField("\"" + DoubleQuotes(v) + "\"" + t) == Some((v, t))
  {
    var body := DoubleQuotes(v) + "\"" + t;
    var s := "\"" + body;
    assert s == "\"" + DoubleQuotes(v) + "\"" + t;
    assert s[0] == '"' && s[1..] == body;
    ParseQuotedDoubled(v, t);
  }

  lemma ParseFieldPlain(v: string, t: string)
    requires !NeedsQuoting(v) && AtDelimiter(t)
    ensures ParseField(v + t) == Some((v, t))
  {
    ParseRawPlain(v, t);
    if v != [] {
      assert v[0] in v;
      assert (v + t)[0] == v[0];
    } else {
      assert v + t == t;
    }
  }

  /** A written cell followed by a delimiter reads back as its value. */
  lemma ParseFieldEncoded(c: Cell, t: string)
    requires c.WellFormed() && AtDelimiter(t)
    ensures ParseField(c.Encoded() + t) == Some((c.Value(), t))
  {
    if c.Text? && NeedsQuoting(c.text) {
      ParseFieldQuoted(c.text, t);
    } else {
      ParseFieldPlain(c.Value(), t);
    }
  }

  /** A written record followed by anything reads back as its values. */
  lemma {:induction false} ParseRecordLine(cells: seq<Cell>, t: string)
    requires |cells| >= 1
    requires forall j :: 0 <= j < |cells| ==> cells[j].WellFormed()
    ensures ParseRecord(Line(cells) + t) == Some((Values(cells), t))
  {
    var s := Line(cells) + t;
    if |cells| == 1 {
      assert Join(cells) == cells[0].Encoded();
      var after := "\n" + t;
      assert s == cells[0].Encoded() + after;
      ParseFieldEncoded(cells[0], after);
      assert ParseField(s) == Some((cells[0].Value(), after));
      assert after != [] && after[0] == '\n' && after[1..] == t;
      assert ParseRecord(s) == Some(([cells[0].Value()], t));
      assert Values(cells) == [cells[0].Value()];
    } else {
      var rest := "," + (Line(cells[1..]) + t);
      assert s == cells[0].Encoded() + rest;
      ParseFieldEncoded(cells[0], rest);
      ParseRecordLine(cells[1..], t);
      assert rest[1..] == Line(cells[1..]) + t;
      assert Values(cells) == [cells[0].Value()] + Values(cells[1..]);
    }
  }

  /** Reading a written file gives back every row's values, in order. */
  lemma {:induction false} ParseRowsRender(rows: seq<seq<Cell>>)
    requires RowsWellFormed(rows)
    ensures ParseRows(Render(rows)) == Some(RowValues(rows))
  {
    if rows != [] {
      var s := Render(rows);
      ParseRecordLine(rows[0], Render(rows[1..]));
      assert RowsWellFormed(rows[1..]) by {
        forall i | 0 <= i < |rows[1..]| ensures |rows[1..][i]| >= 1 && forall j :: 0 <= j < |rows[1..][i]| ==> rows[1..][i][j].WellFormed() {
          assert rows[1..][i] == rows[i + 1];
        }
      }
      ParseRowsRender(rows[1..]);
      var line := Line(rows[0]);
      assert s == line + Render(rows[1..]);
      assert |line| >= 1;
      assert ParseRecord(s) == Some((Values(rows[0]), Render(rows[1..])));
    }
  }

  /** Escaping leaves a value that needs no quoting alone and otherwise
      produces a quoted field that reads back as the value. */
  lemma EscapeReadsBack(v: string)
    ensures ParseField(Escape(v)) == Some((v, ""))
    ensures !NeedsQuoting(v) <==> Escape(v) == v
  {
    ParseFieldEncoded(Text(v), "");
    assert Escape(v) + "" == Escape(v);
    if NeedsQuoting(v) {
      assert |Escape(v)| > |v|;
    }
  }
}

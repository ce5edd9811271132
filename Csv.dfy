/** The CSV export: `generateCSV(data)` serialises an array of records as a header line holding the
    first record's property names, then one line per record holding that record's values for those
    names. String values are quoted, with every inner `"` doubled; every other value is written as
    JavaScript converts it to text; lines are separated by `\n`.

    Alongside the generator, a reader for the same format (RFC 4180 quoting), and the proof that
    reading a generated document recovers the header and every cell. */
module Csv {
  import opened Wrappers
  import opened Js

  // ---------------------------------------------------------------------------------------------
  // Text conversions

  /** `String.prototype.join(sep)`: the parts with sep between consecutive ones; "" for none. */
  function Join(parts: seq<string>, sep: char): (r: string)
    ensures parts == [] ==> r == ""
    ensures |parts| == 1 ==> r == parts[0]
  {
    if parts == [] then ""
    else if |parts| == 1 then parts[0]
    else parts[0] + [sep] + Join(parts[1..], sep)
  }

  /** `value.replace(/"/g, '""')`. */
  function Escape(s: string): (r: string)
    ensures |r| >= |s|
  {
    if s == [] then ""
    else (if s[0] == '"' then "\"\"" else [s[0]]) + Escape(s[1..])
  }

  /** The number a string of decimal digits denotes, most significant first. */
  function DigitsValue(t: string): int {
    if t == [] then 0 else 10 * DigitsValue(t[..|t| - 1]) + (t[|t| - 1] as int - '0' as int)
  }

  /** The number a decimal text with an optional leading minus sign denotes. */
  function IntValue(t: string): int {
    if t != [] && t[0] == '-' then -DigitsValue(t[1..]) else DigitsValue(t)
  }

  /** The decimal digits of n, most significant first. */
  function NatText(n: nat): (r: string)
    ensures r != []
    ensures forall c | c in r :: '0' <= c <= '9'
    ensures DigitsValue(r) == n
  {
    var digit := ['0' + (n % 10) as char];
    if n < 10 then digit
    else
      var high := NatText(n / 10);
      assert (high + digit)[..|high + digit| - 1] == high;
      high + digit
  }

  /** `String(n)` for an integer n: a minus sign for a negative n, then the digits of its
      magnitude. */
  function IntText(n: int): (r: string)
    ensures forall c | c in r :: c == '-' || '0' <= c <= '9'
    ensures IntValue(r) == n
  {
    if n < 0 then
      var digits := NatText(-n);
      assert ("-" + digits)[1..] == digits;
      "-" + digits
    else
      var digits := NatText(n);
      assert digits[0] in digits;
      digits
  }

  /** The text a value becomes when an array holding it is joined: `String(value)`, except that
      null and undefined become "". A Date is written by `Date.prototype.toString`, whose output
      depends on the time zone; it is the parameter dateText. */
  function ValueText(v: Option<Value>, dateText: JsDate -> string): (r: string)
    ensures v.None? || v == Some(Null) ==> r == ""
    ensures v.Some? && v.value.Num? ==> IntValue(r) == v.value.n
    ensures v.Some? && v.value.Str? ==> r == v.value.s
  {
    match v
    case None => ""
    case Some(Null) => ""
    case Some(Str(s)) => s
    case Some(Num(n)) => IntText(n)
    case Some(Bool(b)) => if b then "true" else "false"
    case Some(Date(d)) => dateText(d)
    case Some(Dict(_)) => "[object Object]"
  }

  /** One cell of a data row: a string is quoted and escaped, any other value is left for `join`
      to convert. */
  function CellText(v: Option<Value>, dateText: JsDate -> string): (r: string)
    ensures v.Some? && v.value.Str? ==> |r| >= |v.value.s| + 2 && r[0] == '"' && r[|r| - 1] == '"'
    ensures !(v.Some? && v.value.Str?) ==> r == ValueText(v, dateText)
  {
    if v.Some? && v.value.Str? then "\"" + Escape(v.value.s) + "\"" else ValueText(v, dateText)
  }

  /** A string cell reads back, after its opening quote, as the string itself. */
  lemma CellTextReadsBack(s: string, dateText: JsDate -> string)
    ensures ReadQuoted(CellText(Some(Str(s)), dateText)[1..]) == Some((s, ""))
  {
    ReadQuotedEscape(s, "");
    assert CellText(Some(Str(s)), dateText)[1..] == Escape(s) + "\"" + "";
  }

  /** The cells of one record, one per header. */
  function CellTexts(row: Obj, headers: seq<string>, dateText: JsDate -> string): (r: seq<string>)
    ensures |r| == |headers|
    ensures forall j | 0 <= j < |headers| :: r[j] == CellText(Get(row, headers[j]), dateText)
  {
    if headers == [] then []
    else [CellText(Get(row, headers[0]), dateText)] + CellTexts(row, headers[1..], dateText)
  }

  /** The data lines, one per record. */
  function RowLines(data: seq<Obj>, headers: seq<string>, dateText: JsDate -> string): (r: seq<string>)
    ensures |r| == |data|
    ensures forall i | 0 <= i < |data| :: r[i] == Join(CellTexts(data[i], headers, dateText), ',')
  {
    if data == [] then []
    else [Join(CellTexts(data[0], headers, dateText), ',')] + RowLines(data[1..], headers, dateText)
  }

  /** `generateCSV(data)`. */
  function GenerateCsv(data: seq<Obj>, dateText: JsDate -> string): (r: string)
    ensures data == [] <==> r == []
  {
    if |data| == 0 then ""
    else
      var headers := Keys(data[0]);
      var csvHeaders := Join(headers, ',');
      var csvRows := RowLines(data, headers, dateText);
      JoinNonEmpty([csvHeaders] + csvRows, '\n');
      Join([csvHeaders] + csvRows, '\n')
  }

  /** Joining at least two parts yields a non-empty text. */
  lemma JoinNonEmpty(parts: seq<string>, sep: char)
    requires |parts| >= 2
    ensures Join(parts, sep) != []
  {
  }

  // ---------------------------------------------------------------------------------------------
  // Reading CSV back

  /** A field as written: quoted (its text is the unescaped content) or bare. */
  datatype Field = Quoted(text: string) | Bare(text: string)

  /** The text a field is written as. */
  function RenderField(f: Field): string {
    match f
    case Quoted(s) => "\"" + Escape(s) + "\""
    case Bare(t) => t
  }

  /** The field each cell of a data row is written as. */
  function CellField(v: Option<Value>, dateText: JsDate -> string): (f: Field)
    ensures RenderField(f) == CellText(v, dateText)
    ensures f.Quoted? <==> v.Some? && v.value.Str?
    ensures f.Quoted? ==> f.text == v.value.s
  {
    if v.Some? && v.value.Str? then Quoted(v.value.s) else Bare(ValueText(v, dateText))
  }

  /** The body of a quoted field after its opening quote: the unescaped content up to the closing
      quote, and the input after it; None when the closing quote is missing. */
  function ReadQuoted(s: string): (r: Option<(string, string)>)
    ensures r.Some? ==> |r.value.1| < |s|
  {
    if s == [] then None
    else if s[0] == '"' then
      if |s| >= 2 && s[1] == '"' then
        match ReadQuoted(s[2..])
        case None => None
        case Some((text, rest)) => Some(("\"" + text, rest))
      else Some(("", s[1..]))
    else
      match ReadQuoted(s[1..])
      case None => None
      case Some((text, rest)) => Some(([s[0]] + text, rest))
  }

  /** What follows a quoted field is the end of the input: reading consumes a prefix. */
  lemma {:induction false} ReadQuotedSuffix(s: string)
    ensures ReadQuoted(s).Some? ==> ReadQuoted(s).value.1 == s[|s| - |ReadQuoted(s).value.1|..]
  {
    if s != [] {
      if s[0] == '"' {
        if |s| >= 2 && s[1] == '"' {
          ReadQuotedSuffix(s[2..]);
        }
      } else {
        ReadQuotedSuffix(s[1..]);
      }
    }
  }

  /** A bare field: the input up to the next `,` or line break. */
  function ReadBare(s: string): (r: (string, string))
    ensures r.0 + r.1 == s
  {
    if s == [] || s[0] == ',' || s[0] == '\n' then ("", s)
    else
      var (text, rest) := ReadBare(s[1..]);
      ([s[0]] + text, rest)
  }

  function ReadField(s: string): (r: Option<(Field, string)>)
    ensures r.Some? ==> |r.value.1| <= |s|
  {
    if s != [] && s[0] == '"' then
      match ReadQuoted(s[1..])
      case None => None
      case Some((text, rest)) => Some((Quoted(text), rest))
    else
      var (text, rest) := ReadBare(s);
      Some((Bare(text), rest))
  }

  /** One record: its fields, the input after it, and whether a line break ended it (so another
      record follows). None on a malformed field. */
  function ReadRecord(s: string): (r: Option<(seq<Field>, string, bool)>)
    ensures r.Some? ==> |r.value.1| <= |s| && r.value.0 != []
    ensures r.Some? && r.value.2 ==> |r.value.1| < |s|
    decreases |s|
  {
    match ReadField(s)
    case None => None
    case Some((f, rest)) =>
      if rest == [] then Some(([f], [], false))
      else if rest[0] == '\n' then Some(([f], rest[1..], true))
      else if rest[0] == ',' then
        match ReadRecord(rest[1..])
        case None => None
        case Some((fs, rest', more)) => Some(([f] + fs, rest', more))
      else None
  }

  /** The records of a non-empty document. */
  function ReadRecords(s: string): (r: Option<seq<seq<Field>>>)
    ensures r.Some? ==> r.value != []
    decreases |s|
  {
    match ReadRecord(s)
    case None => None
    case Some((fs, rest, more)) =>
      if !more then Some([fs])
      else
        match ReadRecords(rest)
        case None => None
        case Some(rs) => Some([fs] + rs)
  }

  /** The records of a document; the empty document has none. */
  function ParseCsv(s: string): Option<seq<seq<Field>>> {
    if s == [] then Some([]) else ReadRecords(s)
  }

  // ---------------------------------------------------------------------------------------------
  // What a generated document holds

  /** A text that needs no quoting: no separator, quote or line break in it. */
  predicate Plain(t: string) {
    forall c | c in t :: c != ',' && c != '"' && c != '\n'
  }

  function BareFields(texts: seq<string>): (r: seq<Field>)
    ensures |r| == |texts|
    ensures forall j | 0 <= j < |texts| :: r[j] == Bare(texts[j])
  {
    if texts == [] then [] else [Bare(texts[0])] + BareFields(texts[1..])
  }

  function RowFields(row: Obj, headers: seq<string>, dateText: JsDate -> string): (r: seq<Field>)
    ensures |r| == |headers|
    ensures forall j | 0 <= j < |headers| :: r[j] == CellField(Get(row, headers[j]), dateText)
  {
    if headers == [] then [] else [CellField(Get(row, headers[0]), dateText)] + RowFields(row, headers[1..], dateText)
  }

  function DataFields(data: seq<Obj>, headers: seq<string>, dateText: JsDate -> string): (r: seq<seq<Field>>)
    ensures |r| == |data|
    ensures forall i | 0 <= i < |data| :: r[i] == RowFields(data[i], headers, dateText)
  {
    if data == [] then [] else [RowFields(data[0], headers, dateText)] + DataFields(data[1..], headers, dateText)
  }

  /** The table a generated document should read back as: the first record's property names as the
      header, then for each record the field of every header's value. */
  function CsvTable(data: seq<Obj>, dateText: JsDate -> string): (r: seq<seq<Field>>)
    ensures |r| == if data == [] then 0 else 1 + |data|
  {
    if data == [] then []
    else [BareFields(Keys(data[0]))] + DataFields(data, Keys(data[0]), dateText)
  }

  /** What a document written from data can be read back under: the header names and the non-string
      cells need no quoting, and the header is not empty. */
  predicate Readable(data: seq<Obj>, dateText: JsDate -> string) {
    data != [] ==>
      && Keys(data[0]) != []
      && (forall k | k in Keys(data[0]) :: Plain(k))
      && (forall i, j | 0 <= i < |data| && 0 <= j < |Keys(data[0])| ::
            CellField(Get(data[i], Keys(data[0])[j]), dateText).Bare? ==>
              Plain(CellField(Get(data[i], Keys(data[0])[j]), dateText).text))
  }

  /** Every non-string cell is written without a separator, quote or line break, as long as the
      text of a Date has none. */
  lemma BareCellPlain(v: Option<Value>, dateText: JsDate -> string)
    requires forall d :: Plain(dateText(d))
    ensures CellField(v, dateText).Bare? ==> Plain(CellField(v, dateText).text)
  {
  }

  /** A document is readable when its header names need no quoting and the text of a Date never
      does. */
  lemma ReadableWhen(data: seq<Obj>, dateText: JsDate -> string)
    requires data != [] ==> Keys(data[0]) != [] && forall k | k in Keys(data[0]) :: Plain(k)
    requires forall d :: Plain(dateText(d))
    ensures Readable(data, dateText)
  {
    forall v: Option<Value> ensures CellField(v, dateText).Bare? ==> Plain(CellField(v, dateText).text) {
      BareCellPlain(v, dateText);
    }
  }

  // ---------------------------------------------------------------------------------------------
  // The round trip

  /** A tail that ends a field: the end of input, a separator or a line break. */
  predicate EndsField(tail: string) {
    tail == [] || tail[0] == ',' || tail[0] == '\n'
  }

  /** Reading a quoted field's escaped content and closing quote recovers the original string. */
  lemma {:induction false} ReadQuotedEscape(s: string, tail: string)
    requires EndsField(tail)
    ensures ReadQuoted(Escape(s) + "\"" + tail) == Some((s, tail))
  {
    var input := Escape(s) + "\"" + tail;
    if s == [] {
      assert input == "\"" + tail;
      assert input[1..] == tail;
      assert !(|input| >= 2 && input[1] == '"');
    } else {
      var later := Escape(s[1..]) + "\"" + tail;
      ReadQuotedEscape(s[1..], tail);
      if s[0] == '"' {
        assert Escape(s) == "\"\"" + Escape(s[1..]);
        assert input == "\"\"" + later;
        assert input[2..] == later;
        assert "\"" + s[1..] == s;
      } else {
        assert Escape(s) == [s[0]] + Escape(s[1..]);
        assert input == [s[0]] + later;
        assert input[1..] == later;
        assert [s[0]] + s[1..] == s;
      }
    }
  }

  lemma {:induction false} ReadBarePlain(t: string, tail: string)
    requires Plain(t) && EndsField(tail)
    ensures ReadBare(t + tail) == (t, tail)
  {
    if t != [] {
      assert t[0] in t;
      assert forall c | c in t[1..] :: c in t;
      assert (t + tail)[0] == t[0];
      assert (t + tail)[1..] == t[1..] + tail;
      ReadBarePlain(t[1..], tail);
      assert [t[0]] + t[1..] == t;
    } else {
      assert t + tail == tail;
    }
  }

  /** A field written out, then a field end, reads back as that field. */
  lemma ReadFieldRender(f: Field, tail: string)
    requires f.Bare? ==> Plain(f.text)
    requires EndsField(tail)
    ensures ReadField(RenderField(f) + tail) == Some((f, tail))
  {
    match f
    case Quoted(s) =>
      var input := RenderField(f) + tail;
      assert input == "\"" + (Escape(s) + "\"" + tail);
      assert input[1..] == Escape(s) + "\"" + tail;
      ReadQuotedEscape(s, tail);
    case Bare(t) =>
      ReadBarePlain(t, tail);
      if t == [] {
        assert t + tail == tail;
      } else {
        assert t[0] in t;
        assert (t + tail)[0] == t[0];
      }
  }

  /** The fields a row is written with: none needs quoting unless it is quoted. */
  ghost predicate WellFormedFields(fs: seq<Field>) {
    forall j | 0 <= j < |fs| :: fs[j].Bare? ==> Plain(fs[j].text)
  }

  function RenderFields(fs: seq<Field>): (r: seq<string>)
    ensures |r| == |fs|
    ensures forall j | 0 <= j < |fs| :: r[j] == RenderField(fs[j])
  {
    if fs == [] then [] else [RenderField(fs[0])] + RenderFields(fs[1..])
  }

  /** A written record followed by the end of input or a line break reads back as its fields. */
  lemma {:induction false} ReadRecordRender(fs: seq<Field>, tail: string)
    requires fs != [] && WellFormedFields(fs)
    requires tail == [] || tail[0] == '\n'
    ensures ReadRecord(Join(RenderFields(fs), ',') + tail)
         == Some((fs, if tail == [] then [] else tail[1..], tail != []))
  {
    var texts := RenderFields(fs);
    var input := Join(texts, ',') + tail;
    if |fs| == 1 {
      assert input == RenderField(fs[0]) + tail;
      ReadFieldRender(fs[0], tail);
      assert [fs[0]] == fs;
    } else {
      var later := Join(RenderFields(fs[1..]), ',') + tail;
      assert RenderFields(fs[1..]) == texts[1..];
      assert input == RenderField(fs[0]) + ([','] + later);
      ReadFieldRender(fs[0], [','] + later);
      assert ([','] + later)[1..] == later;
      ReadRecordRender(fs[1..], tail);
      assert [fs[0]] + fs[1..] == fs;
    }
  }

  /** The lines of a table of written records. */
  function RenderRecords(rs: seq<seq<Field>>): (r: seq<string>)
    ensures |r| == |rs|
    ensures forall i | 0 <= i < |rs| :: r[i] == Join(RenderFields(rs[i]), ',')
  {
    if rs == [] then [] else [Join(RenderFields(rs[0]), ',')] + RenderRecords(rs[1..])
  }

  /** Written records joined by line breaks read back as those records. */
  lemma {:induction false} ReadRecordsRender(rs: seq<seq<Field>>)
    requires rs != []
    requires forall i | 0 <= i < |rs| :: rs[i] != [] && WellFormedFields(rs[i])
    ensures ReadRecords(Join(RenderRecords(rs), '\n')) == Some(rs)
  {
    var lines := RenderRecords(rs);
    if |rs| == 1 {
      assert Join(lines, '\n') == Join(RenderFields(rs[0]), ',') + [];
      ReadRecordRender(rs[0], []);
      assert [rs[0]] == rs;
    } else {
      var later := Join(RenderRecords(rs[1..]), '\n');
      assert RenderRecords(rs[1..]) == lines[1..];
      assert Join(lines, '\n') == Join(RenderFields(rs[0]), ',') + (['\n'] + later);
      ReadRecordRender(rs[0], ['\n'] + later);
      assert (['\n'] + later)[1..] == later;
      assert ReadRecord(Join(lines, '\n')) == Some((rs[0], later, true));
      forall i | 0 <= i < |rs[1..]| ensures rs[1..][i] != [] && WellFormedFields(rs[1..][i]) {
        assert rs[1..][i] == rs[i + 1];
      }
      ReadRecordsRender(rs[1..]);
      assert ReadRecords(later) == Some(rs[1..]);
      assert [rs[0]] + rs[1..] == rs;
    }
  }

  /** The header line is the header names written as bare fields. */
  lemma {:induction false} RenderBareFields(texts: seq<string>)
    ensures RenderFields(BareFields(texts)) == texts
  {
    if texts != [] {
      RenderBareFields(texts[1..]);
    }
  }

  /** Each data line is its record's fields written out. */
  lemma {:induction false} RenderRowFields(row: Obj, headers: seq<string>, dateText: JsDate -> string)
    ensures RenderFields(RowFields(row, headers, dateText)) == CellTexts(row, headers, dateText)
  {
    if headers != [] {
      RenderRowFields(row, headers[1..], dateText);
    }
  }

  /** The generated document is the rendering of the table it stands for. */
  lemma GenerateIsRender(data: seq<Obj>, dateText: JsDate -> string)
    requires data != []
    ensures GenerateCsv(data, dateText) == Join(RenderRecords(CsvTable(data, dateText)), '\n')
  {
    var headers := Keys(data[0]);
    var table := CsvTable(data, dateText);
    var lines := RenderRecords(table);
    RenderBareFields(headers);
    assert lines[0] == Join(headers, ',');
    forall i | 0 <= i < |data| ensures lines[i + 1] == Join(CellTexts(data[i], headers, dateText), ',') {
      RenderRowFields(data[i], headers, dateText);
    }
    assert lines == [Join(headers, ',')] + RowLines(data, headers, dateText);
  }

  /** Reading a generated document recovers, line by line, the first record's property names and
      each record's values: a string value exactly (its quotes undone), any other value as the text
      it was written as. An empty array gives an empty document, which holds no records. */
  lemma CsvRoundTrip(data: seq<Obj>, dateText: JsDate -> string)
    requires Readable(data, dateText)
    ensures ParseCsv(GenerateCsv(data, dateText)) == Some(CsvTable(data, dateText))
  {
    if data != [] {
      var headers := Keys(data[0]);
      var table := CsvTable(data, dateText);
      GenerateIsRender(data, dateText);
      forall i | 0 <= i < |table| ensures table[i] != [] && WellFormedFields(table[i]) {
        if i > 0 {
          assert table[i] == RowFields(data[i - 1], headers, dateText);
        } else {
          assert forall j | 0 <= j < |headers| :: headers[j] in headers;
        }
      }
      ReadRecordsRender(table);
    }
  }

  /** A generated document holds one line per record after the header line, and each of them has
      exactly as many cells as the header has names. */
  lemma CsvShape(data: seq<Obj>, dateText: JsDate -> string)
    requires data != [] && Readable(data, dateText)
    ensures ParseCsv(GenerateCsv(data, dateText)).Some?
    ensures |ParseCsv(GenerateCsv(data, dateText)).value| == 1 + |data|
    ensures ParseCsv(GenerateCsv(data, dateText)).value[0] == BareFields(Keys(data[0]))
    ensures forall i | 1 <= i <= |data| :: |ParseCsv(GenerateCsv(data, dateText)).value[i]| == |Keys(data[0])|
  {
    CsvRoundTrip(data, dateText);
  }

  /** The first line of a generated document is the first record's property names joined by
      commas, and a line break follows it. */
  lemma HeaderLine(data: seq<Obj>, dateText: JsDate -> string)
    requires data != []
    ensures GenerateCsv(data, dateText)
         == Join(Keys(data[0]), ',') + "\n" + Join(RowLines(data, Keys(data[0]), dateText), '\n')
  {
    var rows := RowLines(data, Keys(data[0]), dateText);
    assert ([Join(Keys(data[0]), ',')] + rows)[1..] == rows;
  }

  /** A record whose name holds quotes and whose age is a number is written as the quoted name, its
      quotes doubled, then the number as it is. */
  lemma QuotedRowExample(dateText: JsDate -> string)
    ensures Join(CellTexts([("name", Str("Ann \"A\"")), ("age", Num(42))], ["name", "age"], dateText), ',')
         == "\"Ann \"\"A\"\"\",42"
  {
    var first: Obj := [("name", Str("Ann \"A\"")), ("age", Num(42))];
    assert Get(first, "name") == Some(Str("Ann \"A\""));
    assert Get(first, "age") == Some(Num(42));
    NameCellExample(dateText);
    AgeCellExample(dateText);
    assert CellTexts(first, ["name", "age"], dateText) == ["\"Ann \"\"A\"\"\"", "42"];
  }

  lemma NameCellExample(dateText: JsDate -> string)
    ensures CellText(Some(Str("Ann \"A\"")), dateText) == "\"Ann \"\"A\"\"\""
  {
    EscapeExample();
  }

  lemma AgeCellExample(dateText: JsDate -> string)
    ensures CellText(Some(Num(42)), dateText) == "42"
  {
    assert NatText(42) == "42";
  }

  lemma EscapeExample()
    ensures Escape("Ann \"A\"") == "Ann \"\"A\"\""
  {
    assert Escape("\"") == "\"\"";
    assert Escape("A\"") == "A\"\"";
    assert Escape("\"A\"") == "\"\"A\"\"";
  }
}

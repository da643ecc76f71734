/**
 * A CSV writer following section 2 of RFC 4180 with the quoting rule Papa Parse's `unparse` applies
 * (records separated by CRLF, fields by commas), and a reader for what it writes.
 */
module Rfc4180 {
  import Text

  const ByteOrderMark: char := '\U{FEFF}'

  /**
   * A field is quoted when it holds a double quote, a comma, a CR, an LF or a byte-order mark, or
   * when it starts or ends with a space.
   */
  predicate NeedsQuotes(f: string) {
    Text.Contains(f, '"') || Text.Contains(f, ',') || Text.Contains(f, '\r')
    || Text.Contains(f, '\n') || Text.Contains(f, ByteOrderMark)
    || (|f| > 0 && (f[0] == ' ' || f[|f| - 1] == ' '))
  }

  /** Every double quote written twice. */
  function DoubleQuotes(f: string): (r: string)
    ensures |r| >= |f|
    decreases |f|
  {
    if f == [] then [] else (if f[0] == '"' then "\"\"" else [f[0]]) + DoubleQuotes(f[1..])
  }

  function EscapeField(f: string): string {
    if NeedsQuotes(f) then "\"" + DoubleQuotes(f) + "\"" else f
  }

  /** One record: its escaped fields separated by commas. */
  function WriteRecord(fields: seq<string>): string
    decreases |fields|
  {
    if fields == [] then ""
    else if |fields| == 1 then EscapeField(fields[0])
    else EscapeField(fields[0]) + "," + WriteRecord(fields[1..])
  }

  /** A whole document: its records separated by CRLF, with no line break after the last. */
  function WriteTable(rows: seq<seq<string>>): string
    decreases |rows|
  {
    if rows == [] then ""
    else if |rows| == 1 then WriteRecord(rows[0])
    else WriteRecord(rows[0]) + "\r\n" + WriteTable(rows[1..])
  }

  // ---------------------------------------------------------------------------------------------
  // Reading

  /** An unquoted field runs up to the first comma or CR. */
  function UnquotedField(s: string): (r: (string, string))
    ensures |r.1| <= |s|
    decreases |s|
  {
    if s == [] || s[0] == ',' || s[0] == '\r' then ("", s)
    else
      var (f, rest) := UnquotedField(s[1..]);
      ([s[0]] + f, rest)
  }

  /**
   * The inside of a quoted field, after its opening quote: a doubled quote stands for one quote,
   * a single quote closes the field. An unterminated field runs to the end of the input.
   */
  function QuotedField(s: string): (r: (string, string))
    ensures |r.1| <= |s|
    decreases |s|
  {
    if s == [] then ("", "")
    else if s[0] == '"' then
      if |s| > 1 && s[1] == '"' then
        var (f, rest) := QuotedField(s[2..]);
        ("\"" + f, rest)
      else ("", s[1..])
    else
      var (f, rest) := QuotedField(s[1..]);
      ([s[0]] + f, rest)
  }

  function ReadField(s: string): (r: (string, string))
    ensures |r.1| <= |s|
  {
    if |s| > 0 && s[0] == '"' then QuotedField(s[1..]) else UnquotedField(s)
  }

  /**
   * One record and what follows it; `more` says a CRLF ended the record. Text that can follow
   * neither a field nor a record (a stray character after a closing quote) ends the document.
   */
  function ReadRecord(s: string): (r: (seq<string>, string, bool))
    ensures |r.0| > 0
    ensures |r.1| <= |s|
    ensures r.2 ==> |r.1| < |s|
    decreases |s|
  {
    var (f, rest) := ReadField(s);
    if |rest| > 0 && rest[0] == ',' then
      var (fields, after, more) := ReadRecord(rest[1..]);
      ([f] + fields, after, more)
    else if |rest| >= 2 && rest[0] == '\r' && rest[1] == '\n' then ([f], rest[2..], true)
    else ([f], rest, false)
  }

  /** Reads a whole document into its records. */
  function ParseTable(s: string): (rows: seq<seq<string>>)
    ensures |rows| > 0
    decreases |s|
  {
    var (row, rest, more) := ReadRecord(s);
    if more then [row] + ParseTable(rest) else [row]
  }

  // ---------------------------------------------------------------------------------------------
  // Round trip

  /** What may follow a field: the end of the document, a comma or a CRLF. */
  predicate FieldBoundary(t: string) {
    t == [] || t[0] == ',' || t[0] == '\r'
  }

  lemma {:induction false} UnquotedFieldReads(f: string, t: string)
    requires !Text.Contains(f, ',') && !Text.Contains(f, '\r')
    requires FieldBoundary(t)
    ensures UnquotedField(f + t) == (f, t)
    decreases |f|
  {
    if f == [] {
      assert f + t == t;
    } else {
      assert (f + t)[0] == f[0] && f[0] != ',' && f[0] != '\r';
      assert (f + t)[1..] == f[1..] + t;
      assert !Text.Contains(f[1..], ',') && !Text.Contains(f[1..], '\r') by {
        forall i | 0 <= i < |f[1..]| ensures f[1..][i] == f[i + 1] { }
      }
      UnquotedFieldReads(f[1..], t);
      assert [f[0]] + f[1..] == f;
    }
  }

  lemma {:induction false} QuotedFieldReads(f: string, t: string)
    requires t == [] || t[0] != '"'
    ensures QuotedField(DoubleQuotes(f) + "\"" + t) == (f, t)
    decreases |f|
  {
    var s := DoubleQuotes(f) + "\"" + t;
    if f == [] {
      assert s == "\"" + t;
      assert s[1..] == t;
    } else if f[0] == '"' {
      assert s == "\"\"" + (DoubleQuotes(f[1..]) + "\"" + t);
      assert s[2..] == DoubleQuotes(f[1..]) + "\"" + t;
      QuotedFieldReads(f[1..], t);
      assert "\"" + f[1..] == f;
    } else {
      assert s == [f[0]] + (DoubleQuotes(f[1..]) + "\"" + t);
      assert s[1..] == DoubleQuotes(f[1..]) + "\"" + t;
      QuotedFieldReads(f[1..], t);
      assert [f[0]] + f[1..] == f;
    }
  }

  /** Reading an escaped field gives the field back and stops right after it. */
  lemma ReadFieldReads(f: string, t: string)
    requires FieldBoundary(t)
    ensures ReadField(EscapeField(f) + t) == (f, t)
  {
    if NeedsQuotes(f) {
      var s := EscapeField(f) + t;
      assert s == "\"" + (DoubleQuotes(f) + "\"" + t);
      assert s[1..] == DoubleQuotes(f) + "\"" + t;
      QuotedFieldReads(f, t);
    } else {
      UnquotedFieldReads(f, t);
    }
  }

  /** What may follow a record: the end of the document or a CRLF. */
  predicate RecordBoundary(t: string) {
    t == [] || (|t| >= 2 && t[0] == '\r' && t[1] == '\n')
  }

  lemma {:induction false} ReadRecordReads(fields: seq<string>, t: string)
    requires |fields| > 0
    requires RecordBoundary(t)
    ensures ReadRecord(WriteRecord(fields) + t)
         == (fields, if t == [] then [] else t[2..], t != [])
    decreases |fields|
  {
    if |fields| == 1 {
      assert WriteRecord(fields) == EscapeField(fields[0]);
      LastFieldOfRecord(fields[0], t);
      assert [fields[0]] == fields;
    } else {
      ReadRecordReads(fields[1..], t);
      FieldThenComma(fields[0], WriteRecord(fields[1..]) + t);
      assert WriteRecord(fields) + t == EscapeField(fields[0]) + "," + (WriteRecord(fields[1..]) + t);
      assert [fields[0]] + fields[1..] == fields;
    }
  }

  lemma LastFieldOfRecord(f: string, t: string)
    requires RecordBoundary(t)
    ensures ReadRecord(EscapeField(f) + t) == ([f], if t == [] then [] else t[2..], t != [])
  {
    ReadFieldReads(f, t);
  }

  lemma FieldThenComma(f: string, u: string)
    ensures ReadRecord(EscapeField(f) + "," + u)
         == ([f] + ReadRecord(u).0, ReadRecord(u).1, ReadRecord(u).2)
  {
    var tail := "," + u;
    assert EscapeField(f) + "," + u == EscapeField(f) + tail;
    ReadFieldReads(f, tail);
    assert tail[1..] == u;
  }

  /** Reading what WriteTable wrote gives back the same records (each with at least one field). */
  lemma {:induction false} ParseWriteTable(rows: seq<seq<string>>)
    requires |rows| > 0
    requires forall i :: 0 <= i < |rows| ==> |rows[i]| > 0
    ensures ParseTable(WriteTable(rows)) == rows
    decreases |rows|
  {
    if |rows| == 1 {
      ReadRecordReads(rows[0], []);
      assert WriteRecord(rows[0]) + [] == WriteRecord(rows[0]);
    } else {
      var t := "\r\n" + WriteTable(rows[1..]);
      assert WriteTable(rows) == WriteRecord(rows[0]) + t;
      ReadRecordReads(rows[0], t);
      assert t[2..] == WriteTable(rows[1..]);
      ParseWriteTable(rows[1..]);
      assert [rows[0]] + rows[1..] == rows;
    }
  }
}

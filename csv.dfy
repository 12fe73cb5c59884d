/**
 * The tabular export of the project chart: a fixed header, then one line per
 * retained project with the label always quoted (inner quotes doubled),
 * fields joined by ',' and lines by '\n'. Beside the writer sits a reader
 * for the same format, used to state the round trip.
 */
module Csv {
  import opened Wrappers
  import opened Text
  import opened Records

  const HEADER: string := "id,label,domain,progress,impact,effort"

  /** `s.replace(/"/g, '""')`: every double quote doubled. */
  function Escape(s: string): (e: string)
    ensures |e| >= |s|
  {
    if |s| == 0 then ""
    else (if s[0] == '"' then "\"\"" else [s[0]]) + Escape(s[1..])
  }

  /** `"${escaped}"`: the escaped text between two double quotes. */
  function Quote(s: string): (q: string)
    ensures |q| >= 2 && q[0] == '"' && q[|q| - 1] == '"'
    ensures q[1..|q| - 1] == Escape(s)
  {
    "\"" + Escape(s) + "\""
  }

  /**
   * Reads the inside of a quoted field, `s` starting just after its opening
   * quote: a doubled quote stands for one quote, a single quote closes the
   * field. Gives the text and what follows the closing quote; None when the
   * field is never closed.
   */
  function ParseQuotedBody(s: string): (r: Option<(string, string)>)
    ensures r.Some? ==> |r.value.1| < |s|
    decreases |s|
  {
    if |s| == 0 then None
    else if s[0] == '"' then
      if |s| > 1 && s[1] == '"' then
        match ParseQuotedBody(s[2..])
        case Some((v, rest)) => Some(("\"" + v, rest))
        case None => None
      else Some(("", s[1..]))
    else
      match ParseQuotedBody(s[1..])
      case Some((v, rest)) => Some(([s[0]] + v, rest))
      case None => None
  }

  /**
   * The escaped text is read back exactly, and the reader stops at the
   * closing quote: the inside of a quoted field is never cut short by an
   * inner quote, nor extended past the closing one.
   */
  lemma {:induction false} QuotedBodyRoundTrip(x: string, rest: string)
    requires |rest| == 0 || rest[0] != '"'
    ensures ParseQuotedBody(Escape(x) + "\"" + rest) == Some((x, rest))
  {
    var u := Escape(x) + "\"" + rest;
    if |x| == 0 {
      assert u == "\"" + rest;
      assert u[1..] == rest;
    } else {
      var tail := Escape(x[1..]) + "\"" + rest;
      QuotedBodyRoundTrip(x[1..], rest);
      if x[0] == '"' {
        assert u == "\"\"" + tail;
        assert u[0] == '"' && u[1] == '"' && u[2..] == tail;
        assert "\"" + x[1..] == x;
      } else {
        assert u == [x[0]] + tail;
        assert u[0] == x[0] && u[1..] == tail;
        assert [x[0]] + x[1..] == x;
      }
    }
  }

  /** A quoted field standing alone, unquoted; None when it is not exactly one quoted field. */
  function Unquote(q: string): (r: Option<string>)
  {
    if |q| > 0 && q[0] == '"' then
      match ParseQuotedBody(q[1..])
      case Some((v, rest)) => if |rest| == 0 then Some(v) else None
      case None => None
    else None
  }

  /** Unescaping the quoted field gives back the original label. */
  lemma UnquoteQuote(x: string)
    ensures Unquote(Quote(x)) == Some(x)
  {
    assert Quote(x)[1..] == Escape(x) + "\"" + "";
    QuotedBodyRoundTrip(x, "");
  }

  lemma {:induction false} EscapeAppend(a: string, b: string)
    ensures Escape(a + b) == Escape(a) + Escape(b)
  {
    if |a| > 0 {
      assert (a + b)[1..] == a[1..] + b;
      EscapeAppend(a[1..], b);
    } else {
      assert a + b == b;
    }
  }

  lemma {:induction false} EscapeQuoteFree(s: string)
    requires '"' !in s
    ensures Escape(s) == s
  {
    if |s| > 0 {
      EscapeQuoteFree(s[1..]);
      assert [s[0]] + s[1..] == s;
    }
  }

  /**
   * Quoting a label with two inner quotes doubles each of them and wraps the
   * whole: `He said "hi", ok` becomes `"He said ""hi"", ok"`.
   */
  lemma QuoteTwoInnerQuotes(a: string, b: string, c: string)
    requires '"' !in a && '"' !in b && '"' !in c
    ensures Quote(a + "\"" + b + "\"" + c) == "\"" + a + "\"\"" + b + "\"\"" + c + "\""
  {
    var q, qq := "\"", "\"\"";
    var m := a + (q + (b + (q + c)));
    assert a + q + b + q + c == m;
    assert Escape(m) == a + (qq + (b + (qq + c))) by {
      assert Escape(q) == qq by {
        assert q[1..] == "";
      }
      EscapeQuoteFree(a);
      EscapeQuoteFree(b);
      EscapeQuoteFree(c);
      EscapeAppend(q, c);
      EscapeAppend(b, q + c);
      EscapeAppend(q, b + (q + c));
      EscapeAppend(a, q + (b + (q + c)));
    }
    assert q + a + qq + b + qq + c + q == q + (a + (qq + (b + (qq + c)))) + q;
  }

  lemma {:induction false} EscapeAvoids(s: string, c: char)
    requires c != '"' && c !in s
    ensures c !in Escape(s)
  {
    if |s| > 0 {
      EscapeAvoids(s[1..], c);
    }
  }

  /** The text of an unquoted field: everything up to the first comma. */
  function TakeUnquoted(s: string): (r: (string, string))
    ensures r.0 + r.1 == s && ',' !in r.0
    ensures |r.1| == 0 || r.1[0] == ','
  {
    if |s| == 0 || s[0] == ',' then ("", s)
    else
      var (v, rest) := TakeUnquoted(s[1..]);
      assert [s[0]] + v + rest == s;
      ([s[0]] + v, rest)
  }

  lemma {:induction false} TakeUnquotedPrefix(t: string, rest: string)
    requires ',' !in t && (|rest| == 0 || rest[0] == ',')
    ensures TakeUnquoted(t + rest) == (t, rest)
  {
    if |t| == 0 {
      assert t + rest == rest;
    } else {
      assert (t + rest)[1..] == t[1..] + rest;
      TakeUnquotedPrefix(t[1..], rest);
      assert [t[0]] + t[1..] == t;
    }
  }

  /**
   * The first field of a line: quoted if it starts with a quote, else up to
   * the next comma. Gives the text and the rest of the line, which is empty
   * or starts with the comma before the next field; None for a malformed
   * quoted field.
   */
  function ParseField(s: string): (r: Option<(string, string)>)
    ensures r.Some? ==> |r.value.1| <= |s| && (|r.value.1| == 0 || r.value.1[0] == ',')
  {
    if |s| > 0 && s[0] == '"' then
      match ParseQuotedBody(s[1..])
      case Some((v, rest)) => if |rest| == 0 || rest[0] == ',' then Some((v, rest)) else None
      case None => None
    else Some(TakeUnquoted(s))
  }

  /** All the fields of one line, in order. */
  function ParseFields(s: string): (r: Option<seq<string>>)
    ensures r.Some? ==> |r.value| > 0
    decreases |s|
  {
    match ParseField(s)
    case None => None
    case Some((v, rest)) =>
      if |rest| == 0 then Some([v])
      else
        match ParseFields(rest[1..])
        case Some(vs) => Some([v] + vs)
        case None => None
  }

  /** A field of a line as the writer emits it: verbatim, or wrapped in quotes. */
  datatype Field = Plain(text: string) | Quoted(text: string)

  function Encode(f: Field): string
  {
    match f
    case Plain(t) => t
    case Quoted(t) => Quote(t)
  }

  /** A verbatim field reads back only if it has no comma and does not start with a quote. */
  predicate Encodable(f: Field)
  {
    f.Plain? ==> ',' !in f.text && (|f.text| == 0 || f.text[0] != '"')
  }

  function Encodings(fs: seq<Field>): (es: seq<string>)
    ensures |es| == |fs|
  {
    seq(|fs|, i requires 0 <= i < |fs| => Encode(fs[i]))
  }

  function Texts(fs: seq<Field>): (ts: seq<string>)
    ensures |ts| == |fs|
  {
    seq(|fs|, i requires 0 <= i < |fs| => fs[i].text)
  }

  /** `[…].join(',')` over the encoded fields. */
  function EncodeLine(fs: seq<Field>): string
  {
    Join(Encodings(fs), ',')
  }

  lemma ParseFieldPrefix(f: Field, rest: string)
    requires Encodable(f) && (|rest| == 0 || rest[0] == ',')
    ensures ParseField(Encode(f) + rest) == Some((f.text, rest))
  {
    match f
    case Plain(t) =>
      TakeUnquotedPrefix(t, rest);
    case Quoted(t) =>
      assert (Quote(t) + rest)[1..] == Escape(t) + "\"" + rest;
      QuotedBodyRoundTrip(t, rest);
  }

  /** Reading a written line gives back the text of every field, in order. */
  lemma {:induction false} ParseEncodeLine(fs: seq<Field>)
    requires |fs| > 0 && forall i :: 0 <= i < |fs| ==> Encodable(fs[i])
    ensures ParseFields(EncodeLine(fs)) == Some(Texts(fs))
  {
    if |fs| == 1 {
      assert Encodings(fs) == [Encode(fs[0])];
      assert EncodeLine(fs) == Encode(fs[0]) + "";
      ParseFieldPrefix(fs[0], "");
      assert Texts(fs) == [fs[0].text];
    } else {
      ParseEncodeLine(fs[1..]);
      ParseEncodeLineStep(fs);
    }
  }

  /** A line of two or more fields reads back once its first field does and the rest of the line does. */
  lemma ParseEncodeLineStep(fs: seq<Field>)
    requires |fs| > 1 && Encodable(fs[0])
    requires ParseFields(EncodeLine(fs[1..])) == Some(Texts(fs[1..]))
    ensures ParseFields(EncodeLine(fs)) == Some(Texts(fs))
  {
    var rest := EncodeLine(fs[1..]);
    EncodeLineCons(fs);
    ParseFieldPrefix(fs[0], "," + rest);
    ParseFieldsCons(EncodeLine(fs), fs[0].text, rest, Texts(fs[1..]));
    TextsCons(fs);
  }

  lemma TextsCons(fs: seq<Field>)
    requires |fs| > 0
    ensures Texts(fs) == [fs[0].text] + Texts(fs[1..])
  {
  }

  /** A line of two or more fields is its first field, a comma, and the line of the others. */
  lemma EncodeLineCons(fs: seq<Field>)
    requires |fs| > 1
    ensures EncodeLine(fs) == Encode(fs[0]) + ("," + EncodeLine(fs[1..]))
  {
    var es := Encodings(fs);
    assert es[0] == Encode(fs[0]) && es[1..] == Encodings(fs[1..]);
  }

  /** Reading a line whose first field is followed by a comma: that field, then the fields after the comma. */
  lemma ParseFieldsCons(line: string, v: string, rest: string, vs: seq<string>)
    requires ParseField(line) == Some((v, "," + rest))
    requires ParseFields(rest) == Some(vs)
    ensures ParseFields(line) == Some([v] + vs)
  {
    assert ("," + rest)[1..] == rest;
  }

  lemma {:induction false} JoinAvoids(parts: seq<string>, sep: char, c: char)
    requires c != sep && forall i :: 0 <= i < |parts| ==> c !in parts[i]
    ensures c !in Join(parts, sep)
  {
    if |parts| > 1 {
      JoinAvoids(parts[1..], sep, c);
    }
  }

  /** The fields of a project's line, in header order; only the label is quoted. */
  function ProjectFields(p: Project): (fs: seq<Field>)
    ensures |fs| == 6
  {
    [Plain(p.id), Quoted(p.labelText), Plain(p.domain),
     Plain(IntToString(p.progress)), Plain(IntToString(p.impact)), Plain(IntToString(p.effort))]
  }

  /** One project's line. */
  function Row(p: Project): string
  {
    EncodeLine(ProjectFields(p))
  }

  /** The header, then one line per project in order. */
  function Rows(ps: seq<Project>): (rows: seq<string>)
    ensures |rows| == |ps| + 1 && rows[0] == HEADER
    ensures forall i :: 0 <= i < |ps| ==> rows[i + 1] == Row(ps[i])
  {
    [HEADER] + seq(|ps|, i requires 0 <= i < |ps| => Row(ps[i]))
  }

  /** `rows.join('\n')`: the exported document. */
  function Document(ps: seq<Project>): string
  {
    Join(Rows(ps), '\n')
  }

  /** What a line of the export records about a project. */
  datatype CsvRecord = CsvRecord(id: string, labelText: string, domain: string, progress: int, impact: int, effort: int)

  function Summary(p: Project): CsvRecord
  {
    CsvRecord(p.id, p.labelText, p.domain, p.progress, p.impact, p.effort)
  }

  /** Reads one line of the export; None unless it is six well-formed fields. */
  function DecodeRow(line: string): Option<CsvRecord>
  {
    match ParseFields(line)
    case None => None
    case Some(vs) =>
      if |vs| != 6 then None
      else
        match (ParseInt(vs[3]), ParseInt(vs[4]), ParseInt(vs[5]))
        case (Some(a), Some(b), Some(c)) => Some(CsvRecord(vs[0], vs[1], vs[2], a, b, c))
        case _ => None
  }

  /**
   * What the reader needs of a project's line: the id and the domain, which
   * are written verbatim, hold no comma and do not start with a quote. The
   * numbers always qualify, and the quoted label may hold anything.
   */
  predicate Readable(p: Project)
  {
    && ',' !in p.id && (|p.id| == 0 || p.id[0] != '"')
    && ',' !in p.domain && (|p.domain| == 0 || p.domain[0] != '"')
  }

  /**
   * No line break in the id, the label or the domain: the document reader
   * cuts the document at every `'\n'` before it reads the fields, so a row
   * stays one line only without them.
   */
  predicate SingleLine(p: Project)
  {
    '\n' !in p.id && '\n' !in p.labelText && '\n' !in p.domain
  }

  /** A project whose row is one line that reads back. */
  predicate Exportable(p: Project)
  {
    Readable(p) && SingleLine(p)
  }

  lemma ProjectFieldsEncodable(p: Project)
    requires Readable(p)
    ensures forall i :: 0 <= i < 6 ==> Encodable(ProjectFields(p)[i])
  {
    IntToStringPlain(p.progress);
    IntToStringPlain(p.impact);
    IntToStringPlain(p.effort);
  }

  /** A project's line reads back as the project's id, label, domain and three numbers. */
  lemma RowRoundTrip(p: Project)
    requires Readable(p)
    ensures DecodeRow(Row(p)) == Some(Summary(p))
  {
    var fs := ProjectFields(p);
    ProjectFieldsEncodable(p);
    ParseEncodeLine(fs);
    var vs := Texts(fs);
    assert vs[0] == p.id && vs[1] == p.labelText && vs[2] == p.domain;
    assert vs[3] == IntToString(p.progress) && vs[4] == IntToString(p.impact) && vs[5] == IntToString(p.effort);
    IntToStringRoundTrip(p.progress);
    IntToStringRoundTrip(p.impact);
    IntToStringRoundTrip(p.effort);
  }

  /** A project's line holds no line break, so it stays one line of the document. */
  lemma RowSingleLine(p: Project)
    requires SingleLine(p)
    ensures '\n' !in Row(p)
  {
    var es := Encodings(ProjectFields(p));
    IntToStringPlain(p.progress);
    IntToStringPlain(p.impact);
    IntToStringPlain(p.effort);
    EscapeAvoids(p.labelText, '\n');
    assert es[1] == Quote(p.labelText);
    assert forall i :: 0 <= i < 6 ==> '\n' !in es[i];
    JoinAvoids(es, ',', '\n');
  }

  /**
   * The export of N projects is exactly 1 + N lines: the header, then each
   * project's line in order, each reading back as that project.
   */
  lemma DocumentRoundTrip(ps: seq<Project>)
    requires forall i :: 0 <= i < |ps| ==> Exportable(ps[i])
    ensures var lines := Split(Document(ps), '\n');
      && |lines| == |ps| + 1
      && lines[0] == HEADER
      && forall i :: 0 <= i < |ps| ==> DecodeRow(lines[i + 1]) == Some(Summary(ps[i]))
  {
    var rows := Rows(ps);
    forall i | 0 <= i < |rows| ensures '\n' !in rows[i] {
      if i > 0 {
        RowSingleLine(ps[i - 1]);
      }
    }
    SplitJoin(rows, '\n');
    forall i | 0 <= i < |ps| ensures DecodeRow(rows[i + 1]) == Some(Summary(ps[i])) {
      RowRoundTrip(ps[i]);
    }
  }
}

/** The quote-toggling CSV line splitter the dashboard carries in three
    identical copies (csvDataService.ts, dataService.ts, DomainsTable.tsx).
    It is a simplified dialect of section 2 of RFC 4180: a double quote only
    flips the "inside quotes" flag and is dropped, a doubled quote is not an
    escape, a comma outside quotes ends a field, and every field is
    trimmed. */
module CsvLine {
  import opened Base

  /** The scanner's variables: the fields ended so far (untrimmed), the
      field being read and the quote flag. */
  datatype Scanner = Scanner(done: seq<string>, cur: string, inQuotes: bool)

  const Start := Scanner([], "", false)

  /** One character of the loop. */
  function Step(st: Scanner, ch: char): Scanner {
    if ch == '"' then st.(inQuotes := !st.inQuotes)
    else if ch == ',' && !st.inQuotes then Scanner(st.done + [st.cur], "", st.inQuotes)
    else st.(cur := st.cur + [ch])
  }

  /** The scanner after reading `s` from state `st`. */
  function Run(st: Scanner, s: string): Scanner {
    if s == [] then st else Step(Run(st, s[..|s| - 1]), s[|s| - 1])
  }

  function TrimAll(xs: seq<string>): (r: seq<string>)
    ensures |r| == |xs|
    ensures forall k :: 0 <= k < |r| ==> r[k] == Trim(xs[k])
  {
    seq(|xs|, k requires 0 <= k < |xs| => Trim(xs[k]))
  }

  /** The fields of a line: every ended field and the last one, trimmed. */
  function Fields(line: string): seq<string> {
    var st := Run(Start, line);
    TrimAll(st.done + [st.cur])
  }

  /** Reading one more character of `line` is one more Step. */
  lemma RunPrefix(line: string, i: nat)
    requires i < |line|
    ensures Run(Start, line[..i + 1]) == Step(Run(Start, line[..i]), line[i])
  {
    assert line[..i + 1][..i] == line[..i];
  }

  lemma TrimAllSnoc(xs: seq<string>, x: string)
    ensures TrimAll(xs + [x]) == TrimAll(xs) + [Trim(x)]
  {
  }

  /** parseCsvLine / parseCSVLine: the character loop. */
  method ParseCsvLine(line: string) returns (result: seq<string>)
    ensures result == Fields(line)
  {
    result := [];
    var current := "";
    var inQuotes := false;
    ghost var raw: seq<string> := [];
    for i := 0 to |line|
      invariant Run(Start, line[..i]) == Scanner(raw, current, inQuotes)
      invariant result == TrimAll(raw)
    {
      RunPrefix(line, i);
      var ch := line[i];
      if ch == '"' {
        inQuotes := !inQuotes;
      } else if ch == ',' && !inQuotes {
        TrimAllSnoc(raw, current);
        result := result + [Trim(current)];
        raw := raw + [current];
        current := "";
      } else {
        current := current + [ch];
      }
    }
    assert line[..|line|] == line;
    TrimAllSnoc(raw, current);
    result := result + [Trim(current)];
  }

  // ---------------------------------------------------------------------
  // Properties

  /** Number of double quotes in `s`. */
  function Quotes(s: string): nat {
    if s == [] then 0 else Quotes(s[..|s| - 1]) + (if s[|s| - 1] == '"' then 1 else 0)
  }

  /** Number of commas in `s` preceded by an even number of quotes. */
  function UnquotedCommas(s: string): nat {
    if s == [] then 0
    else
      var init := s[..|s| - 1];
      UnquotedCommas(init) + (if s[|s| - 1] == ',' && Quotes(init) % 2 == 0 then 1 else 0)
  }

  /** The scanner's invariant: the flag is the parity of the quotes read,
      one field was ended per unquoted comma, and no field holds a quote. */
  lemma {:induction false} RunShape(s: string)
    ensures Run(Start, s).inQuotes <==> Quotes(s) % 2 == 1
    ensures |Run(Start, s).done| == UnquotedCommas(s)
    ensures '"' !in Run(Start, s).cur
    ensures forall k :: 0 <= k < |Run(Start, s).done| ==> '"' !in Run(Start, s).done[k]
  {
    if s != [] {
      RunShape(s[..|s| - 1]);
    }
  }

  /** A line has one field more than it has commas outside quotes. */
  lemma FieldCount(line: string)
    ensures |Fields(line)| == UnquotedCommas(line) + 1
  {
    RunShape(line);
  }

  /** Fields never contain a double quote, and are trimmed. */
  lemma FieldsClean(line: string)
    ensures forall k :: 0 <= k < |Fields(line)| ==> '"' !in Fields(line)[k]
    ensures forall k :: 0 <= k < |Fields(line)| ==>
      Fields(line)[k] == [] || (!IsSpace(Fields(line)[k][0]) && !IsSpace(Fields(line)[k][|Fields(line)[k]| - 1]))
  {
    RunShape(line);
    var st := Run(Start, line);
    var raw := st.done + [st.cur];
    forall k | 0 <= k < |raw|
      ensures '"' !in Trim(raw[k])
    {
      assert '"' !in raw[k];
      TrimKeeps(raw[k], '"');
    }
  }

  /** Reading `a` then `b` is reading `a + b`. */
  lemma {:induction false} RunAppend(st: Scanner, a: string, b: string)
    ensures Run(st, a + b) == Run(Run(st, a), b)
    decreases |b|
  {
    if b == [] {
      assert a + b == a;
    } else {
      assert (a + b)[..|a + b| - 1] == a + b[..|b| - 1];
      RunAppend(st, a, b[..|b| - 1]);
    }
  }

  lemma RunQuote(st: Scanner)
    ensures Run(st, "\"") == st.(inQuotes := !st.inQuotes)
  {
    assert "\""[..0] == [];
  }

  /** A doubled quote flips the flag twice and vanishes: it is not an
      escaped quote character. */
  lemma DoubledQuote(a: string, b: string)
    ensures Fields(a + "\"\"" + b) == Fields(a + b)
  {
    RunAppend(Start, a, "\"\"");
    RunAppend(Start, a + "\"\"", b);
    RunAppend(Start, a, b);
    var st := Run(Start, a);
    assert "\"\""[..1] == "\"";
    RunQuote(st);
    assert Run(st, "\"\"") == st;
  }

  /** Without quotes the scanner is split(',') on the line. */
  lemma {:induction false} RunPlain(s: string)
    requires '"' !in s
    ensures !Run(Start, s).inQuotes
    ensures Run(Start, s).done + [Run(Start, s).cur] == Split(s, ',')
  {
    if s != [] {
      var init := s[..|s| - 1];
      assert s == init + [s[|s| - 1]];
      RunPlain(init);
      SplitSnoc(init, s[|s| - 1], ',');
      var st := Run(Start, init);
      var p := st.done + [st.cur];
      assert p[..|p| - 1] == st.done;
    }
  }

  /** On a line without quotes the fields are split(',') with each part
      trimmed. */
  lemma PlainLine(line: string)
    requires '"' !in line
    ensures Fields(line) == TrimAll(Split(line, ','))
  {
    RunPlain(line);
  }

  /** Inside quotes, commas are ordinary characters. */
  lemma {:induction false} RunQuoted(done: seq<string>, cur: string, x: string)
    requires '"' !in x
    ensures Run(Scanner(done, cur, true), x) == Scanner(done, cur + x, true)
  {
    if x != [] {
      RunQuoted(done, cur, x[..|x| - 1]);
      assert cur + x[..|x| - 1] + [x[|x| - 1]] == cur + x;
    }
  }

  /** A quoted field keeps its commas: `"x"` is the single field x. */
  lemma QuotedField(x: string)
    requires '"' !in x
    ensures Fields("\"" + x + "\"") == [Trim(x)]
  {
    var q := "\"";
    var open := Scanner([], x, true);
    assert Run(Start, q + x) == open by {
      RunAppend(Start, q, x);
      RunQuote(Start);
      RunQuoted([], "", x);
      assert "" + x == x;
    }
    var line := q + x + q;
    assert Run(Start, line) == Scanner([], x, false) by {
      RunAppend(Start, q + x, q);
      RunQuote(open);
    }
    assert [] + [x] == [x];
  }
}

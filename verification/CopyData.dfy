/** Splitting a row of COPY data in text format, to find the value of one column. */
module CopyData {
  import opened Options

  // ---------------------------------------------------------------------------------------
  // What parse_copy_data returns, as a function of the row without its newline
  // ---------------------------------------------------------------------------------------

  /** r is the unread part of the row, field the number of the field being read, str what has been read of it. */
  function Split(r: string, delimiter: char, col: int, field: nat, str: string): Option<string>
    decreases |r|
  {
    if r == "" then (if field == col then Some(str) else None)
    else if r[0] == '\\' && |r| != 1 then
      if r[1] == delimiter then Split(r[2..], delimiter, col, field, str + [r[1]])
      else Split(r[1..], delimiter, col, field, str + [r[0]])
    else if r[0] == delimiter then
      if field == col then Some(str) else Split(r[1..], delimiter, col, field + 1, "")
    else Split(r[1..], delimiter, col, field, str + [r[0]])
  }

  /** parse_copy_data on a row ended by a newline. */
  method ParseCopyData(buf: string, delimiter: char, col: int) returns (p: Option<string>)
    ensures p == Split(if buf == "" then "" else buf[..|buf| - 1], delimiter, col, 0, "")
  {
    var len := |buf|;
    var str, field, i := "", 0, 0;
    ghost var row := if buf == "" then "" else buf[..|buf| - 1];
    while i < len - 1
      invariant 0 <= i <= |row|
      invariant Split(row[i..], delimiter, col, field, str) == Split(row, delimiter, col, 0, "")
    {
      ghost var r := row[i..];
      assert r[1..] == row[i + 1..] && r[0] == buf[i];
      if buf[i] == '\\' && i != len - 2 {
        assert r[1] == buf[i + 1] && r[2..] == row[i + 2..];
        if buf[i + 1] == delimiter {
          i := i + 1;
          str := str + [buf[i]];
        } else {
          str := str + [buf[i]];
        }
      } else if buf[i] == delimiter {
        if field == col {
          break;
        } else {
          field := field + 1;
          str := "";
        }
      } else {
        str := str + [buf[i]];
      }
      i := i + 1;
    }
    p := if field == col then Some(str) else None;
  }

  // ---------------------------------------------------------------------------------------
  // The printer of COPY rows
  // ---------------------------------------------------------------------------------------

  /** A field as COPY prints it: backslashes and delimiters each preceded by a backslash. */
  function Escape(f: string, delimiter: char): string {
    if f == "" then "" else (if f[0] == '\\' || f[0] == delimiter then ['\\', f[0]] else [f[0]]) + Escape(f[1..], delimiter)
  }

  function PrintFields(fields: seq<string>, delimiter: char): string
    requires fields != []
  {
    if |fields| == 1 then Escape(fields[0], delimiter)
    else Escape(fields[0], delimiter) + [delimiter] + PrintFields(fields[1..], delimiter)
  }

  function PrintRow(fields: seq<string>, delimiter: char): string
    requires fields != []
  {
    PrintFields(fields, delimiter) + "\n"
  }

  /** What becomes of a field that contains backslashes: the parser leaves the doubling in place. */
  function DoubleBackslashes(f: string): string {
    if f == "" then "" else (if f[0] == '\\' then ['\\', '\\'] else [f[0]]) + DoubleBackslashes(f[1..])
  }

  predicate EndsInBackslash(f: string) {
    f != "" && f[|f| - 1] == '\\'
  }

  lemma {:induction false} NothingDoubledIff(f: string)
    ensures DoubleBackslashes(f) == f <==> '\\' !in f
    ensures |DoubleBackslashes(f)| >= |f| && (|DoubleBackslashes(f)| == |f| <==> '\\' !in f)
  {
    if f != "" {
      NothingDoubledIff(f[1..]);
      assert f == [f[0]] + f[1..];
    }
  }

  lemma SplitPlain(c: char, rest: string, delimiter: char, col: int, field: nat, str: string)
    requires c != delimiter && c != '\\'
    ensures Split([c] + rest, delimiter, col, field, str) == Split(rest, delimiter, col, field, str + [c])
  {
    assert ([c] + rest)[1..] == rest;
  }

  lemma SplitEscaped(rest: string, delimiter: char, col: int, field: nat, str: string)
    requires delimiter != '\\'
    ensures Split(['\\', delimiter] + rest, delimiter, col, field, str) == Split(rest, delimiter, col, field, str + [delimiter])
  {
    assert (['\\', delimiter] + rest)[2..] == rest;
  }

  lemma SplitBackslash(rest: string, delimiter: char, col: int, field: nat, str: string)
    requires delimiter != '\\' && rest != "" && rest[0] != delimiter
    ensures Split(['\\'] + rest, delimiter, col, field, str) == Split(rest, delimiter, col, field, str + ['\\'])
  {
    assert (['\\'] + rest)[1..] == rest;
  }

  // Reading one printed field up to the end of the row or the delimiter after it.
  lemma {:induction false} ReadField(f: string, tail: string, delimiter: char, col: int, field: nat, str: string)
    requires delimiter != '\\' && !EndsInBackslash(f)
    ensures Split(Escape(f, delimiter) + tail, delimiter, col, field, str) ==
            Split(tail, delimiter, col, field, str + DoubleBackslashes(f))
  {
    hide Split;
    var r := Escape(f, delimiter) + tail;
    if f == "" {
      assert r == tail && str + "" == str;
    } else {
      var rest := Escape(f[1..], delimiter) + tail;
      if f[0] == '\\' {
        assert r == ['\\'] + (['\\'] + rest);
        SplitBackslash(['\\'] + rest, delimiter, col, field, str);
        SplitBackslash(rest, delimiter, col, field, str + ['\\']);
        ReadField(f[1..], tail, delimiter, col, field, str + ['\\'] + ['\\']);
        assert str + ['\\'] + ['\\'] + DoubleBackslashes(f[1..]) == str + DoubleBackslashes(f);
      } else {
        ReadField(f[1..], tail, delimiter, col, field, str + [f[0]]);
        assert str + [f[0]] + DoubleBackslashes(f[1..]) == str + DoubleBackslashes(f);
        if f[0] == delimiter {
          assert r == ['\\', delimiter] + rest;
          SplitEscaped(rest, delimiter, col, field, str);
        } else {
          assert r == [f[0]] + rest;
          SplitPlain(f[0], rest, delimiter, col, field, str);
        }
      }
    }
  }

  lemma Regroup(a: string, b: string, c: string)
    ensures a + (b + c) == (a + b) + c
  {
  }

  lemma EscapeFirst(c: char, f: string, delimiter: char)
    ensures Escape([c] + f, delimiter) == Escape([c], delimiter) + Escape(f, delimiter)
    ensures DoubleBackslashes([c] + f) == DoubleBackslashes([c]) + DoubleBackslashes(f)
  {
    assert ([c] + f)[1..] == f && [c][1..] == "";
  }

  lemma {:induction false} EscapeJoins(f: string, g: string, delimiter: char)
    ensures Escape(f + g, delimiter) == Escape(f, delimiter) + Escape(g, delimiter)
    ensures DoubleBackslashes(f + g) == DoubleBackslashes(f) + DoubleBackslashes(g)
  {
    if f == "" {
      assert f + g == g;
    } else {
      var c, h := f[0], f[1..];
      hide Escape, DoubleBackslashes;
      assert f == [c] + h && f + g == [c] + (h + g);
      EscapeFirst(c, h, delimiter);
      EscapeFirst(c, h + g, delimiter);
      EscapeJoins(h, g, delimiter);
      Regroup(Escape([c], delimiter), Escape(h, delimiter), Escape(g, delimiter));
      Regroup(DoubleBackslashes([c]), DoubleBackslashes(h), DoubleBackslashes(g));
    }
  }

  /** Both the printer and the parser turn a final backslash into two. */
  lemma EscapedEnd(f: string, delimiter: char)
    requires EndsInBackslash(f)
    ensures Escape(f, delimiter) == Escape(f[..|f| - 1], delimiter) + ['\\', '\\']
    ensures DoubleBackslashes(f) == DoubleBackslashes(f[..|f| - 1]) + ['\\', '\\']
  {
    var last := "\\";
    assert f == f[..|f| - 1] + last && last[1..] == "";
    EscapeJoins(f[..|f| - 1], last, delimiter);
  }

  /** Reading one printed field, whatever its end, up to a character that is not the delimiter. */
  lemma {:induction false} ReadUpTo(f: string, tail: string, delimiter: char, col: int, field: nat, str: string)
    requires delimiter != '\\' && tail != "" && tail[0] != delimiter
    ensures Split(Escape(f, delimiter) + tail, delimiter, col, field, str) ==
            Split(tail, delimiter, col, field, str + DoubleBackslashes(f))
  {
    if EndsInBackslash(f) {
      var h := f[..|f| - 1];
      EscapedEnd(f, delimiter);
      hide Split;
      var rest := ['\\'] + tail;
      assert Escape(f, delimiter) + tail == Escape(h, delimiter) + (['\\'] + rest);
      ReadUpTo(h, ['\\'] + rest, delimiter, col, field, str);
      SplitBackslash(rest, delimiter, col, field, str + DoubleBackslashes(h));
      SplitBackslash(tail, delimiter, col, field, str + DoubleBackslashes(h) + ['\\']);
      assert str + DoubleBackslashes(h) + ['\\'] + ['\\'] == str + DoubleBackslashes(f);
    } else {
      ReadField(f, tail, delimiter, col, field, str);
    }
  }

  /** A field that ends in a backslash runs into the next one: its last backslash, doubled by the printer, is
      taken to escape the delimiter, whatever the field, what follows and what has been read before. */
  lemma TrailingBackslashMerges(f: string, more: string, delimiter: char, col: int, field: nat, str: string)
    requires delimiter != '\\' && EndsInBackslash(f)
    ensures Split(Escape(f, delimiter) + [delimiter] + more, delimiter, col, field, str) ==
            Split(more, delimiter, col, field, str + DoubleBackslashes(f[..|f| - 1]) + ['\\', delimiter])
  {
    var h := f[..|f| - 1];
    var rest := ['\\', delimiter] + more;
    EscapedEnd(f, delimiter);
    hide Split;
    assert Escape(f, delimiter) + [delimiter] + more == Escape(h, delimiter) + (['\\'] + rest);
    ReadUpTo(h, ['\\'] + rest, delimiter, col, field, str);
    SplitBackslash(rest, delimiter, col, field, str + DoubleBackslashes(h));
    SplitEscaped(more, delimiter, col, field, str + DoubleBackslashes(h) + ['\\']);
    assert str + DoubleBackslashes(h) + ['\\'] + [delimiter] == str + DoubleBackslashes(h) + ['\\', delimiter];
  }

  /** The last field merges with nothing, not even when it ends in a backslash. */
  lemma ReadLastField(f: string, delimiter: char, col: int, field: nat, str: string)
    requires delimiter != '\\'
    ensures Split(Escape(f, delimiter), delimiter, col, field, str) == if field == col then Some(str + DoubleBackslashes(f)) else None
  {
    var tail := ['\\', '\\'];
    assert Escape(f, delimiter) + "" == Escape(f, delimiter);
    if EndsInBackslash(f) {
      EscapedEnd(f, delimiter);
      ReadUpTo(f[..|f| - 1], tail, delimiter, col, field, str);
      var read := str + DoubleBackslashes(f[..|f| - 1]);
      assert tail[1..] == ['\\'] && tail[1..][1..] == "";
      assert read + ['\\'] + ['\\'] == str + DoubleBackslashes(f);
    } else {
      ReadField(f, "", delimiter, col, field, str);
    }
  }

  // ---------------------------------------------------------------------------------------
  // What a printed row is read as
  // ---------------------------------------------------------------------------------------

  /** The columns found in a printed row: one for each field, with its backslashes doubled, except that a
      field ending in a backslash is joined by the next one. */
  function Columns(fields: seq<string>, delimiter: char): (r: seq<string>)
    requires fields != []
    ensures 0 < |r| <= |fields|
  {
    var f := fields[0];
    if |fields| == 1 then [DoubleBackslashes(f)]
    else
      var rest := Columns(fields[1..], delimiter);
      if EndsInBackslash(f) then [DoubleBackslashes(f[..|f| - 1]) + ['\\', delimiter] + rest[0]] + rest[1..]
      else [DoubleBackslashes(f)] + rest
  }

  lemma {:induction false} ReadFields(fields: seq<string>, delimiter: char, col: int, field: nat, str: string)
    requires fields != [] && delimiter != '\\'
    ensures var r := Columns(fields, delimiter);
            Split(PrintFields(fields, delimiter), delimiter, col, field, str) ==
            if col == field then Some(str + r[0]) else if field < col < field + |r| then Some(r[col - field]) else None
  {
    var f := fields[0];
    if |fields| == 1 {
      ReadLastField(f, delimiter, col, field, str);
    } else {
      var more := PrintFields(fields[1..], delimiter);
      var tail := [delimiter] + more;
      var rest := Columns(fields[1..], delimiter);
      assert PrintFields(fields, delimiter) == Escape(f, delimiter) + [delimiter] + more == Escape(f, delimiter) + tail;
      if EndsInBackslash(f) {
        var merged := DoubleBackslashes(f[..|f| - 1]) + ['\\', delimiter];
        hide Split;
        TrailingBackslashMerges(f, more, delimiter, col, field, str);
        assert str + DoubleBackslashes(f[..|f| - 1]) + ['\\', delimiter] == str + merged;
        ReadFields(fields[1..], delimiter, col, field, str + merged);
        assert str + merged + rest[0] == str + (merged + rest[0]);
      } else {
        ReadField(f, tail, delimiter, col, field, str);
        assert tail[1..] == more;
        if field != col {
          ReadFields(fields[1..], delimiter, col, field + 1, "");
          assert "" + rest[0] == rest[0];
        }
      }
    }
  }

  /** What parse_copy_data makes of any printed row and any column number. */
  lemma SplitReadsColumns(fields: seq<string>, delimiter: char, col: int)
    requires fields != [] && delimiter != '\\' && delimiter != '\n'
    ensures var row := PrintRow(fields, delimiter);
            var r := Columns(fields, delimiter);
            Split(row[..|row| - 1], delimiter, col, 0, "") == if 0 <= col < |r| then Some(r[col]) else None
  {
    var row := PrintRow(fields, delimiter);
    assert row[..|row| - 1] == PrintFields(fields, delimiter);
    ReadFields(fields, delimiter, col, 0, "");
    assert "" + Columns(fields, delimiter)[0] == Columns(fields, delimiter)[0];
  }

  /** No two fields are joined exactly if no field but the last ends in a backslash. */
  lemma {:induction false} ColumnsAreFieldsIff(fields: seq<string>, delimiter: char)
    requires fields != []
    ensures |Columns(fields, delimiter)| == |fields| <==> forall k :: 0 <= k < |fields| - 1 ==> !EndsInBackslash(fields[k])
  {
    if |fields| > 1 {
      ColumnsAreFieldsIff(fields[1..], delimiter);
      assert forall k :: 0 < k < |fields| ==> fields[k] == fields[1..][k - 1];
      assert (forall k :: 0 < k < |fields| - 1 ==> !EndsInBackslash(fields[k])) <==>
             (forall k :: 0 <= k < |fields[1..]| - 1 ==> !EndsInBackslash(fields[1..][k])) by {
        assert forall k :: 0 <= k < |fields[1..]| ==> fields[1..][k] == fields[k + 1];
      }
      assert (forall k :: 0 <= k < |fields| - 1 ==> !EndsInBackslash(fields[k])) <==>
             !EndsInBackslash(fields[0]) && forall k :: 0 < k < |fields| - 1 ==> !EndsInBackslash(fields[k]);
    }
  }

  /** Up to the first field that is joined by the next, a column is its field with the backslashes doubled. */
  lemma {:induction false} ColumnBeforeMerge(fields: seq<string>, delimiter: char, col: nat)
    requires col < |fields| && forall k :: 0 <= k < |fields| - 1 && k < col ==> !EndsInBackslash(fields[k])
    ensures var r := Columns(fields, delimiter);
            col < |r| &&
            if col < |fields| - 1 && EndsInBackslash(fields[col]) then |r[col]| > |fields[col]|
            else r[col] == DoubleBackslashes(fields[col])
  {
    if |fields| > 1 && col == 0 {
      if EndsInBackslash(fields[0]) { NothingDoubledIff(fields[0][..|fields[0]| - 1]); }
    } else if |fields| > 1 {
      assert forall k :: 0 <= k < |fields[1..]| ==> fields[1..][k] == fields[k + 1];
      ColumnBeforeMerge(fields[1..], delimiter, col - 1);
    }
  }

  /** Splitting inverts printing up to the doubling of backslashes, as long as no field that has another one
      after it, up to the column, ends in a backslash. */
  lemma SplitInvertsPrint(fields: seq<string>, delimiter: char, col: nat)
    requires fields != [] && delimiter != '\\' && delimiter != '\n'
    requires forall k :: 0 <= k < |fields| - 1 && k <= col ==> !EndsInBackslash(fields[k])
    ensures var row := PrintRow(fields, delimiter);
            Split(row[..|row| - 1], delimiter, col, 0, "") ==
            if col < |fields| then Some(DoubleBackslashes(fields[col])) else None
  {
    SplitReadsColumns(fields, delimiter, col);
    if col < |fields| { ColumnBeforeMerge(fields, delimiter, col); }
  }

  /** A column before which nothing has been joined comes back exactly if and only if it has no backslash. */
  lemma FieldIsExactIff(fields: seq<string>, delimiter: char, col: nat)
    requires delimiter != '\\' && delimiter != '\n' && col < |fields|
    requires forall k :: 0 <= k < col ==> !EndsInBackslash(fields[k])
    ensures var row := PrintRow(fields, delimiter);
            Split(row[..|row| - 1], delimiter, col, 0, "") == Some(fields[col]) <==> '\\' !in fields[col]
  {
    SplitReadsColumns(fields, delimiter, col);
    ColumnBeforeMerge(fields, delimiter, col);
    NothingDoubledIff(fields[col]);
  }

  /** Splitting inverts printing on a row. */
  ghost predicate ComesBack(fields: seq<string>, delimiter: char)
    requires fields != []
  {
    forall col: nat ::
      Split(PrintFields(fields, delimiter), delimiter, col, 0, "") == if col < |fields| then Some(fields[col]) else None
  }

  /** Over all rows and all delimiters: every column comes back exactly, and there is nothing past the last, if
      and only if no field has a backslash. */
  lemma RowComesBackIff(fields: seq<string>, delimiter: char)
    requires fields != [] && delimiter != '\\' && delimiter != '\n'
    ensures ComesBack(fields, delimiter) <==> forall k :: 0 <= k < |fields| ==> '\\' !in fields[k]
  {
    var r := Columns(fields, delimiter);
    assert PrintRow(fields, delimiter)[..|PrintRow(fields, delimiter)| - 1] == PrintFields(fields, delimiter);
    forall col: nat
      ensures Split(PrintFields(fields, delimiter), delimiter, col, 0, "") == if col < |r| then Some(r[col]) else None
    {
      SplitReadsColumns(fields, delimiter, col);
    }
    hide Split;
    if forall k :: 0 <= k < |fields| ==> '\\' !in fields[k] {
      ColumnsAreFieldsIff(fields, delimiter);
      forall k | 0 <= k < |fields| ensures r[k] == fields[k] {
        ColumnBeforeMerge(fields, delimiter, k);
        NothingDoubledIff(fields[k]);
      }
    } else if ComesBack(fields, delimiter) {
      FieldsHaveNone(fields, delimiter, |fields|);
    }
  }

  lemma {:induction false} FieldsHaveNone(fields: seq<string>, delimiter: char, col: nat)
    requires fields != [] && delimiter != '\\' && delimiter != '\n' && ComesBack(fields, delimiter) && col <= |fields|
    ensures forall k :: 0 <= k < col ==> '\\' !in fields[k]
  {
    if col > 0 {
      FieldsHaveNone(fields, delimiter, col - 1);
      hide Split;
      assert PrintRow(fields, delimiter)[..|PrintRow(fields, delimiter)| - 1] == PrintFields(fields, delimiter);
      FieldIsExactIff(fields, delimiter, col - 1);
    }
  }

  /** The smallest such row: two columns are read as one. */
  lemma TrailingBackslashMergesFields()
    ensures PrintRow(["a\\", "b"], '\t') == "a\\\\\tb\n"
    ensures Split("a\\\\\tb", '\t', 0, 0, "") == Some("a\\\tb")
    ensures Split("a\\\\\tb", '\t', 1, 0, "") == None
  {
    assert Escape("a\\", '\t') == "a\\\\" by { assert "a\\"[1..] == "\\" && "\\"[1..] == ""; }
    assert Escape("b", '\t') == "b" by { assert "b"[1..] == ""; }
    assert ["a\\", "b"][1..] == ["b"];
    forall col: nat
      ensures Split("a\\\\\tb", '\t', col, 0, "") == Split("b", '\t', col, 0, "a\\\t")
    {
      hide Split;
      assert "a\\\\\tb" == ['a'] + (['\\'] + (['\\', '\t'] + "b"));
      SplitPlain('a', ['\\'] + (['\\', '\t'] + "b"), '\t', col, 0, "");
      SplitBackslash(['\\', '\t'] + "b", '\t', col, 0, "" + ['a']);
      SplitEscaped("b", '\t', col, 0, "" + ['a'] + ['\\']);
      assert "" + ['a'] + ['\\'] + ['\t'] == "a\\\t";
    }
    assert "b"[1..] == "" && "a\\\t" + ['b'] == "a\\\tb";
  }

  // ---------------------------------------------------------------------------------------
  // Any row, printed or not
  // ---------------------------------------------------------------------------------------

  /** Text without the delimiter is one field, read as it is, whatever backslashes it has. */
  lemma {:induction false} ReadWithoutDelimiter(r: string, delimiter: char, col: int, field: nat, str: string)
    requires delimiter !in r
    ensures Split(r, delimiter, col, field, str) == if field == col then Some(str + r) else None
  {
    if r == "" {
      assert str + r == str;
    } else {
      ReadWithoutDelimiter(r[1..], delimiter, col, field, str + [r[0]]);
      assert str + [r[0]] + r[1..] == str + r;
    }
  }

  /** Up to the first delimiter a row is one field, unless a backslash stands before the delimiter: then the
      delimiter replaces it and the field goes on. */
  lemma {:induction false} ReadToDelimiter(r: string, more: string, delimiter: char, col: int, field: nat, str: string)
    requires delimiter !in r && delimiter != '\\'
    ensures Split(r + [delimiter] + more, delimiter, col, field, str) ==
            if EndsInBackslash(r) then Split(more, delimiter, col, field, str + r[..|r| - 1] + [delimiter])
            else if field == col then Some(str + r)
            else Split(more, delimiter, col, field + 1, "")
  {
    var s := r + [delimiter] + more;
    if r == "" {
      assert s[1..] == more && str + r == str;
    } else if r == "\\" {
      assert s[0] == '\\' && s[1] == delimiter && s[2..] == more;
      assert str + r[..0] == str;
    } else {
      var tail := r[1..] + [delimiter] + more;
      assert s[1..] == tail && s[1] == if |r| > 1 then r[1] else delimiter;
      ReadToDelimiter(r[1..], more, delimiter, col, field, str + [r[0]]);
      assert str + [r[0]] + r[1..] == str + r;
      if EndsInBackslash(r) {
        assert |r| > 1;
        assert str + [r[0]] + r[1..][..|r| - 2] == str + r[..|r| - 1];
      }
    }
  }
}

/** The statement row filter (`_parseStatement`). The CSV decoder is not
    modelled: its output is given as the sequence of decoded rows, each an
    object from column header to cell text. A row with fewer properties
    than the export has columns is skipped; every other row loses its
    placeholder columns (headers starting with `ignored`) and is passed
    on. */
module Statement {
  import opened JsValues
  import opened Text

  /** Columns of the date-range export; the last one is a placeholder. */
  const StatementColumns: seq<string> :=
    ["datetime", "type", "withdrawal", "deposit", "balance", "channel", "note", "ignored"]

  /** Columns of the export of today's transactions. */
  const TodayColumns: seq<string> :=
    ["datetime", "channel", "type", "withdrawal", "deposit", "ignored1", "ignored2"]

  predicate IsPlaceholder(header: string) {
    StartsWith(header, "ignored")
  }

  predicate NoPlaceholders(row: Record) {
    forall i :: 0 <= i < |row| ==> !IsPlaceholder(row[i].0)
  }

  /** A row without its placeholder columns. */
  function Strip(row: Record): (r: Record)
    ensures |r| <= |row|
    ensures NoPlaceholders(r)
    ensures forall f :: f in r ==> f in row
    ensures forall f :: f in row && !IsPlaceholder(f.0) ==> f in r
  {
    if row == [] then []
    else if IsPlaceholder(row[0].0) then Strip(row[1..])
    else [row[0]] + Strip(row[1..])
  }

  /** Stripping keeps the remaining columns in their order. */
  lemma {:induction false} StripAppend(a: Record, b: Record)
    ensures Strip(a + b) == Strip(a) + Strip(b)
  {
    if a == [] {
      assert a + b == b;
    } else {
      assert (a + b)[1..] == a[1..] + b;
      StripAppend(a[1..], b);
    }
  }

  /** A row without placeholders is passed on unchanged. */
  lemma {:induction false} StripClean(row: Record)
    requires NoPlaceholders(row)
    ensures Strip(row) == row
  {
    if row != [] {
      assert !IsPlaceholder(row[0].0);
      assert NoPlaceholders(row[1..]) by {
        forall i | 0 <= i < |row[1..]| ensures !IsPlaceholder(row[1..][i].0) {
          assert row[1..][i] == row[i + 1];
        }
      }
      StripClean(row[1..]);
    }
  }

  /** The rows `_parseStatement` yields, in order: each row with at least
      `n` properties, stripped of its placeholders. */
  function Parse(rows: seq<Record>, n: nat): (out: seq<Record>)
    ensures |out| <= |rows|
    ensures forall j :: 0 <= j < |out| ==> NoPlaceholders(out[j])
  {
    if rows == [] then []
    else (if |rows[0]| < n then [] else [Strip(rows[0])]) + Parse(rows[1..], n)
  }

  /** The filter works row by row: the output for a stream that arrives in
      two parts is the output for the first part followed by that for the
      second. */
  lemma {:induction false} ParseAppend(a: seq<Record>, b: seq<Record>, n: nat)
    ensures Parse(a + b, n) == Parse(a, n) + Parse(b, n)
  {
    if a == [] {
      assert a + b == b;
    } else {
      assert (a + b)[1..] == a[1..] + b;
      ParseAppend(a[1..], b, n);
    }
  }

  /** When every row is complete, each one is yielded, stripped, at its own
      position. */
  lemma {:induction false} ParseComplete(rows: seq<Record>, n: nat)
    requires forall i :: 0 <= i < |rows| ==> |rows[i]| >= n
    ensures |Parse(rows, n)| == |rows|
    ensures forall i :: 0 <= i < |rows| ==> Parse(rows, n)[i] == Strip(rows[i])
  {
    if rows != [] {
      ParseComplete(rows[1..], n);
    }
  }

  /** Rows with fewer properties than columns (blank or footer lines) are
      never yielded. */
  lemma {:induction false} ParseShort(rows: seq<Record>, n: nat)
    requires forall i :: 0 <= i < |rows| ==> |rows[i]| < n
    ensures Parse(rows, n) == []
  {
    if rows != [] {
      ParseShort(rows[1..], n);
    }
  }

  /** `delete cols[header]`: the row without that property. */
  function Delete(row: Record, header: string): Record {
    if row == [] then []
    else if row[0].0 == header then Delete(row[1..], header)
    else [row[0]] + Delete(row[1..], header)
  }

  /** A row after the deletion loop has visited the headers `hs`. */
  function StripAmong(row: Record, hs: seq<string>): Record {
    if row == [] then []
    else if IsPlaceholder(row[0].0) && row[0].0 in hs then StripAmong(row[1..], hs)
    else [row[0]] + StripAmong(row[1..], hs)
  }

  lemma {:induction false} StripAmongNothing(row: Record)
    ensures StripAmong(row, []) == row
  {
    if row != [] {
      StripAmongNothing(row[1..]);
    }
  }

  lemma {:induction false} StripAmongDelete(row: Record, hs: seq<string>, h: string)
    requires IsPlaceholder(h)
    ensures Delete(StripAmong(row, hs), h) == StripAmong(row, hs + [h])
  {
    if row != [] {
      StripAmongDelete(row[1..], hs, h);
    }
  }

  lemma {:induction false} StripAmongKeep(row: Record, hs: seq<string>, h: string)
    requires !IsPlaceholder(h)
    ensures StripAmong(row, hs + [h]) == StripAmong(row, hs)
  {
    if row != [] {
      StripAmongKeep(row[1..], hs, h);
    }
  }

  lemma {:induction false} StripAmongAll(row: Record, hs: seq<string>)
    requires forall i :: 0 <= i < |row| ==> row[i].0 in hs
    ensures StripAmong(row, hs) == Strip(row)
  {
    if row != [] {
      assert forall i :: 0 <= i < |row[1..]| ==> row[1..][i] == row[i + 1];
      StripAmongAll(row[1..], hs);
    }
  }

  /** The inner loop of `_parseStatement`: every property of the row
      whose header is a placeholder is deleted, in place. */
  method DeletePlaceholders(row: Record) returns (cols: Record)
    ensures cols == Strip(row)
    ensures NoPlaceholders(cols)
  {
    cols := row;
    var headers := Keys(row);
    StripAmongNothing(row);
    for k := 0 to |headers|
      invariant cols == StripAmong(row, headers[..k])
    {
      assert headers[..k + 1] == headers[..k] + [headers[k]];
      if IsPlaceholder(headers[k]) {
        StripAmongDelete(row, headers[..k], headers[k]);
        cols := Delete(cols, headers[k]);
      } else {
        StripAmongKeep(row, headers[..k], headers[k]);
      }
    }
    assert headers[..|headers|] == headers;
    StripAmongAll(row, headers);
  }

  /** `_parseStatement(stream, { headers })` with `n` the number of
      headers: for each decoded row, a row with fewer properties than `n`
      is skipped; otherwise its placeholder properties are deleted and the
      row is yielded. */
  method ParseStatement(rows: seq<Record>, n: nat) returns (out: seq<Record>)
    ensures out == Parse(rows, n)
    ensures |out| <= |rows|
    ensures forall j :: 0 <= j < |out| ==> NoPlaceholders(out[j])
  {
    out := [];
    for i := 0 to |rows|
      invariant out == Parse(rows[..i], n)
    {
      assert rows[..i + 1] == rows[..i] + [rows[i]];
      ParseAppend(rows[..i], [rows[i]], n);
      if |Keys(rows[i])| >= n {
        var cols := DeletePlaceholders(rows[i]);
        out := out + [cols];
      }
    }
    assert rows[..|rows|] == rows;
  }

  /** The headers of the columns that survive stripping. */
  function KeepHeaders(hs: seq<string>): seq<string> {
    if hs == [] then []
    else if IsPlaceholder(hs[0]) then KeepHeaders(hs[1..])
    else [hs[0]] + KeepHeaders(hs[1..])
  }

  lemma {:induction false} KeysStrip(row: Record)
    ensures Keys(Strip(row)) == KeepHeaders(Keys(row))
  {
    if row != [] {
      KeysStrip(row[1..]);
      assert Keys(row)[1..] == Keys(row[1..]);
    }
  }

  lemma {:induction false} KeepHeadersAppend(a: seq<string>, b: seq<string>)
    ensures KeepHeaders(a + b) == KeepHeaders(a) + KeepHeaders(b)
  {
    if a == [] {
      assert a + b == b;
    } else {
      assert (a + b)[1..] == a[1..] + b;
      KeepHeadersAppend(a[1..], b);
    }
  }

  /** Headers that do not start with 'i' are never placeholders. */
  lemma {:induction false} KeepHeadersNamed(hs: seq<string>)
    requires forall i :: 0 <= i < |hs| ==> |hs[i]| > 0 && hs[i][0] != 'i'
    ensures KeepHeaders(hs) == hs
  {
    if hs != [] {
      assert !IsPlaceholder(hs[0]) by {
        if |hs[0]| >= 7 { assert hs[0][..7][0] != "ignored"[0]; }
      }
      assert forall i :: 0 <= i < |hs[1..]| ==> hs[1..][i] == hs[i + 1];
      KeepHeadersNamed(hs[1..]);
    }
  }

  lemma KeepStatementColumns()
    ensures KeepHeaders(StatementColumns) == StatementColumns[..7]
  {
    var named := StatementColumns[..7];
    assert StatementColumns == named + ["ignored"];
    KeepHeadersAppend(named, ["ignored"]);
    KeepHeadersNamed(named);
    assert IsPlaceholder("ignored");
  }

  lemma KeepTodayColumns()
    ensures KeepHeaders(TodayColumns) == TodayColumns[..5]
  {
    var named := TodayColumns[..5];
    assert TodayColumns == named + ["ignored1", "ignored2"];
    KeepHeadersAppend(named, ["ignored1", "ignored2"]);
    KeepHeadersNamed(named);
    assert IsPlaceholder("ignored1") && IsPlaceholder("ignored2");
    assert KeepHeaders(["ignored1", "ignored2"]) == KeepHeaders(["ignored2"]);
  }

  /** A complete row of the date-range export comes out with the seven
      named columns, in export order. */
  lemma StatementRowShape(row: Record)
    requires Keys(row) == StatementColumns
    ensures |row| >= |StatementColumns|
    ensures Keys(Strip(row)) == ["datetime", "type", "withdrawal", "deposit", "balance", "channel", "note"]
  {
    KeysStrip(row);
    KeepStatementColumns();
  }

  /** A complete row of today's export comes out with the five named
      columns, in export order. */
  lemma TodayRowShape(row: Record)
    requires Keys(row) == TodayColumns
    ensures |row| >= |TodayColumns|
    ensures Keys(Strip(row)) == ["datetime", "channel", "type", "withdrawal", "deposit"]
  {
    KeysStrip(row);
    KeepTodayColumns();
  }
}

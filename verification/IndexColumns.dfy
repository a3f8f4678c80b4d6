/**
 Reading the column list out of an index definition: the scanner over the DDL text, and the proof that
 it inverts printing, whatever stands before the first parenthesis and after the closing one.
 */
module IndexColumns {

  /** The white space of Go's unicode.IsSpace. */
  predicate IsSpace(c: char) {
    var n := c as int;
    || 9 <= n <= 13 || n == 32 || n == 0x85 || n == 0xA0 || n == 0x1680 || 0x2000 <= n <= 0x200a
    || n == 0x2028 || n == 0x2029 || n == 0x202f || n == 0x205f || n == 0x3000
  }

  /** They are the 25 characters with the property White_Space of the Unicode Character Database. */
  lemma WhiteSpace(c: char)
    ensures IsSpace(c) <==> c in {'\t', '\n', '\U{0B}', '\U{0C}', '\r', ' ', '\U{85}', '\U{A0}', '\U{1680}',
      '\U{2000}', '\U{2001}', '\U{2002}', '\U{2003}', '\U{2004}', '\U{2005}', '\U{2006}', '\U{2007}', '\U{2008}',
      '\U{2009}', '\U{200A}', '\U{2028}', '\U{2029}', '\U{202F}', '\U{205F}', '\U{3000}'}
  {
  }

  function TrimLeft(s: string): string {
    if s != [] && IsSpace(s[0]) then TrimLeft(s[1..]) else s
  }

  function TrimRight(s: string): string {
    if s != [] && IsSpace(s[|s| - 1]) then TrimRight(s[..|s| - 1]) else s
  }

  function TrimSpace(s: string): string { TrimRight(TrimLeft(s)) }

  function WithColumn(columns: seq<string>, current: string): seq<string> {
    if TrimSpace(current) != "" then columns + [TrimSpace(current)] else columns
  }

  /** The scan of the rest of the text, at a nesting depth, with a column begun and others done. */
  function Scan(s: string, depth: int, current: string, columns: seq<string>): seq<string>
    decreases |s|
  {
    if s == [] then columns
    else if s[0] == '(' then Scan(s[1..], depth + 1, if depth + 1 == 1 then current else current + ['('], columns)
    else if s[0] == ')' then
      if depth - 1 == 0 then WithColumn(columns, current) else Scan(s[1..], depth - 1, current + [')'], columns)
    else if s[0] == ',' && depth == 1 then Scan(s[1..], depth, "", WithColumn(columns, current))
    else Scan(s[1..], depth, current + [s[0]], columns)
  }

  /** Position of the first opening parenthesis, or the length if there is none. */
  function OpenAt(s: string): (k: nat)
    ensures k <= |s| && '(' !in s[..k] && (k < |s| ==> s[k] == '(')
  {
    if s == [] || s[0] == '(' then 0
    else
      var k := 1 + OpenAt(s[1..]);
      assert s[..k] == [s[0]] + s[1..][..k - 1];
      k
  }

  /** What the parser returns, as a function of the text. */
  function Parsed(indexDef: string): seq<string> { Scan(indexDef[OpenAt(indexDef)..], 0, "", []) }

  /** The loop over the definition; it returns at the parenthesis that closes the first one. */
  method ParseIndexColumns(indexDef: string) returns (columns: seq<string>)
    ensures columns == Parsed(indexDef)
  {
    var open := OpenAt(indexDef);
    columns := [];
    if open == |indexDef| {
      return;
    }
    var depth, current := 0, "";
    var k := open;
    while k < |indexDef|
      invariant open <= k <= |indexDef|
      invariant Scan(indexDef[k..], depth, current, columns) == Parsed(indexDef)
    {
      var r := indexDef[k];
      assert indexDef[k..][0] == r && indexDef[k..][1..] == indexDef[k + 1..];
      k := k + 1;
      if r == '(' {
        depth := depth + 1;
        if depth == 1 {
          continue;
        }
      } else if r == ')' {
        depth := depth - 1;
        if depth == 0 {
          var col := TrimSpace(current);
          if col != "" {
            columns := columns + [col];
          }
          return;
        }
      } else if r == ',' && depth == 1 {
        var col := TrimSpace(current);
        if col != "" {
          columns := columns + [col];
        }
        current := "";
        continue;
      }
      current := current + [r];
    }
  }

  // ---------------------------------------------------------------- printing and reading back

  /** From `depth` open parentheses to `end`: never one closed too many, no comma outside them all. */
  predicate Nests(s: string, depth: nat, end: nat)
    decreases |s|
  {
    if s == [] then depth == end
    else if s[0] == '(' then Nests(s[1..], depth + 1, end)
    else if s[0] == ')' then depth > 0 && Nests(s[1..], depth - 1, end)
    else if s[0] == ',' then depth > 0 && Nests(s[1..], depth, end)
    else Nests(s[1..], depth, end)
  }

  /** A column expression: trimmed, not empty, parentheses balanced, no comma at the top. */
  predicate IsColumn(col: string) {
    col != "" && TrimSpace(col) == col && Nests(col, 0, 0)
  }

  predicate AreColumns(cols: seq<string>) { forall k | 0 <= k < |cols| :: IsColumn(cols[k]) }

  predicate IsBlank(s: string) { forall k | 0 <= k < |s| :: IsSpace(s[k]) }

  /** The text after the opening parenthesis: comma-separated columns, the closing one, and the rest. */
  function PrintColumns(cols: seq<string>, blanks: string, rest: string): string {
    if cols == [] then ")" + rest
    else if |cols| == 1 then cols[0] + (")" + rest)
    else cols[0] + ("," + (blanks + PrintColumns(cols[1..], blanks, rest)))
  }

  /** A balanced expression is taken over as it stands. */
  lemma {:induction false} ScanTakesNested(col: string, depth: nat, rest: string, current: string, columns: seq<string>)
    requires Nests(col, depth, 0)
    ensures Scan(col + rest, depth + 1, current, columns) == Scan(rest, 1, current + col, columns)
    decreases |col|
  {
    if col == [] {
      assert col + rest == rest && current + col == current;
    } else {
      assert (col + rest)[1..] == col[1..] + rest;
      assert (current + [col[0]]) + col[1..] == current + col;
      var d := if col[0] == '(' then depth + 1 else if col[0] == ')' then depth - 1 else depth;
      ScanTakesNested(col[1..], d, rest, current + [col[0]], columns);
    }
  }

  lemma {:induction false} BlanksNest(blanks: string)
    requires IsBlank(blanks)
    ensures Nests(blanks, 0, 0)
    decreases |blanks|
  {
    if blanks != [] { BlanksNest(blanks[1..]); }
  }

  lemma {:induction false} TrimDropsBlanks(blanks: string, col: string)
    requires IsBlank(blanks)
    ensures TrimSpace(blanks + col) == TrimSpace(col)
    decreases |blanks|
  {
    if blanks == [] {
      assert blanks + col == col;
    } else {
      assert (blanks + col)[1..] == blanks[1..] + col;
      TrimDropsBlanks(blanks[1..], col);
    }
  }

  /** One column, with blanks before it, up to the comma or parenthesis that ends it. */
  lemma ScanReadsColumn(lead: string, col: string, tail: string, columns: seq<string>)
    requires IsColumn(col) && IsBlank(lead)
    ensures Scan(lead + (col + tail), 1, "", columns) == Scan(tail, 1, lead + col, columns)
    ensures WithColumn(columns, lead + col) == columns + [col]
  {
    BlanksNest(lead);
    TrimDropsBlanks(lead, col);
    ScanTakesNested(lead, 0, col + tail, "", columns);
    assert "" + lead == lead;
    ScanTakesNested(col, 0, tail, lead, columns);
  }

  lemma {:induction false} ScanReadsPrinted(cols: seq<string>, blanks: string, lead: string, rest: string, columns: seq<string>)
    requires cols != [] && AreColumns(cols) && IsBlank(blanks) && IsBlank(lead)
    ensures Scan(lead + PrintColumns(cols, blanks, rest), 1, "", columns) == columns + cols
    decreases |cols|
  {
    var col := cols[0];
    if |cols| == 1 {
      ScanReadsColumn(lead, col, ")" + rest, columns);
      assert cols == [col];
    } else {
      var more := blanks + PrintColumns(cols[1..], blanks, rest);
      ScanReadsColumn(lead, col, "," + more, columns);
      assert ("," + more)[1..] == more;
      ScanReadsPrinted(cols[1..], blanks, blanks, rest, columns + [col]);
      assert columns + [col] + cols[1..] == columns + cols;
    }
  }

  /**
   Printing any list of column expressions in one pair of parentheses after a prefix without any, and
   parsing, gives the list back, whatever follows.
   */
  lemma ParsePrinted(prefix: string, cols: seq<string>, blanks: string, rest: string)
    requires '(' !in prefix && IsBlank(blanks) && AreColumns(cols)
    ensures Parsed(prefix + ("(" + PrintColumns(cols, blanks, rest))) == cols
  {
    var body := PrintColumns(cols, blanks, rest);
    var s := prefix + ("(" + body);
    OpenAfterPrefix(prefix, "(" + body);
    assert s[OpenAt(s)..] == "(" + body && ("(" + body)[1..] == body;
    assert Parsed(s) == Scan(body, 1, "", []);
    if cols != [] {
      assert "" + body == body && [] + cols == cols;
      ScanReadsPrinted(cols, blanks, "", rest, []);
    }
  }

  lemma {:induction false} OpenAfterPrefix(prefix: string, rest: string)
    requires '(' !in prefix && rest != [] && rest[0] == '('
    ensures OpenAt(prefix + rest) == |prefix|
  {
    if prefix == [] {
      assert prefix + rest == rest;
    } else {
      assert (prefix + rest)[1..] == prefix[1..] + rest;
      OpenAfterPrefix(prefix[1..], rest);
    }
  }

  // ---------------------------------------------------------------- any text at all

  /** Whatever the text, only column expressions come out, so printing and parsing them changes nothing. */
  lemma ParsedAreColumns(indexDef: string, prefix: string, blanks: string, rest: string)
    requires '(' !in prefix && IsBlank(blanks)
    ensures AreColumns(Parsed(indexDef))
    ensures Parsed(prefix + ("(" + PrintColumns(Parsed(indexDef), blanks, rest))) == Parsed(indexDef)
  {
    var s := indexDef[OpenAt(indexDef)..];
    if s != [] {
      ScannedAreColumns(s[1..], 0, "", []);
      assert Parsed(indexDef) == Scan(s[1..], 1, "", []);
    }
    ParsePrinted(prefix, Parsed(indexDef), blanks, rest);
  }

  lemma {:induction false} ScannedAreColumns(s: string, depth: nat, current: string, columns: seq<string>)
    requires AreColumns(columns) && Nests(current, 0, depth)
    ensures AreColumns(Scan(s, depth + 1, current, columns))
    decreases |s|
  {
    if s != [] {
      var c := s[0];
      if depth == 0 && (c == ')' || c == ',') {
        WithColumnIsColumns(columns, current);
        if c == ',' {
          ScannedAreColumns(s[1..], 0, "", WithColumn(columns, current));
        }
      } else {
        NestsSnoc(current, 0, depth, c);
        var d := if c == '(' then depth + 1 else if c == ')' then depth - 1 else depth;
        ScannedAreColumns(s[1..], d, current + [c], columns);
      }
    }
  }

  lemma WithColumnIsColumns(columns: seq<string>, current: string)
    requires AreColumns(columns) && Nests(current, 0, 0)
    ensures AreColumns(WithColumn(columns, current))
  {
    TrimmedIsColumn(current);
  }

  lemma TrimmedIsColumn(s: string)
    requires Nests(s, 0, 0)
    ensures TrimSpace(s) != "" ==> IsColumn(TrimSpace(s))
  {
    LeftTrimmed(s);
    RightTrimmed(TrimLeft(s));
  }

  /** One more character, and back. */
  lemma {:induction false} NestsSnoc(s: string, depth: nat, end: nat, c: char)
    ensures ((c == ')' || c == ',') && end == 0) ||
      (Nests(s, depth, end) <==>
        Nests(s + [c], depth, if c == '(' then end + 1 else if c == ')' then end - 1 else end))
    decreases |s|
  {
    if s == [] {
      assert s + [c] == [c];
    } else {
      assert (s + [c])[1..] == s[1..] + [c];
      if s[0] == '(' {
        NestsSnoc(s[1..], depth + 1, end, c);
      } else if s[0] != ')' {
        NestsSnoc(s[1..], depth, end, c);
      } else if depth > 0 {
        NestsSnoc(s[1..], depth - 1, end, c);
      }
    }
  }

  lemma {:induction false} LeftTrimmed(s: string)
    ensures TrimLeft(s) == [] || !IsSpace(TrimLeft(s)[0])
    ensures Nests(s, 0, 0) ==> Nests(TrimLeft(s), 0, 0)
    decreases |s|
  {
    if s != [] && IsSpace(s[0]) { LeftTrimmed(s[1..]); }
  }

  lemma {:induction false} RightTrimmed(s: string)
    ensures TrimRight(s) <= s
    ensures TrimRight(s) == [] || !IsSpace(TrimRight(s)[|TrimRight(s)| - 1])
    ensures Nests(s, 0, 0) ==> Nests(TrimRight(s), 0, 0)
    decreases |s|
  {
    if s != [] && IsSpace(s[|s| - 1]) {
      var front := s[..|s| - 1];
      assert s == front + [s[|s| - 1]];
      NestsSnoc(front, 0, 0, s[|s| - 1]);
      RightTrimmed(front);
    }
  }
}

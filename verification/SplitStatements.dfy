// Top-level splitting of a SQL script: a semicolon separates statements unless it stands
// between a pair of `$$` marks, and every statement is stripped of surrounding white space.
module SplitStatements {

  // The characters that Python's str.strip removes.
  predicate IsSpace(c: char) {
    var n := c as int;
    || 0x09 <= n <= 0x0D || 0x1C <= n <= 0x20 || n == 0x85 || n == 0xA0 || n == 0x1680
    || 0x2000 <= n <= 0x200A || n == 0x2028 || n == 0x2029 || n == 0x202F || n == 0x205F || n == 0x3000
  }

  function TrimLeft(s: string): string {
    if s != [] && IsSpace(s[0]) then TrimLeft(s[1..]) else s
  }

  function TrimRight(s: string): string {
    if s != [] && IsSpace(s[|s| - 1]) then TrimRight(s[..|s| - 1]) else s
  }

  function Strip(s: string): string {
    TrimRight(TrimLeft(s))
  }

  // The statement list with one more buffer flushed into it.
  function Flush(statements: seq<string>, buffer: string): seq<string> {
    var statement := Strip(buffer);
    if statement == "" then statements else statements + [statement]
  }

  // What the scanner holds between two characters.
  datatype Scan = Scan(statements: seq<string>, buffer: string, quoted: bool)

  const START := Scan([], "", false)

  predicate AtDollars(sql: string) {
    |sql| >= 2 && sql[0] == '$' && sql[1] == '$'
  }

  // The scanner's state after all of `sql`, started in state `from`.
  function ScanAll(from: Scan, sql: string): Scan
    decreases |sql|
  {
    if sql == "" then from
    else if AtDollars(sql) then
      ScanAll(Scan(from.statements, from.buffer + "$$", !from.quoted), sql[2..])
    else if sql[0] == ';' && !from.quoted then
      ScanAll(Scan(Flush(from.statements, from.buffer), "", from.quoted), sql[1..])
    else
      ScanAll(Scan(from.statements, from.buffer + [sql[0]], from.quoted), sql[1..])
  }

  function Split(sql: string): seq<string> {
    var end := ScanAll(START, sql);
    Flush(end.statements, end.buffer)
  }

  // True when `sql` has an even number of `$$` marks, read left to right.
  predicate Balanced(sql: string) {
    !ScanAll(START, sql).quoted
  }

  // The scanning loop itself: a position, a buffer, the statements so far and the quote flag.
  method SplitStatements(sql: string) returns (statements: seq<string>)
    ensures statements == Split(sql)
  {
    statements := [];
    var buffer := "";
    var inDollarQuote := false;
    var index := 0;
    while index < |sql|
      invariant 0 <= index <= |sql|
      invariant ScanAll(START, sql) == ScanAll(Scan(statements, buffer, inDollarQuote), sql[index..])
    {
      assert AtDollars(sql[index..]) <==> index + 2 <= |sql| && sql[index..index + 2] == "$$" by {
        if index + 2 <= |sql| {
          assert sql[index..index + 2] == [sql[index], sql[index + 1]];
        }
      }
      if index + 2 <= |sql| && sql[index..index + 2] == "$$" {
        assert sql[index..][2..] == sql[index + 2..];
        inDollarQuote := !inDollarQuote;
        buffer := buffer + "$$";
        index := index + 2;
        continue;
      }
      assert sql[index..][1..] == sql[index + 1..];
      var character := sql[index];
      if character == ';' && !inDollarQuote {
        var statement := Strip(buffer);
        if statement != "" {
          statements := statements + [statement];
        }
        buffer := "";
      } else {
        buffer := buffer + [character];
      }
      index := index + 1;
    }
    var remainder := Strip(buffer);
    if remainder != "" {
      statements := statements + [remainder];
    }
  }

  // Statements already found never influence the rest of the scan: they are only a prefix.
  lemma {:induction false} ScanPrefix(before: seq<string>, from: Scan, sql: string)
    ensures var plain := ScanAll(from, sql);
            ScanAll(from.(statements := before + from.statements), sql)
            == plain.(statements := before + plain.statements)
    decreases |sql|
  {
    if sql == "" {
    } else if AtDollars(sql) {
      ScanPrefix(before, Scan(from.statements, from.buffer + "$$", !from.quoted), sql[2..]);
    } else if sql[0] == ';' && !from.quoted {
      var flushed := Flush(from.statements, from.buffer);
      assert Flush(before + from.statements, from.buffer) == before + flushed;
      ScanPrefix(before, Scan(flushed, "", from.quoted), sql[1..]);
    } else {
      ScanPrefix(before, Scan(from.statements, from.buffer + [sql[0]], from.quoted), sql[1..]);
    }
  }

  // A text that does not open with a dollar sign is scanned after `a` exactly as if scanning restarted there.
  lemma {:induction false} ScanConcat(from: Scan, a: string, b: string)
    requires b == "" || b[0] != '$'
    ensures ScanAll(from, a + b) == ScanAll(ScanAll(from, a), b)
    decreases |a|
  {
    if a == "" {
      assert a + b == b;
    } else if AtDollars(a) {
      assert (a + b)[2..] == a[2..] + b;
      ScanConcat(Scan(from.statements, from.buffer + "$$", !from.quoted), a[2..], b);
    } else {
      assert !AtDollars(a + b);
      assert (a + b)[1..] == a[1..] + b;
      if a[0] == ';' && !from.quoted {
        ScanConcat(Scan(Flush(from.statements, from.buffer), "", from.quoted), a[1..], b);
      } else {
        ScanConcat(Scan(from.statements, from.buffer + [a[0]], from.quoted), a[1..], b);
      }
    }
  }

  // Joining two scripts with a semicolon concatenates their statements, unless the first
  // one ends inside a quoted body; UnbalancedSwallows shows that the condition is exact.
  lemma {:induction false} SplitHomomorphism(a: string, b: string)
    requires Balanced(a)
    ensures Split(a + ";" + b) == Split(a) + Split(b)
  {
    var end := ScanAll(START, a);
    assert a + ";" + b == a + (";" + b);
    ScanConcat(START, a, ";" + b);
    assert (";" + b)[1..] == b;
    assert !AtDollars(";" + b);
    ScanPrefix(Split(a), START, b);
    assert Split(a) + [] == Split(a);
    var rest := ScanAll(START, b);
    assert Flush(Split(a) + rest.statements, rest.buffer) == Split(a) + Flush(rest.statements, rest.buffer);
  }

  // The quote flag after `s`, scanned from quote flag `quoted`.
  function QuotedAfter(s: string, quoted: bool): bool
    decreases |s|
  {
    if s == "" then quoted
    else if AtDollars(s) then QuotedAfter(s[2..], !quoted)
    else QuotedAfter(s[1..], quoted)
  }

  // No semicolon of `s` stands outside `$$` marks.
  predicate Solid(s: string, quoted: bool)
    decreases |s|
  {
    if s == "" then true
    else if AtDollars(s) then Solid(s[2..], !quoted)
    else (s[0] == ';' ==> quoted) && Solid(s[1..], quoted)
  }

  // The last character read is a dollar sign that did not find a partner.
  predicate LoneDollar(s: string)
    decreases |s|
  {
    if s == "" then false
    else if AtDollars(s) then LoneDollar(s[2..])
    else if |s| == 1 then s[0] == '$'
    else LoneDollar(s[1..])
  }

  // A statement as the splitter emits it: stripped, not empty, closed and without a top-level semicolon.
  predicate Statement(s: string) {
    s != "" && Strip(s) == s && Solid(s, false) && !QuotedAfter(s, false)
  }

  function Join(statements: seq<string>): string {
    if statements == [] then ""
    else if |statements| == 1 then statements[0]
    else statements[0] + ";" + Join(statements[1..])
  }

  // Scanning a solid text only moves it into the buffer.
  lemma {:induction false} ScanSolid(from: Scan, s: string)
    requires Solid(s, from.quoted)
    ensures ScanAll(from, s) == Scan(from.statements, from.buffer + s, QuotedAfter(s, from.quoted))
    decreases |s|
  {
    if s == "" {
      assert from.buffer + s == from.buffer;
    } else if AtDollars(s) {
      assert s == "$$" + s[2..];
      assert from.buffer + s == (from.buffer + "$$") + s[2..];
      ScanSolid(Scan(from.statements, from.buffer + "$$", !from.quoted), s[2..]);
    } else {
      assert from.buffer + s == (from.buffer + [s[0]]) + s[1..];
      ScanSolid(Scan(from.statements, from.buffer + [s[0]], from.quoted), s[1..]);
    }
  }

  lemma StatementAlone(s: string)
    requires Statement(s)
    ensures Balanced(s) && Split(s) == [s]
  {
    ScanSolid(START, s);
    assert "" + s == s;
  }

  // Splitting the semicolon-join of well-formed statements gives back exactly those statements.
  lemma {:induction false} SplitJoin(statements: seq<string>)
    requires forall i :: 0 <= i < |statements| ==> Statement(statements[i])
    ensures Split(Join(statements)) == statements
    decreases |statements|
  {
    if statements == [] {
    } else if |statements| == 1 {
      StatementAlone(statements[0]);
      assert statements == [statements[0]];
    } else {
      StatementAlone(statements[0]);
      SplitHomomorphism(statements[0], Join(statements[1..]));
      SplitJoin(statements[1..]);
      assert [statements[0]] + statements[1..] == statements;
    }
  }

  // Reading continues across a seam unless the seam would pair two dollar signs.
  lemma {:induction false} SolidConcat(a: string, b: string, quoted: bool)
    requires LoneDollar(a) && b != "" ==> b[0] != '$'
    ensures Solid(a + b, quoted) <==> Solid(a, quoted) && Solid(b, QuotedAfter(a, quoted))
    ensures QuotedAfter(a + b, quoted) == QuotedAfter(b, QuotedAfter(a, quoted))
    ensures LoneDollar(a + b) == if b == "" then LoneDollar(a) else LoneDollar(b)
    decreases |a|
  {
    if a == "" {
      assert a + b == b;
    } else if AtDollars(a) {
      assert (a + b)[2..] == a[2..] + b;
      SolidConcat(a[2..], b, !quoted);
    } else {
      assert !AtDollars(a + b);
      assert (a + b)[1..] == a[1..] + b;
      SolidConcat(a[1..], b, quoted);
    }
  }

  lemma {:induction false} SolidTrimLeft(s: string)
    ensures Solid(s, false) == Solid(TrimLeft(s), false)
    ensures QuotedAfter(s, false) == QuotedAfter(TrimLeft(s), false)
    ensures TrimLeft(s) != "" ==> !IsSpace(TrimLeft(s)[0])
  {
    if s != "" && IsSpace(s[0]) {
      SolidTrimLeft(s[1..]);
    }
  }

  lemma {:induction false} SolidTrimRight(s: string)
    ensures Solid(s, false) ==> Solid(TrimRight(s), false)
    ensures QuotedAfter(s, false) == QuotedAfter(TrimRight(s), false)
    ensures TrimRight(s) <= s && TrimRight(TrimRight(s)) == TrimRight(s)
  {
    if s != "" && IsSpace(s[|s| - 1]) {
      var body, last := s[..|s| - 1], [s[|s| - 1]];
      assert s == body + last;
      SolidConcat(body, last, false);
      SolidTrimRight(body);
    }
  }

  lemma {:induction false} StripSolid(s: string)
    ensures Strip(Strip(s)) == Strip(s)
    ensures Solid(s, false) ==> Solid(Strip(s), false)
    ensures QuotedAfter(s, false) == QuotedAfter(Strip(s), false)
  {
    SolidTrimLeft(s);
    SolidTrimRight(TrimLeft(s));
  }

  // What the scanner holds is always a list of statements and a solid buffer, and the text
  // still to come never pairs with a lone dollar sign at the end of that buffer.
  ghost predicate Held(from: Scan, rest: string) {
    && (forall i :: 0 <= i < |from.statements| ==> Statement(from.statements[i]))
    && Solid(from.buffer, false)
    && QuotedAfter(from.buffer, false) == from.quoted
    && (LoneDollar(from.buffer) && rest != "" ==> rest[0] != '$')
  }

  lemma {:induction false} ScanKeepsHeld(from: Scan, sql: string)
    requires Held(from, sql)
    ensures Held(ScanAll(from, sql), "")
    decreases |sql|
  {
    if sql == "" {
    } else if AtDollars(sql) {
      SolidConcat(from.buffer, "$$", false);
      assert !LoneDollar("$$") && Solid("$$", from.quoted) && QuotedAfter("$$", from.quoted) == !from.quoted;
      ScanKeepsHeld(Scan(from.statements, from.buffer + "$$", !from.quoted), sql[2..]);
    } else if sql[0] == ';' && !from.quoted {
      StripSolid(from.buffer);
      ScanKeepsHeld(Scan(Flush(from.statements, from.buffer), "", from.quoted), sql[1..]);
    } else {
      SolidConcat(from.buffer, [sql[0]], false);
      ScanKeepsHeld(Scan(from.statements, from.buffer + [sql[0]], from.quoted), sql[1..]);
    }
  }

  // Of a script whose quotes are closed, every piece is a statement that the splitter leaves
  // alone, so joining the pieces and splitting again finds the same statements.
  lemma SplitNormalForm(sql: string)
    requires Balanced(sql)
    ensures forall i :: 0 <= i < |Split(sql)| ==> Statement(Split(sql)[i])
    ensures Split(Join(Split(sql))) == Split(sql)
  {
    ScanKeepsHeld(START, sql);
    StripSolid(ScanAll(START, sql).buffer);
    SplitJoin(Split(sql));
  }

  // Closed quotes are exactly what the concatenation law needs: a script that ends inside a
  // quoted body swallows the semicolon and the statement behind it.
  lemma UnbalancedSwallows(a: string)
    requires !Balanced(a)
    ensures Split(a + ";" + "b") != Split(a) + Split("b")
  {
    var end := ScanAll(START, a);
    ScanKeepsHeld(START, a);
    StripSolid(end.buffer);
    assert a + ";" + "b" == a + ";b";
    ScanConcat(START, a, ";b");
    ScanSolid(end, ";b");
    assert ";b"[1..] == "b" && "b"[1..] == "";
    StatementAlone("b");
    assert |Split(a)| == |end.statements| + 1;
  }
}

/** The migration script splitter and the loop that executes a script's statements. */
module SqlScript {
  import opened Text
  import opened Sequences

  /** `str::split(";\n")`: the pieces between the separators, never none. */
  function Pieces(s: string): (r: seq<string>)
    ensures r != []
  {
    if |s| >= 2 && s[0] == ';' && s[1] == '\n' then [""] + Pieces(s[2..])
    else if s == [] then [""]
    else
      var rest := Pieces(s[1..]);
      [[s[0]] + rest[0]] + rest[1..]
  }

  /** One piece trimmed and closed with a semicolon; nothing for a blank piece. */
  function Statement(piece: string): seq<string> {
    var stmt := Trim(piece);
    if stmt == [] then []
    else if stmt[|stmt| - 1] == ';' then [stmt]
    else [stmt + ";"]
  }

  function Statements(pieces: seq<string>): seq<string> {
    if pieces == [] then [] else Statement(pieces[0]) + Statements(pieces[1..])
  }

  function SplitSqlStatements(sql: string): seq<string> {
    Statements(Pieces(sql))
  }

  ghost predicate NoSeparator(s: string) {
    forall i :: 0 <= i < |s| - 1 ==> !(s[i] == ';' && s[i + 1] == '\n')
  }

  function Join(pieces: seq<string>): string
    requires pieces != []
  {
    if |pieces| == 1 then pieces[0] else pieces[0] + ";\n" + Join(pieces[1..])
  }

  lemma JoinPush(c: char, pieces: seq<string>)
    requires pieces != []
    ensures Join([[c] + pieces[0]] + pieces[1..]) == [c] + Join(pieces)
  {
    var pushed := [[c] + pieces[0]] + pieces[1..];
    assert pushed[1..] == pieces[1..];
    if |pieces| > 1 {
      var tail := Join(pieces[1..]);
      assert ([c] + pieces[0]) + ";\n" + tail == [c] + (pieces[0] + ";\n" + tail);
    }
  }

  lemma {:induction false} JoinOfPieces(s: string)
    ensures Join(Pieces(s)) == s
  {
    if |s| >= 2 && s[0] == ';' && s[1] == '\n' {
      JoinOfPieces(s[2..]);
      var rest := Pieces(s[2..]);
      assert ([""] + rest)[1..] == rest;
      assert s == "" + ";\n" + s[2..];
    } else if s != [] {
      JoinOfPieces(s[1..]);
      JoinPush(s[0], Pieces(s[1..]));
      assert s == [s[0]] + s[1..];
    }
  }

  lemma {:induction false} PiecesNoSeparator(s: string)
    ensures Pieces(s)[0] <= s
    ensures forall p :: p in Pieces(s) ==> NoSeparator(p)
  {
    if |s| >= 2 && s[0] == ';' && s[1] == '\n' {
      PiecesNoSeparator(s[2..]);
    } else if s != [] {
      PiecesNoSeparator(s[1..]);
      var rest := Pieces(s[1..]);
      assert NoSeparator(rest[0]);
      assert forall p :: p in rest[1..] ==> p in rest;
    }
  }

  /** Splitting is exact: the pieces contain no separator and joining them gives the text back. */
  lemma PiecesJoin(s: string)
    ensures Join(Pieces(s)) == s
    ensures forall p :: p in Pieces(s) ==> NoSeparator(p)
  {
    JoinOfPieces(s);
    PiecesNoSeparator(s);
  }

  /** What a script says apart from layout: its characters without whitespace and semicolons. */
  function Significant(s: string): string {
    if s == [] then []
    else (if IsWhitespace(s[0]) || s[0] == ';' then [] else [s[0]]) + Significant(s[1..])
  }

  function Concat(parts: seq<string>): string {
    if parts == [] then [] else parts[0] + Concat(parts[1..])
  }

  lemma {:induction false} SignificantConcat(a: string, b: string)
    ensures Significant(a + b) == Significant(a) + Significant(b)
  {
    if a == [] {
      assert a + b == b;
    } else {
      SignificantConcat(a[1..], b);
      ConcatTail(a, b);
    }
  }

  lemma {:induction false} SignificantOfWhitespace(s: string)
    requires AllWhitespace(s)
    ensures Significant(s) == []
  {
    if s != [] {
      SignificantOfWhitespace(s[1..]);
    }
  }

  lemma StatementSignificant(piece: string)
    ensures Significant(Concat(Statement(piece))) == Significant(piece)
  {
    var lead, tail := TrimSplits(piece);
    var stmt := Trim(piece);
    SignificantConcat(lead + stmt, tail);
    SignificantConcat(lead, stmt);
    SignificantOfWhitespace(lead);
    SignificantOfWhitespace(tail);
    SignificantConcat(stmt, ";");
    ConcatOne(stmt);
    ConcatOne(stmt + ";");
  }

  lemma ConcatOne(s: string)
    ensures Concat([s]) == s
  {
    assert [s][1..] == [];
  }

  lemma {:induction false} ConcatAppend(a: seq<string>, b: seq<string>)
    ensures Concat(a + b) == Concat(a) + Concat(b)
  {
    if a == [] {
      assert a + b == b;
    } else {
      ConcatAppend(a[1..], b);
      ConcatTail(a, b);
    }
  }

  lemma SeparatorInsignificant(a: string, b: string)
    ensures Significant(a + ";\n" + b) == Significant(a) + Significant(b)
  {
    SignificantConcat(a + ";\n", b);
    SignificantConcat(a, ";\n");
    SeparatorSaysNothing();
  }

  lemma SeparatorSaysNothing()
    ensures Significant(";\n") == []
  {
    assert ";\n"[1..] == "\n";
    assert "\n"[1..] == "";
  }

  lemma {:induction false} StatementsSignificant(pieces: seq<string>)
    requires pieces != []
    ensures Significant(Concat(Statements(pieces))) == Significant(Join(pieces))
  {
    var s, rest := Statement(pieces[0]), Statements(pieces[1..]);
    calc {
      Significant(Concat(s + rest));
      { ConcatAppend(s, rest); SignificantConcat(Concat(s), Concat(rest)); }
      Significant(Concat(s)) + Significant(Concat(rest));
      { StatementSignificant(pieces[0]); }
      Significant(pieces[0]) + Significant(Concat(rest));
    }
    if |pieces| > 1 {
      StatementsSignificant(pieces[1..]);
      SeparatorInsignificant(pieces[0], Join(pieces[1..]));
    } else {
      assert rest == [] && Significant(Concat([])) == [];
    }
  }

  /** Nothing a script says is lost, added or reordered by splitting it. */
  lemma SplitPreservesText(sql: string)
    ensures Significant(Concat(SplitSqlStatements(sql))) == Significant(sql)
  {
    PiecesJoin(sql);
    StatementsSignificant(Pieces(sql));
  }

  ghost predicate WellFormedStatement(s: string) {
    s != [] && Trimmed(s) && s[|s| - 1] == ';' && NoSeparator(s)
  }

  lemma StatementWellFormed(piece: string)
    requires NoSeparator(piece)
    ensures forall s :: s in Statement(piece) ==> WellFormedStatement(s)
  {
    var lead, tail := TrimSplits(piece);
    var stmt := Trim(piece);
    forall i | 0 <= i < |stmt| - 1 ensures !(stmt[i] == ';' && stmt[i + 1] == '\n') {
      assert stmt[i] == piece[|lead| + i] && stmt[i + 1] == piece[|lead| + i + 1];
    }
  }

  lemma {:induction false} StatementsWellFormed(pieces: seq<string>)
    requires forall p :: p in pieces ==> NoSeparator(p)
    ensures forall s :: s in Statements(pieces) ==> WellFormedStatement(s)
  {
    if pieces != [] {
      StatementWellFormed(pieces[0]);
      StatementsWellFormed(pieces[1..]);
    }
  }

  /** Every statement is non-empty, trimmed, closed by a semicolon and free of the separator. */
  lemma SplitWellFormed(sql: string)
    ensures forall s :: s in SplitSqlStatements(sql) ==> WellFormedStatement(s)
  {
    PiecesJoin(sql);
    StatementsWellFormed(Pieces(sql));
  }

  /** The statement is the piece without the whitespace around it, closed by a semicolon if it was not. */
  ghost predicate ClosedPiece(stmt: string, piece: string) {
    var bare := Trim(piece);
    bare != [] && stmt == if bare[|bare| - 1] == ';' then bare else bare + ";"
  }

  lemma {:induction false} StatementsArePieces(pieces: seq<string>)
    ensures forall stmt :: stmt in Statements(pieces) ==> exists piece :: piece in pieces && ClosedPiece(stmt, piece)
    ensures |Statements(pieces)| == |NonBlank(pieces)|
  {
    if pieces != [] {
      StatementsArePieces(pieces[1..]);
      forall stmt | stmt in Statements(pieces) ensures exists piece :: piece in pieces && ClosedPiece(stmt, piece) {
        if stmt in Statement(pieces[0]) {
          assert pieces[0] in pieces && ClosedPiece(stmt, pieces[0]);
        } else {
          var piece :| piece in pieces[1..] && ClosedPiece(stmt, piece);
          assert piece in pieces;
        }
      }
    }
  }

  function NonBlank(pieces: seq<string>): seq<string> {
    if pieces == [] then [] else (if Trim(pieces[0]) == [] then [] else [pieces[0]]) + NonBlank(pieces[1..])
  }

  /** Each statement is one of the pieces between the separators, blank ones left out; no semicolon is doubled. */
  lemma SplitIsPieces(sql: string)
    ensures forall stmt :: stmt in SplitSqlStatements(sql) ==>
              exists piece :: piece in Pieces(sql) && ClosedPiece(stmt, piece)
    ensures |SplitSqlStatements(sql)| == |NonBlank(Pieces(sql))|
  {
    StatementsArePieces(Pieces(sql));
  }

  /** What is significant of one character; so of a text, part by part. */
  lemma SignificantOne(c: char)
    ensures Significant([c]) == if IsWhitespace(c) || c == ';' then [] else [c]
  {
    assert [c][1..] == [];
  }

  /** A statement body as a script author writes it, without its closing semicolon. */
  ghost predicate CleanBody(b: string) {
    b != [] && Trimmed(b) && b[|b| - 1] != ';' && NoSeparator(b)
  }

  function PrintScript(bodies: seq<string>): string {
    if bodies == [] then [] else bodies[0] + ";\n" + PrintScript(bodies[1..])
  }

  lemma {:induction false} PiecesOfLine(b: string, rest: string)
    requires NoSeparator(b) && (b != [] ==> b[|b| - 1] != ';')
    ensures Pieces(b + ";\n" + rest) == [b] + Pieces(rest)
  {
    var s := b + ";\n" + rest;
    if b == [] {
      assert s[2..] == rest;
    } else {
      PiecesOfLine(b[1..], rest);
      assert s[1..] == b[1..] + ";\n" + rest;
      assert !(s[0] == ';' && s[1] == '\n');
      assert [s[0]] + b[1..] == b;
    }
  }

  /** Printing clean bodies one per line and splitting gives back exactly those statements, in order. */
  lemma {:induction false} SplitPrintedScript(bodies: seq<string>)
    requires forall b :: b in bodies ==> CleanBody(b)
    ensures SplitSqlStatements(PrintScript(bodies)) == seq(|bodies|, i requires 0 <= i < |bodies| => bodies[i] + ";")
  {
    if bodies == [] {
      assert Pieces("") == [""] && Statements([""]) == Statement("") + Statements([]);
    } else {
      var b := bodies[0];
      assert b in bodies;
      PiecesOfLine(b, PrintScript(bodies[1..]));
      SplitPrintedScript(bodies[1..]);
      TrimOfTrimmed(b);
      var pieces := Pieces(PrintScript(bodies));
      assert pieces[1..] == Pieces(PrintScript(bodies[1..]));
    }
  }
}

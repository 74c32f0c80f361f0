/** The splitter that cuts a migration file into SQL statements: a
    character scanner that ends a statement at each `;` outside parentheses
    and outside `--` line comments, trims what it collected, and drops what
    holds nothing but comments and white space. */
module Migrate {
  import opened Text

  // ---------------------------------------------------------------------
  // Comment filter

  /** The rest of s from its first line feed on (empty when there is none). */
  function LineRest(s: string): (r: string)
    ensures |r| <= |s| && r == s[|s| - |r|..]
    ensures r == [] || r[0] == '\n'
    ensures s != [] && s[0] != '\n' ==> |r| < |s|
  {
    if s == [] || s[0] == '\n' then s else LineRest(s[1..])
  }

  /** A `--` starts at the head of s. */
  predicate StartsWithDashes(s: string) {
    |s| >= 2 && s[0] == '-' && s[1] == '-'
  }

  /** Global replacement of the pattern `--[^\n]*` by "": each `--` and the rest of its line,
      up to but not including the line feed, is removed, leftmost first. The
      result holds no `--` at all. */
  function StripComments(s: string): (r: string)
    ensures |r| <= |s|
    ensures forall i :: 0 <= i < |r| - 1 ==> !(r[i] == '-' && r[i + 1] == '-')
    ensures r != [] && !StartsWithDashes(s) ==> r[0] == s[0]
    ensures r != [] && StartsWithDashes(s) ==> r[0] == '\n'
    decreases |s|
  {
    if s == [] then []
    else if StartsWithDashes(s) then
      var rest := LineRest(s);
      var r := StripComments(rest);
      assert !StartsWithDashes(rest);
      r
    else
      var tail := StripComments(s[1..]);
      var r := [s[0]] + tail;
      assert forall i :: 1 <= i < |r| - 1 ==> r[i] == tail[i - 1] && r[i + 1] == tail[i];
      assert tail != [] && s[0] == '-' ==> tail[0] != '-';
      r
  }

  /** What survives the filter: something other than comments and white space. */
  predicate HasContent(s: string) {
    Trim(StripComments(s)) != []
  }

  /** The trimmed pieces that have content, in order. */
  function Kept(pieces: seq<string>): (r: seq<string>)
    ensures |r| <= |pieces|
    ensures forall s :: s in r ==> Trim(s) == s && HasContent(s)
    ensures forall p :: p in pieces && HasContent(Trim(p)) ==> Trim(p) in r
  {
    if pieces == [] then []
    else
      var t := Trim(pieces[|pieces| - 1]);
      TrimIdempotent(pieces[|pieces| - 1]);
      Kept(pieces[..|pieces| - 1]) + (if HasContent(t) then [t] else [])
  }

  // ---------------------------------------------------------------------
  // The scanner

  /** The scanner's variables: the finished pieces, the piece being built,
      the parenthesis depth and whether a line comment is open. */
  datatype Scan = Scan(pieces: seq<string>, current: string, depth: int, inComment: bool)

  /** `ch === "-" && next === "-"` at index i. */
  predicate StartsComment(text: string, i: nat)
    requires i < |text|
  {
    i + 1 < |text| && text[i] == '-' && text[i + 1] == '-'
  }

  /** One iteration of the scanning loop, on character i. */
  function Step(st: Scan, text: string, i: nat): Scan
    requires i < |text|
  {
    var ch := text[i];
    var inComment := st.inComment || StartsComment(text, i);
    if inComment then
      st.(current := st.current + [ch], inComment := ch != '\n')
    else
      var depth := if ch == '(' then st.depth + 1 else if ch == ')' then st.depth - 1 else st.depth;
      if ch == ';' && depth == 0 then Scan(st.pieces + [st.current], "", depth, false)
      else Scan(st.pieces, st.current + [ch], depth, false)
  }

  /** The scanner's variables after the first n characters. */
  function ScanTo(text: string, n: nat): Scan
    requires n <= |text|
  {
    if n == 0 then Scan([], "", 0, false) else Step(ScanTo(text, n - 1), text, n - 1)
  }

  /** Every piece the scan produces, the text after the last split included. */
  function AllPieces(text: string): seq<string> {
    var st := ScanTo(text, |text|);
    st.pieces + [st.current]
  }

  /** The statements `parseStatements` returns. */
  function Statements(text: string): seq<string> {
    Kept(AllPieces(text))
  }

  /** `parseStatements` */
  method ParseStatements(text: string) returns (results: seq<string>)
    ensures results == Statements(text)
  {
    results := [];
    var current := "";
    var depth := 0;
    var inLineComment := false;
    ghost var pieces: seq<string> := [];
    for i := 0 to |text|
      invariant ScanTo(text, i) == Scan(pieces, current, depth, inLineComment)
      invariant results == Kept(pieces)
    {
      var ch := text[i];
      if ch == '-' && i + 1 < |text| && text[i + 1] == '-' {
        inLineComment := true;
      }
      if inLineComment && ch == '\n' {
        inLineComment := false;
        current := current + [ch];
        continue;
      }
      if inLineComment {
        current := current + [ch];
        continue;
      }
      if ch == '(' {
        depth := depth + 1;
      }
      if ch == ')' {
        depth := depth - 1;
      }
      if ch == ';' && depth == 0 {
        var trimmed := Trim(current);
        var withoutComments := Trim(StripComments(trimmed));
        if |withoutComments| > 0 {
          results := results + [trimmed];
        }
        pieces := pieces + [current];
        current := "";
        continue;
      }
      current := current + [ch];
    }
    assert pieces + [current] == AllPieces(text);
    var trimmed := Trim(current);
    var withoutComments := Trim(StripComments(trimmed));
    if |withoutComments| > 0 {
      results := results + [trimmed];
    }
    assert (pieces + [current])[..|pieces|] == pieces;
  }

  // ---------------------------------------------------------------------
  // Properties

  /** Every emitted statement is trimmed and has non-comment content. */
  lemma {:induction false} StatementsWellFormed(text: string)
    ensures forall s :: s in Statements(text) ==> Trim(s) == s && HasContent(s)
  {
  }

  /** The pieces joined with `;` give back the text: no character is lost,
      none is added, the order is kept, and each split consumed exactly one
      `;` that belongs to no piece. */
  function Joined(pieces: seq<string>, last: string): string {
    if pieces == [] then last else Joined(pieces[..|pieces| - 1], pieces[|pieces| - 1]) + ";" + last
  }

  lemma {:induction false} ScanJoin(text: string, n: nat)
    requires n <= |text|
    ensures Joined(ScanTo(text, n).pieces, ScanTo(text, n).current) == text[..n]
  {
    if n > 0 {
      ScanJoin(text, n - 1);
      var a := ScanTo(text, n - 1);
      var b := ScanTo(text, n);
      assert text[..n] == text[..n - 1] + [text[n - 1]];
      if b.pieces == a.pieces {
        assert b.current == a.current + [text[n - 1]];
        if a.pieces != [] {
          var p := a.pieces;
          assert Joined(p, b.current) == Joined(p[..|p| - 1], p[|p| - 1]) + ";" + (a.current + [text[n - 1]]);
        }
      } else {
        assert b.pieces == a.pieces + [a.current] && b.current == "" && text[n - 1] == ';';
        assert b.pieces[..|b.pieces| - 1] == a.pieces;
      }
    }
  }

  lemma {:induction false} AllPiecesJoin(text: string)
    ensures var p := AllPieces(text); Joined(p[..|p| - 1], p[|p| - 1]) == text
  {
    var st := ScanTo(text, |text|);
    var p := AllPieces(text);
    assert p[..|p| - 1] == st.pieces;
    ScanJoin(text, |text|);
    assert text[..|text|] == text;
  }

  /** A `;` that is outside parentheses and outside a comment. */
  predicate TopLevelSemicolon(text: string, i: nat)
    requires i < |text|
  {
    var st := ScanTo(text, i);
    text[i] == ';' && !st.inComment && st.depth == 0
  }

  /** What one character does to the scan: a top-level `;` closes the piece
      and is dropped, any other character is appended to the piece; inside a
      comment (from `--` to the line feed, which stays in the piece) the
      depth does not move and nothing is split, so a `;` in parentheses or in
      a comment never ends a statement. */
  lemma {:induction false} ScanStep(text: string, i: nat)
    requires i < |text|
    ensures var a := ScanTo(text, i); var b := ScanTo(text, i + 1);
            TopLevelSemicolon(text, i) ==> b.pieces == a.pieces + [a.current] && b.current == ""
    ensures var a := ScanTo(text, i); var b := ScanTo(text, i + 1);
            !TopLevelSemicolon(text, i) ==> b.pieces == a.pieces && b.current == a.current + [text[i]]
    ensures var a := ScanTo(text, i); var b := ScanTo(text, i + 1);
            a.inComment || StartsComment(text, i) ==> b.depth == a.depth && (b.inComment <==> text[i] != '\n')
    ensures var a := ScanTo(text, i); var b := ScanTo(text, i + 1);
            !(a.inComment || StartsComment(text, i)) ==>
              !b.inComment
              && b.depth == a.depth + (if text[i] == '(' then 1 else if text[i] == ')' then -1 else 0)
  {
  }
}

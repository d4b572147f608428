/** Splitting the arguments of a call at its top-level commas. */
module ArgumentSplitter {
  import opened Common

  /** Depths of the three kinds of brackets (they may go negative) and the open quote. */
  datatype Scan = Scan(paren: int, bracket: int, brace: int, quote: Option<char>)

  const START: Scan := Scan(0, 0, 0, None)

  function Step(s: Scan, c: char): Scan {
    if s.quote.Some? then (if c == s.quote.value then s.(quote := None) else s)
    else if c == '\'' || c == '"' then s.(quote := Some(c))
    else if c == '(' then s.(paren := s.paren + 1)
    else if c == ')' then s.(paren := s.paren - 1)
    else if c == '[' then s.(bracket := s.bracket + 1)
    else if c == ']' then s.(bracket := s.bracket - 1)
    else if c == '{' then s.(brace := s.brace + 1)
    else if c == '}' then s.(brace := s.brace - 1)
    else s
  }

  function After(s: Scan, text: string): Scan
    decreases |text|
  {
    if text == "" then s else After(Step(s, text[0]), text[1..])
  }

  /** A comma outside quotes with all depths zero. */
  predicate Cuts(s: Scan, c: char) {
    c == ',' && s.quote.None? && s.bracket == 0 && s.brace == 0 && s.paren == 0
  }

  /** No character of the text is a cut. */
  predicate NoCut(s: Scan, text: string)
    decreases |text|
  {
    text == "" || (!Cuts(s, text[0]) && NoCut(Step(s, text[0]), text[1..]))
  }

  /** str.isspace for one character. */
  predicate IsSpace(c: char) {
    var n := c as int;
    0x09 <= n <= 0x0D || 0x1C <= n <= 0x20 || n == 0x85 || n == 0xA0 || n == 0x1680 || 0x2000 <= n <= 0x200A
    || n == 0x2028 || n == 0x2029 || n == 0x202F || n == 0x205F || n == 0x3000
  }

  function StripLeft(s: string): (r: string)
    ensures |r| <= |s|
  {
    if s != "" && IsSpace(s[0]) then StripLeft(s[1..]) else s
  }

  function StripRight(s: string): (r: string)
    ensures |r| <= |s|
  {
    if s != "" && IsSpace(s[|s| - 1]) then StripRight(s[..|s| - 1]) else s
  }

  function Strip(s: string): (r: string)
    ensures |r| <= |s| && (|r| == |s| ==> r == s)
  {
    StripShorter(s);
    StripRight(StripLeft(s))
  }

  lemma StripShorter(s: string)
    ensures |StripLeft(s)| == |s| ==> StripLeft(s) == s
    ensures |StripRight(StripLeft(s))| == |StripLeft(s)| ==> StripRight(StripLeft(s)) == StripLeft(s)
  {
  }

  predicate Blank(s: string) {
    forall i :: 0 <= i < |s| ==> IsSpace(s[i])
  }

  lemma {:induction false} StripLeftTrims(s: string)
    ensures var i := |s| - |StripLeft(s)|; s == s[..i] + StripLeft(s) && Blank(s[..i])
    ensures StripLeft(s) != "" ==> !IsSpace(StripLeft(s)[0])
  {
    if s != "" && IsSpace(s[0]) {
      var t, i := s[1..], |s| - |StripLeft(s)|;
      StripLeftTrims(t);
      assert s[..i] == [s[0]] + t[..i - 1];
    }
  }

  lemma {:induction false} StripRightTrims(s: string)
    ensures var n := |StripRight(s)|; s == StripRight(s) + s[n..] && Blank(s[n..])
    ensures StripRight(s) != "" ==> !IsSpace(StripRight(s)[|StripRight(s)| - 1]) && StripRight(s)[0] == s[0]
  {
    if s != "" && IsSpace(s[|s| - 1]) {
      var t, n := s[..|s| - 1], |StripRight(s)|;
      StripRightTrims(t);
      assert s[n..] == t[n..] + [s[|s| - 1]];
    }
  }

  /** Stripping takes away white space at both ends, all of it, and nothing else. */
  lemma StripTrims(s: string)
    ensures var t, r := StripLeft(s), Strip(s);
            && s == s[..|s| - |t|] + (r + t[|r|..])
            && Blank(s[..|s| - |t|]) && Blank(t[|r|..])
            && (r != "" ==> !IsSpace(r[0]) && !IsSpace(r[|r| - 1]))
  {
    StripLeftTrims(s);
    StripRightTrims(StripLeft(s));
  }

  // ---- what the scan counts -----------------------------------------------------------------

  /** The quote that a text leaves open: one opens outside another and is closed by the next of its kind. */
  function OpenQuote(text: string): Option<char> {
    if text == "" then None
    else
      var c := text[|text| - 1];
      match OpenQuote(text[..|text| - 1])
      case Some(q) => if c == q then None else Some(q)
      case None => if c in "'\"" then Some(c) else None
  }

  /** How often a character occurs outside quotes. */
  function Outside(text: string, c: char): nat {
    if text == "" then 0
    else
      var before := text[..|text| - 1];
      Outside(before, c) + if OpenQuote(before).None? && text[|text| - 1] == c then 1 else 0
  }

  /** How many brackets of a kind are opened outside quotes and not closed. */
  function Balance(text: string, open: char, close: char): int {
    Outside(text, open) as int - Outside(text, close)
  }

  lemma {:induction false} AfterSnoc(s: Scan, text: string, c: char)
    ensures After(s, text + [c]) == Step(After(s, text), c)
    decreases |text|
  {
    if text != "" {
      assert (text + [c])[1..] == text[1..] + [c];
      AfterSnoc(Step(s, text[0]), text[1..], c);
    }
  }

  /** The scan keeps for each kind of bracket the difference of opened and closed ones, and the open quote. */
  lemma {:induction false} ScanCounts(text: string)
    ensures After(START, text)
         == Scan(Balance(text, '(', ')'), Balance(text, '[', ']'), Balance(text, '{', '}'), OpenQuote(text))
  {
    if text != "" {
      var before, c := text[..|text| - 1], text[|text| - 1];
      ScanCounts(before);
      AfterSnoc(START, before, c);
      assert before + [c] == text;
    }
  }

  /** So a comma separates arguments exactly outside quotes and with every kind of bracket balanced in front of it. */
  lemma CutsIff(text: string)
    ensures Cuts(After(START, text), ',')
       <==> && OpenQuote(text).None?
            && Balance(text, '(', ')') == Balance(text, '[', ']') == Balance(text, '{', '}') == 0
  {
    ScanCounts(text);
  }

  // ---- raw pieces ---------------------------------------------------------------------------

  /** The text between the cuts, as it stands. */
  function Pieces(s: Scan, text: string): (ps: seq<string>)
    ensures ps != []
    decreases |text|
  {
    if text == "" then [""]
    else if Cuts(s, text[0]) then [""] + Pieces(s, text[1..])
    else
      var ps := Pieces(Step(s, text[0]), text[1..]);
      [[text[0]] + ps[0]] + ps[1..]
  }

  function StripAll(ps: seq<string>): (r: seq<string>)
    ensures |r| == |ps| && forall i :: 0 <= i < |ps| ==> r[i] == Strip(ps[i])
  {
    seq(|ps|, i requires 0 <= i < |ps| => Strip(ps[i]))
  }

  /** Every piece trimmed; an empty last piece is not an argument. */
  function Trimmed(ps: seq<string>): seq<string>
    requires ps != []
  {
    if ps[|ps| - 1] == "" then StripAll(ps[..|ps| - 1]) else StripAll(ps)
  }

  function Split(text: string): seq<string> {
    Trimmed(Pieces(START, text))
  }

  function Join(ps: seq<string>): string {
    if ps == [] then "" else if |ps| == 1 then ps[0] else ps[0] + "," + Join(ps[1..])
  }

  // ---- the loop -----------------------------------------------------------------------------

  /** The three depth counters after a character outside quotes. */
  method Track(c: char, paren: int, bracket: int, brace: int) returns (paren': int, bracket': int, brace': int)
    requires c != '\'' && c != '"'
    ensures Scan(paren', bracket', brace', None) == Step(Scan(paren, bracket, brace, None), c)
  {
    paren', bracket', brace' := paren, bracket, brace;
    if c == '(' {
      paren' := paren + 1;
    } else if c == ')' {
      paren' := paren - 1;
    } else if c == '[' {
      bracket' := bracket + 1;
    } else if c == ']' {
      bracket' := bracket - 1;
    } else if c == '{' {
      brace' := brace + 1;
    } else if c == '}' {
      brace' := brace - 1;
    }
  }

  method SplitTopLevelArgs(paramsStr: string) returns (items: seq<string>)
    ensures items == Split(paramsStr)
  {
    items := [];
    var current := "";
    var bracketLevel, braceLevel, parenLevel := 0, 0, 0;
    var quoteChar: Option<char> := None;
    ghost var done: seq<string> := [];
    assert paramsStr[0..] == paramsStr;
    ContinueNothing(Pieces(START, paramsStr));
    assert [] + Pieces(START, paramsStr) == Pieces(START, paramsStr);
    for i := 0 to |paramsStr|
      invariant items == StripAll(done)
      invariant var s := Scan(parenLevel, bracketLevel, braceLevel, quoteChar);
                Pieces(START, paramsStr) == done + Continue(current, Pieces(s, paramsStr[i..]))
    {
      var c := paramsStr[i];
      ghost var s := Scan(parenLevel, bracketLevel, braceLevel, quoteChar);
      ghost var was, before := current, done;
      if quoteChar.Some? {
        if c == quoteChar.value { quoteChar := None; }
        current := current + [c];
      } else if c == '\'' || c == '"' {
        quoteChar := Some(c);
        current := current + [c];
      } else if c == ',' && bracketLevel == 0 && braceLevel == 0 && parenLevel == 0 {
        items := items + [Strip(current)];
        current := "";
        done := done + [was];
      } else {
        parenLevel, bracketLevel, braceLevel := Track(c, parenLevel, bracketLevel, braceLevel);
        current := current + [c];
      }
      assert paramsStr[i..] == [c] + paramsStr[i + 1..];
      ReadOne(before, was, s, c, paramsStr[i + 1..]);
    }
    assert paramsStr[|paramsStr|..] == "";
    SplitOf(paramsStr, done, current);
    if current != "" {
      items := items + [Strip(current)];
    }
  }

  /** The pieces when `current` has already been read of the first one. */
  function Continue(current: string, rest: seq<string>): seq<string>
    requires rest != []
  {
    [current + rest[0]] + rest[1..]
  }

  lemma ContinueNothing(rest: seq<string>)
    requires rest != []
    ensures Continue("", rest) == rest
  {
    assert "" + rest[0] == rest[0];
    assert [rest[0]] + rest[1..] == rest;
  }

  /** Moving one character from the rest of the text to the current piece. */
  lemma Regroup(s: Scan, c: char, text: string, current: string)
    ensures Continue(current, Pieces(s, [c] + text))
         == if Cuts(s, c) then [current] + Pieces(s, text) else Continue(current + [c], Pieces(Step(s, c), text))
  {
    assert ([c] + text)[0] == c && ([c] + text)[1..] == text;
    if Cuts(s, c) {
      ContinueCut(current, Pieces(s, text));
    } else {
      ContinueOne(current, c, Pieces(Step(s, c), text));
    }
  }

  lemma ContinueCut(current: string, rest: seq<string>)
    ensures Continue(current, [""] + rest) == [current] + rest
  {
    assert current + "" == current;
    assert ([""] + rest)[1..] == rest;
  }

  lemma ContinueOne(current: string, c: char, rest: seq<string>)
    requires rest != []
    ensures Continue(current, [[c] + rest[0]] + rest[1..]) == Continue(current + [c], rest)
  {
    assert current + ([c] + rest[0]) == current + [c] + rest[0];
    assert ([[c] + rest[0]] + rest[1..])[1..] == rest[1..];
  }

  /** One turn of the loop. */
  lemma ReadOne(done: seq<string>, current: string, s: Scan, c: char, text: string)
    ensures done + Continue(current, Pieces(s, [c] + text))
         == if Cuts(s, c) then (done + [current]) + Continue("", Pieces(s, text))
            else done + Continue(current + [c], Pieces(Step(s, c), text))
  {
    Regroup(s, c, text, current);
    if Cuts(s, c) {
      ContinueNothing(Pieces(s, text));
      ConcatAssociates(done, [current], Pieces(s, text));
    }
  }

  lemma SplitOf(text: string, done: seq<string>, current: string)
    requires Pieces(START, text) == done + Continue(current, [""])
    ensures Split(text) == StripAll(done) + if current != "" then [Strip(current)] else []
  {
    assert current + "" == current;
    assert Pieces(START, text) == done + [current];
    assert (done + [current])[..|done|] == done;
  }

  // ---- what the pieces are ------------------------------------------------------------------

  /** No piece contains a cut, and every piece but the last ends with all depths zero outside quotes. */
  predicate Proper(s: Scan, ps: seq<string>)
    decreases |ps|
  {
    && ps != []
    && NoCut(s, ps[0])
    && (|ps| > 1 ==> After(s, ps[0]) == START && Proper(START, ps[1..]))
  }

  /** The pieces are cut at top level only, and nothing but the cutting commas is lost. */
  lemma {:induction false} PiecesAreProper(s: Scan, text: string)
    ensures Proper(s, Pieces(s, text)) && Join(Pieces(s, text)) == text
    decreases |text|
  {
    if text == "" {
    } else if Cuts(s, text[0]) {
      PiecesAreProper(s, text[1..]);
      var rest := Pieces(s, text[1..]);
      assert s == START;
      assert ([""] + rest)[1..] == rest;
      assert "" + "," + text[1..] == text;
    } else {
      var ps := Pieces(Step(s, text[0]), text[1..]);
      PiecesAreProper(Step(s, text[0]), text[1..]);
      PrependProper(s, text[0], ps);
      PrependJoin(text[0], ps);
      assert [text[0]] + text[1..] == text;
    }
  }

  lemma PrependProper(s: Scan, c: char, ps: seq<string>)
    requires Proper(Step(s, c), ps) && !Cuts(s, c)
    ensures Proper(s, [[c] + ps[0]] + ps[1..])
  {
    assert ([c] + ps[0])[1..] == ps[0];
    assert ([[c] + ps[0]] + ps[1..])[1..] == ps[1..];
  }

  lemma PrependJoin(c: char, ps: seq<string>)
    requires ps != []
    ensures Join([[c] + ps[0]] + ps[1..]) == [c] + Join(ps)
  {
    assert ([[c] + ps[0]] + ps[1..])[1..] == ps[1..];
    if |ps| > 1 {
      assert [c] + (ps[0] + "," + Join(ps[1..])) == ([c] + ps[0]) + "," + Join(ps[1..]);
    }
  }

  /** Proper pieces are found again in their join. */
  lemma {:induction false} PiecesOfJoin(s: Scan, ps: seq<string>)
    requires Proper(s, ps)
    ensures Pieces(s, Join(ps)) == ps
    decreases |ps|, |ps[0]|
  {
    if ps[0] == "" {
      if |ps| > 1 {
        PiecesOfJoin(START, ps[1..]);
        assert Join(ps)[1..] == Join(ps[1..]);
        assert [""] + ps[1..] == ps;
      }
    } else {
      var c, tail := ps[0][0], [ps[0][1..]] + ps[1..];
      assert [c] + ps[0][1..] == ps[0];
      assert tail[1..] == ps[1..];
      assert [[c] + tail[0]] + tail[1..] == ps;
      PiecesOfJoin(Step(s, c), tail);
      PrependJoin(c, tail);
      assert Join(ps)[1..] == Join(tail);
    }
  }

  // ---- splitting a join ---------------------------------------------------------------------

  function Total(ps: seq<string>): nat {
    if ps == [] then 0 else |ps[0]| + Total(ps[1..])
  }

  lemma {:induction false} JoinLength(ps: seq<string>)
    requires ps != []
    ensures |Join(ps)| == Total(ps) + |ps| - 1
  {
    if |ps| > 1 {
      JoinLength(ps[1..]);
    } else {
      assert Total(ps[1..]) == 0;
    }
  }

  lemma {:induction false} StripAllShorter(ps: seq<string>)
    ensures Total(StripAll(ps)) <= Total(ps)
    ensures Total(StripAll(ps)) == Total(ps) ==> StripAll(ps) == ps
  {
    if ps != [] {
      StripAllShorter(ps[1..]);
      assert StripAll(ps)[1..] == StripAll(ps[1..]);
      if Total(StripAll(ps)) == Total(ps) {
        assert ps == [ps[0]] + ps[1..];
      }
    }
  }

  lemma {:induction false} TotalSnoc(ps: seq<string>, p: string)
    ensures Total(ps + [p]) == Total(ps) + |p|
  {
    if ps != [] {
      assert (ps + [p])[1..] == ps[1..] + [p];
      TotalSnoc(ps[1..], p);
    } else {
      assert [] + [p] == [p] && Total([p][1..]) == 0;
    }
  }

  /**
   The arguments can stand in a call: none holds a top-level comma, all but the last are closed, none needs trimming.
   */
  predicate Separable(args: seq<string>) {
    args != [] ==> Proper(START, args) && StripAll(args) == args && args[|args| - 1] != ""
  }

  lemma SplitJoinHolds(args: seq<string>)
    requires Separable(args)
    ensures Split(Join(args)) == args
  {
    if args != [] { PiecesOfJoin(START, args); }
  }

  lemma SplitJoinNeeds(args: seq<string>)
    requires Split(Join(args)) == args && args != []
    ensures Separable(args)
  {
    PiecesAreProper(START, Join(args));
    TrimmingLosesNothing(args, Pieces(START, Join(args)));
  }

  lemma TrimmedTotal(ps: seq<string>)
    requires ps != []
    ensures Total(Trimmed(ps)) <= Total(ps)
    ensures |Trimmed(ps)| == if ps[|ps| - 1] == "" then |ps| - 1 else |ps|
    ensures ps[|ps| - 1] != "" && Total(Trimmed(ps)) == Total(ps) ==> Trimmed(ps) == ps
  {
    var n := |ps| - 1;
    if ps[n] == "" {
      assert ps == ps[..n] + [ps[n]];
      TotalSnoc(ps[..n], ps[n]);
      StripAllShorter(ps[..n]);
    } else {
      StripAllShorter(ps);
    }
  }

  /** If the trimmed pieces are the arguments, counting characters shows that nothing was trimmed. */
  lemma TrimmingLosesNothing(args: seq<string>, ps: seq<string>)
    requires ps != [] && args != [] && |Join(ps)| == |Join(args)| && args == Trimmed(ps)
    ensures ps == args && ps[|ps| - 1] != ""
  {
    JoinLength(ps);
    JoinLength(args);
    TrimmedTotal(ps);
  }

  /** Splitting undoes joining exactly for separable argument lists. */
  lemma SplitInvertsJoinIff(args: seq<string>)
    ensures Split(Join(args)) == args <==> Separable(args)
  {
    if Separable(args) { SplitJoinHolds(args); }
    if Split(Join(args)) == args && args != [] { SplitJoinNeeds(args); }
  }

  // ---- white space after the commas ---------------------------------------------------------

  function Indent(blank: string, args: seq<string>): (r: seq<string>)
    ensures |r| == |args|
  {
    seq(|args|, i requires 0 <= i < |args| => if i == 0 then args[i] else blank + args[i])
  }

  lemma {:induction false} StripLeftBlank(blank: string, s: string)
    requires Blank(blank)
    ensures StripLeft(blank + s) == StripLeft(s)
  {
    if blank != "" {
      assert (blank + s)[1..] == blank[1..] + s;
      StripLeftBlank(blank[1..], s);
    } else {
      assert blank + s == s;
    }
  }

  lemma {:induction false} ScanBlank(blank: string, s: string)
    requires Blank(blank)
    ensures After(START, blank + s) == After(START, s) && (NoCut(START, s) ==> NoCut(START, blank + s))
  {
    if blank != "" {
      assert (blank + s)[1..] == blank[1..] + s;
      ScanBlank(blank[1..], s);
    } else {
      assert blank + s == s;
    }
  }

  lemma {:induction false} ProperAt(s: Scan, ps: seq<string>)
    requires ps != []
    ensures Proper(s, ps) <==>
      && NoCut(s, ps[0]) && (|ps| > 1 ==> After(s, ps[0]) == START)
      && (forall i :: 0 < i < |ps| ==> NoCut(START, ps[i]) && (i < |ps| - 1 ==> After(START, ps[i]) == START))
    decreases |ps|
  {
    if |ps| > 1 {
      ProperAt(START, ps[1..]);
      assert forall i :: 0 < i < |ps| ==> ps[i] == ps[1..][i - 1];
      assert forall i :: 0 <= i < |ps| - 1 ==> ps[1..][i] == ps[i + 1];
    }
  }

  /** White space after the commas makes no difference. */
  lemma SplitInvertsSpacedJoin(args: seq<string>, blank: string)
    requires Separable(args) && args != [] && Blank(blank)
    ensures Split(Join(Indent(blank, args))) == args
  {
    var ps := Indent(blank, args);
    ProperAt(START, args);
    forall i | 0 < i < |ps| ensures NoCut(START, ps[i]) && (i < |ps| - 1 ==> After(START, ps[i]) == START) {
      ScanBlank(blank, args[i]);
    }
    ProperAt(START, ps);
    PiecesOfJoin(START, ps);
    forall i | 0 <= i < |ps| ensures Strip(ps[i]) == args[i] {
      assert Strip(args[i]) == StripAll(args)[i];
      if i > 0 { StripLeftBlank(blank, args[i]); }
    }
    assert StripAll(ps) == args;
  }
}

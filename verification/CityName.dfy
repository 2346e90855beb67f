/** The receiver city normaliser: a chain of regular-expression replacements on an upper-cased,
    accent-free name. */
module CityName {
  // ---------------------------------------------------------------- the chain

  predicate Alphanumeric(c: char) { 'A' <= c <= 'Z' || '0' <= c <= '9' }

  /** `replace(/[^A-Z0-9]/g, ' ')`. */
  function Strip(s: string): string {
    if s == "" then "" else [if Alphanumeric(s[0]) then s[0] else ' '] + Strip(s[1..])
  }

  function DropSpaces(s: string): (r: string)
    ensures |r| <= |s| && (r == "" || r[0] != ' ')
  {
    if s != "" && s[0] == ' ' then DropSpaces(s[1..]) else s
  }

  /** `replace(/\s+/g, ' ')` on a string whose only white space is the space. */
  function Collapse(s: string): string
    decreases |s|
  {
    if s == "" then ""
    else if s[0] == ' ' then " " + Collapse(DropSpaces(s[1..]))
    else [s[0]] + Collapse(s[1..])
  }

  predicate StartsWithWord(s: string, word: string) { word <= s && (|s| == |word| || s[|word|] == ' ') }

  /** `replace(/\bword\b/g, by)` on a string of letters, digits and spaces; `start` says whether the
      position is a word boundary. */
  function ReplaceWord(s: string, word: string, with: string, start: bool): string
    requires word != ""
    decreases |s|
  {
    if s == "" then ""
    else if start && StartsWithWord(s, word) then with + ReplaceWord(s[|word|..], word, with, false)
    else [s[0]] + ReplaceWord(s[1..], word, with, s[0] == ' ')
  }

  function DropTrailing(s: string): string {
    if s != "" && s[|s| - 1] == ' ' then DropTrailing(s[..|s| - 1]) else s
  }

  function Trim(s: string): string { DropTrailing(DropSpaces(s)) }

  /** `receiveCityHandler`, after accents were removed and letters upper-cased. */
  function ReceiveCityHandler(prepared: string): string {
    Trim(ReplaceWord(ReplaceWord(Collapse(Strip(prepared)), "SAINT", "ST", true), "SAINTE", "STE", true))
  }

  // ---------------------------------------------------------------- the specification

  predicate Solid(w: string) { w != "" && forall i :: 0 <= i < |w| ==> Alphanumeric(w[i]) }

  /** The length of the run of non-spaces a string starts with. */
  function RunLength(s: string): (k: nat)
    ensures k <= |s| && (forall i :: 0 <= i < k ==> s[i] != ' ') && (k < |s| ==> s[k] == ' ')
  {
    if s == "" || s[0] == ' ' then 0 else 1 + RunLength(s[1..])
  }

  function Words(s: string): seq<string>
    decreases |s|
  {
    if s == "" then []
    else if s[0] == ' ' then Words(s[1..])
    else [s[..RunLength(s)]] + Words(s[RunLength(s)..])
  }

  function Abbreviation(w: string): string { if w == "SAINT" then "ST" else if w == "SAINTE" then "STE" else w }

  function Replaced(ws: seq<string>, word: string, with: string): seq<string> {
    if ws == [] then [] else [if ws[0] == word then with else ws[0]] + Replaced(ws[1..], word, with)
  }

  function Abbreviated(ws: seq<string>): seq<string> {
    if ws == [] then [] else [Abbreviation(ws[0])] + Abbreviated(ws[1..])
  }

  function Join(ws: seq<string>): string {
    if ws == [] then "" else if |ws| == 1 then ws[0] else ws[0] + " " + Join(ws[1..])
  }

  /** Words separated by single spaces, with or without a space in front and behind. */
  function Spaced(lead: bool, ws: seq<string>, trail: bool): string {
    (if lead then " " else "") + Join(ws) + (if trail && ws != [] then " " else "")
  }

  predicate AllSolid(ws: seq<string>) { forall i :: 0 <= i < |ws| ==> Solid(ws[i]) }

  // ---------------------------------------------------------------- the chain, step by step

  lemma {:induction false} StripIsClean(s: string)
    ensures |Strip(s)| == |s| && forall i :: 0 <= i < |s| ==> Alphanumeric(Strip(s)[i]) || Strip(s)[i] == ' '
    ensures (forall i :: 0 <= i < |s| ==> Alphanumeric(s[i]) || s[i] == ' ') ==> Strip(s) == s
  {
    if s != "" { StripIsClean(s[1..]); }
  }

  /** Stripping keeps the capital letters and the digits, by their code units, where they are and puts a space for
      anything else. */
  lemma {:induction false} StripMeans(s: string)
    ensures |Strip(s)| == |s|
    ensures forall i :: 0 <= i < |s| ==>
              Strip(s)[i] == if 65 <= s[i] as int <= 90 || 48 <= s[i] as int <= 57 then s[i] else ' '
  {
    if s != "" { StripMeans(s[1..]); }
  }

  /** Abbreviating writes ST for SAINT, STE for SAINTE, and leaves every other word. */
  lemma {:induction false} AbbreviatedMeans(ws: seq<string>)
    ensures |Abbreviated(ws)| == |ws|
    ensures forall i :: 0 <= i < |ws| ==>
              && (ws[i] == "SAINT" ==> Abbreviated(ws)[i] == "ST")
              && (ws[i] == "SAINTE" ==> Abbreviated(ws)[i] == "STE")
              && (ws[i] != "SAINT" && ws[i] != "SAINTE" ==> Abbreviated(ws)[i] == ws[i])
  {
    if ws != [] { AbbreviatedMeans(ws[1..]); }
  }

  predicate Clean(s: string) { forall i :: 0 <= i < |s| ==> Alphanumeric(s[i]) || s[i] == ' ' }

  lemma {:induction false} WordsAreSolid(s: string)
    requires Clean(s)
    ensures AllSolid(Words(s))
    decreases |s|
  {
    if s != "" {
      if s[0] == ' ' { WordsAreSolid(s[1..]); } else { WordsAreSolid(s[RunLength(s)..]); }
    }
  }

  lemma {:induction false} DropSpacesWords(s: string)
    ensures Words(DropSpaces(s)) == Words(s)
    ensures Clean(s) ==> Clean(DropSpaces(s))
  {
    if s != "" && s[0] == ' ' { DropSpacesWords(s[1..]); }
  }

  /** A run of non-spaces passes through the collapsing unchanged. */
  lemma {:induction false} CollapseRun(s: string)
    ensures Collapse(s) == s[..RunLength(s)] + Collapse(s[RunLength(s)..])
  {
    if s != "" && s[0] != ' ' {
      CollapseRun(s[1..]);
      assert s[1..][RunLength(s[1..])..] == s[RunLength(s)..];
      assert s[..RunLength(s)] == [s[0]] + s[1..][..RunLength(s[1..])];
    }
  }

  /** Whether a string ends with a space. */
  predicate Trails(s: string) { s != "" && s[|s| - 1] == ' ' }

  lemma {:induction false} DropSpacesTrails(s: string)
    ensures Words(s) != [] ==> Trails(DropSpaces(s)) == Trails(s)
    ensures Words(s) == [] ==> DropSpaces(s) == ""
    decreases |s|
  {
    if s != "" && s[0] == ' ' { DropSpacesTrails(s[1..]); }
  }

  lemma JoinCons(w: string, ws: seq<string>)
    ensures Join([w] + ws) == w + if ws == [] then "" else " " + Join(ws)
  {
    assert ([w] + ws)[1..] == ws;
    if ws != [] { assert w + " " + Join(ws) == w + (" " + Join(ws)); }
  }

  /** A word in front of spaced words. */
  lemma SpacedCons(w: string, lead: bool, ws: seq<string>, trail: bool)
    requires ws != [] ==> lead
    requires ws == [] ==> lead == trail
    ensures w + Spaced(lead, ws, trail) == Spaced(false, [w] + ws, trail)
  {
    JoinCons(w, ws);
    if ws == [] {
      assert Spaced(lead, ws, trail) == if lead then " " else "";
    } else {
      var end := if trail then " " else "";
      assert w + (" " + Join(ws) + end) == (w + (" " + Join(ws))) + end;
    }
  }

  lemma SpacedLead(ws: seq<string>, trail: bool)
    ensures " " + Spaced(false, ws, trail) == Spaced(true, ws, trail)
  {
    var end := if trail && ws != [] then " " else "";
    assert " " + ("" + Join(ws) + end) == (" " + Join(ws)) + end;
  }

  lemma {:induction false} CollapseSpaced(s: string)
    ensures Collapse(s) == Spaced(s != "" && s[0] == ' ', Words(s), Trails(s))
    decreases |s|, 1
  {
    if s == "" {
    } else if s[0] == ' ' {
      CollapseBlanks(s);
    } else {
      var k := RunLength(s);
      CollapseRun(s);
      CollapseSpaced(s[k..]);
      if k < |s| && Words(s[k..]) == [] {
        BlankTrails(s[k..]);
      }
      SpacedCons(s[..k], k < |s|, Words(s[k..]), Trails(s));
    }
  }

  lemma {:induction false} CollapseBlanks(s: string)
    requires s != "" && s[0] == ' '
    ensures Collapse(s) == Spaced(true, Words(s), Trails(s))
    decreases |s|, 0
  {
    var rest := DropSpaces(s[1..]);
    assert Collapse(s) == " " + Collapse(rest);
    CollapseSpaced(rest);
    DropSpacesWords(s[1..]);
    DropSpacesTrails(s[1..]);
    SpacedLead(Words(s), Trails(rest));
  }

  lemma {:induction false} BlankTrails(s: string)
    requires s != "" && Words(s) == []
    ensures Trails(s)
  {
    if s[0] == ' ' && |s| > 1 { BlankTrails(s[1..]); }
  }

  // ---------------------------------------------------------------- replacing words

  lemma {:induction false} ReplaceInRun(run: string, rest: string, word: string, with: string)
    requires word != "" && (forall i :: 0 <= i < |run| ==> run[i] != ' ') && (rest == "" || rest[0] == ' ')
    ensures ReplaceWord(run + rest, word, with, false) == run + ReplaceWord(rest, word, with, false)
  {
    if run == "" {
      assert run + rest == rest;
    } else {
      assert (run + rest)[1..] == run[1..] + rest;
      ReplaceInRun(run[1..], rest, word, with);
    }
  }

  /** A space is copied whether or not the position is a boundary. */
  lemma ReplaceSpace(rest: string, word: string, with: string, start: bool)
    requires Solid(word)
    ensures ReplaceWord(" " + rest, word, with, start) == " " + ReplaceWord(rest, word, with, true)
  {
    assert (" " + rest)[0] == ' ' && (" " + rest)[1..] == rest;
    assert word[0] != ' ';
  }

  /** A whole word at a boundary is replaced exactly when it is the word looked for. */
  lemma ReplaceFirst(w: string, rest: string, word: string, with: string)
    requires Solid(word) && Solid(w) && (rest == "" || rest[0] == ' ')
    ensures ReplaceWord(w + rest, word, with, true)
            == (if w == word then with else w) + ReplaceWord(rest, word, with, false)
  {
    if w == word {
      assert (w + rest)[|word|..] == rest;
    } else {
      NotAtStart(w, rest, word);
      ReplaceAway(w, rest, word, with);
    }
  }

  lemma ReplaceAway(w: string, rest: string, word: string, with: string)
    requires Solid(word) && Solid(w) && (rest == "" || rest[0] == ' ') && !StartsWithWord(w + rest, word)
    ensures ReplaceWord(w + rest, word, with, true) == w + ReplaceWord(rest, word, with, false)
  {
    var s := w + rest;
    assert s[0] == w[0] != ' ' && s[1..] == w[1..] + rest;
    ReplaceInRun(w[1..], rest, word, with);
    assert [w[0]] + w[1..] == w;
  }

  lemma NotAtStart(w: string, rest: string, word: string)
    requires Solid(word) && Solid(w) && (rest == "" || rest[0] == ' ') && w != word
    ensures !StartsWithWord(w + rest, word)
  {
    if StartsWithWord(w + rest, word) {
      PrefixIsWord(w, rest, word);
    }
  }

  lemma PrefixIsWord(w: string, rest: string, word: string)
    requires Solid(word) && Solid(w) && (rest == "" || rest[0] == ' ')
    requires StartsWithWord(w + rest, word)
    ensures w == word
  {
    var s := w + rest;
    assert s == word + s[|word|..];
    RunOfWord(w, rest);
    RunOfWord(word, s[|word|..]);
    assert w == s[..|w|] && word == s[..|word|];
  }

  lemma {:induction false} ReplacedSolid(ws: seq<string>, word: string, with: string)
    requires AllSolid(ws) && Solid(with)
    ensures AllSolid(Replaced(ws, word, with)) && |Replaced(ws, word, with)| == |ws|
  {
    if ws != [] { ReplacedSolid(ws[1..], word, with); }
  }

  /** Replacing in spaced words replaces in the list of words. */
  lemma {:induction false} ReplaceSpaced(lead: bool, ws: seq<string>, trail: bool, word: string, with: string)
    requires Solid(word) && AllSolid(ws)
    ensures ReplaceWord(Spaced(lead, ws, trail), word, with, true) == Spaced(lead, Replaced(ws, word, with), trail)
    decreases |ws|, if lead then 2 else 1
  {
    if lead {
      SpacedLead(ws, trail);
      ReplaceSpace(Spaced(false, ws, trail), word, with, true);
      ReplaceSpaced(false, ws, trail, word, with);
      SpacedLead(Replaced(ws, word, with), trail);
    } else if ws != [] {
      ReplaceHead(ws, trail, word, with);
    }
  }

  lemma {:induction false} ReplaceHead(ws: seq<string>, trail: bool, word: string, with: string)
    requires Solid(word) && AllSolid(ws) && ws != []
    ensures ReplaceWord(Spaced(false, ws, trail), word, with, true) == Spaced(false, Replaced(ws, word, with), trail)
    decreases |ws|, 0
  {
    var w, rest, lead := ws[0], ws[1..], trail || |ws| > 1;
    assert ws == [w] + rest;
    SpacedCons(w, lead, rest, trail);
    ReplaceFirst(w, Spaced(lead, rest, trail), word, with);
    if lead {
      SpacedLead(rest, trail);
      ReplaceSpace(Spaced(false, rest, trail), word, with, false);
      ReplaceSpaced(false, rest, trail, word, with);
      SpacedLead(Replaced(rest, word, with), trail);
    }
    SpacedCons(if w == word then with else w, lead, Replaced(rest, word, with), trail);
  }

  // ---------------------------------------------------------------- trimming

  lemma {:induction false} JoinEnds(ws: seq<string>)
    requires AllSolid(ws) && ws != []
    ensures Join(ws) != "" && Join(ws)[0] != ' ' && Join(ws)[|Join(ws)| - 1] != ' '
  {
    assert Solid(ws[0]);
    if |ws| > 1 { JoinEnds(ws[1..]); }
  }

  lemma TrimEnd(j: string, trail: bool)
    requires j == "" || j[|j| - 1] != ' '
    ensures DropTrailing(j + if trail then " " else "") == j
  {
    if trail { assert (j + " ")[..|j + " "| - 1] == j; } else { assert j + "" == j; }
  }

  lemma TrimStart(rest: string, lead: bool)
    requires rest == "" || rest[0] != ' '
    ensures DropSpaces((if lead then " " else "") + rest) == rest
  {
    if lead { assert (" " + rest)[1..] == rest; } else { assert "" + rest == rest; }
  }

  lemma TrimSpaced(lead: bool, ws: seq<string>, trail: bool)
    requires AllSolid(ws)
    ensures Trim(Spaced(lead, ws, trail)) == Join(ws)
  {
    var j, front, end := Join(ws), if lead then " " else "", if trail && ws != [] then " " else "";
    if ws != [] { JoinEnds(ws); }
    assert Spaced(lead, ws, trail) == front + (j + end);
    TrimStart(j + end, lead);
    TrimEnd(j, trail && ws != []);
  }

  // ---------------------------------------------------------------- what the normaliser does

  lemma {:induction false} TwoReplacements(ws: seq<string>)
    ensures Replaced(Replaced(ws, "SAINT", "ST"), "SAINTE", "STE") == Abbreviated(ws)
  {
    if ws != [] {
      var once := Replaced(ws, "SAINT", "ST");
      assert once[1..] == Replaced(ws[1..], "SAINT", "ST");
      TwoReplacements(ws[1..]);
    }
  }

  /** The chain of replacements strips, splits into words, abbreviates each, and joins with single spaces. */
  lemma HandlerSplitsAndJoins(prepared: string)
    ensures ReceiveCityHandler(prepared) == Join(Abbreviated(Words(Strip(prepared))))
  {
    var s := Strip(prepared);
    var lead, ws, trail := s != "" && s[0] == ' ', Words(s), Trails(s);
    StripIsClean(prepared);
    WordsAreSolid(s);
    CollapseSpaced(s);
    ReplaceSpaced(lead, ws, trail, "SAINT", "ST");
    ReplacedSolid(ws, "SAINT", "ST");
    ReplaceSpaced(lead, Replaced(ws, "SAINT", "ST"), trail, "SAINTE", "STE");
    ReplacedSolid(Replaced(ws, "SAINT", "ST"), "SAINTE", "STE");
    TwoReplacements(ws);
    TrimSpaced(lead, Abbreviated(ws), trail);
  }

  lemma {:induction false} AbbreviatedAgain(ws: seq<string>)
    requires AllSolid(ws)
    ensures AllSolid(Abbreviated(ws)) && Abbreviated(Abbreviated(ws)) == Abbreviated(ws)
  {
    if ws != [] {
      AbbreviatedAgain(ws[1..]);
      assert Abbreviated(ws)[1..] == Abbreviated(ws[1..]);
    }
  }

  lemma {:induction false} WordRun(w: string, rest: string)
    requires Solid(w) && (rest == "" || rest[0] == ' ')
    ensures RunLength(w + rest) == |w| && Words(w + rest) == [w] + Words(rest)
  {
    assert (w + rest)[|w|..] == rest && (w + rest)[..|w|] == w;
    RunOfWord(w, rest);
  }

  lemma {:induction false} RunOfWord(w: string, rest: string)
    requires (forall i :: 0 <= i < |w| ==> w[i] != ' ') && (rest == "" || rest[0] == ' ')
    ensures RunLength(w + rest) == |w|
  {
    if w == "" {
      assert w + rest == rest;
    } else {
      assert (w + rest)[1..] == w[1..] + rest;
      RunOfWord(w[1..], rest);
    }
  }

  lemma {:induction false} WordsOfJoin(ws: seq<string>)
    requires AllSolid(ws)
    ensures Words(Join(ws)) == ws && Clean(Join(ws))
  {
    if ws != [] {
      WordsOfJoin(ws[1..]);
      JoinCons(ws[0], ws[1..]);
      assert ws == [ws[0]] + ws[1..];
      var rest := if |ws| == 1 then "" else " " + Join(ws[1..]);
      WordRun(ws[0], rest);
      if |ws| > 1 { assert rest[1..] == Join(ws[1..]); }
    }
  }

  /** The output holds letters, digits and single inner spaces only: it is the join of its own words. */
  lemma HandlerOutput(prepared: string)
    ensures var out := ReceiveCityHandler(prepared);
            Clean(out) && AllSolid(Words(out)) && out == Join(Words(out))
  {
    StripIsClean(prepared);
    WordsAreSolid(Strip(prepared));
    HandlerSplitsAndJoins(prepared);
    var ws := Words(Strip(prepared));
    AbbreviatedAgain(ws);
    WordsOfJoin(Abbreviated(ws));
  }

  /** Normalising twice is normalising once, whatever accents and case are removed before, as long as
      that leaves upper-case letters, digits and spaces alone. */
  lemma HandlerIdempotent(prepare: string -> string, city: string)
    requires forall s :: Clean(s) ==> prepare(s) == s
    ensures ReceiveCityHandler(prepare(ReceiveCityHandler(prepare(city)))) == ReceiveCityHandler(prepare(city))
  {
    var out := ReceiveCityHandler(prepare(city));
    HandlerOutput(prepare(city));
    StripIsClean(out);
    HandlerSplitsAndJoins(prepare(city));
    HandlerSplitsAndJoins(out);
    var ws := Words(Strip(prepare(city)));
    StripIsClean(prepare(city));
    WordsAreSolid(Strip(prepare(city)));
    AbbreviatedAgain(ws);
    WordsOfJoin(Abbreviated(ws));
  }
}

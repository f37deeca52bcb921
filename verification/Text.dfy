/** Regular-expression scans and string helpers used by the chunker, the embedder and the agent nodes. */
module Text {

  /** The characters that `\s` and `str.strip` treat as white space. */
  predicate IsSpace(c: char) {
    var n := c as int;
    || 0x09 <= n <= 0x0D || 0x1C <= n <= 0x20 || n == 0x85 || n == 0xA0 || n == 0x1680
    || 0x2000 <= n <= 0x200A || n == 0x2028 || n == 0x2029 || n == 0x202F || n == 0x205F || n == 0x3000
  }

  predicate IsGraphic(c: char) { !IsSpace(c) }

  /** The class [a-z0-9]. */
  predicate IsTokenChar(c: char) { 'a' <= c <= 'z' || '0' <= c <= '9' }

  /**
   * Lower-casing of one character, exact up to which characters of the result are in [a-z0-9]:
   * outside ASCII only the Kelvin sign and the dotted capital I produce such a character.
   */
  function Lower(c: char): string {
    if 'A' <= c <= 'Z' then [((c as int) + 32) as char]
    else if c == '\U{212A}' then "k"
    else if c == '\U{0130}' then ['i', '\U{0307}']
    else [c]
  }

  function LowerText(s: string): string {
    if s == "" then "" else Lower(s[0]) + LowerText(s[1..])
  }

  function RunLength(s: string, p: char -> bool): (n: nat)
    ensures n <= |s|
    ensures forall i | 0 <= i < n :: p(s[i])
    ensures n < |s| ==> !p(s[n])
  {
    if s == "" || !p(s[0]) then 0 else 1 + RunLength(s[1..], p)
  }

  /** The maximal runs of characters in p, left to right: `re.findall` of a one-class `+` pattern. */
  function Runs(s: string, p: char -> bool): (r: seq<string>)
    ensures forall w | w in r :: w != "" && forall c | c in w :: p(c)
    decreases |s|
  {
    if s == "" then []
    else if !p(s[0]) then Runs(s[1..], p)
    else
      var n := RunLength(s, p);
      [s[..n]] + Runs(s[n..], p)
  }

  function Tokens(s: string): seq<string> { Runs(LowerText(s), IsTokenChar) }

  function Words(s: string): seq<string> { Runs(s, IsGraphic) }

  function Join(parts: seq<string>, sep: string): string {
    if parts == [] then ""
    else if |parts| == 1 then parts[0]
    else parts[0] + sep + Join(parts[1..], sep)
  }

  function StripLeft(s: string): string {
    if s != "" && IsSpace(s[0]) then StripLeft(s[1..]) else s
  }

  function StripRight(s: string): string {
    if s != "" && IsSpace(s[|s| - 1]) then StripRight(s[..|s| - 1]) else s
  }

  function Strip(s: string): string { StripRight(StripLeft(s)) }

  predicate Blank(s: string) { Strip(s) == "" }

  /** Every character lower-cases to characters outside [a-z0-9]. */
  predicate Separates(s: string) {
    s != "" && forall i | 0 <= i < |s| :: forall c | c in Lower(s[i]) :: !IsTokenChar(c)
  }

  function Flatten(parts: seq<seq<string>>): seq<string> {
    if parts == [] then [] else parts[0] + Flatten(parts[1..])
  }

  function TokenLists(parts: seq<string>): (r: seq<seq<string>>)
    ensures |r| == |parts|
    ensures forall i | 0 <= i < |parts| :: r[i] == Tokens(parts[i])
  {
    if parts == [] then [] else [Tokens(parts[0])] + TokenLists(parts[1..])
  }

  // ----- runs and separators

  lemma {:induction false} RunsSkip(gap: string, s: string, p: char -> bool)
    requires forall c | c in gap :: !p(c)
    ensures Runs(gap + s, p) == Runs(s, p)
  {
    if gap == "" {
      assert gap + s == s;
    } else {
      assert (gap + s)[1..] == gap[1..] + s;
      RunsSkip(gap[1..], s, p);
    }
  }

  lemma {:induction false} RunLengthStops(a: string, c: char, b: string, p: char -> bool)
    requires !p(c)
    ensures RunLength(a + [c] + b, p) == RunLength(a, p)
  {
    if a != "" && p(a[0]) {
      assert (a + [c] + b)[1..] == a[1..] + [c] + b;
      RunLengthStops(a[1..], c, b, p);
    }
  }

  lemma {:induction false} RunsAround(a: string, c: char, b: string, p: char -> bool)
    requires !p(c)
    ensures Runs(a + [c] + b, p) == Runs(a, p) + Runs(b, p)
    decreases |a|
  {
    var s := a + [c] + b;
    if a == "" {
      assert s[1..] == b;
    } else if !p(a[0]) {
      assert s[1..] == a[1..] + [c] + b;
      RunsAround(a[1..], c, b, p);
    } else {
      RunLengthStops(a, c, b, p);
      var n := RunLength(a, p);
      FirstRun(a, p);
      FirstRun(s, p);
      assert s[..n] == a[..n] && s[n..] == a[n..] + [c] + b;
      RunsAround(a[n..], c, b, p);
      assert [a[..n]] + Runs(a[n..], p) + Runs(b, p) == [a[..n]] + (Runs(a[n..], p) + Runs(b, p));
    }
  }

  lemma FirstRun(s: string, p: char -> bool)
    requires s != "" && p(s[0])
    ensures RunLength(s, p) > 0 && Runs(s, p) == [s[..RunLength(s, p)]] + Runs(s[RunLength(s, p)..], p)
  {}

  /** A non-empty stretch outside the class splits the scan in two independent scans. */
  lemma RunsSplit(a: string, sep: string, b: string, p: char -> bool)
    requires sep != "" && forall c | c in sep :: !p(c)
    ensures Runs(a + sep + b, p) == Runs(a, p) + Runs(b, p)
  {
    assert a + sep + b == a + [sep[0]] + (sep[1..] + b);
    RunsAround(a, sep[0], sep[1..] + b, p);
    RunsSkip(sep[1..], b, p);
  }

  lemma RunsTrail(s: string, gap: string, p: char -> bool)
    requires forall c | c in gap :: !p(c)
    ensures Runs(s + gap, p) == Runs(s, p)
  {
    if gap == "" {
      assert s + gap == s;
    } else {
      assert s + gap == s + gap + "";
      RunsSplit(s, gap, "", p);
    }
  }

  lemma RunsWhole(w: string, p: char -> bool)
    requires w != "" && forall c | c in w :: p(c)
    ensures Runs(w, p) == [w]
  {
    var n := RunLength(w, p);
    assert forall i | 0 <= i < |w| :: w[i] in w;
    assert w[..n] == w && w[n..] == "";
  }

  // ----- tokens

  lemma {:induction false} LowerConcat(a: string, b: string)
    ensures LowerText(a + b) == LowerText(a) + LowerText(b)
  {
    if a == "" {
      assert a + b == b;
    } else {
      assert (a + b)[1..] == a[1..] + b;
      LowerConcat(a[1..], b);
    }
  }

  lemma {:induction false} LowerSeparator(sep: string)
    requires forall i | 0 <= i < |sep| :: forall c | c in Lower(sep[i]) :: !IsTokenChar(c)
    ensures forall c | c in LowerText(sep) :: !IsTokenChar(c)
    ensures sep != "" ==> LowerText(sep) != ""
  {
    if sep != "" {
      LowerSeparator(sep[1..]);
    }
  }

  /** The tokeniser respects separators: no token spans one, none is lost or invented. */
  lemma TokensSplit(a: string, sep: string, b: string)
    requires Separates(sep)
    ensures Tokens(a + sep + b) == Tokens(a) + Tokens(b)
  {
    LowerConcat(a + sep, b);
    LowerConcat(a, sep);
    LowerSeparator(sep);
    RunsSplit(LowerText(a), LowerText(sep), LowerText(b), IsTokenChar);
  }

  lemma SpaceSeparates(s: string)
    requires s != "" && forall c | c in s :: IsSpace(c)
    ensures Separates(s)
  {
    forall i | 0 <= i < |s| ensures forall c | c in Lower(s[i]) :: !IsTokenChar(c) {
      assert s[i] in s;
    }
  }

  /** Joining texts with any separator keeps exactly their tokens, in order. */
  lemma {:induction false} TokensJoin(parts: seq<string>, sep: string)
    requires Separates(sep)
    ensures Tokens(Join(parts, sep)) == Flatten(TokenLists(parts))
  {
    if |parts| == 1 {
      assert Flatten(TokenLists(parts[1..])) == [];
    } else if |parts| > 1 {
      TokensJoin(parts[1..], sep);
      TokensSplit(parts[0], sep, Join(parts[1..], sep));
    }
  }

  lemma {:induction false} StripLeftParts(s: string)
    ensures exists gap: string :: s == gap + StripLeft(s) && forall c | c in gap :: IsSpace(c)
  {
    if s != "" && IsSpace(s[0]) {
      StripLeftParts(s[1..]);
      var gap: string :| s[1..] == gap + StripLeft(s[1..]) && forall c | c in gap :: IsSpace(c);
      assert s == ([s[0]] + gap) + StripLeft(s);
    } else {
      assert s == "" + StripLeft(s);
    }
  }

  lemma {:induction false} StripRightParts(s: string)
    ensures exists gap: string :: s == StripRight(s) + gap && forall c | c in gap :: IsSpace(c)
  {
    if s != "" && IsSpace(s[|s| - 1]) {
      StripRightParts(s[..|s| - 1]);
      var gap: string :| s[..|s| - 1] == StripRight(s[..|s| - 1]) + gap && forall c | c in gap :: IsSpace(c);
      assert s == StripRight(s) + (gap + [s[|s| - 1]]);
    } else {
      assert s == StripRight(s) + "";
    }
  }

  /** Stripping white space from both ends changes no token. */
  lemma TokensStrip(s: string)
    ensures Tokens(Strip(s)) == Tokens(s)
  {
    StripLeftParts(s);
    var l := StripLeft(s);
    var before: string :| s == before + l && forall c | c in before :: IsSpace(c);
    StripRightParts(l);
    var core := StripRight(l);
    var after: string :| l == core + after && forall c | c in after :: IsSpace(c);
    if before != "" { SpaceSeparates(before); }
    if after != "" { SpaceSeparates(after); }
    LowerConcat(before, l);
    LowerConcat(core, after);
    LowerSeparator(before);
    LowerSeparator(after);
    RunsSkip(LowerText(before), LowerText(l), IsTokenChar);
    RunsTrail(LowerText(core), LowerText(after), IsTokenChar);
  }

  /** A text is blank exactly when it has no word. */
  lemma BlankIffNoWords(s: string)
    ensures Blank(s) <==> Words(s) == []
  {
    StripLeftParts(s);
    var l := StripLeft(s);
    var before: string :| s == before + l && forall c | c in before :: IsSpace(c);
    StripRightParts(l);
    var core := StripRight(l);
    var after: string :| l == core + after && forall c | c in after :: IsSpace(c);
    RunsSkip(before, l, IsGraphic);
    RunsTrail(core, after, IsGraphic);
    if core != "" {
      StripRightEnd(l);
      RunsLast(core);
    }
  }

  lemma {:induction false} StripRightEnd(s: string)
    ensures StripRight(s) != "" ==> !IsSpace(StripRight(s)[|StripRight(s)| - 1])
  {
    if s != "" && IsSpace(s[|s| - 1]) {
      StripRightEnd(s[..|s| - 1]);
    }
  }

  lemma {:induction false} RunsLast(s: string)
    requires s != "" && IsGraphic(s[|s| - 1])
    ensures Words(s) != []
    decreases |s|
  {
    if IsSpace(s[0]) {
      RunsLast(s[1..]);
    }
  }

  // ----- words

  predicate IsWord(w: string) { w != "" && forall c | c in w :: IsGraphic(c) }

  /** Splitting on white space inverts joining with one blank. */
  lemma {:induction false} WordsJoin(ws: seq<string>)
    requires forall w | w in ws :: IsWord(w)
    ensures Words(Join(ws, " ")) == ws
  {
    if |ws| == 1 {
      assert ws[0] in ws;
      RunsWhole(ws[0], IsGraphic);
      assert ws == [ws[0]];
    } else if |ws| > 1 {
      assert ws[0] in ws;
      RunsWhole(ws[0], IsGraphic);
      WordsJoin(ws[1..]);
      RunsSplit(ws[0], " ", Join(ws[1..], " "), IsGraphic);
      assert ws == [ws[0]] + ws[1..];
    }
  }

  // ----- what joining writes

  /** Joining two non-empty lists writes the separator once between their texts. */
  lemma {:induction false} JoinConcat(a: seq<string>, b: seq<string>, sep: string)
    requires a != [] && b != []
    ensures Join(a + b, sep) == Join(a, sep) + sep + Join(b, sep)
    ensures forall x: string :: Join([x], sep) == x
  {
    if |a| == 1 {
      assert (a + b)[1..] == b;
    } else {
      assert (a + b)[1..] == a[1..] + b;
      JoinConcat(a[1..], b, sep);
      assert a[0] + sep + (Join(a[1..], sep) + sep + Join(b, sep)) == a[0] + sep + Join(a[1..], sep) + sep + Join(b, sep);
    }
  }

  function TotalLength(ws: seq<string>): nat {
    if ws == [] then 0 else |ws[0]| + TotalLength(ws[1..])
  }

  /** Words joined by one blank take their lengths and one character for each gap. */
  lemma {:induction false} JoinLength(ws: seq<string>)
    requires ws != []
    ensures |Join(ws, " ")| == TotalLength(ws) + |ws| - 1
  {
    if |ws| > 1 {
      JoinLength(ws[1..]);
    }
  }

  /** No white space at the ends, and single blanks between the words. */
  predicate Tidy(text: string) {
    && (text != "" ==> IsGraphic(text[0]))
    && forall i | 0 <= i < |text| && IsSpace(text[i]) :: text[i] == ' ' && i + 1 < |text| && IsGraphic(text[i + 1])
  }

  /** A tidy text is its words joined by one blank. */
  lemma {:induction false} TidyRejoins(text: string)
    requires Tidy(text)
    ensures Join(Words(text), " ") == text && (text != "" ==> Words(text) != [])
    decreases |text|
  {
    hide Runs, Join, IsSpace;
    NoWords();
    if text != "" {
      var n := RunLength(text, IsGraphic);
      FirstRun(text, IsGraphic);
      if n == |text| {
        assert text[..n] == text && text[n..] == "";
        JoinConcat([text], [text], " ");
        assert Words(text) == [text] + [] == [text];
      } else {
        var rest := text[n + 1..];
        assert text[n..] == " " + rest;
        assert rest[0] == text[n + 1];
        assert forall i | 0 <= i < |rest| :: rest[i] == text[n + 1 + i];
        TidyRejoins(rest);
        RunsSkip(" ", rest, IsGraphic);
        JoinConcat([text[..n]], Words(rest), " ");
        assert text == text[..n] + " " + rest;
      }
    }
  }

  lemma NoWords()
    ensures Words("") == [] && Join([], " ") == "" && IsSpace(' ')
  {}

  lemma {:induction false} TidyJoin(ws: seq<string>)
    requires forall w | w in ws :: IsWord(w)
    ensures Tidy(Join(ws, " "))
    ensures ws != [] ==> Join(ws, " ") != "" && IsGraphic(Join(ws, " ")[|Join(ws, " ")| - 1])
  {
    if |ws| == 1 {
      WordEnds(ws[0]);
    } else if |ws| > 1 {
      assert ws[0] in ws;
      WordEnds(ws[0]);
      var rest := Join(ws[1..], " ");
      TidyJoin(ws[1..]);
      var text := ws[0] + " " + rest;
      assert text == Join(ws, " ");
      forall i | 0 <= i < |text| && IsSpace(text[i]) ensures text[i] == ' ' && i + 1 < |text| && IsGraphic(text[i + 1]) {
        var m := |ws[0]|;
        if i == m {
          assert text[i + 1] == rest[0];
        } else if i > m {
          assert text[i] == rest[i - m - 1] && text[i + 1] == rest[i - m];
        }
      }
    }
  }

  lemma WordEnds(w: string)
    requires IsWord(w)
    ensures IsGraphic(w[0]) && IsGraphic(w[|w| - 1]) && Tidy(w)
    ensures forall i | 0 <= i < |w| :: !IsSpace(w[i])
  {
    assert w[0] in w && w[|w| - 1] in w;
    assert forall i | 0 <= i < |w| :: w[i] in w;
  }

  /** Stripping takes exactly the white space at both ends. */
  lemma StripExact(before: string, core: string, after: string)
    requires (forall c | c in before :: IsSpace(c)) && (forall c | c in after :: IsSpace(c))
    requires core != "" ==> IsGraphic(core[0]) && IsGraphic(core[|core| - 1])
    ensures Strip(before + core + after) == core
  {
    assert before + core + after == before + (core + after);
    if core == "" {
      assert core + after == after;
      AllSpace(before + after);
    } else {
      SkipLeft(before, core + after);
      SkipRight(core, after);
    }
  }

  lemma {:induction false} AllSpace(s: string)
    requires forall c | c in s :: IsSpace(c)
    ensures Strip(s) == ""
  {
    if s != "" {
      assert s[0] in s;
      AllSpace(s[1..]);
    }
  }

  lemma {:induction false} SkipLeft(before: string, s: string)
    requires (forall c | c in before :: IsSpace(c)) && s != "" && IsGraphic(s[0])
    ensures StripLeft(before + s) == s
  {
    if before == "" {
      assert before + s == s;
    } else {
      assert before[0] in before;
      assert (before + s)[1..] == before[1..] + s;
      SkipLeft(before[1..], s);
    }
  }

  lemma {:induction false} SkipRight(s: string, after: string)
    requires (forall c | c in after :: IsSpace(c)) && s != "" && IsGraphic(s[|s| - 1])
    ensures StripRight(s + after) == s
  {
    if after == "" {
      assert s + after == s;
    } else {
      assert after[|after| - 1] in after;
      assert (s + after)[..|s + after| - 1] == s + after[..|after| - 1];
      SkipRight(s, after[..|after| - 1]);
    }
  }

  // ----- the alphabets

  lemma RunsOfChar(c: char, p: char -> bool)
    ensures Runs([c], p) == if p(c) then [[c]] else []
  {
    if p(c) {
      RunsWhole([c], p);
    } else {
      assert [c][1..] == "";
    }
  }

  /**
   * Digits and ASCII letters form tokens, letters in lower case. Of all other characters only the Kelvin sign and the
   * dotted capital I do, whose lower case begins with an ASCII letter.
   */
  lemma TokenOfChar(c: char)
    ensures Tokens([c]) ==
              if 'a' <= c <= 'z' || '0' <= c <= '9' then [[c]]
              else if 'A' <= c <= 'Z' then [[((c as int) + ('a' as int) - ('A' as int)) as char]]
              else if c as int == 0x212A then ["k"]
              else if c as int == 0x130 then ["i"]
              else []
  {
    assert [c][1..] == "";
    assert LowerText([c]) == Lower(c) + LowerText("") == Lower(c);
    if c as int == 0x130 {
      assert Lower(c) == "i" + ['\U{0307}'];
      RunsTrail("i", ['\U{0307}'], IsTokenChar);
      RunsOfChar('i', IsTokenChar);
    } else {
      assert Lower(c) == [Lower(c)[0]];
      RunsOfChar(Lower(c)[0], IsTokenChar);
    }
  }

  /** The characters that part words: ten in ASCII, and the blanks and line ends of Unicode beyond. */
  lemma WordOfChar(c: char)
    ensures Words([c]) ==
              if c as int in {9, 10, 11, 12, 13, 28, 29, 30, 31, 32, 133, 160, 5760, 8192, 8193, 8194, 8195, 8196, 8197, 8198,
                              8199, 8200, 8201, 8202, 8232, 8233, 8239, 8287, 12288}
              then [] else [[c]]
  {
    RunsOfChar(c, IsGraphic);
  }

  predicate SameButCase(c: char, d: char) {
    || c == d
    || ('A' <= c <= 'Z' && d as int == c as int + 32)
    || ('A' <= d <= 'Z' && c as int == d as int + 32)
  }

  /** The case of ASCII letters makes no difference to the tokens. */
  lemma {:induction false} TokensIgnoreCase(s: string, t: string)
    requires |s| == |t| && forall i | 0 <= i < |s| :: SameButCase(s[i], t[i])
    ensures LowerText(s) == LowerText(t) && Tokens(s) == Tokens(t)
  {
    if s != "" {
      assert SameButCase(s[0], t[0]);
      TokensIgnoreCase(s[1..], t[1..]);
    }
  }
}

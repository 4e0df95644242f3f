/**
 * The per-field clean-up `sendResults` applies before posting results:
 * `value.replace(/[\r\n\s",]+/g, ' ').trim()`. Every maximal run of
 * JavaScript whitespace, double quotes and commas becomes one space, and
 * leading and trailing whitespace is then removed, so that the exported CSV
 * never sees a quote, a comma or a line break inside a field.
 */
module CsvSafe {

  /** The characters of the JavaScript `\s` class, which `trim()` also removes. */
  predicate IsJsSpace(c: char)
  {
    || c == '\t' || c == '\n' || c == '\U{B}' || c == '\U{C}' || c == '\r' || c == ' '
    || c == '\U{A0}' || c == '\U{1680}' || ('\U{2000}' <= c <= '\U{200A}')
    || c == '\U{2028}' || c == '\U{2029}' || c == '\U{202F}' || c == '\U{205F}'
    || c == '\U{3000}' || c == '\U{FEFF}'
  }

  /** The characters of the class `[\r\n\s",]`. */
  predicate IsJunk(c: char)
  {
    IsJsSpace(c) || c == '"' || c == ','
  }

  /** The characters the sanitiser keeps, in order. */
  function Kept(s: string): string
  {
    if s == [] then [] else (if IsJunk(s[0]) then [] else [s[0]]) + Kept(s[1..])
  }

  /** Drops the junk that starts `s`: the rest of a maximal run. */
  function DropJunk(s: string): (r: string)
    ensures |r| <= |s| && r == s[|s| - |r|..]
    ensures r != [] ==> !IsJunk(r[0])
    ensures Kept(r) == Kept(s)
  {
    if s != [] && IsJunk(s[0]) then DropJunk(s[1..]) else s
  }

  /** No junk character except a single space, and no two spaces in a row. */
  ghost predicate Collapsed(r: string)
  {
    && (forall i :: 0 <= i < |r| && IsJunk(r[i]) ==> r[i] == ' ')
    && (forall i :: 0 <= i < |r| - 1 ==> !(r[i] == ' ' && r[i + 1] == ' '))
  }

  /** The regular-expression replacement: each maximal junk run becomes one space. */
  function Collapse(s: string): (r: string)
    ensures Collapsed(r)
    ensures Kept(r) == Kept(s)
    ensures r != [] && s != [] ==> (r[0] == ' ' <==> IsJunk(s[0]))
    ensures r == [] <==> s == []
  {
    if s == [] then []
    else if IsJunk(s[0]) then
      var rest := DropJunk(s[1..]);
      assert rest != [] ==> !IsJunk(rest[0]);
      " " + Collapse(rest)
    else [s[0]] + Collapse(s[1..])
  }

  /** `String.prototype.trim` on the start of a string. */
  function TrimStart(s: string): (r: string)
    ensures |r| <= |s| && r == s[|s| - |r|..]
    ensures r != [] ==> !IsJsSpace(r[0])
    ensures forall i :: 0 <= i < |s| - |r| ==> IsJsSpace(s[i])
  {
    if s != [] && IsJsSpace(s[0]) then TrimStart(s[1..]) else s
  }

  /** `String.prototype.trim` on the end of a string. */
  function TrimEnd(s: string): (r: string)
    ensures |r| <= |s| && r == s[..|r|]
    ensures r != [] ==> !IsJsSpace(r[|r| - 1])
    ensures forall i :: |r| <= i < |s| ==> IsJsSpace(s[i])
  {
    if s != [] && IsJsSpace(s[|s| - 1]) then TrimEnd(s[..|s| - 1]) else s
  }

  function Trim(s: string): string
  {
    TrimEnd(TrimStart(s))
  }

  /** The clean-up applied to each sent field (app.js, line 535). */
  function Sanitize(s: string): string
  {
    Trim(Collapse(s))
  }

  /** What a sanitised field looks like: no junk but single interior spaces. */
  ghost predicate SafeField(r: string)
  {
    && Collapsed(r)
    && (r != [] ==> r[0] != ' ' && r[|r| - 1] != ' ')
  }

  lemma {:induction false} KeptAppend(a: string, b: string)
    ensures Kept(a + b) == Kept(a) + Kept(b)
  {
    if a != [] {
      var head := if IsJunk(a[0]) then [] else [a[0]];
      assert (a + b)[0] == a[0];
      assert (a + b)[1..] == a[1..] + b;
      KeptAppend(a[1..], b);
      calc {
        Kept(a + b);
        head + Kept(a[1..] + b);
        head + (Kept(a[1..]) + Kept(b));
        (head + Kept(a[1..])) + Kept(b);
      }
    } else {
      assert a + b == b;
    }
  }

  lemma {:induction false} KeptAllJunk(s: string)
    requires forall i :: 0 <= i < |s| ==> IsJunk(s[i])
    ensures Kept(s) == []
  {
    if s != [] {
      KeptAllJunk(s[1..]);
    }
  }

  /** Slices of a collapsed string are collapsed. */
  lemma CollapsedSlice(r: string, i: nat, j: nat)
    requires Collapsed(r) && i <= j <= |r|
    ensures Collapsed(r[i..j])
  {
  }

  /** Trimming removes only whitespace, so it keeps every kept character. */
  lemma TrimKept(s: string)
    ensures Kept(Trim(s)) == Kept(s)
  {
    TrimStartKept(s);
    TrimEndKept(TrimStart(s));
  }

  lemma TrimStartKept(s: string)
    ensures Kept(TrimStart(s)) == Kept(s)
  {
    var t := TrimStart(s);
    var dropped := s[..|s| - |t|];
    assert s == dropped + t;
    KeptAppend(dropped, t);
    KeptAllJunk(dropped);
  }

  lemma TrimEndKept(t: string)
    ensures Kept(TrimEnd(t)) == Kept(t)
  {
    var u := TrimEnd(t);
    var dropped := t[|u|..];
    assert t == u + dropped;
    KeptAppend(u, dropped);
    KeptAllJunk(dropped);
  }

  /**
   * A sanitised field contains no double quote, comma, carriage return or
   * line feed, has no leading or trailing whitespace and no two spaces in a
   * row, and keeps every other character of the input, in order.
   */
  lemma SanitizeIsCsvSafe(s: string)
    ensures SafeField(Sanitize(s))
    ensures forall i :: 0 <= i < |Sanitize(s)| ==> Sanitize(s)[i] !in {'"', ',', '\r', '\n'}
    ensures Kept(Sanitize(s)) == Kept(s)
  {
    var c := Collapse(s);
    TrimmedSafe(c);
    NoSeparators(Sanitize(s));
    TrimKept(c);
  }

  /** Trimming a collapsed string leaves a safe field. */
  lemma TrimmedSafe(c: string)
    requires Collapsed(c)
    ensures SafeField(Trim(c))
  {
    var t := TrimStart(c);
    var r := TrimEnd(t);
    CollapsedSlice(c, |c| - |t|, |c|);
    CollapsedSlice(t, 0, |r|);
  }

  /** A safe field holds none of the characters that delimit CSV fields and records. */
  lemma NoSeparators(r: string)
    requires SafeField(r)
    ensures forall i :: 0 <= i < |r| ==> r[i] !in {'"', ',', '\r', '\n'}
  {
    forall i | 0 <= i < |r| ensures r[i] !in {'"', ',', '\r', '\n'} {
      if IsJunk(r[i]) {
        assert r[i] == ' ';
      }
    }
  }

  /** Collapsing a collapsed string changes nothing. */
  lemma {:induction false} CollapseFixed(r: string)
    requires Collapsed(r)
    ensures Collapse(r) == r
  {
    if r != [] {
      CollapsedSlice(r, 1, |r|);
      CollapseFixed(r[1..]);
      CollapseStep(r);
      assert r == [r[0]] + r[1..];
    }
  }

  /** On a collapsed string, `Collapse` copies the first character and goes on with the rest. */
  lemma CollapseStep(r: string)
    requires Collapsed(r) && r != []
    ensures Collapse(r) == [r[0]] + Collapse(r[1..])
  {
    var tail := r[1..];
    if IsJunk(r[0]) {
      // a single space, followed by a kept character
      assert r[0] == ' ';
      assert tail != [] ==> r[1] == tail[0] && !IsJunk(tail[0]);
      assert DropJunk(tail) == tail;
    }
  }

  /** Sanitising an already sanitised field changes nothing. */
  lemma SanitizeIdempotent(s: string)
    ensures Sanitize(Sanitize(s)) == Sanitize(s)
  {
    var r := Sanitize(s);
    SanitizeIsCsvSafe(s);
    CollapseFixed(r);
    assert TrimStart(r) == r;
    assert TrimEnd(r) == r;
  }

  // ---------------------------------------------------------------------
  // The same clean-up, word by word
  // ---------------------------------------------------------------------

  /** A word: a non-empty run of characters the sanitiser keeps. */
  ghost predicate IsWord(w: string)
  {
    w != [] && forall j :: 0 <= j < |w| ==> !IsJunk(w[j])
  }

  /** The longest prefix of `t` without junk. */
  function TakeWord(t: string): (w: string)
    ensures |w| <= |t| && w == t[..|w|]
    ensures forall j :: 0 <= j < |w| ==> !IsJunk(w[j])
    ensures |w| < |t| ==> IsJunk(t[|w|])
    ensures t != [] && !IsJunk(t[0]) ==> w != []
  {
    if t != [] && !IsJunk(t[0]) then [t[0]] + TakeWord(t[1..]) else []
  }

  /** The maximal runs of non-junk characters of `s`, in order. */
  function Words(s: string): seq<string>
    decreases |s|
  {
    var t := DropJunk(s);
    if t == [] then []
    else
      var w := TakeWord(t);
      [w] + Words(t[|w|..])
  }

  /** Every word `Words` finds is non-empty and junk-free. */
  lemma {:induction false} WordsAreWords(s: string)
    ensures forall i :: 0 <= i < |Words(s)| ==> IsWord(Words(s)[i])
    decreases |s|
  {
    var t := DropJunk(s);
    if t != [] {
      var w := TakeWord(t);
      var rest := t[|w|..];
      WordsAreWords(rest);
      var ws := Words(rest);
      assert Words(s) == [w] + ws;
      assert IsWord(w);
      forall i | 1 <= i < |ws| + 1
        ensures IsWord(([w] + ws)[i])
      {
        assert ([w] + ws)[i] == ws[i - 1];
      }
    }
  }

  /** The words with one space between each two. */
  function JoinSpaces(ws: seq<string>): string
  {
    if ws == [] then []
    else if |ws| == 1 then ws[0]
    else ws[0] + " " + JoinSpaces(ws[1..])
  }

  /**
   * The sanitiser joins the words of the field with single spaces: each
   * maximal run of whitespace, quotes and commas between two words becomes
   * exactly one space, and the runs at either end disappear.
   */
  lemma SanitizeWords(s: string)
    ensures Sanitize(s) == JoinSpaces(Words(s))
  {
    var v := DropJunk(s);
    var j := JoinSpaces(Words(s));
    WordsDrop(s);
    CollapseWords(v);
    WordsAreWords(s);
    JoinedEnds(Words(s));
    var mid := Collapse(v);
    var c := Collapse(s);
    if s != [] && IsJunk(s[0]) {
      CollapseJunkHead(s);
      TrimStartSpace(mid);
    } else {
      assert v == s;
    }
    // `c` is `j` with at most one space added at each end, and `j` neither starts nor ends with one
    assert TrimStart(c) == TrimStart(mid);
    TrimmedJoin(j, mid);
  }

  /** A comma between two kept characters becomes a space; it does not glue them together. */
  lemma SanitizeSeparates(a: char, b: char)
    requires !IsJunk(a) && !IsJunk(b)
    ensures Sanitize([a, ',', b]) == [a, ' ', b]
  {
    SanitizeWords([a, ',', b]);
    WordsOfPair(a, b);
    JoinPair(a, b);
  }

  lemma WordsOfPair(a: char, b: char)
    requires !IsJunk(a) && !IsJunk(b)
    ensures Words([a, ',', b]) == [[a], [b]]
  {
    var s := [a, ',', b];
    TakeWordPair(a, b);
    WordsStep(s);
    WordsOfSeparated(b);
  }

  lemma TakeWordPair(a: char, b: char)
    requires !IsJunk(a)
    ensures TakeWord([a, ',', b]) == [a]
    ensures [a, ',', b][|TakeWord([a, ',', b])|..] == [',', b]
  {
    var s := [a, ',', b];
    var tail := [',', b];
    assert s[1..] == tail;
    assert TakeWord(tail) == [];
    assert TakeWord(s) == [a] + TakeWord(tail);
  }

  lemma WordsOfSeparated(b: char)
    requires !IsJunk(b)
    ensures Words([',', b]) == [[b]]
  {
    assert [',', b][1..] == [b];
    assert DropJunk([',', b]) == DropJunk([b]) == [b];
    WordsDrop([',', b]);
    WordsOfOne(b);
  }

  lemma WordsOfOne(b: char)
    requires !IsJunk(b)
    ensures Words([b]) == [[b]]
  {
    var t := [b];
    var w := TakeWord(t);
    assert w == [b] + TakeWord([]);
    var r := t[|w|..];
    assert r == [];
    WordsStep(t);
    assert Words(t) == [w] + Words(r);
    assert Words(r) == [];
    assert TakeWord([]) == [] && w == [b];
    assert [w] + Words(r) == [w];
  }

  lemma JoinPair(a: char, b: char)
    ensures JoinSpaces([[a], [b]]) == [a, ' ', b]
  {
    var ws := [[a], [b]];
    assert |ws[1..]| == 1 && ws[1..][0] == [b];
    assert JoinSpaces(ws[1..]) == [b];
  }

  lemma TrimStartSpace(x: string)
    ensures TrimStart(" " + x) == TrimStart(x)
  {
    assert (" " + x)[1..] == x;
  }

  /** Trimming the joined words, with perhaps one space after them, gives the joined words. */
  lemma TrimmedJoin(j: string, mid: string)
    requires mid == j || mid == j + " "
    requires j != [] ==> !IsJunk(j[0]) && !IsJunk(j[|j| - 1])
    requires j == [] ==> mid == []
    ensures TrimEnd(TrimStart(mid)) == j
  {
    if j != [] {
      assert mid[0] == j[0];
      assert TrimStart(mid) == mid;
      if mid == j + " " {
        assert mid[..|mid| - 1] == j;
      }
    }
  }

  /** Collapsing a string that starts with a kept character gives its joined words, perhaps followed by one space. */
  lemma {:induction false} CollapseWords(t: string)
    requires t == [] || !IsJunk(t[0])
    ensures Collapse(t) == JoinSpaces(Words(t)) || Collapse(t) == JoinSpaces(Words(t)) + " "
    ensures Words(t) == [] ==> Collapse(t) == []
    decreases |t|
  {
    if t != [] {
      var w := TakeWord(t);
      var u := t[|w|..];
      WordsStep(t);
      CollapseWord(t);
      if u == [] {
        assert Words(t) == [w];
        assert Collapse(t) == w;
      } else {
        var v := DropJunk(u);
        WordsDrop(u);
        CollapseJunkHead(u);
        CollapseWords(v);
        var cv := Collapse(v);
        Associative(w, " ", cv);
        if Words(v) == [] {
          assert Words(t) == [w];
          assert Collapse(t) == JoinSpaces(Words(t)) + " ";
        } else {
          var jv := JoinSpaces(Words(v));
          JoinCons(w, Words(v));
          assert JoinSpaces(Words(t)) == w + " " + jv;
          if cv == jv {
            assert Collapse(t) == JoinSpaces(Words(t));
          } else {
            Associative(w + " ", jv, " ");
          }
        }
      }
    }
  }

  lemma Associative(a: string, b: string, c: string)
    ensures a + (b + c) == a + b + c
  {
  }

  lemma WordsStep(t: string)
    requires t != [] && !IsJunk(t[0])
    ensures Words(t) == [TakeWord(t)] + Words(t[|TakeWord(t)|..])
  {
    assert DropJunk(t) == t;
  }

  lemma WordsDrop(u: string)
    ensures Words(u) == Words(DropJunk(u))
  {
    DropJunkIdempotent(u);
  }

  lemma {:induction false} DropJunkIdempotent(u: string)
    ensures DropJunk(DropJunk(u)) == DropJunk(u)
    decreases |u|
  {
    if u != [] && IsJunk(u[0]) {
      DropJunkIdempotent(u[1..]);
    }
  }

  lemma CollapseJunkHead(u: string)
    requires u != [] && IsJunk(u[0])
    ensures Collapse(u) == " " + Collapse(DropJunk(u))
  {
  }

  lemma JoinCons(w: string, ws: seq<string>)
    requires ws != []
    ensures JoinSpaces([w] + ws) == w + " " + JoinSpaces(ws)
  {
    assert ([w] + ws)[1..] == ws;
  }

  /** `Collapse` copies a leading word unchanged. */
  lemma {:induction false} CollapseWord(t: string)
    ensures Collapse(t) == TakeWord(t) + Collapse(t[|TakeWord(t)|..])
    decreases |t|
  {
    if t != [] && !IsJunk(t[0]) {
      CollapseWord(t[1..]);
      assert t[1..][|TakeWord(t[1..])|..] == t[|TakeWord(t)|..];
    } else {
      assert t[0..] == t;
    }
  }

  /** Joined words are empty only when there are none, and start and end with a kept character. */
  lemma {:induction false} JoinedEnds(ws: seq<string>)
    requires forall i :: 0 <= i < |ws| ==> IsWord(ws[i])
    ensures JoinSpaces(ws) == [] <==> ws == []
    ensures ws != [] ==> !IsJunk(JoinSpaces(ws)[0]) && !IsJunk(JoinSpaces(ws)[|JoinSpaces(ws)| - 1])
  {
    if |ws| > 1 {
      assert IsWord(ws[0]);
      JoinedEnds(ws[1..]);
    } else if |ws| == 1 {
      assert IsWord(ws[0]);
    }
  }
}

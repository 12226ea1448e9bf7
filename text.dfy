/** String helpers of the scraper: JavaScript's white-space class, `trim()`,
    `toLowerCase()` and the `clean` helper of server/datasearch.js. */
module Text {

  /** The characters JavaScript's `\s` matches and `String.prototype.trim`
      removes: the WhiteSpace and LineTerminator code points. */
  predicate IsSpace(c: char) {
    || c == ' ' || c == '\t' || c == '\n' || c == '\r'
    || c == '\U{000B}' || c == '\U{000C}' || c == '\U{00A0}' || c == '\U{1680}'
    || ('\U{2000}' <= c <= '\U{200A}')
    || c == '\U{2028}' || c == '\U{2029}' || c == '\U{202F}' || c == '\U{205F}'
    || c == '\U{3000}' || c == '\U{FEFF}'
  }

  /** Among ASCII characters the white space is exactly the blank, tab, line
      feed, vertical tab, form feed and carriage return. */
  lemma AsciiSpaces(c: char)
    requires c as int < 128
    ensures IsSpace(c) <==> c == ' ' || '\t' <= c <= '\r'
  {
  }

  /** Every character is white space. */
  predicate AllSpace(w: string) {
    forall i :: 0 <= i < |w| ==> IsSpace(w[i])
  }

  /** No two adjacent white-space characters. */
  predicate NoDoubleSpace(s: string) {
    forall i :: 0 <= i < |s| - 1 ==> !(IsSpace(s[i]) && IsSpace(s[i + 1]))
  }

  /** Every white-space character is a plain blank. */
  predicate OnlyBlanks(s: string) {
    forall i :: 0 <= i < |s| && IsSpace(s[i]) ==> s[i] == ' '
  }

  /** Neither the first nor the last character is white space. */
  predicate NoEdgeSpace(s: string) {
    s == [] || (!IsSpace(s[0]) && !IsSpace(s[|s| - 1]))
  }

  /** The shape of every string `clean` returns. */
  predicate IsClean(s: string) {
    NoEdgeSpace(s) && NoDoubleSpace(s) && OnlyBlanks(s)
  }

  /** Leading white space removed: a suffix of `s` (see `TrimStartIsSuffix`)
      that does not start with white space. */
  function TrimStart(s: string): (r: string)
    ensures |r| <= |s|
    ensures r == [] || !IsSpace(r[0])
  {
    if s != [] && IsSpace(s[0]) then TrimStart(s[1..]) else s
  }

  /** Trailing white space removed: a prefix of `s` (see `TrimEndIsPrefix`)
      that does not end with white space. */
  function TrimEnd(s: string): (r: string)
    ensures |r| <= |s|
    ensures r == [] || !IsSpace(r[|r| - 1])
  {
    if s != [] && IsSpace(s[|s| - 1]) then TrimEnd(s[..|s| - 1]) else s
  }

  lemma {:induction false} TrimStartIsSuffix(s: string)
    ensures TrimStart(s) == s[|s| - |TrimStart(s)|..]
    decreases |s|
  {
    if s != [] && IsSpace(s[0]) {
      TrimStartIsSuffix(s[1..]);
    }
  }

  lemma {:induction false} TrimEndIsPrefix(s: string)
    ensures TrimEnd(s) == s[..|TrimEnd(s)|]
    decreases |s|
  {
    if s != [] && IsSpace(s[|s| - 1]) {
      TrimEndIsPrefix(s[..|s| - 1]);
    }
  }

  /** JavaScript's `s.trim()`. */
  function Trim(s: string): (r: string)
    ensures NoEdgeSpace(r)
    ensures |r| <= |s|
  {
    var t := TrimStart(s);
    TrimEndIsPrefix(t);
    TrimEnd(t)
  }

  /** A string with no white space at either end is its own trim. */
  lemma {:induction false} TrimNoEdge(s: string)
    requires NoEdgeSpace(s)
    ensures Trim(s) == s
  {
    assert TrimStart(s) == s;
    assert TrimEnd(s) == s;
  }

  /** ASCII lower-casing of one character. */
  function LowerChar(c: char): char {
    if 'A' <= c <= 'Z' then (c as int + 32) as char else c
  }

  /** JavaScript's `s.toLowerCase()` on the ASCII letters. */
  function ToLower(s: string): (r: string)
    ensures |r| == |s|
    ensures forall i :: 0 <= i < |r| ==> !('A' <= r[i] <= 'Z')
    ensures forall i :: 0 <= i < |s| && 'A' <= s[i] <= 'Z' ==> r[i] as int == s[i] as int + 32
    ensures forall i :: 0 <= i < |s| && !('A' <= s[i] <= 'Z') ==> r[i] == s[i]
  {
    seq(|s|, i requires 0 <= i < |s| => LowerChar(s[i]))
  }

  /** `s.replace(/\s+/g, ' ')`: every maximal run of white space becomes one
      blank (`CollapseShape`, `CollapseRun`). */
  function Collapse(s: string): (r: string)
    ensures (r != [] && IsSpace(r[0])) == (s != [] && IsSpace(s[0]))
    ensures (r == []) == (s == [])
    ensures |r| <= |s|
    decreases |s|
  {
    if s == [] then []
    else if IsSpace(s[0]) then [' '] + Collapse(TrimStart(s))
    else [s[0]] + Collapse(s[1..])
  }

  /** After collapsing no two white-space characters are adjacent and every
      one left is a blank. */
  lemma {:induction false} CollapseShape(s: string)
    ensures NoDoubleSpace(Collapse(s)) && OnlyBlanks(Collapse(s))
    decreases |s|
  {
    if s != [] {
      if IsSpace(s[0]) {
        var t := TrimStart(s);
        CollapseShape(t);
        ConsKeepsShape(' ', Collapse(t));
      } else {
        CollapseShape(s[1..]);
        ConsKeepsShape(s[0], Collapse(s[1..]));
      }
    }
  }

  /** One character in front of well-shaped text keeps it well shaped when it
      is not white space, or is a blank in front of a non-space character. */
  lemma ConsKeepsShape(c: char, r: string)
    requires NoDoubleSpace(r) && OnlyBlanks(r)
    requires IsSpace(c) ==> c == ' ' && (r == [] || !IsSpace(r[0]))
    ensures NoDoubleSpace([c] + r) && OnlyBlanks([c] + r)
  {
    var cr := [c] + r;
    forall i | 0 <= i < |cr| - 1
      ensures !(IsSpace(cr[i]) && IsSpace(cr[i + 1]))
    {
      if i > 0 {
        assert cr[i] == r[i - 1] && cr[i + 1] == r[i];
      }
    }
    forall i | 0 <= i < |cr| && IsSpace(cr[i])
      ensures cr[i] == ' '
    {
      if i > 0 {
        assert cr[i] == r[i - 1];
      }
    }
  }

  /** The `clean` helper: collapse white-space runs, then trim. */
  function Clean(s: string): (r: string)
    ensures IsClean(r)
    ensures |r| <= |s|
  {
    var c := Collapse(s);
    CollapseShape(s);
    TrimKeepsShape(c);
    Trim(c)
  }

  /** Trimming keeps a string free of double white space and of non-blank white space. */
  lemma {:induction false} TrimKeepsShape(s: string)
    requires NoDoubleSpace(s) && OnlyBlanks(s)
    ensures NoDoubleSpace(Trim(s)) && OnlyBlanks(Trim(s))
  {
    var t := TrimStart(s);
    TrimStartIsSuffix(s);
    TrimEndIsPrefix(t);
    SuffixKeepsShape(s, t);
    PrefixKeepsShape(t, TrimEnd(t));
  }

  /** A suffix keeps the white-space shape of the whole string. */
  lemma SuffixKeepsShape(s: string, t: string)
    requires NoDoubleSpace(s) && OnlyBlanks(s)
    requires |t| <= |s| && t == s[|s| - |t|..]
    ensures NoDoubleSpace(t) && OnlyBlanks(t)
  {
    var k := |s| - |t|;
    forall i | 0 <= i < |t| - 1
      ensures !(IsSpace(t[i]) && IsSpace(t[i + 1]))
    {
      assert t[i] == s[k + i] && t[i + 1] == s[k + i + 1];
    }
    forall i | 0 <= i < |t| && IsSpace(t[i])
      ensures t[i] == ' '
    {
      assert t[i] == s[k + i];
    }
  }

  /** A prefix keeps the white-space shape of the whole string. */
  lemma PrefixKeepsShape(s: string, t: string)
    requires NoDoubleSpace(s) && OnlyBlanks(s)
    requires |t| <= |s| && t == s[..|t|]
    ensures NoDoubleSpace(t) && OnlyBlanks(t)
  {
    forall i | 0 <= i < |t| - 1
      ensures !(IsSpace(t[i]) && IsSpace(t[i + 1]))
    {
      assert t[i] == s[i] && t[i + 1] == s[i + 1];
    }
  }

  /** A run of white space in front of text that does not start with white
      space is exactly what `TrimStart` drops. */
  lemma {:induction false} TrimStartOfRun(w: string, v: string)
    requires AllSpace(w)
    requires v == [] || !IsSpace(v[0])
    ensures TrimStart(w + v) == v
    decreases |w|
  {
    if w == [] {
      assert w + v == v;
    } else {
      assert (w + v)[0] == w[0] && (w + v)[1..] == w[1..] + v;
      TrimStartOfRun(w[1..], v);
    }
  }

  /** `TrimStart` stops inside text that ends in a non-space character, so
      whatever follows that text is kept. */
  lemma {:induction false} TrimStartAppend(u: string, x: string)
    requires u != [] && !IsSpace(u[|u| - 1])
    ensures TrimStart(u + x) == TrimStart(u) + x
    decreases |u|
  {
    assert (u + x)[0] == u[0];
    if IsSpace(u[0]) {
      assert (u + x)[1..] == u[1..] + x;
      TrimStartAppend(u[1..], x);
    }
  }

  /** `TrimEnd` stops inside text that starts with a non-space character, so
      whatever precedes that text is kept. */
  lemma {:induction false} TrimEndPrepend(x: string, v: string)
    requires v != [] && !IsSpace(v[0])
    ensures TrimEnd(x + v) == x + TrimEnd(v)
    decreases |v|
  {
    var xv := x + v;
    assert xv[|xv| - 1] == v[|v| - 1];
    if IsSpace(v[|v| - 1]) {
      assert xv[..|xv| - 1] == x + v[..|v| - 1];
      TrimEndPrepend(x, v[..|v| - 1]);
    }
  }

  /** A final non-space character survives `TrimStart`. */
  lemma {:induction false} TrimStartKeepsLast(s: string)
    requires s != [] && !IsSpace(s[|s| - 1])
    ensures TrimStart(s) != [] && TrimStart(s)[|TrimStart(s)| - 1] == s[|s| - 1]
    decreases |s|
  {
    if IsSpace(s[0]) {
      TrimStartKeepsLast(s[1..]);
    }
  }

  /** A final non-space character survives collapsing. */
  lemma {:induction false} CollapseKeepsLast(s: string)
    requires s != [] && !IsSpace(s[|s| - 1])
    ensures Collapse(s) != [] && Collapse(s)[|Collapse(s)| - 1] == s[|s| - 1]
    decreases |s|
  {
    if IsSpace(s[0]) {
      TrimStartKeepsLast(s);
      CollapseKeepsLast(TrimStart(s));
    } else if |s| > 1 {
      CollapseKeepsLast(s[1..]);
    }
  }

  /** A leading run of white space collapses to one blank. */
  lemma CollapseLeadingRun(w: string, v: string)
    requires w != [] && AllSpace(w)
    requires v == [] || !IsSpace(v[0])
    ensures Collapse(w + v) == [' '] + Collapse(v)
  {
    assert (w + v)[0] == w[0];
    TrimStartOfRun(w, v);
  }

  /** Collapsing text that starts with white space and ends without it, followed by more text. */
  lemma CollapseSpaceThen(u: string, x: string)
    requires u != [] && IsSpace(u[0]) && !IsSpace(u[|u| - 1])
    ensures Collapse(u + x) == [' '] + Collapse(TrimStart(u) + x)
  {
    assert (u + x)[0] == u[0];
    TrimStartAppend(u, x);
  }

  /** Collapsing text that starts with a non-space character, followed by more text. */
  lemma CollapseTextThen(u: string, x: string)
    requires u != [] && !IsSpace(u[0])
    ensures Collapse(u + x) == [u[0]] + Collapse(u[1..] + x)
  {
    assert (u + x)[0] == u[0] && (u + x)[1..] == u[1..] + x;
  }

  /** Regrouping `[c] + (p + [' '] + q)`. */
  lemma Regroup(whole: string, c: char, rest: string, p: string, q: string, pc: string)
    requires whole == [c] + rest && rest == p + [' '] + q && pc == [c] + p
    ensures whole == pc + [' '] + q
  {
  }

  /** `CollapseRun` for text that starts with white space. */
  lemma {:induction false} CollapseRunAfterSpace(u: string, w: string, v: string)
    requires u != [] && IsSpace(u[0]) && !IsSpace(u[|u| - 1])
    requires w != [] && AllSpace(w)
    requires v == [] || !IsSpace(v[0])
    ensures Collapse(u + (w + v)) == Collapse(u) + [' '] + Collapse(v)
    decreases |u|, 0
  {
    var x := w + v;
    var t := TrimStart(u);
    TrimStartKeepsLast(u);
    CollapseRun(t, w, v);
    CollapseSpaceThen(u, x);
    Regroup(Collapse(u + x), ' ', Collapse(t + x), Collapse(t), Collapse(v), Collapse(u));
  }

  /** `CollapseRun` for text that starts with a non-space character. */
  lemma {:induction false} CollapseRunAfterText(u: string, w: string, v: string)
    requires u != [] && !IsSpace(u[0]) && !IsSpace(u[|u| - 1])
    requires w != [] && AllSpace(w)
    requires v == [] || !IsSpace(v[0])
    ensures Collapse(u + (w + v)) == Collapse(u) + [' '] + Collapse(v)
    decreases |u|, 0
  {
    var x := w + v;
    var r := u[1..];
    CollapseRun(r, w, v);
    CollapseTextThen(u, x);
    Regroup(Collapse(u + x), u[0], Collapse(r + x), Collapse(r), Collapse(v), Collapse(u));
  }

  /** A maximal run of white space collapses to exactly one blank, and the
      text on either side of it is collapsed on its own. */
  lemma {:induction false} CollapseRun(u: string, w: string, v: string)
    requires u == [] || !IsSpace(u[|u| - 1])
    requires w != [] && AllSpace(w)
    requires v == [] || !IsSpace(v[0])
    ensures Collapse(u + (w + v)) == Collapse(u) + [' '] + Collapse(v)
    decreases |u|, 1
  {
    if u == [] {
      assert u + (w + v) == w + v;
      CollapseLeadingRun(w, v);
    } else if IsSpace(u[0]) {
      CollapseRunAfterSpace(u, w, v);
    } else {
      CollapseRunAfterText(u, w, v);
    }
  }

  /** A string without double white space and with blanks only is its own collapse. */
  lemma {:induction false} CollapseFixpoint(s: string)
    requires NoDoubleSpace(s) && OnlyBlanks(s)
    ensures Collapse(s) == s
    decreases |s|
  {
    if s != [] {
      assert NoDoubleSpace(s[1..]) && OnlyBlanks(s[1..]);
      if IsSpace(s[0]) {
        assert s[1..] == [] || !IsSpace(s[1]);
        assert TrimStart(s) == s[1..];
        CollapseFixpoint(s[1..]);
      } else {
        CollapseFixpoint(s[1..]);
      }
    }
  }

  /** `clean` is idempotent: a cleaned string is left as it is. */
  lemma {:induction false} CleanIdempotent(s: string)
    ensures Clean(Clean(s)) == Clean(s)
  {
    CleanFixpoint(Clean(s));
  }

  /** A string already of the shape `clean` produces is left unchanged by it
      (and, by `Clean`'s contract, no other string is). */
  lemma {:induction false} CleanFixpoint(s: string)
    requires IsClean(s)
    ensures Clean(s) == s
  {
    CollapseFixpoint(s);
    TrimNoEdge(s);
  }

  /** Concatenation regrouped. */
  lemma Regroup3<T>(a: seq<T>, b: seq<T>, c: seq<T>)
    ensures a + (b + c) == a + b + c
  {
  }

  /** Between two pieces of text, a run of white space comes out of `clean`
      as exactly one blank between the two pieces cleaned on their own. */
  lemma {:induction false} CleanRun(u: string, w: string, v: string)
    requires u != [] && !IsSpace(u[|u| - 1])
    requires w != [] && AllSpace(w)
    requires v != [] && !IsSpace(v[0])
    ensures Clean(u + (w + v)) == Clean(u) + [' '] + Clean(v)
  {
    CollapseRun(u, w, v);
    var a := Collapse(u);
    var b := Collapse(v);
    CollapseKeepsLast(u);
    Regroup3(a, [' '], b);
    TrimStartAppend(a, [' '] + b);
    var ta := TrimStart(a);
    TrimStartKeepsLast(a);
    Regroup3(ta, [' '], b);
    TrimEndPrepend(ta + [' '], b);
    assert TrimEnd(ta) == ta;
    assert TrimStart(b) == b;
  }

  // ---- White space at the ends ----

  /** A run of white space behind text that does not end with white space is
      exactly what `TrimEnd` drops. */
  lemma {:induction false} TrimEndOfRun(v: string, w: string)
    requires AllSpace(w)
    requires v == [] || !IsSpace(v[|v| - 1])
    ensures TrimEnd(v + w) == v
    decreases |w|
  {
    if w == [] {
      assert v + w == v;
    } else {
      var vw := v + w;
      assert vw[|vw| - 1] == w[|w| - 1];
      assert vw[..|vw| - 1] == v + w[..|w| - 1];
      TrimEndOfRun(v, w[..|w| - 1]);
    }
  }

  /** `trim()` removes white space at the two ends and nothing else: text with
      no white space at its ends, padded with white space on either side, is
      given back as it was. */
  lemma TrimOfPadded(w1: string, p: string, w2: string)
    requires AllSpace(w1) && AllSpace(w2)
    requires NoEdgeSpace(p)
    ensures Trim(w1 + p + w2) == p
  {
    if p == [] {
      var w := w1 + w2;
      assert w1 + p + w2 == w + [];
      TrimStartOfRun(w, []);
    } else {
      assert w1 + p + w2 == w1 + (p + w2);
      assert (p + w2)[0] == p[0];
      TrimStartOfRun(w1, p + w2);
      TrimEndOfRun(p, w2);
    }
  }

  /** Any text splits into leading white space, a middle with no white space
      at its ends, and trailing white space. */
  lemma {:induction false} SplitEdges(s: string) returns (a: string, p: string, b: string)
    ensures s == a + p + b
    ensures AllSpace(a) && AllSpace(b) && NoEdgeSpace(p)
    decreases |s|
  {
    if s == [] {
      a, p, b := [], [], [];
    } else if IsSpace(s[0]) {
      var a', p', b' := SplitEdges(s[1..]);
      a, p, b := [s[0]] + a', p', b';
      assert s == [s[0]] + s[1..];
    } else if IsSpace(s[|s| - 1]) {
      var a', p', b' := SplitEdges(s[..|s| - 1]);
      a, p, b := a', p', b' + [s[|s| - 1]];
      assert s == s[..|s| - 1] + [s[|s| - 1]];
    } else {
      a, p, b := [], s, [];
      assert s == [] + s + [];
    }
  }

  /** White space behind text that ends without it collapses to at most one blank. */
  lemma CollapseTrail(p: string, w: string) returns (b: string)
    requires AllSpace(w)
    requires p == [] || !IsSpace(p[|p| - 1])
    ensures AllSpace(b)
    ensures Collapse(p + w) == Collapse(p) + b
  {
    if w == [] {
      b := [];
      assert p + w == p && Collapse(p) + b == Collapse(p);
    } else {
      b := [' '];
      assert p + w == p + (w + []);
      CollapseRun(p, w, []);
    }
  }

  /** White space in front of text that starts without it collapses to at most one blank. */
  lemma CollapseLead(w: string, x: string) returns (b: string)
    requires AllSpace(w)
    requires x == [] || !IsSpace(x[0])
    ensures AllSpace(b)
    ensures Collapse(w + x) == b + Collapse(x)
  {
    if w == [] {
      b := [];
      assert w + x == x && b + Collapse(x) == Collapse(x);
    } else {
      b := [' '];
      CollapseLeadingRun(w, x);
    }
  }

  /** Collapsing text with no white space at its ends, padded with white
      space, gives the collapsed text with at most one blank on either side. */
  lemma CollapseOfEdges(w1: string, p: string, w2: string) returns (b1: string, b2: string)
    requires AllSpace(w1) && AllSpace(w2)
    requires p != [] && NoEdgeSpace(p)
    ensures AllSpace(b1) && AllSpace(b2)
    ensures Collapse(w1 + p + w2) == b1 + Collapse(p) + b2
  {
    var x := p + w2;
    b2 := CollapseTrail(p, w2);
    assert x[0] == p[0];
    b1 := CollapseLead(w1, x);
    Regroup3(w1, p, w2);
    Regroup3(b1, Collapse(p), b2);
  }

  /** `clean` of text with no white space at its ends ignores any white space
      padded around it. */
  lemma CleanOfEdges(w1: string, p: string, w2: string)
    requires AllSpace(w1) && AllSpace(w2)
    requires NoEdgeSpace(p)
    ensures Clean(w1 + p + w2) == Clean(p)
  {
    if p == [] {
      var w := w1 + w2;
      assert w1 + p + w2 == w;
      if w != [] {
        assert w + [] == w;
        CollapseLeadingRun(w, []);
        TrimOfPadded([' '], [], []);
        assert [' '] + [] + [] == [' '];
      }
    } else {
      var b1, b2 := CollapseOfEdges(w1, p, w2);
      var c := Collapse(p);
      CollapseKeepsLast(p);
      assert NoEdgeSpace(c);
      TrimOfPadded(b1, c, b2);
      TrimNoEdge(c);
    }
  }

  /** `clean` ignores white space padded at either end of any text. With
      `CleanRun` for the runs inside and `CleanFixpoint` for text without
      white space, this fixes `clean` on every text. */
  lemma CleanOfPadded(w1: string, s: string, w2: string)
    requires AllSpace(w1) && AllSpace(w2)
    ensures Clean(w1 + s + w2) == Clean(s)
  {
    var a, p, b := SplitEdges(s);
    CleanOfEdges(a, p, b);
    assert w1 + s + w2 == (w1 + a) + p + (b + w2);
    CleanOfEdges(w1 + a, p, b + w2);
  }

  /** `s.replace(/\s/g, '')`: every white-space character removed. */
  function RemoveSpaces(s: string): (r: string)
    ensures |r| <= |s|
    ensures forall i :: 0 <= i < |r| ==> !IsSpace(r[i])
  {
    if s == [] then []
    else if IsSpace(s[0]) then RemoveSpaces(s[1..])
    else [s[0]] + RemoveSpaces(s[1..])
  }

  lemma {:induction false} RemoveSpacesAppend(a: string, b: string)
    ensures RemoveSpaces(a + b) == RemoveSpaces(a) + RemoveSpaces(b)
  {
    if a == [] {
      assert a + b == b;
    } else {
      assert (a + b)[0] == a[0] && (a + b)[1..] == a[1..] + b;
      RemoveSpacesAppend(a[1..], b);
    }
  }

  lemma {:induction false} RemoveSpacesOfSpaces(s: string)
    requires forall i :: 0 <= i < |s| ==> IsSpace(s[i])
    ensures RemoveSpaces(s) == []
  {
    if s != [] {
      RemoveSpacesOfSpaces(s[1..]);
    }
  }

  /** Text without white space is left as it is. */
  lemma {:induction false} RemoveSpacesOfText(s: string)
    requires forall i :: 0 <= i < |s| ==> !IsSpace(s[i])
    ensures RemoveSpaces(s) == s
  {
    if s != [] {
      RemoveSpacesOfText(s[1..]);
    }
  }

  lemma {:induction false} TrimStartKeepsContent(s: string)
    ensures RemoveSpaces(TrimStart(s)) == RemoveSpaces(s)
    decreases |s|
  {
    if s != [] && IsSpace(s[0]) {
      TrimStartKeepsContent(s[1..]);
    }
  }

  lemma {:induction false} TrimEndKeepsContent(s: string)
    ensures RemoveSpaces(TrimEnd(s)) == RemoveSpaces(s)
    decreases |s|
  {
    if s != [] && IsSpace(s[|s| - 1]) {
      var init := s[..|s| - 1];
      TrimEndKeepsContent(init);
      assert s == init + [s[|s| - 1]];
      RemoveSpacesAppend(init, [s[|s| - 1]]);
      assert RemoveSpaces([s[|s| - 1]]) == [];
    }
  }

  /** Trimming only drops white space. */
  lemma {:induction false} TrimKeepsContent(s: string)
    ensures RemoveSpaces(Trim(s)) == RemoveSpaces(s)
  {
    TrimStartKeepsContent(s);
    TrimEndKeepsContent(TrimStart(s));
  }

  /** Collapsing white-space runs only replaces white space. */
  lemma {:induction false} CollapseKeepsContent(s: string)
    ensures RemoveSpaces(Collapse(s)) == RemoveSpaces(s)
    decreases |s|
  {
    if s != [] {
      if IsSpace(s[0]) {
        var t := TrimStart(s);
        CollapseKeepsContent(t);
        TrimStartKeepsContent(s);
        RemoveSpacesAppend([' '], Collapse(t));
      } else {
        CollapseKeepsContent(s[1..]);
        RemoveSpacesAppend([s[0]], Collapse(s[1..]));
      }
    }
  }

  /** `clean` drops or rewrites white space only: every other character is kept, in order. */
  lemma {:induction false} CleanKeepsContent(s: string)
    ensures RemoveSpaces(Clean(s)) == RemoveSpaces(s)
  {
    CollapseKeepsContent(s);
    TrimKeepsContent(Collapse(s));
  }

  /** `s.replace(/,/g, '.')`: every comma becomes a period, nothing else changes. */
  function CommasToPeriods(s: string): (r: string)
    ensures |r| == |s|
    ensures forall i :: 0 <= i < |r| ==> r[i] != ','
    ensures forall i :: 0 <= i < |s| && s[i] == ',' ==> r[i] == '.'
    ensures forall i :: 0 <= i < |s| && s[i] != ',' ==> r[i] == s[i]
  {
    seq(|s|, i requires 0 <= i < |s| => if s[i] == ',' then '.' else s[i])
  }
}

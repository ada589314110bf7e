/** The two string operations the authorization guard applies to the header:
    Python's argument-less `str.split()` and `str.lower()`. */
module Text {

  /** The characters for which Python's `str.isspace()` holds, and on which
      `str.split()` with no argument splits. */
  predicate IsSpace(c: char) {
    || ('\t' <= c <= '\r')                 // tab, line feed, vertical tab, form feed, carriage return
    || ('\U{1C}' <= c <= '\U{1F}')         // file, group, record and unit separators
    || c == ' '
    || c == '\U{85}' || c == '\U{A0}'      // next line, no-break space
    || c == '\U{1680}'
    || ('\U{2000}' <= c <= '\U{200A}')
    || c == '\U{2028}' || c == '\U{2029}'
    || c == '\U{202F}' || c == '\U{205F}' || c == '\U{3000}'
  }

  predicate NoSpace(w: string) {
    forall i :: 0 <= i < |w| ==> !IsSpace(w[i])
  }

  predicate AllSpace(s: string) {
    forall i :: 0 <= i < |s| ==> IsSpace(s[i])
  }

  /** A word as `str.split()` can return it: non-empty, no whitespace. */
  predicate IsWord(w: string) {
    w != [] && NoSpace(w)
  }

  predicate AllWords(ws: seq<string>) {
    forall i :: 0 <= i < |ws| ==> IsWord(ws[i])
  }

  /** `s` with every whitespace character removed. */
  function Squeeze(s: string): string {
    if s == [] then []
    else if IsSpace(s[0]) then Squeeze(s[1..])
    else [s[0]] + Squeeze(s[1..])
  }

  /** The words laid end to end. */
  function Concat(ws: seq<string>): string {
    if ws == [] then [] else ws[0] + Concat(ws[1..])
  }

  /** The words separated by single spaces. */
  function Join(ws: seq<string>): string {
    if |ws| == 0 then []
    else if |ws| == 1 then ws[0]
    else ws[0] + " " + Join(ws[1..])
  }

  /** The length of the longest whitespace-free prefix of `s`. */
  function WordEnd(s: string): (n: nat)
    ensures n <= |s|
    ensures NoSpace(s[..n])
    ensures n < |s| ==> IsSpace(s[n])
  {
    if s == [] || IsSpace(s[0]) then 0 else 1 + WordEnd(s[1..])
  }

  /** Python's `s.split()`: the maximal runs of non-whitespace characters, in
      order; leading, trailing and repeated whitespace yields no empty word. */
  function Split(s: string): (words: seq<string>)
    ensures AllWords(words)
    decreases |s|
  {
    if s == [] then []
    else if IsSpace(s[0]) then Split(s[1..])
    else
      var n := WordEnd(s);
      [s[..n]] + Split(s[n..])
  }

  /** Splitting loses no character but whitespace: the words laid end to end
      are `s` without its whitespace. */
  lemma {:induction false} SplitKeepsText(s: string)
    ensures Concat(Split(s)) == Squeeze(s)
    decreases |s|
  {
    if s == [] {
    } else if IsSpace(s[0]) {
      SplitKeepsText(s[1..]);
    } else {
      var n := WordEnd(s);
      var rest := Split(s[n..]);
      SplitKeepsText(s[n..]);
      SqueezeAppend(s[..n], s[n..]);
      SqueezeNoSpace(s[..n]);
      assert s[..n] + s[n..] == s;
      assert ([s[..n]] + rest)[1..] == rest;
    }
  }

  lemma {:induction false} SqueezeAppend(a: string, b: string)
    ensures Squeeze(a + b) == Squeeze(a) + Squeeze(b)
    decreases |a|
  {
    if a == [] {
      assert a + b == b;
    } else {
      assert (a + b)[0] == a[0];
      assert (a + b)[1..] == a[1..] + b;
      SqueezeAppend(a[1..], b);
    }
  }

  lemma {:induction false} SqueezeNoSpace(w: string)
    requires NoSpace(w)
    ensures Squeeze(w) == w
    decreases |w|
  {
    if w != [] {
      SqueezeNoSpace(w[1..]);
    }
  }

  lemma {:induction false} SqueezeEmptyIff(s: string)
    ensures Squeeze(s) == [] <==> AllSpace(s)
    decreases |s|
  {
    if s != [] {
      SqueezeEmptyIff(s[1..]);
      if IsSpace(s[0]) && AllSpace(s[1..]) {
        forall i | 0 <= i < |s| ensures IsSpace(s[i]) {
          if i > 0 { assert s[i] == s[1..][i - 1]; }
        }
      }
      if AllSpace(s) {
        forall i | 0 <= i < |s| - 1 ensures IsSpace(s[1..][i]) {
          assert s[1..][i] == s[i + 1];
        }
      }
    }
  }

  /** Splitting gives nothing exactly when the string is empty or whitespace. */
  lemma SplitEmptyIff(s: string)
    ensures Split(s) == [] <==> AllSpace(s)
  {
    var ws := Split(s);
    SplitKeepsText(s);
    SqueezeEmptyIff(s);
    if ws != [] {
      assert ws[0] != [];
      assert Concat(ws) == ws[0] + Concat(ws[1..]);
    }
  }

  lemma {:induction false} WordEndOfWord(w: string, tail: string)
    requires NoSpace(w)
    requires tail == [] || IsSpace(tail[0])
    ensures WordEnd(w + tail) == |w|
    decreases |w|
  {
    if w == [] {
      assert w + tail == tail;
    } else {
      assert (w + tail)[1..] == w[1..] + tail;
      WordEndOfWord(w[1..], tail);
    }
  }

  /** A word followed by whitespace (or nothing) is split off as one word. */
  lemma SplitLeadingWord(w: string, tail: string)
    requires IsWord(w)
    requires tail == [] || IsSpace(tail[0])
    ensures Split(w + tail) == [w] + Split(tail)
  {
    var s := w + tail;
    WordEndOfWord(w, tail);
    assert s[..|w|] == w;
    assert s[|w|..] == tail;
  }

  /** Splitting inverts joining with single spaces: a header built as
      `w1 + " " + w2 + ...` from proper words is split back into exactly those
      words. */
  lemma {:induction false} SplitJoin(ws: seq<string>)
    requires AllWords(ws)
    ensures Split(Join(ws)) == ws
    decreases |ws|
  {
    if |ws| == 0 {
    } else if |ws| == 1 {
      SplitLeadingWord(ws[0], []);
      assert ws[0] + [] == ws[0];
      assert Split([]) == [];
    } else {
      var rest := Join(ws[1..]);
      var tail := " " + rest;
      assert Join(ws) == ws[0] + tail;
      SplitLeadingWord(ws[0], tail);
      assert tail[1..] == rest;
      SplitJoin(ws[1..]);
      assert [ws[0]] + ws[1..] == ws;
    }
  }

  /** ASCII lower-casing of one character. */
  function LowerChar(c: char): char {
    if 'A' <= c <= 'Z' then (c as int + 32) as char else c
  }

  /** Python's `s.lower()`, restricted to ASCII letters. */
  function Lower(s: string): (r: string)
    ensures |r| == |s|
  {
    seq(|s|, i requires 0 <= i < |s| => LowerChar(s[i]))
  }

  /** The scheme test of the guard: `word.lower() == 'bearer'`. */
  predicate IsBearer(word: string) {
    Lower(word) == "bearer"
  }

  /** The scheme test accepts exactly the 64 spellings of "bearer" in mixed
      case, and nothing else. */
  lemma IsBearerIff(word: string)
    ensures IsBearer(word) <==>
      (|word| == 6 && forall i :: 0 <= i < 6 ==> word[i] == "bearer"[i] || word[i] == "BEARER"[i])
  {
    if IsBearer(word) {
      forall i | 0 <= i < 6 ensures word[i] == "bearer"[i] || word[i] == "BEARER"[i] {
        assert LowerChar(word[i]) == Lower(word)[i];
      }
    }
    if |word| == 6 && forall i :: 0 <= i < 6 ==> word[i] == "bearer"[i] || word[i] == "BEARER"[i] {
      forall i | 0 <= i < 6 ensures Lower(word)[i] == "bearer"[i] {
        assert word[i] == "bearer"[i] || word[i] == "BEARER"[i];
      }
    }
  }

  /** The spelling clients send passes the scheme test. */
  lemma CapitalisedBearer()
    ensures IsBearer("Bearer")
  {
    var l := Lower("Bearer");
    assert l[0] == 'b' && l[1] == 'e' && l[2] == 'a' && l[3] == 'r' && l[4] == 'e' && l[5] == 'r';
  }

  /** `a + " " + b` splits back into its two words. */
  lemma SplitPair(a: string, b: string)
    requires IsWord(a) && IsWord(b)
    ensures Split(a + " " + b) == [a, b]
  {
    assert [a, b][1..] == [b];
    assert Join([a, b]) == a + " " + b;
    SplitJoin([a, b]);
  }
}

/**
 * The Python string primitives the core relies on, written out: whitespace as
 * str.isspace() sees it, str.split() with no argument, sep.join(...),
 * str.strip(), str.replace(' ', '_'), list slicing s[:k] and str(n) for the
 * ordinals of an enumeration.
 */
module Text {

  /** str.isspace() of one character: the characters that str.split() with no
      argument and str.strip() with no argument treat as whitespace. */
  predicate IsSpace(c: char) {
    || c == ' '
    || ('\t' <= c <= '\r')
    || ('\U{1c}' <= c <= '\U{1f}')
    || c == '\U{85}' || c == '\U{a0}' || c == '\U{1680}'
    || ('\U{2000}' <= c <= '\U{200a}')
    || c == '\U{2028}' || c == '\U{2029}' || c == '\U{202f}'
    || c == '\U{205f}' || c == '\U{3000}'
  }

  predicate NoSpace(s: string) {
    forall i :: 0 <= i < |s| ==> !IsSpace(s[i])
  }

  /** A word as str.split() yields it: non-empty and free of whitespace. */
  predicate IsWord(w: string) {
    w != [] && NoSpace(w)
  }

  /** No leading, trailing or repeated whitespace, and the only whitespace
      character is the plain space. */
  predicate Clean(s: string) {
    && (s != [] ==> !IsSpace(s[0]) && !IsSpace(s[|s| - 1]))
    && forall i :: 0 <= i < |s| && IsSpace(s[i]) ==>
         s[i] == ' ' && i + 1 < |s| && !IsSpace(s[i + 1])
  }

  /** What is left of `s` once its leading whitespace is dropped. */
  function TrimStart(s: string): (r: string)
    ensures |r| <= |s| && r == s[|s| - |r|..]
    ensures r != [] ==> !IsSpace(r[0])
    ensures forall i :: 0 <= i < |s| - |r| ==> IsSpace(s[i])
  {
    if s != [] && IsSpace(s[0]) then TrimStart(s[1..]) else s
  }

  /** What is left of `s` once its trailing whitespace is dropped. */
  function TrimEnd(s: string): (r: string)
    ensures |r| <= |s| && r == s[..|r|]
    ensures r != [] ==> !IsSpace(r[|r| - 1])
    ensures forall i :: |r| <= i < |s| ==> IsSpace(s[i])
  {
    if s != [] && IsSpace(s[|s| - 1]) then TrimEnd(s[..|s| - 1]) else s
  }

  /** s.strip(): both ends lose their whitespace. */
  function Strip(s: string): (r: string)
    ensures |r| <= |s|
    ensures r != [] ==> !IsSpace(r[0]) && !IsSpace(r[|r| - 1])
  {
    TrimEnd(TrimStart(s))
  }

  /** strip() changes a string exactly when one of its ends is whitespace;
      in particular it is idempotent. */
  lemma StripUnchanged(s: string)
    ensures Strip(s) == s <==> (s == [] || (!IsSpace(s[0]) && !IsSpace(s[|s| - 1])))
    ensures Strip(Strip(s)) == Strip(s)
  {
  }

  /** The longest prefix of `s` that holds no whitespace. */
  function LeadingWord(s: string): (w: string)
    ensures |w| <= |s| && w == s[..|w|] && NoSpace(w)
    ensures |w| < |s| ==> IsSpace(s[|w|])
  {
    if s == [] || IsSpace(s[0]) then [] else [s[0]] + LeadingWord(s[1..])
  }

  /** s.split(): the maximal runs of non-whitespace characters, in order. */
  function Split(s: string): (ws: seq<string>)
    ensures forall i :: 0 <= i < |ws| ==> IsWord(ws[i])
    decreases |s|
  {
    var t := TrimStart(s);
    if t == [] then []
    else
      var w := LeadingWord(t);
      [w] + Split(t[|w|..])
  }

  /** sep.join(ws). */
  function Join(ws: seq<string>, sep: string): string {
    if ws == [] then ""
    else if |ws| == 1 then ws[0]
    else ws[0] + sep + Join(ws[1..], sep)
  }

  /** s[:k] on a list: the first k elements, or, for a negative k, all but
      the last -k elements. */
  function SlicePrefix<T>(s: seq<T>, k: int): (r: seq<T>)
    ensures |r| <= |s| && r == s[..|r|]
    ensures 0 <= k ==> |r| == if k <= |s| then k else |s|
  {
    if 0 <= k then (if k <= |s| then s[..k] else s)
    else if 0 <= |s| + k then s[..|s| + k]
    else []
  }

  /** s.replace(' ', '_'): every plain space becomes an underscore, every
      other character stays where it was. */
  function SpacesToUnderscores(s: string): (r: string)
    ensures |r| == |s|
    ensures forall i :: 0 <= i < |s| ==> r[i] == (if s[i] == ' ' then '_' else s[i])
  {
    if s == [] then []
    else [if s[0] == ' ' then '_' else s[0]] + SpacesToUnderscores(s[1..])
  }

  predicate IsDigit(c: char) {
    '0' <= c <= '9'
  }

  function Digit(d: nat): (c: char)
    requires d < 10
    ensures IsDigit(c) && c as int - '0' as int == d
  {
    (d + '0' as int) as char
  }

  /** str(n) for a non-negative int: its decimal digits, with no leading zero. */
  function Decimal(n: nat): (r: string)
    ensures r != [] && forall i :: 0 <= i < |r| ==> IsDigit(r[i])
    ensures 0 < n ==> r[0] != '0'
  {
    if n < 10 then [Digit(n)] else Decimal(n / 10) + [Digit(n % 10)]
  }

  function DigitValue(c: char): nat
    requires IsDigit(c)
  {
    c as int - '0' as int
  }

  /** int(s) for a string of decimal digits. */
  function ParseDecimal(s: string): nat
    requires forall i :: 0 <= i < |s| ==> IsDigit(s[i])
  {
    if s == [] then 0
    else ParseDecimal(s[..|s| - 1]) * 10 + DigitValue(s[|s| - 1])
  }

  /** The ordinal printed for n reads back as n. */
  lemma {:induction false} ParseDecimalOfDecimal(n: nat)
    ensures ParseDecimal(Decimal(n)) == n
  {
    var r := Decimal(n);
    if n >= 10 {
      ParseDecimalOfDecimal(n / 10);
      assert r[..|r| - 1] == Decimal(n / 10);
    }
  }

  /** LeadingWord stops exactly at the end of a word that is followed by
      whitespace or by nothing. */
  lemma {:induction false} LeadingWordOfWord(w: string, rest: string)
    requires NoSpace(w)
    requires rest == [] || IsSpace(rest[0])
    ensures LeadingWord(w + rest) == w
  {
    if w != [] {
      assert (w + rest)[1..] == w[1..] + rest;
      LeadingWordOfWord(w[1..], rest);
    }
  }

  /** split() yields no word exactly when the string is all whitespace. */
  lemma SplitEmpty(s: string)
    ensures Split(s) == [] <==> forall i :: 0 <= i < |s| ==> IsSpace(s[i])
  {
    var t := TrimStart(s);
    if t != [] {
      assert s[|s| - |t|] == t[0];
    }
  }

  /** A leading whitespace character contributes nothing to split(). */
  lemma SplitSkipsSpace(c: char, s: string)
    requires IsSpace(c)
    ensures Split([c] + s) == Split(s)
  {
    assert ([c] + s)[1..] == s;
    assert TrimStart([c] + s) == TrimStart(s);
  }

  /** A leading word that whitespace or the end follows is split()'s first
      element. With SplitSkipsSpace and Split([]) == [] this determines
      split() on every string. */
  lemma SplitTakesWord(w: string, s: string)
    requires IsWord(w)
    requires s == [] || IsSpace(s[0])
    ensures Split(w + s) == [w] + Split(s)
  {
    assert (w + s)[0] == w[0];
    assert TrimStart(w + s) == w + s;
    LeadingWordOfWord(w, s);
    assert (w + s)[|w|..] == s;
  }

  /** Joining words with single spaces and splitting again gives the words
      back: split() inverts ' '.join() on words. */
  lemma {:induction false} SplitJoin(ws: seq<string>)
    requires forall i :: 0 <= i < |ws| ==> IsWord(ws[i])
    ensures Split(Join(ws, " ")) == ws
  {
    if ws == [] {
    } else if |ws| == 1 {
      var w := ws[0];
      assert TrimStart(w) == w;
      LeadingWordOfWord(w, []);
      assert w + [] == w;
      assert w[|w|..] == [];
    } else {
      var w, j := ws[0], Join(ws[1..], " ");
      var s := w + " " + j;
      assert Join(ws, " ") == s;
      assert TrimStart(s) == s;
      LeadingWordOfWord(w, " " + j);
      assert s == w + (" " + j);
      assert s[|w|..] == " " + j;
      assert (" " + j)[1..] == j;
      assert TrimStart(" " + j) == TrimStart(j);
      assert Split(" " + j) == Split(j);
      SplitJoin(ws[1..]);
    }
  }

  /** Words joined by single spaces form a clean string: no leading,
      trailing or doubled whitespace. */
  lemma {:induction false} JoinClean(ws: seq<string>)
    requires forall i :: 0 <= i < |ws| ==> IsWord(ws[i])
    ensures Clean(Join(ws, " "))
    ensures ws != [] ==> Join(ws, " ") != []
  {
    if |ws| > 1 {
      var w, j := ws[0], Join(ws[1..], " ");
      JoinClean(ws[1..]);
      var s := w + " " + j;
      assert Join(ws, " ") == s;
      forall i | 0 <= i < |s| && IsSpace(s[i])
        ensures s[i] == ' ' && i + 1 < |s| && !IsSpace(s[i + 1])
      {
        if i == |w| {
          assert s[i + 1] == j[0];
        } else if i > |w| {
          assert s[i] == j[i - |w| - 1];
          assert i + 1 < |s| ==> s[i + 1] == j[i - |w|];
        }
      }
    }
  }
}

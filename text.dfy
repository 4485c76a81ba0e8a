/**
  The Python string built-ins the application relies on, restated over `seq<char>`:
  `isspace`, `lower`, `strip`, `startswith`, `endswith`, `in` (substring),
  `split()` on whitespace, `split(sep)`, `sep.join(...)` and slicing `s[:n]`.
 */
module Text {
  import opened Wrappers

  /** Python's `str.isspace()` for one character (the characters `split()` and `strip()` remove). */
  predicate IsSpace(c: char)
  {
    || c == ' ' || ('\t' <= c <= '\r') || ('\U{1C}' <= c <= '\U{1F}')
    || c == '\U{85}' || c == '\U{A0}' || c == '\U{1680}' || ('\U{2000}' <= c <= '\U{200A}')
    || c == '\U{2028}' || c == '\U{2029}' || c == '\U{202F}' || c == '\U{205F}' || c == '\U{3000}'
  }

  predicate AllSpace(s: string)
  {
    forall i :: 0 <= i < |s| ==> IsSpace(s[i])
  }

  predicate NoSpace(s: string)
  {
    forall i :: 0 <= i < |s| ==> !IsSpace(s[i])
  }

  /** `str.lower()` on the Basic Latin and Latin-1 letters (A-Z and À-Þ except ×). */
  function LowerChar(c: char): char
  {
    if 'A' <= c <= 'Z' || ('\U{C0}' <= c <= '\U{DE}' && c != '\U{D7}') then (c as int + 32) as char else c
  }

  function Lower(s: string): string
  {
    seq(|s|, i requires 0 <= i < |s| => LowerChar(s[i]))
  }

  lemma LowerAppend(a: string, b: string)
    ensures Lower(a + b) == Lower(a) + Lower(b)
  {
  }

  // ---------------------------------------------------------------------------
  // strip()

  /** The first position at or after `i` that does not hold whitespace, or `|s|`. */
  function SaltarEspacios(s: string, i: nat): (n: nat)
    requires i <= |s|
    ensures i <= n <= |s| && (n == |s| || !IsSpace(s[n]))
    ensures forall k :: i <= k < n ==> IsSpace(s[k])
    decreases |s| - i
  {
    if i < |s| && IsSpace(s[i]) then SaltarEspacios(s, i + 1) else i
  }

  /** The end of the text before `j` once its trailing whitespace is dropped, never below `lo`. */
  function RetrocederEspacios(s: string, lo: nat, j: nat): (n: nat)
    requires lo <= j <= |s|
    ensures lo <= n <= j && (n == lo || !IsSpace(s[n - 1]))
    ensures forall k :: n <= k < j ==> IsSpace(s[k])
  {
    if j > lo && IsSpace(s[j - 1]) then RetrocederEspacios(s, lo, j - 1) else j
  }

  /** `s.strip()`: the span between the leading and the trailing whitespace. */
  function Strip(s: string): (r: string)
    ensures |r| <= |s|
    ensures r == [] <==> AllSpace(s)
    ensures r != [] ==> !IsSpace(r[0]) && !IsSpace(r[|r| - 1])
  {
    var i := SaltarEspacios(s, 0);
    var j := RetrocederEspacios(s, i, |s|);
    assert i < |s| ==> i < j;
    s[i..j]
  }

  /** `strip()` keeps exactly a span framed by whitespace whose ends are not whitespace. */
  lemma StripTramo(s: string, i: nat, j: nat)
    requires i <= j <= |s| && AllSpace(s[..i]) && AllSpace(s[j..])
    requires i == j || (!IsSpace(s[i]) && !IsSpace(s[j - 1]))
    ensures Strip(s) == s[i..j]
  {
    assert forall k :: 0 <= k < i ==> IsSpace(s[..i][k]);
    assert forall k :: j <= k < |s| ==> s[k] == s[j..][k - j];
    if i == j {
      assert AllSpace(s);
    } else {
      assert SaltarEspacios(s, 0) == i;
      assert RetrocederEspacios(s, i, |s|) == j;
    }
  }

  /** Surrounding whitespace is exactly what `strip()` removes. */
  lemma StripFrame(a: string, b: string, c: string)
    requires AllSpace(a) && AllSpace(c)
    requires b == [] || (!IsSpace(b[0]) && !IsSpace(b[|b| - 1]))
    ensures Strip(a + b + c) == b
  {
    var s := a + b + c;
    assert s[..|a|] == a && s[|a| + |b|..] == c && s[|a|..|a| + |b|] == b;
    StripTramo(s, |a|, |a| + |b|);
  }

  lemma StripIdempotent(s: string)
    ensures Strip(Strip(s)) == Strip(s)
  {
    var r := Strip(s);
    assert r == [] + r + [];
    StripFrame([], r, []);
  }

  // ---------------------------------------------------------------------------
  // startswith / endswith / in / slicing

  predicate StartsWith(s: string, p: string)
  {
    |p| <= |s| && s[..|p|] == p
  }

  predicate EndsWith(s: string, p: string)
  {
    |p| <= |s| && s[|s| - |p|..] == p
  }

  /** `n` occurs in `h` starting at index `i`. */
  predicate OccursAt(h: string, n: string, i: int)
  {
    0 <= i && i + |n| <= |h| && h[i..i + |n|] == n
  }

  /** Python's `n in h` for strings. */
  function Contains(h: string, n: string): (b: bool)
    ensures b <==> exists i :: OccursAt(h, n, i)
  {
    if StartsWith(h, n) then
      assert OccursAt(h, n, 0);
      true
    else if h == [] then
      assert forall i :: !OccursAt(h, n, i);
      false
    else
      var b := Contains(h[1..], n);
      assert forall i :: OccursAt(h, n, i) && i > 0 ==> OccursAt(h[1..], n, i - 1) by {
        forall i | OccursAt(h, n, i) && i > 0 ensures OccursAt(h[1..], n, i - 1) {
          assert h[1..][i - 1..i - 1 + |n|] == h[i..i + |n|];
        }
      }
      assert forall i :: OccursAt(h[1..], n, i) ==> OccursAt(h, n, i + 1) by {
        forall i | OccursAt(h[1..], n, i) ensures OccursAt(h, n, i + 1) {
          assert h[1..][i..i + |n|] == h[i + 1..i + 1 + |n|];
        }
      }
      b
  }

  /** A witness position is enough to show `n in h`. */
  lemma ContainsAt(h: string, n: string, i: int)
    requires OccursAt(h, n, i)
    ensures Contains(h, n)
  {
  }

  /** The middle part of a concatenation occurs in it, right after the first part. */
  lemma OccursInMiddle(p: string, q: string, r: string)
    ensures OccursAt(p + q + r, q, |p|)
  {
    assert (p + q + r)[|p|..|p| + |q|] == q;
  }

  /** Python's `s[:n]`. */
  function Take(s: string, n: nat): (r: string)
    ensures |r| == if |s| <= n then |s| else n
    ensures r == s[..|r|]
  {
    if |s| <= n then s else s[..n]
  }

  /** `str(n)` for a natural number: its decimal digits, most significant first. */
  function Decimal(n: nat): (r: string)
    ensures r != []
    ensures forall i :: 0 <= i < |r| ==> '0' <= r[i] <= '9'
  {
    var d := ('0' as int + n % 10) as char;
    if n < 10 then [d] else Decimal(n / 10) + [d]
  }

  // ---------------------------------------------------------------------------
  // split() on whitespace and sep.join(...)

  /** Length of the leading run of non-whitespace characters. */
  function TokenLen(s: string): (n: nat)
    ensures n <= |s|
    ensures NoSpace(s[..n])
    ensures n == |s| || IsSpace(s[n])
  {
    if |s| == 0 || IsSpace(s[0]) then 0 else 1 + TokenLen(s[1..])
  }

  /** `s.split()` with no argument: the maximal runs of non-whitespace, in order. */
  function Words(s: string): (ws: seq<string>)
    ensures forall w :: w in ws ==> w != [] && NoSpace(w)
    decreases |s|
  {
    if s == [] then []
    else if IsSpace(s[0]) then Words(s[1..])
    else
      var n := TokenLen(s);
      [s[..n]] + Words(s[n..])
  }

  /** `sep.join(parts)`. */
  function Join(sep: string, parts: seq<string>): string
  {
    if |parts| == 0 then ""
    else if |parts| == 1 then parts[0]
    else parts[0] + sep + Join(sep, parts[1..])
  }

  lemma {:induction false} TokenLenOfWord(w: string, t: string)
    requires NoSpace(w)
    requires t == [] || IsSpace(t[0])
    ensures TokenLen(w + t) == |w|
  {
    if w != [] {
      assert (w + t)[1..] == w[1..] + t;
      TokenLenOfWord(w[1..], t);
    } else {
      assert w + t == t;
    }
  }

  lemma {:induction false} WordsOfSpaces(a: string, t: string)
    requires AllSpace(a)
    ensures Words(a + t) == Words(t)
  {
    if a != [] {
      assert (a + t)[1..] == a[1..] + t;
      WordsOfSpaces(a[1..], t);
    } else {
      assert a + t == t;
    }
  }

  lemma {:induction false} WordsAllSpace(s: string)
    ensures Words(s) == [] <==> AllSpace(s)
    decreases |s|
  {
    if s != [] {
      if IsSpace(s[0]) {
        WordsAllSpace(s[1..]);
        assert AllSpace(s) <==> AllSpace(s[1..]);
      }
    }
  }

  /** Splitting a single-space join of words gives back the words: `" ".join(ws).split() == ws`. */
  lemma {:induction false} WordsOfJoin(ws: seq<string>)
    requires forall w :: w in ws ==> w != [] && NoSpace(w)
    ensures Words(Join(" ", ws)) == ws
  {
    if |ws| == 0 {
    } else if |ws| == 1 {
      var w := ws[0];
      assert w == w + [];
      TokenLenOfWord(w, []);
      assert w[..|w|] == w && w[|w|..] == [];
    } else {
      var w, rest := ws[0], Join(" ", ws[1..]);
      var s := w + " " + rest;
      assert s == w + (" " + rest);
      TokenLenOfWord(w, " " + rest);
      assert s[..|w|] == w && s[|w|..] == " " + rest;
      WordsOfSpaces(" ", rest);
      assert forall v :: v in ws[1..] ==> v in ws;
      WordsOfJoin(ws[1..]);
      assert ws == [w] + ws[1..];
    }
  }

  // ---------------------------------------------------------------------------
  // split(sep)

  /** `s.find(sep)` as an option: the first index where `sep` occurs. */
  function Find(s: string, sep: string): (r: Option<nat>)
    requires |sep| > 0
    ensures r.Some? ==> OccursAt(s, sep, r.value) && forall j :: 0 <= j < r.value ==> !OccursAt(s, sep, j)
    ensures r.None? ==> forall j :: !OccursAt(s, sep, j)
  {
    FindFrom(s, sep, 0)
  }

  /** `s.find(sep, i)`: the first occurrence at or after `i`. */
  function FindFrom(s: string, sep: string, i: nat): (r: Option<nat>)
    requires |sep| > 0
    ensures r.Some? ==> i <= r.value && OccursAt(s, sep, r.value) && forall j :: i <= j < r.value ==> !OccursAt(s, sep, j)
    ensures r.None? ==> forall j :: i <= j ==> !OccursAt(s, sep, j)
    decreases |s| - i
  {
    if i + |sep| > |s| then None
    else if s[i..i + |sep|] == sep then Some(i)
    else FindFrom(s, sep, i + 1)
  }

  /** `s.split(sep)` for a non-empty separator. */
  function SplitOn(s: string, sep: string): seq<string>
    requires |sep| > 0
    decreases |s|
  {
    match Find(s, sep)
    case None => [s]
    case Some(i) => [s[..i]] + SplitOn(s[i + |sep|..], sep)
  }

  /** A string in which the separator never occurs splits into itself. */
  lemma SplitOnAbsent(s: string, sep: string)
    requires |sep| > 0
    requires forall j :: !OccursAt(s, sep, j)
    ensures SplitOn(s, sep) == [s]
  {
  }

  /** Splitting `a + sep + b` cuts at the separator when it is the first occurrence. */
  lemma SplitOnFirst(a: string, sep: string, b: string)
    requires |sep| > 0
    requires forall j :: 0 <= j <= |a| - 1 ==> !OccursAt(a + sep + b, sep, j)
    ensures SplitOn(a + sep + b, sep) == [a] + SplitOn(b, sep)
  {
    var s := a + sep + b;
    assert OccursAt(s, sep, |a|) by {
      assert s[|a|..|a| + |sep|] == sep;
    }
    var i := Find(s, sep).value;
    assert i == |a|;
    assert s[..i] == a && s[i + |sep|..] == b;
  }

  // ---------------------------------------------------------------------------
  // Removing a fence

  /** `s[len(p):]` when `s.startswith(p)`, else `s`. */
  function SinPrefijo(s: string, p: string): (r: string)
    ensures StartsWith(s, p) ==> r == s[|p|..]
    ensures !StartsWith(s, p) ==> r == s
  {
    if StartsWith(s, p) then s[|p|..] else s
  }

  /** `s[:-len(p)]` when `s.endswith(p)`, else `s`. */
  function SinSufijo(s: string, p: string): (r: string)
    ensures EndsWith(s, p) ==> r == s[..|s| - |p|]
    ensures !EndsWith(s, p) ==> r == s
  {
    if EndsWith(s, p) then s[..|s| - |p|] else s
  }

  /** A prefix that is there is removed, leaving exactly the rest. */
  lemma SinPrefijoPresente(p: string, x: string)
    ensures SinPrefijo(p + x, p) == x
  {
    assert (p + x)[..|p|] == p;
    assert (p + x)[|p|..] == x;
  }

  /** A prefix that differs at some position is not removed. */
  lemma SinPrefijoAusente(s: string, p: string, i: nat)
    requires i < |s| && i < |p| && s[i] != p[i]
    ensures SinPrefijo(s, p) == s
  {
  }

  /** A suffix that is there is removed, leaving exactly the rest. */
  lemma SinSufijoPresente(x: string, p: string)
    ensures SinSufijo(x + p, p) == x
  {
    assert (x + p)[|x|..] == p;
    assert (x + p)[..|x|] == x;
  }

  /** Joining one more part appends the separator and the part. */
  lemma {:induction false} JoinSnoc(sep: string, ps: seq<string>, p: string)
    requires ps != []
    ensures Join(sep, ps + [p]) == Join(sep, ps) + sep + p
    decreases |ps|
  {
    if |ps| == 1 {
      assert (ps + [p])[1..] == [p];
    } else {
      assert (ps + [p])[1..] == ps[1..] + [p];
      JoinSnoc(sep, ps[1..], p);
    }
  }

  /** A string is its stripped core framed by the whitespace `strip()` removes. */
  lemma StripDescompone(x: string) returns (a: string, c: string)
    ensures AllSpace(a) && AllSpace(c) && x == a + Strip(x) + c
  {
    var i := SaltarEspacios(x, 0);
    var j := RetrocederEspacios(x, i, |x|);
    a, c := x[..i], x[j..];
    assert Strip(x) == x[i..j];
    assert x == a + x[i..j] + c;
  }

  /** Trailing whitespace does not change what `strip()` keeps. */
  lemma StripSufijoEspacios(x: string, w: string)
    requires AllSpace(w)
    ensures Strip(x + w) == Strip(x)
  {
    var a, c := StripDescompone(x);
    var b := Strip(x);
    assert x + w == a + b + (c + w);
    assert AllSpace(c + w);
    StripFrame(a, b, c + w);
  }

  /** Each string stripped, the ones left empty dropped, in order. */
  function Limpias(ss: seq<string>): (r: seq<string>)
    ensures |r| <= |ss|
    ensures forall l :: l in r ==> l != ""
  {
    if ss == [] then []
    else
      var l := Strip(ss[|ss| - 1]);
      Limpias(ss[..|ss| - 1]) + (if l != "" then [l] else [])
  }

  /** One more string: its stripped form is kept when non-empty. */
  lemma LimpiasPaso(ss: seq<string>, i: nat)
    requires i < |ss|
    ensures Limpias(ss[..i + 1]) == Limpias(ss[..i]) + (if Strip(ss[i]) != "" then [Strip(ss[i])] else [])
  {
    assert ss[..i + 1][..i] == ss[..i];
  }
}

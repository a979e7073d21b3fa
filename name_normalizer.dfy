/** `normalizeName` of src/services/agruparProdutosService.ts: the canonical form under which
    product names are compared (lower case, accents removed, every other symbol a separator,
    runs of separators collapsed to one space, no space at either end). */
module NameNormalizer {
  import opened Common
  import opened JsText

  predicate IsLowerAlnum(c: char) { 'a' <= c <= 'z' || '0' <= c <= '9' }

  /** The combining diacritical marks that `.replace(/[̀-ͯ]/g, "")` deletes. */
  predicate IsCombiningMark(c: char) { '\U{0300}' <= c <= '\U{036F}' }

  /** `toLowerCase()` followed by canonical decomposition and removal of the combining marks,
      for one character: ASCII capitals become lower case, the accented Latin letters of
      Portuguese (and Latin-1) lose their accent, a combining mark disappears, and any other
      character is kept as it is. */
  function FoldChar(c: char): (r: string)
    ensures |r| <= 1
    ensures IsLowerAlnum(c) || c == ' ' ==> r == [c]
  {
    if c < '\U{0080}' then
      if 'A' <= c <= 'Z' then [(c as int + 32) as char] else [c]
    else FoldNonAscii(c)
  }

  /** The same for a character outside ASCII. */
  function FoldNonAscii(c: char): (r: string)
    ensures |r| <= 1
  {
    if c in "ÀÁÂÃÄÅàáâãäå\U{212B}" then "a"
    else if c in "Çç" then "c"
    else if c in "ÈÉÊËèéêë" then "e"
    else if c in "ÌÍÎÏìíîï\U{0130}" then "i"
    else if c in "Ññ" then "n"
    else if c in "ÒÓÔÕÖòóôõö" then "o"
    else if c in "ÙÚÛÜùúûü" then "u"
    else if c in "Ýýÿ" then "y"
    else if c == '\U{212A}' then "k"
    else if IsCombiningMark(c) then ""
    else [c]
  }

  /** One character after the first four steps: folded, then replaced by a space unless it is
      one of `[a-z0-9]`. */
  function CleanChar(c: char): (r: string)
    ensures |r| <= 1
    ensures forall i :: 0 <= i < |r| ==> IsLowerAlnum(r[i]) || r[i] == ' '
  {
    var f := FoldChar(c);
    if f == [] then [] else if IsLowerAlnum(f[0]) then f else " "
  }

  /** The whole string after lower-casing, decomposing, stripping marks and replacing symbols. */
  function Cleaned(s: string): (r: string)
    ensures OverAlphabet(r)
  {
    if s == [] then [] else CleanChar(s[0]) + Cleaned(s[1..])
  }

  /** Only `[a-z0-9]` and spaces: what is left after the symbol replacement. */
  predicate OverAlphabet(s: string)
  {
    forall i :: 0 <= i < |s| ==> IsLowerAlnum(s[i]) || s[i] == ' '
  }

  predicate NoDoubleSpace(r: string)
  {
    forall i :: 0 <= i < |r| - 1 ==> !(r[i] == ' ' && r[i + 1] == ' ')
  }

  /** `.replace(/\s+/g, " ")`: every maximal run of whitespace becomes a single space. */
  function CollapseWhitespace(s: string): (r: string)
    ensures NoDoubleSpace(r)
    decreases |s|
  {
    if s == [] then []
    else if IsJsWhitespace(s[0]) then
      var rest := TrimStart(s);
      assert rest != [] ==> rest[0] != s[0];
      assert |rest| < |s|;
      [' '] + CollapseWhitespace(rest)
    else
      [s[0]] + CollapseWhitespace(s[1..])
  }

  /** Collapsing adds no character: only `[a-z0-9]` and spaces in, only those out. */
  lemma {:induction false} CollapseOverAlphabet(s: string)
    requires OverAlphabet(s)
    ensures OverAlphabet(CollapseWhitespace(s))
    decreases |s|
  {
    if s != [] {
      if IsJsWhitespace(s[0]) {
        var rest := TrimStart(s);
        assert |rest| < |s| && rest == s[|s| - |rest|..];
        SliceOverAlphabet(s, |s| - |rest|, |s|);
        CollapseOverAlphabet(rest);
      } else {
        SliceOverAlphabet(s, 1, |s|);
        CollapseOverAlphabet(s[1..]);
      }
    }
  }

  /** A string that does not start with whitespace keeps its first character. */
  lemma CollapseKeepsFirst(s: string)
    requires s != [] && !IsJsWhitespace(s[0])
    ensures CollapseWhitespace(s) != [] && CollapseWhitespace(s)[0] == s[0]
  {
  }

  /** A string that does not end with whitespace keeps its last character. */
  lemma {:induction false} CollapseKeepsLast(s: string)
    requires s != [] && !IsJsWhitespace(s[|s| - 1])
    ensures var r := CollapseWhitespace(s); r != [] && r[|r| - 1] == s[|s| - 1]
    decreases |s|
  {
    if IsJsWhitespace(s[0]) {
      var rest := TrimStart(s);
      TrimStartKeepsLast(s);
      assert |rest| < |s|;
      CollapseKeepsLast(rest);
    } else if |s| > 1 {
      assert s[1..][|s| - 2] == s[|s| - 1];
      CollapseKeepsLast(s[1..]);
    }
  }

  /** The canonical shape of a normalized name: only `[a-z0-9]` and single spaces between them. */
  predicate Canonical(r: string)
  {
    && OverAlphabet(r)
    && (r != [] ==> r[0] != ' ' && r[|r| - 1] != ' ')
    && NoDoubleSpace(r)
  }

  /** Collapsing a trimmed string over the alphabet gives a canonical string. */
  lemma CollapseTrimmedIsCanonical(t: string)
    requires OverAlphabet(t)
    requires t != [] ==> !IsJsWhitespace(t[0]) && !IsJsWhitespace(t[|t| - 1])
    ensures Canonical(CollapseWhitespace(t))
  {
    CollapseOverAlphabet(t);
    if t != [] {
      CollapseKeepsFirst(t);
      CollapseKeepsLast(t);
    }
  }

  /** Trimming keeps a slice, so it stays over the alphabet and loses its end spaces. */
  lemma TrimOverAlphabet(s: string)
    requires OverAlphabet(s)
    ensures var t := Trim(s);
      OverAlphabet(t) && (t != [] ==> !IsJsWhitespace(t[0]) && !IsJsWhitespace(t[|t| - 1]))
  {
    TrimShape(s);
    var t := Trim(s);
    var i, j :| 0 <= i <= j <= |s| && t == s[i..j];
    SliceOverAlphabet(s, i, j);
  }

  lemma SliceOverAlphabet(s: string, i: nat, j: nat)
    requires OverAlphabet(s) && i <= j <= |s|
    ensures OverAlphabet(s[i..j])
  {
    assert forall k :: 0 <= k < j - i ==> s[i..j][k] == s[i + k];
  }

  /** `normalizeName(name)`; `None` is null, undefined or a value that is not a string. */
  function NormalizeName(name: Option<string>): (r: string)
    ensures Canonical(r)
    ensures name.None? || name == Some("") ==> r == ""
  {
    match name
    case None => ""
    case Some(s) =>
      if s == "" then ""
      else
        TrimOverAlphabet(Cleaned(s));
        CollapseTrimmedIsCanonical(Trim(Cleaned(s)));
        Normalized(s)
  }

  /** The four replacements and the trim, in the order `normalizeName` applies them. */
  function Normalized(s: string): string
  {
    CollapseWhitespace(Trim(Cleaned(s)))
  }

  lemma {:induction false} CleanedOfCanonical(r: string)
    requires OverAlphabet(r)
    ensures Cleaned(r) == r
  {
    if r != [] {
      CleanedOfCanonical(r[1..]);
      assert r == [r[0]] + r[1..];
    }
  }

  lemma {:induction false} CollapseOfCanonical(r: string)
    requires OverAlphabet(r)
    requires NoDoubleSpace(r)
    ensures CollapseWhitespace(r) == r
    decreases |r|
  {
    if r != [] {
      var tail := r[1..];
      assert OverAlphabet(tail) && NoDoubleSpace(tail);
      if r[0] == ' ' {
        assert tail != [] ==> tail[0] == r[1] && !IsJsWhitespace(tail[0]);
        assert TrimStart(tail) == tail;
        assert TrimStart(r) == tail;
      } else {
        assert !IsJsWhitespace(r[0]);
      }
      CollapseOfCanonical(tail);
      assert r == [r[0]] + tail;
    }
  }

  lemma TrimOfCanonical(r: string)
    requires r != [] && !IsJsWhitespace(r[0]) && !IsJsWhitespace(r[|r| - 1])
    ensures Trim(r) == r
  {
    assert TrimStart(r) == r;
    assert TrimEnd(r) == r;
  }

  /** A name already in canonical form is its own normal form. */
  lemma NormalizeCanonical(r: string)
    requires Canonical(r)
    ensures NormalizeName(Some(r)) == r
  {
    if r != "" {
      NormalizedOfCanonical(r);
    }
  }

  lemma NormalizedOfCanonical(r: string)
    requires OverAlphabet(r) && NoDoubleSpace(r)
    requires r != [] && r[0] != ' ' && r[|r| - 1] != ' '
    ensures Normalized(r) == r
  {
    CleanedOfCanonical(r);
    TrimOfCanonical(r);
    CollapseOfCanonical(r);
  }

  /** `normalizeName` is idempotent. */
  lemma NormalizeIdempotent(name: Option<string>)
    ensures NormalizeName(Some(NormalizeName(name))) == NormalizeName(name)
  {
    NormalizeCanonical(NormalizeName(name));
  }
}

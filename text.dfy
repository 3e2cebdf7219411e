/**
 * Character classes and the two string transformations the census code
 * uses: `re.sub(r"\s+", " ", name)` for device model names, and the decimal
 * text `print` writes for a count.
 */
module Text {

  /** An ASCII decimal digit (the model reads the patterns' `\d` as `[0-9]`). */
  predicate IsDigit(c: char) {
    '0' <= c <= '9'
  }

  /** A character `\s` matches in a Python `str` pattern: the characters `str.isspace` accepts. */
  predicate IsSpace(c: char) {
    || c == ' ' || '\t' <= c <= '\r' || '\U{1c}' <= c <= '\U{1f}'
    || c == '\U{85}' || c == '\U{a0}' || c == '\U{1680}'
    || '\U{2000}' <= c <= '\U{200a}' || c == '\U{2028}' || c == '\U{2029}'
    || c == '\U{202f}' || c == '\U{205f}' || c == '\U{3000}'
  }

  /** The characters of `s` that are not whitespace, in order. */
  function NonSpace(s: string): string {
    if s == [] then []
    else (if IsSpace(s[0]) then [] else [s[0]]) + NonSpace(s[1..])
  }

  /** `s` without its leading whitespace run. */
  function DropSpaces(s: string): (r: string)
    ensures |r| <= |s| && r == s[|s| - |r|..]
    ensures r == [] || !IsSpace(r[0])
    ensures NonSpace(r) == NonSpace(s)
  {
    if s != [] && IsSpace(s[0]) then DropSpaces(s[1..]) else s
  }

  /** `normalize_model_name`: every maximal run of whitespace becomes one space. */
  function NormalizeModelName(name: string): string
    decreases |name|
  {
    if name == [] then []
    else if IsSpace(name[0]) then [' '] + NormalizeModelName(DropSpaces(name[1..]))
    else [name[0]] + NormalizeModelName(name[1..])
  }

  /**
   * The shape of a normalised name: it keeps the non-whitespace characters
   * in order, its only whitespace is single spaces, it starts with a space
   * exactly when the input starts with whitespace, and it is empty exactly
   * when the input is.
   */
  lemma {:induction false} NormalizeShape(name: string)
    ensures var r := NormalizeModelName(name);
            && |r| <= |name|
            && NonSpace(r) == NonSpace(name)
            && (forall i :: 0 <= i < |r| && IsSpace(r[i]) ==> r[i] == ' ')
            && (forall i :: 0 <= i < |r| - 1 ==> !(IsSpace(r[i]) && IsSpace(r[i + 1])))
            && ((r != [] && IsSpace(r[0])) <==> (name != [] && IsSpace(name[0])))
            && (r == [] <==> name == [])
    decreases |name|
  {
    if name != [] {
      var r := NormalizeModelName(name);
      if IsSpace(name[0]) {
        var d := DropSpaces(name[1..]);
        NormalizeShape(d);
        var t := NormalizeModelName(d);
        assert r == [' '] + t;
        assert NonSpace(r) == NonSpace(t);
        assert NonSpace(name) == NonSpace(name[1..]);
        assert forall i :: 0 < i < |r| ==> r[i] == t[i - 1];
      } else {
        NormalizeShape(name[1..]);
        var t := NormalizeModelName(name[1..]);
        assert r == [name[0]] + t;
        assert NonSpace(r) == [name[0]] + NonSpace(t);
        assert forall i :: 0 < i < |r| ==> r[i] == t[i - 1];
      }
    }
  }

  /** Collapsing whitespace twice is collapsing it once. */
  lemma {:induction false} NormalizeIdempotent(name: string)
    ensures NormalizeModelName(NormalizeModelName(name)) == NormalizeModelName(name)
    decreases |name|
  {
    if name != [] {
      var r := NormalizeModelName(name);
      if IsSpace(name[0]) {
        var t := NormalizeModelName(DropSpaces(name[1..]));
        NormalizeIdempotent(DropSpaces(name[1..]));
        NormalizeShape(DropSpaces(name[1..]));
        assert r == [' '] + t && r[1..] == t;
        assert DropSpaces(r[1..]) == t;
      } else {
        NormalizeIdempotent(name[1..]);
        assert r[1..] == NormalizeModelName(name[1..]);
      }
    }
  }

  /** A string without whitespace is its own normal form. */
  lemma {:induction false} NormalizeNoSpace(s: string)
    requires forall i :: 0 <= i < |s| ==> !IsSpace(s[i])
    ensures NormalizeModelName(s) == s
    decreases |s|
  {
    if s != [] {
      NormalizeNoSpace(s[1..]);
    }
  }

  /** Dropping the leading whitespace of a run of whitespace followed by `b` leaves `b`, when `b` does not start with whitespace. */
  lemma {:induction false} DropSpacesRun(w: string, b: string)
    requires forall i :: 0 <= i < |w| ==> IsSpace(w[i])
    requires b == [] || !IsSpace(b[0])
    ensures DropSpaces(w + b) == b
    decreases |w|
  {
    if w != [] {
      assert (w + b)[1..] == w[1..] + b;
      DropSpacesRun(w[1..], b);
    } else {
      assert w + b == b;
    }
  }

  /** Leading whitespace is dropped from a string that ends in a non-space character without reaching that character. */
  lemma {:induction false} DropSpacesAppend(x: string, y: string)
    requires x != [] && !IsSpace(x[|x| - 1])
    ensures DropSpaces(x + y) == DropSpaces(x) + y
    ensures DropSpaces(x) != [] && DropSpaces(x)[|DropSpaces(x)| - 1] == x[|x| - 1]
    decreases |x|
  {
    if IsSpace(x[0]) {
      assert (x + y)[1..] == x[1..] + y;
      DropSpacesAppend(x[1..], y);
    }
  }

  /** Concatenation regroups. */
  lemma ConcatAssoc(x: string, y: string, z: string)
    ensures x + (y + z) == (x + y) + z
  {
  }

  /** One step of the normaliser at a leading whitespace character. */
  lemma NormalizeSpaceStep(x: string)
    requires x != [] && IsSpace(x[0])
    ensures NormalizeModelName(x) == [' '] + NormalizeModelName(DropSpaces(x[1..]))
  {
  }

  /** One step of the normaliser at a leading non-whitespace character. */
  lemma NormalizeCharStep(x: string)
    requires x != [] && !IsSpace(x[0])
    ensures NormalizeModelName(x) == [x[0]] + NormalizeModelName(x[1..])
  {
  }

  /** Normalising distributes over a split point that is not inside a whitespace run. */
  lemma {:induction false} NormalizeAppend(a: string, t: string)
    requires a == [] || !IsSpace(a[|a| - 1])
    ensures NormalizeModelName(a + t) == NormalizeModelName(a) + NormalizeModelName(t)
    decreases |a|
  {
    var s := a + t;
    if a == [] {
      assert s == t;
    } else {
      var rest := a[1..];
      assert s[0] == a[0] && s[1..] == rest + t;
      assert rest == [] || rest[|rest| - 1] == a[|a| - 1];
      if IsSpace(a[0]) {
        NormalizeSpaceStep(s);
        NormalizeSpaceStep(a);
        DropSpacesAppend(rest, t);
        var a' := DropSpaces(rest);
        NormalizeAppend(a', t);
        ConcatAssoc([' '], NormalizeModelName(a'), NormalizeModelName(t));
      } else {
        NormalizeCharStep(s);
        NormalizeCharStep(a);
        NormalizeAppend(rest, t);
        ConcatAssoc([a[0]], NormalizeModelName(rest), NormalizeModelName(t));
      }
    }
  }

  /**
   * Each maximal whitespace run becomes exactly one space: between a part
   * that is empty or ends in non-whitespace and a part that is empty or
   * starts with non-whitespace, any non-empty run of whitespace (also a
   * trailing one) normalises to a single space.
   */
  lemma {:induction false} NormalizeJoin(a: string, w: string, b: string)
    requires a == [] || !IsSpace(a[|a| - 1])
    requires w != [] && forall i :: 0 <= i < |w| ==> IsSpace(w[i])
    requires b == [] || !IsSpace(b[0])
    ensures NormalizeModelName(a + w + b) == NormalizeModelName(a) + " " + NormalizeModelName(b)
  {
    ConcatAssoc(a, w, b);
    NormalizeAppend(a, w + b);
    NormalizeRun(w, b);
    ConcatAssoc(NormalizeModelName(a), " ", NormalizeModelName(b));
  }

  /** A leading whitespace run before a part that starts with non-whitespace normalises to one space. */
  lemma {:induction false} NormalizeRun(w: string, b: string)
    requires w != [] && forall i :: 0 <= i < |w| ==> IsSpace(w[i])
    requires b == [] || !IsSpace(b[0])
    ensures NormalizeModelName(w + b) == " " + NormalizeModelName(b)
  {
    var t := w + b;
    assert t[0] == w[0] && t[1..] == w[1..] + b;
    NormalizeSpaceStep(t);
    DropSpacesRun(w[1..], b);
  }

  /** The value of a digit character. */
  function DigitValue(c: char): nat
    requires IsDigit(c)
  {
    (c as int - '0' as int) as nat
  }

  function DigitChar(d: nat): (c: char)
    requires d < 10
    ensures IsDigit(c) && DigitValue(c) == d
  {
    ('0' as int + d) as char
  }

  /** The decimal text of `n`, as `print` writes an int (no sign, no leading zeros). */
  function NatToString(n: nat): (s: string)
    ensures s != [] && forall i :: 0 <= i < |s| ==> IsDigit(s[i])
    ensures |s| > 1 ==> s[0] != '0'
  {
    if n < 10 then [DigitChar(n)] else NatToString(n / 10) + [DigitChar(n % 10)]
  }

  /** The number a string of decimal digits denotes. */
  function DecimalValue(s: string): nat
    requires forall i :: 0 <= i < |s| ==> IsDigit(s[i])
  {
    if s == [] then 0 else 10 * DecimalValue(s[..|s| - 1]) + DigitValue(s[|s| - 1])
  }

  /** Reading back the printed text of a count gives the count. */
  lemma {:induction false} NatToStringRoundTrip(n: nat)
    ensures DecimalValue(NatToString(n)) == n
  {
    if n >= 10 {
      var s := NatToString(n);
      NatToStringRoundTrip(n / 10);
      assert s[..|s| - 1] == NatToString(n / 10);
    }
  }
}

/** The JavaScript string operations the configuration loader relies on:
    `String.prototype.split` with a one-character separator,
    `String.prototype.trim`, `toUpperCase` on ASCII text, and the test of
    the account-name pattern `^[A-Za-z0-9_]+$`.  Strings are sequences of
    Unicode scalar values rather than UTF-16 code units.  The input may hold
    characters outside the Basic Multilingual Plane, but every character
    these operations compare against (the comma, the trim-space set and
    `[A-Za-z0-9_]`) lies inside it, and no half of a surrogate pair equals
    any of them, so both views give the same pieces, trims and matches. */
module Text {

  /* ---------------------------------------------------------------------- */
  /* split                                                                   */
  /* ---------------------------------------------------------------------- */

  /** `s.split(sep)`: the maximal separator-free pieces of `s`, in order.
      Like JavaScript, an empty string gives one empty piece and adjacent
      separators give empty pieces between them. */
  function Split(s: string, sep: char): (r: seq<string>)
    ensures |r| >= 1
    ensures forall i :: 0 <= i < |r| ==> sep !in r[i]
  {
    if s == [] then [""]
    else
      var rest := Split(s[1..], sep);
      if s[0] == sep then [""] + rest
      else [[s[0]] + rest[0]] + rest[1..]
  }

  /** `parts.join(sep)`, the inverse of `Split`. */
  function Join(parts: seq<string>, sep: char): string
  {
    if |parts| == 0 then ""
    else if |parts| == 1 then parts[0]
    else parts[0] + [sep] + Join(parts[1..], sep)
  }

  /** Joining the pieces of a split gives back the original string. */
  lemma {:induction false} JoinSplit(s: string, sep: char)
    ensures Join(Split(s, sep), sep) == s
  {
    if s != [] {
      var rest := Split(s[1..], sep);
      JoinSplit(s[1..], sep);
      if s[0] == sep {
        assert Split(s, sep) == [""] + rest;
        assert ([""] + rest)[1..] == rest;
      } else {
        var parts := Split(s, sep);
        assert parts == [[s[0]] + rest[0]] + rest[1..];
        if |rest| == 1 {
          assert Join(parts, sep) == [s[0]] + rest[0];
        } else {
          assert parts[1..] == rest[1..];
          assert Join(parts, sep) == [s[0]] + rest[0] + [sep] + Join(rest[1..], sep);
          assert Join(rest, sep) == rest[0] + [sep] + Join(rest[1..], sep);
        }
        assert s == [s[0]] + s[1..];
      }
    }
  }

  /** Splitting a string that starts with a separator-free prefix `p`: the
      first piece is `p` followed by the first piece of the remainder. */
  lemma {:induction false} SplitPrefix(p: string, t: string, sep: char)
    requires sep !in p
    ensures Split(p + t, sep) == [p + Split(t, sep)[0]] + Split(t, sep)[1..]
  {
    var parts := Split(t, sep);
    if p != [] {
      var q := p[1..];
      SplitPrefix(q, t, sep);
      assert p + t == [p[0]] + (q + t);
      SplitCons(p[0], q + t, sep);
      assert [p[0]] + (q + parts[0]) == p + parts[0];
    } else {
      assert p + t == t;
      assert p + parts[0] == parts[0];
      assert parts == [parts[0]] + parts[1..];
    }
  }

  /** A separator-free first character joins the first piece. */
  lemma SplitCons(c: char, u: string, sep: char)
    requires c != sep
    ensures Split([c] + u, sep) == [[c] + Split(u, sep)[0]] + Split(u, sep)[1..]
  {
    var s := [c] + u;
    assert s[0] == c && s[1..] == u;
  }

  /** Splitting the join of separator-free pieces gives back the pieces. */
  lemma {:induction false} SplitJoin(parts: seq<string>, sep: char)
    requires |parts| >= 1
    requires forall i :: 0 <= i < |parts| ==> sep !in parts[i]
    ensures Split(Join(parts, sep), sep) == parts
  {
    if |parts| == 1 {
      SplitPrefix(parts[0], "", sep);
      assert parts[0] + "" == parts[0];
    } else {
      var tail := Join(parts[1..], sep);
      SplitJoin(parts[1..], sep);
      assert Split([sep] + tail, sep) == [""] + parts[1..];
      SplitPrefix(parts[0], [sep] + tail, sep);
      assert parts[0] + [sep] + tail == parts[0] + ([sep] + tail);
      assert parts[0] + "" == parts[0];
      assert ([""] + parts[1..])[1..] == parts[1..];
    }
  }

  /* ---------------------------------------------------------------------- */
  /* trim                                                                    */
  /* ---------------------------------------------------------------------- */

  /** The characters `trim` removes: ECMAScript WhiteSpace (tab, vertical
      tab, form feed, space, no-break space, byte order mark and the Unicode
      space separators) and LineTerminator (line feed, carriage return, line
      and paragraph separators). */
  predicate IsTrimSpace(c: char) {
    || c == '\t' || c == '\n' || c == '\U{B}' || c == '\U{C}' || c == '\r'
    || c == ' ' || c == '\U{A0}' || c == '\U{1680}'
    || ('\U{2000}' <= c <= '\U{200A}')
    || c == '\U{2028}' || c == '\U{2029}' || c == '\U{202F}' || c == '\U{205F}'
    || c == '\U{3000}' || c == '\U{FEFF}'
  }

  /** Drops leading trim-space: the result is the suffix of `s` that starts
      at its first other character. */
  function TrimStart(s: string): (r: string)
    ensures |r| <= |s| && r == s[|s| - |r|..]
    ensures r == [] || !IsTrimSpace(r[0])
    ensures forall k :: 0 <= k < |s| - |r| ==> IsTrimSpace(s[k])
  {
    if s != [] && IsTrimSpace(s[0]) then TrimStart(s[1..]) else s
  }

  /** Drops trailing trim-space: the result is the prefix of `s` that ends
      at its last other character. */
  function TrimEnd(s: string): (r: string)
    ensures |r| <= |s| && r == s[..|r|]
    ensures r == [] || !IsTrimSpace(r[|r| - 1])
    ensures forall k :: |r| <= k < |s| ==> IsTrimSpace(s[k])
  {
    if s != [] && IsTrimSpace(s[|s| - 1]) then TrimEnd(s[..|s| - 1]) else s
  }

  /** `s.trim()`: the stretch of `s` between its leading and trailing
      trim-space. */
  function Trim(s: string): (r: string)
    ensures |r| <= |s|
    ensures r == [] || (!IsTrimSpace(r[0]) && !IsTrimSpace(r[|r| - 1]))
    ensures r == [] <==> forall k :: 0 <= k < |s| ==> IsTrimSpace(s[k])
  {
    TrimEnd(TrimStart(s))
  }

  /** `trim` keeps one contiguous stretch of `s`: everything before it and
      everything after it is trim-space.  With the ends `Trim` guarantees
      not to be trim-space, this fixes the result. */
  lemma TrimIsSlice(s: string)
    ensures var a := |s| - |TrimStart(s)|;
      && a + |Trim(s)| <= |s|
      && Trim(s) == s[a..a + |Trim(s)|]
      && (forall k :: 0 <= k < a ==> IsTrimSpace(s[k]))
      && (forall k :: a + |Trim(s)| <= k < |s| ==> IsTrimSpace(s[k]))
  {
    var t := TrimStart(s);
    var r := TrimEnd(t);
    assert Trim(s) == r;
    StretchOfSuffix(s, t, r);
  }

  /** A prefix `r` of a suffix `t` of `s`, where `s` has only trim-space
      before `t` and `t` only trim-space after `r`, is a stretch of `s`
      with only trim-space around it. */
  lemma StretchOfSuffix(s: string, t: string, r: string)
    requires |t| <= |s| && t == s[|s| - |t|..]
    requires forall k :: 0 <= k < |s| - |t| ==> IsTrimSpace(s[k])
    requires |r| <= |t| && r == t[..|r|]
    requires forall k :: |r| <= k < |t| ==> IsTrimSpace(t[k])
    ensures var a := |s| - |t|;
      && a + |r| <= |s|
      && r == s[a..a + |r|]
      && (forall k :: 0 <= k < a ==> IsTrimSpace(s[k]))
      && (forall k :: a + |r| <= k < |s| ==> IsTrimSpace(s[k]))
  {
    var a := |s| - |t|;
    forall k | a + |r| <= k < |s| ensures IsTrimSpace(s[k]) {
      assert s[k] == t[k - a];
    }
  }

  /** Trim only removes characters: whatever is left was in `s`. */
  lemma TrimWithin(s: string, c: char)
    ensures c in Trim(s) ==> c in s
  {
    TrimStartWithin(s, c);
    TrimEndWithin(TrimStart(s), c);
  }

  lemma TrimStartWithin(s: string, c: char)
    ensures c in TrimStart(s) ==> c in s
  {
    var r := TrimStart(s);
    if c in r {
      var k :| 0 <= k < |r| && r[k] == c;
      assert s[|s| - |r| + k] == c;
    }
  }

  lemma TrimEndWithin(s: string, c: char)
    ensures c in TrimEnd(s) ==> c in s
  {
    var r := TrimEnd(s);
    if c in r {
      var k :| 0 <= k < |r| && r[k] == c;
      assert s[k] == c;
    }
  }

  /** Trim is the identity exactly on strings that neither begin nor end
      with trim-space. */
  lemma TrimFixed(s: string)
    ensures Trim(s) == s <==> (s == [] || (!IsTrimSpace(s[0]) && !IsTrimSpace(s[|s| - 1])))
  {
    if s != [] && !IsTrimSpace(s[0]) && !IsTrimSpace(s[|s| - 1]) {
      assert TrimStart(s) == s;
      assert TrimEnd(s) == s;
    }
  }

  /** Trimming twice is the same as trimming once. */
  lemma TrimIdempotent(s: string)
    ensures Trim(Trim(s)) == Trim(s)
  {
    TrimFixed(Trim(s));
  }

  /* ---------------------------------------------------------------------- */
  /* ASCII case                                                              */
  /* ---------------------------------------------------------------------- */

  predicate IsAsciiLower(c: char) { 'a' <= c <= 'z' }

  predicate IsAsciiUpper(c: char) { 'A' <= c <= 'Z' }

  function UpperChar(c: char): char {
    if IsAsciiLower(c) then (c as int - 32) as char else c
  }

  function LowerChar(c: char): char {
    if IsAsciiUpper(c) then (c as int + 32) as char else c
  }

  /** `s.toUpperCase()` on ASCII text: each lower-case letter becomes its
      upper-case partner, every other character is kept. */
  function ToUpperAscii(s: string): string {
    seq(|s|, i requires 0 <= i < |s| => UpperChar(s[i]))
  }

  /** Two strings are equal up to ASCII letter case, stated through
      lower-casing so that it is independent of `ToUpperAscii`. */
  predicate SameIgnoringCase(a: string, b: string) {
    |a| == |b| && forall i :: 0 <= i < |a| ==> LowerChar(a[i]) == LowerChar(b[i])
  }

  lemma UpperLowerAgree(c: char, d: char)
    ensures UpperChar(c) == UpperChar(d) <==> LowerChar(c) == LowerChar(d)
  {
  }

  /** Upper-casing identifies exactly the strings that differ only in the
      case of their ASCII letters. */
  lemma {:induction false} UpperEqualIff(a: string, b: string)
    ensures ToUpperAscii(a) == ToUpperAscii(b) <==> SameIgnoringCase(a, b)
  {
    var ua, ub := ToUpperAscii(a), ToUpperAscii(b);
    if ua == ub {
      forall i | 0 <= i < |a| ensures LowerChar(a[i]) == LowerChar(b[i]) {
        assert ua[i] == ub[i];
        UpperLowerAgree(a[i], b[i]);
      }
    }
    if SameIgnoringCase(a, b) {
      forall i | 0 <= i < |a| ensures ua[i] == ub[i] {
        UpperLowerAgree(a[i], b[i]);
      }
    }
  }

  /* ---------------------------------------------------------------------- */
  /* the account-name pattern                                                */
  /* ---------------------------------------------------------------------- */

  /** One character of the class `[A-Za-z0-9_]`. */
  predicate IsNameChar(c: char) {
    IsAsciiLower(c) || IsAsciiUpper(c) || ('0' <= c <= '9') || c == '_'
  }

  /** `/^[A-Za-z0-9_]+$/.test(s)`: without the multiline flag the anchors
      are the ends of the whole string. */
  predicate IsAccountName(s: string) {
    |s| >= 1 && forall i :: 0 <= i < |s| ==> IsNameChar(s[i])
  }

  /** No character of the name pattern is trim-space or a comma. */
  lemma NameCharIsPlain(c: char)
    requires IsNameChar(c)
    ensures !IsTrimSpace(c) && c != ','
  {
  }

  /** An account name is left alone by `trim` and contains no comma, so it
      survives being listed in a comma-separated variable. */
  lemma AccountNameIsClean(s: string)
    requires IsAccountName(s)
    ensures Trim(s) == s
    ensures ',' !in s
  {
    NameCharIsPlain(s[0]);
    NameCharIsPlain(s[|s| - 1]);
    TrimFixed(s);
    forall i | 0 <= i < |s| ensures s[i] != ',' {
      NameCharIsPlain(s[i]);
    }
  }
}

/**
  Python string operations used to read tutor identities: `str.strip(chars)`,
  `str.strip()` and `str.split()[-1]`, and the identity normalisation built from them.
  The functions compute; the lemmas after them say what the results are.
*/
module Text {
  import opened Values

  /** Python's `str.isspace()` for one character: what `strip()` and `split()` without arguments remove. */
  predicate IsSpace(c: char) {
    var n := c as int;
    n == 0x20 || 0x09 <= n <= 0x0D || 0x1C <= n <= 0x1F || n == 0x85 || n == 0xA0 || n == 0x1680
    || 0x2000 <= n <= 0x200A || n == 0x2028 || n == 0x2029 || n == 0x202F || n == 0x205F || n == 0x3000
  }

  /**
    The whitespace `float()` ignores around a numeral: it turns non-ASCII whitespace into spaces
    and then strips only ASCII space, tab, newline, vertical tab, form feed and carriage return,
    so the separators U+001C to U+001F stay and make the text unreadable.
  */
  predicate IsNumeralSpace(c: char) {
    IsSpace(c) && !(0x1C <= c as int <= 0x1F)
  }

  /**
    What a strip removes: the characters of its argument, whitespace when it has none, or
    the whitespace `float()` ignores.
  */
  datatype StripSet = Chars(cs: set<char>) | Whitespace | NumeralSpace

  predicate Drops(drop: StripSet, c: char) {
    match drop
    case Chars(cs) => c in cs
    case Whitespace => IsSpace(c)
    case NumeralSpace => IsNumeralSpace(c)
  }

  /** The argument of `strip("@")`: the marker that may precede a tutor identity. */
  const At := Chars({'@'})

  predicate NoSpace(s: string) {
    forall k {:trigger IsSpace(s[k])} :: 0 <= k < |s| ==> !IsSpace(s[k])
  }

  predicate AllSpace(s: string) {
    forall k {:trigger IsSpace(s[k])} :: 0 <= k < |s| ==> IsSpace(s[k])
  }

  /** Every character of `s[lo..hi]` is one `drop` removes. */
  predicate AllDropped(s: string, drop: StripSet, lo: int, hi: int) {
    forall k {:trigger Drops(drop, s[k])} :: 0 <= lo <= k < hi <= |s| ==> Drops(drop, s[k])
  }

  /** Removes the leading characters in `drop`. */
  function StripLeading(s: string, drop: StripSet): (r: string)
    ensures |r| <= |s|
  {
    if s != [] && Drops(drop, s[0]) then StripLeading(s[1..], drop) else s
  }

  /** Removes the trailing characters in `drop`. */
  function StripTrailing(s: string, drop: StripSet): (r: string)
    ensures |r| <= |s|
  {
    if s != [] && Drops(drop, s[|s| - 1]) then StripTrailing(s[..|s| - 1], drop) else s
  }

  /** Python's `s.strip(chars)`, with the character set given as `drop`. */
  function Strip(s: string, drop: StripSet): (r: string)
    ensures |r| <= |s|
  {
    StripTrailing(StripLeading(s, drop), drop)
  }

  /** `s.strip("@").strip()`: the identity normalisation applied to roster ids, exclusions and invoice words. */
  function Normalize(s: string): (r: string)
    ensures |r| <= |s|
  {
    Strip(Strip(s, At), Whitespace)
  }

  /** The longest suffix of `t` that holds no whitespace. */
  function TrailingRun(t: string): (w: string)
    ensures |w| <= |t|
  {
    if t != [] && !IsSpace(t[|t| - 1]) then TrailingRun(t[..|t| - 1]) + [t[|t| - 1]] else []
  }

  /**
    Python's `s.split()[-1]`: the last maximal run of non-whitespace characters,
    or None where `split()` gives an empty list and the indexing raises IndexError.
  */
  function LastWord(s: string): (r: Option<string>)
    ensures r.Some? ==> 0 < |r.value| <= |s|
  {
    if s == [] then None
    else if IsSpace(s[|s| - 1]) then LastWord(s[..|s| - 1])
    else Some(TrailingRun(s))
  }

  /**
    The tutor identity an invoice carries: `title.split()[-1].strip("@").strip()`, None when
    the title has no word. A word holds no whitespace, so the closing `strip()` never changes
    what `strip("@")` left, and only the `@` is stripped here (`InvoiceIdentityIsNormalizedWord`).
  */
  function InvoiceIdentity(title: string): (r: Option<string>)
    ensures r.Some? ==> |r.value| <= |title|
  {
    match LastWord(title)
    case None => None
    case Some(w) => Some(Strip(w, At))
  }

  // ---------------------------------------------------------------------------------------------
  // What stripping returns

  /** `StripLeading` leaves the suffix that starts at the first kept character. */
  lemma {:induction false} StripLeadingShape(s: string, drop: StripSet)
    ensures var r := StripLeading(s, drop);
      && r == s[|s| - |r|..]
      && AllDropped(s, drop, 0, |s| - |r|)
      && (r == [] || !Drops(drop, r[0]))
  {
    if s != [] && Drops(drop, s[0]) {
      StripLeadingShape(s[1..], drop);
      var r := StripLeading(s, drop);
      forall k | 1 <= k < |s| - |r| ensures Drops(drop, s[k]) {
        assert s[1..][k - 1] == s[k];
      }
    }
  }

  /** `StripTrailing` leaves the prefix that ends at the last kept character. */
  lemma {:induction false} StripTrailingShape(s: string, drop: StripSet)
    ensures var r := StripTrailing(s, drop);
      && r == s[..|r|]
      && AllDropped(s, drop, |r|, |s|)
      && (r == [] || !Drops(drop, r[|r| - 1]))
  {
    if s != [] && Drops(drop, s[|s| - 1]) {
      StripTrailingShape(s[..|s| - 1], drop);
      var r := StripTrailing(s, drop);
      forall k | |r| <= k < |s| - 1 ensures Drops(drop, s[k]) {
        assert s[..|s| - 1][k] == s[k];
      }
    }
  }

  /**
    `Strip` returns the slice of `s` between its removable ends: everything before and after
    it is in `drop`, and its own first and last characters are not.
  */
  lemma StripShape(s: string, drop: StripSet)
    ensures var r := Strip(s, drop);
      var i := |s| - |StripLeading(s, drop)|;
      && i + |r| <= |s|
      && r == s[i..i + |r|]
      && AllDropped(s, drop, 0, i)
      && AllDropped(s, drop, i + |r|, |s|)
      && (r == [] || (!Drops(drop, r[0]) && !Drops(drop, r[|r| - 1])))
  {
    var l := StripLeading(s, drop);
    var i := |s| - |l|;
    StripLeadingShape(s, drop);
    StripTrailingShape(l, drop);
    var r := StripTrailing(l, drop);
    assert r == s[i..i + |r|];
    forall k | i + |r| <= k < |s| ensures Drops(drop, s[k]) {
      assert l[k - i] == s[k];
    }
    if r != [] {
      assert r[0] == l[0];
    }
  }

  /** A slice whose outside is all removable and whose ends are kept is what `Strip` returns. */
  lemma StripUnique(s: string, drop: StripSet, i: nat, j: nat)
    requires i <= j <= |s|
    requires AllDropped(s, drop, 0, i) && AllDropped(s, drop, j, |s|)
    requires i == j || (!Drops(drop, s[i]) && !Drops(drop, s[j - 1]))
    ensures Strip(s, drop) == s[i..j]
  {
    StripShape(s, drop);
    var r := Strip(s, drop);
    var a := |s| - |StripLeading(s, drop)|;
    if i < j {
      assert a == i;
      assert |r| == j - i;
    } else {
      assert |r| == 0;
    }
  }

  /** Stripping twice with the same character set changes nothing further. */
  lemma StripIdempotent(s: string, drop: StripSet)
    ensures Strip(Strip(s, drop), drop) == Strip(s, drop)
  {
    StripShape(s, drop);
    var r := Strip(s, drop);
    StripUnique(r, drop, 0, |r|);
  }

  /** Stripping only removes characters from the ends, so it adds no whitespace. */
  lemma StripKeepsNoSpace(s: string, drop: StripSet)
    requires NoSpace(s)
    ensures NoSpace(Strip(s, drop))
  {
    StripShape(s, drop);
    var r := Strip(s, drop);
    var i := |s| - |StripLeading(s, drop)|;
    forall k | 0 <= k < |r| ensures !IsSpace(r[k]) {
      assert r[k] == s[i + k];
    }
  }

  // ---------------------------------------------------------------------------------------------
  // Normalisation

  /** A normalised identity has no whitespace at either end. */
  lemma NormalizeTrimmed(s: string)
    ensures var r := Normalize(s); r == [] || (!IsSpace(r[0]) && !IsSpace(r[|r| - 1]))
  {
    StripShape(Strip(s, At), Whitespace);
  }

  /**
    Normalisation is idempotent on strings without whitespace, which covers every
    invoice word; the general case fails, see NormalizeNotIdempotent.
  */
  lemma NormalizeIdempotentWithoutSpace(s: string)
    requires NoSpace(s)
    ensures Normalize(s) == Strip(s, At)
    ensures Normalize(Normalize(s)) == Normalize(s)
  {
    var a := Strip(s, At);
    StripKeepsNoSpace(s, At);
    StripUnique(a, Whitespace, 0, |a|);
    StripIdempotent(s, At);
  }

  /** `" @x"` normalises to `"@x"` and that to `"x"`: normalising roster ids is not idempotent in general. */
  lemma NormalizeNotIdempotent()
    ensures Normalize(" @x") == "@x"
    ensures Normalize(Normalize(" @x")) == "x"
  {
    NormalizeKeepsAtBehindSpace("x");
    assert [' ', '@'] + "x" == " @x";
    NormalizeDropsLeadingAt("x");
    assert ['@'] + "x" == "@x";
  }

  /** A marker behind a leading space survives: `strip("@")` meets the space first, and `strip()` then uncovers the marker. */
  lemma NormalizeKeepsAtBehindSpace(w: string)
    requires w != [] && NoSpace(w) && !Drops(At, w[|w| - 1])
    ensures Normalize([' ', '@'] + w) == ['@'] + w
  {
    var s := [' ', '@'] + w;
    assert s[|s| - 1] == w[|w| - 1];
    StripUnique(s, At, 0, |s|);
    assert IsSpace(s[0]);
    assert s[1..] == ['@'] + w;
    assert !IsSpace(s[|s| - 1]);
    StripUnique(s, Whitespace, 1, |s|);
  }

  /** A leading marker in front of a word is removed. */
  lemma NormalizeDropsLeadingAt(w: string)
    requires w != [] && NoSpace(w) && !Drops(At, w[0]) && !Drops(At, w[|w| - 1])
    ensures Normalize(['@'] + w) == w
  {
    var s := ['@'] + w;
    assert s[1] == w[0] && s[|s| - 1] == w[|w| - 1];
    assert Drops(At, s[0]);
    StripUnique(s, At, 1, |s|);
    assert s[1..] == w;
    StripUnique(w, Whitespace, 0, |w|);
  }

  // ---------------------------------------------------------------------------------------------
  // The last word of an invoice title

  /** `TrailingRun` is a suffix without whitespace, preceded by whitespace unless it is all of `t`. */
  lemma {:induction false} TrailingRunShape(t: string)
    ensures var w := TrailingRun(t);
      && w == t[|t| - |w|..]
      && NoSpace(w)
      && (|w| == |t| || IsSpace(t[|t| - |w| - 1]))
  {
    if t != [] && !IsSpace(t[|t| - 1]) {
      var u := t[..|t| - 1];
      TrailingRunShape(u);
      var v := TrailingRun(u);
      var w := TrailingRun(t);
      assert w == v + [t[|t| - 1]];
      assert u[|u| - |v|..] + [t[|t| - 1]] == t[|t| - |w|..];
      forall k | 0 <= k < |w| ensures !IsSpace(w[k]) {
        assert k < |v| ==> w[k] == v[k];
      }
      assert |w| == |t| || t[|t| - |w| - 1] == u[|u| - |v| - 1];
    }
  }

  /** `TrailingRun` stops exactly after the last whitespace character. */
  lemma TrailingRunUnique(t: string, i: nat)
    requires i <= |t|
    requires NoSpace(t[i..])
    requires i == 0 || IsSpace(t[i - 1])
    ensures TrailingRun(t) == t[i..]
  {
    TrailingRunShape(t);
    var w := TrailingRun(t);
    var a := |t| - |w|;
    assert a == i;
  }

  /** `StripTrailing` stops exactly at the last kept character. */
  lemma StripTrailingUnique(s: string, drop: StripSet, j: nat)
    requires j <= |s|
    requires AllDropped(s, drop, j, |s|)
    requires j == 0 || !Drops(drop, s[j - 1])
    ensures StripTrailing(s, drop) == s[..j]
  {
    StripTrailingShape(s, drop);
    var t := StripTrailing(s, drop);
    assert |t| == j;
  }

  /** The last word is the trailing run of what `strip()` leaves at the end. */
  lemma {:induction false} LastWordAfterStrip(s: string)
    ensures var t := StripTrailing(s, Whitespace);
      LastWord(s) == if t == [] then None else Some(TrailingRun(t))
  {
    if s != [] && IsSpace(s[|s| - 1]) {
      LastWordAfterStrip(s[..|s| - 1]);
    }
  }

  /** What `rstrip()` leaves is a prefix followed only by whitespace, and it ends in a non-space. */
  lemma StripTrailingSpaceShape(s: string)
    ensures var t := StripTrailing(s, Whitespace);
      && t == s[..|t|]
      && AllSpace(s[|t|..])
      && (t == [] <==> AllSpace(s))
      && (t != [] ==> !IsSpace(t[|t| - 1]))
  {
    StripTrailingShape(s, Whitespace);
    var t := StripTrailing(s, Whitespace);
    forall k | 0 <= k < |s| - |t| ensures IsSpace(s[|t|..][k]) {
      assert s[|t|..][k] == s[|t| + k];
      assert Drops(Whitespace, s[|t| + k]);
    }
    if t != [] {
      assert !Drops(Whitespace, t[|t| - 1]);
      assert s[|t| - 1] == t[|t| - 1];
    }
  }

  /** The trailing run of a text ending in a non-space is a non-empty word. */
  lemma TrailingRunOfWordEnd(t: string)
    requires t != [] && !IsSpace(t[|t| - 1])
    ensures var w := TrailingRun(t);
      && w != []
      && NoSpace(w)
      && t[|t| - |w|..] == w
      && (|w| == |t| || IsSpace(t[|t| - |w| - 1]))
  {
    TrailingRunShape(t);
  }

  /**
    `split()[-1]` fails exactly on a title that is all whitespace; otherwise it is a
    non-empty word without whitespace that is followed only by whitespace and
    preceded by whitespace or nothing.
  */
  lemma LastWordShape(s: string)
    ensures LastWord(s).None? <==> AllSpace(s)
    ensures LastWord(s).Some? ==>
      var w := LastWord(s).value;
      var e := |StripTrailing(s, Whitespace)|;
      && w != [] && NoSpace(w)
      && |w| <= e
      && s[e - |w|..e] == w
      && AllSpace(s[e..])
      && (e == |w| || IsSpace(s[e - |w| - 1]))
  {
    LastWordAfterStrip(s);
    StripTrailingSpaceShape(s);
    var t := StripTrailing(s, Whitespace);
    if t != [] {
      var w := TrailingRun(t);
      var e := |t|;
      assert w != [] && NoSpace(w) && |w| <= e && s[e - |w|..e] == w && (e == |w| || IsSpace(s[e - |w| - 1])) by {
        TrailingRunOfWordEnd(t);
        assert s[e - |w|..e] == t[e - |w|..];
        assert e == |w| || s[e - |w| - 1] == t[e - |w| - 1];
      }
    }
  }

  /** The last word of a prefix ending in whitespace (or empty), a word, and trailing whitespace is that word. */
  lemma LastWordOfConcat(p: string, w: string, q: string)
    requires w != [] && NoSpace(w) && AllSpace(q)
    requires p == [] || IsSpace(p[|p| - 1])
    ensures LastWord(p + w + q) == Some(w)
  {
    var t := p + w;
    StripTrailingOfWordThenSpace(t, q);
    TrailingRunOfSpaceThenWord(p, w);
    LastWordAfterStrip(t + q);
  }

  /** Stripping trailing whitespace from a text that ends in a non-space and then whitespace drops exactly the whitespace. */
  lemma StripTrailingOfWordThenSpace(t: string, q: string)
    requires t != [] && !IsSpace(t[|t| - 1]) && AllSpace(q)
    ensures StripTrailing(t + q, Whitespace) == t
  {
    var s := t + q;
    assert s[|t| - 1] == t[|t| - 1];
    forall k | |t| <= k < |s| ensures Drops(Whitespace, s[k]) {
      assert s[k] == q[k - |t|];
    }
    StripTrailingUnique(s, Whitespace, |t|);
    assert s[..|t|] == t;
  }

  /** A word behind whitespace (or at the start) is the trailing run. */
  lemma TrailingRunOfSpaceThenWord(p: string, w: string)
    requires NoSpace(w)
    requires p == [] || IsSpace(p[|p| - 1])
    ensures TrailingRun(p + w) == w
  {
    var t := p + w;
    assert t[|p|..] == w;
    assert |p| == 0 || t[|p| - 1] == p[|p| - 1];
    TrailingRunUnique(t, |p|);
  }

  /** The invoice identity is the full normalisation `strip("@").strip()` of the title's last word. */
  lemma InvoiceIdentityIsNormalizedWord(title: string)
    ensures InvoiceIdentity(title) == match LastWord(title) case None => None case Some(w) => Some(Normalize(w))
  {
    LastWordShape(title);
    if LastWord(title).Some? {
      NormalizeIdempotentWithoutSpace(LastWord(title).value);
    }
  }

  /**
    An invoice identity exists exactly when the title has a word; it has no whitespace
    and no `@` at either end, and normalising it again (as the roster side does) leaves it unchanged.
  */
  lemma InvoiceIdentityNormalized(title: string)
    ensures InvoiceIdentity(title).None? <==> AllSpace(title)
    ensures InvoiceIdentity(title).Some? ==>
      var id := InvoiceIdentity(title).value;
      && NoSpace(id)
      && (id == [] || (!Drops(At, id[0]) && !Drops(At, id[|id| - 1])))
      && Normalize(id) == id
  {
    LastWordShape(title);
    if LastWord(title).Some? {
      var w := LastWord(title).value;
      NormalizeIdempotentWithoutSpace(w);
      StripKeepsNoSpace(w, At);
      StripShape(w, At);
    }
  }
}

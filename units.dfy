/**
 * Decimal rendering of raw token amounts (`ethers.formatUnits`). The ethers library is not part
 * of the repository; this is its fixed-point rendering as a separately specified function:
 * the whole part without leading zeros, a point, and the `decimals` fractional digits with
 * trailing zeros dropped down to one digit. With 0 decimals there is no point.
 */
module Units {
  import opened Wrappers
  import opened Text

  /** Prepends zeros up to `width` characters. */
  function PadLeft(s: string, width: nat): (r: string)
    ensures |r| == if |s| >= width then |s| else width
    decreases width - |s|
  {
    if |s| >= width then s else PadLeft(['0'] + s, width)
  }

  /** Drops trailing zeros while more than one character remains. */
  function TrimTrailingZeros(s: string): (r: string)
    ensures |r| <= |s|
    ensures |s| >= 1 ==> |r| >= 1
    ensures |r| >= 2 ==> r[|r| - 1] != '0'
  {
    if |s| >= 2 && s[|s| - 1] == '0' then TrimTrailingZeros(s[..|s| - 1]) else s
  }

  /** The trimmed string is a prefix of the original. */
  lemma {:induction false} TrimTrailingPrefix(s: string)
    ensures TrimTrailingZeros(s) == s[..|TrimTrailingZeros(s)|]
  {
    if |s| >= 2 && s[|s| - 1] == '0' {
      TrimTrailingPrefix(s[..|s| - 1]);
    }
  }

  /** Drops leading zeros while more than one character remains. */
  function TrimLeadingZeros(s: string): (r: string)
    ensures |r| <= |s|
    ensures |s| >= 1 ==> |r| >= 1
    ensures |r| >= 2 ==> r[0] != '0'
  {
    if |s| >= 2 && s[0] == '0' then TrimLeadingZeros(s[1..]) else s
  }

  /** The trimmed string is a suffix of the original. */
  lemma {:induction false} TrimLeadingSuffix(s: string)
    ensures TrimLeadingZeros(s) == s[|s| - |TrimLeadingZeros(s)|..]
  {
    if |s| >= 2 && s[0] == '0' {
      TrimLeadingSuffix(s[1..]);
    }
  }

  /**
   * The digits of `value`, padded to more than `decimals` characters, split `decimals` from the
   * right; the whole part loses its leading zeros and the fraction its trailing zeros.
   */
  function FormatUnits(value: nat, decimals: nat): (r: string)
    ensures |r| >= 1
    ensures decimals == 0 ==> AllDigits(r)
  {
    if decimals == 0 then NatToString(value)
    else
      var digits := PadLeft(NatToString(value), decimals + 1);
      var cut := |digits| - decimals;
      TrimLeadingZeros(digits[..cut]) + "." + TrimTrailingZeros(digits[cut..])
  }

  /** The position of the first occurrence of `c` in `s`. */
  function IndexOf(s: string, c: char): (r: Option<nat>)
    ensures r.Some? ==> r.value < |s| && s[r.value] == c && c !in s[..r.value]
    ensures r.None? ==> c !in s
  {
    if s == [] then None
    else if s[0] == c then Some(0)
    else match IndexOf(s[1..], c)
      case None => None
      case Some(i) => assert s[..i + 1] == [s[0]] + s[1..][..i]; Some(i + 1)
  }

  /** A character absent from `w` is first found where `rest` starts with it. */
  lemma {:induction false} IndexOfAfter(w: string, rest: string, c: char)
    requires c !in w && rest != [] && rest[0] == c
    ensures IndexOf(w + rest, c) == Some(|w|)
  {
    if w != [] {
      assert (w + rest)[1..] == w[1..] + rest;
      IndexOfAfter(w[1..], rest, c);
    }
  }

  /**
   * Reads a rendering back into a raw amount: "w.f" denotes w * 10^decimals + f * 10^(decimals - |f|),
   * with 1 <= |f| <= decimals.
   */
  function ParseUnits(s: string, decimals: nat): Option<nat> {
    if decimals == 0 then ParseNat(s)
    else match IndexOf(s, '.')
      case None => None
      case Some(i) =>
        var whole, frac := s[..i], s[i + 1..];
        if whole != [] && AllDigits(whole) && frac != [] && AllDigits(frac) && |frac| <= decimals
        then Some(Shifted(DigitsValue(whole), decimals) + Shifted(DigitsValue(frac), decimals - |frac|))
        else None
  }

  lemma {:induction false} PadLeftValue(s: string, width: nat)
    requires AllDigits(s)
    ensures AllDigits(PadLeft(s, width)) && DigitsValue(PadLeft(s, width)) == DigitsValue(s)
    decreases width - |s|
  {
    if |s| < width {
      LeadingZeroValue(s);
      PadLeftValue(['0'] + s, width);
    }
  }

  lemma {:induction false} TrimValue(s: string)
    requires AllDigits(s)
    ensures AllDigits(TrimTrailingZeros(s))
    ensures DigitsValue(s) == Shifted(DigitsValue(TrimTrailingZeros(s)), |s| - |TrimTrailingZeros(s)|)
  {
    if |s| >= 2 && s[|s| - 1] == '0' {
      var p := s[..|s| - 1];
      TrimValue(p);
      var t := TrimTrailingZeros(p);
      assert TrimTrailingZeros(s) == t;
      calc {
        DigitsValue(s);
        DigitsValue(p) * 10;
        Shifted(DigitsValue(t), |p| - |t|) * 10;
        Shifted(DigitsValue(t), |s| - |t|);
      }
    }
  }

  lemma {:induction false} TrimLeadingValue(s: string)
    requires AllDigits(s)
    ensures AllDigits(TrimLeadingZeros(s)) && DigitsValue(TrimLeadingZeros(s)) == DigitsValue(s)
  {
    if |s| >= 2 && s[0] == '0' {
      DropLeadingZero(s);
      TrimLeadingValue(s[1..]);
      assert TrimLeadingZeros(s) == TrimLeadingZeros(s[1..]);
    }
  }

  /** One leading zero dropped: the same value. */
  lemma DropLeadingZero(s: string)
    requires AllDigits(s) && |s| >= 2 && s[0] == '0'
    ensures AllDigits(s[1..]) && DigitsValue(s) == DigitsValue(s[1..])
  {
    var t := s[1..];
    TailDigits(s);
    LeadingZeroValue(t);
    assert s == ['0'] + t;
  }

  lemma TailDigits(s: string)
    requires AllDigits(s) && s != []
    ensures AllDigits(s[1..])
  {
    var t := s[1..];
    forall i | 0 <= i < |t| ensures IsDigit(t[i]) {
      assert t[i] == s[i + 1];
    }
  }

  /** What ParseUnits reads from a well-formed "w.f". */
  lemma {:induction false} ParseRendering(w: string, f: string, decimals: nat, whole: nat, frac: nat)
    requires decimals > 0 && w != [] && AllDigits(w) && f != [] && AllDigits(f) && |f| <= decimals
    requires whole == DigitsValue(w) && frac == Shifted(DigitsValue(f), decimals - |f|)
    ensures ParseUnits(w + "." + f, decimals) == Some(Shifted(whole, decimals) + frac)
  {
    var s := w + "." + f;
    assert '.' !in w by {
      forall i | 0 <= i < |w| ensures w[i] != '.' {
        assert IsDigit(w[i]);
      }
    }
    assert s == w + ("." + f);
    IndexOfAfter(w, "." + f, '.');
    assert s[..|w|] == w;
    assert s[|w| + 1..] == f;
  }

  /** Trimming both halves of a split digit string keeps the value ParseUnits reads. */
  lemma {:induction false} SplitRoundTrip(hi: string, lo: string, decimals: nat)
    requires AllDigits(hi) && AllDigits(lo) && |hi| >= 1 && |lo| == decimals > 0
    ensures ParseUnits(TrimLeadingZeros(hi) + "." + TrimTrailingZeros(lo), decimals)
         == Some(Shifted(DigitsValue(hi), decimals) + DigitsValue(lo))
  {
    var w, f := TrimLeadingZeros(hi), TrimTrailingZeros(lo);
    TrimmedHalves(hi, lo, decimals);
    ParseRendering(w, f, decimals, DigitsValue(hi), DigitsValue(lo));
  }

  /** The trimmed halves are well-formed and keep their share of the value. */
  lemma TrimmedHalves(hi: string, lo: string, decimals: nat)
    requires AllDigits(hi) && AllDigits(lo) && |hi| >= 1 && |lo| == decimals > 0
    ensures var w, f := TrimLeadingZeros(hi), TrimTrailingZeros(lo);
      && w != [] && AllDigits(w) && f != [] && AllDigits(f) && |f| <= decimals
      && DigitsValue(w) == DigitsValue(hi) && Shifted(DigitsValue(f), decimals - |f|) == DigitsValue(lo)
  {
    TrimLeadingValue(hi);
    TrimValue(lo);
  }

  /** Both halves of a split digit string are digit strings. */
  lemma SplitDigits(s: string, k: nat)
    requires AllDigits(s) && k <= |s|
    ensures AllDigits(s[..k]) && AllDigits(s[k..]) && s == s[..k] + s[k..]
  {
    forall i | 0 <= i < |s| - k ensures IsDigit(s[k..][i]) {
      assert s[k..][i] == s[k + i];
    }
  }

  /** Splitting a digit string `decimals` from the right and trimming both halves keeps its value. */
  lemma {:induction false} SplitDigitsRoundTrip(digits: string, decimals: nat)
    requires AllDigits(digits) && |digits| > decimals > 0
    ensures ParseUnits(TrimLeadingZeros(digits[..|digits| - decimals]) + "." + TrimTrailingZeros(digits[|digits| - decimals..]), decimals)
         == Some(DigitsValue(digits))
  {
    var hi, lo := digits[..|digits| - decimals], digits[|digits| - decimals..];
    SplitDigits(digits, |digits| - decimals);
    DigitsValueConcat(hi, lo);
    SplitRoundTrip(hi, lo, decimals);
  }

  /** The fractional case of the round trip. */
  lemma {:induction false} FractionRoundTrip(value: nat, decimals: nat)
    requires decimals > 0
    ensures ParseUnits(FormatUnits(value, decimals), decimals) == Some(value)
  {
    var rendered := NatToString(value);
    var digits := PadLeft(rendered, decimals + 1);
    var cut := |digits| - decimals;
    assert FormatUnits(value, decimals) == TrimLeadingZeros(digits[..cut]) + "." + TrimTrailingZeros(digits[cut..]);
    NatToStringValue(value);
    PadLeftValue(rendered, decimals + 1);
    SplitDigitsRoundTrip(digits, decimals);
  }

  /** Every rendering reads back as the raw amount it came from: formatting loses nothing. */
  lemma FormatUnitsRoundTrip(value: nat, decimals: nat)
    ensures ParseUnits(FormatUnits(value, decimals), decimals) == Some(value)
  {
    if decimals == 0 {
      NatToStringRoundTrip(value);
    } else {
      FractionRoundTrip(value, decimals);
    }
  }

  /** Distinct raw amounts have distinct renderings. */
  lemma FormatUnitsInjective(a: nat, b: nat, decimals: nat)
    ensures FormatUnits(a, decimals) == FormatUnits(b, decimals) ==> a == b
  {
    FormatUnitsRoundTrip(a, decimals);
    FormatUnitsRoundTrip(b, decimals);
  }
}

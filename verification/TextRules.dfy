/** What the string operations and turn-id parsing come to, said without them. */
module TextRules {
  import opened Options
  import opened Text
  import opened TurnIds

  predicate AllBlank(s: string) {
    forall i :: 0 <= i < |s| ==> IsWhitespace(s[i])
  }

  lemma {:induction false} TrimStartCuts(s: string)
    ensures |TrimStart(s)| <= |s| && s[|s| - |TrimStart(s)|..] == TrimStart(s)
    ensures AllBlank(s[..|s| - |TrimStart(s)|])
  {
    if s != "" && IsWhitespace(s[0]) {
      TrimStartCuts(s[1..]);
      var n := |s| - |TrimStart(s)|;
      assert s[1..][..n - 1] == s[1..n];
      assert s[..n] == [s[0]] + s[1..n];
    }
  }

  lemma {:induction false} TrimEndCuts(s: string)
    ensures TrimEnd(s) <= s && AllBlank(s[|TrimEnd(s)|..])
  {
    if s != "" && IsWhitespace(s[|s| - 1]) {
      TrimEndCuts(s[..|s| - 1]);
      var n := |TrimEnd(s)|;
      assert s[n..] == s[..|s| - 1][n..] + [s[|s| - 1]];
    }
  }

  /** Trimming takes blanks off both ends, all of them, and nothing else. */
  lemma TrimTakesOffBlanks(s: string) returns (before: string, after: string)
    ensures s == before + Trim(s) + after && AllBlank(before) && AllBlank(after)
    ensures Trim(s) != "" ==> !IsWhitespace(Trim(s)[0]) && !IsWhitespace(Trim(s)[|Trim(s)| - 1])
  {
    var t := TrimStart(s);
    TrimStartCuts(s);
    TrimEndCuts(t);
    TrimmedEnds(s);
    before, after := s[..|s| - |t|], t[|TrimEnd(t)|..];
    Rejoined(s, t, TrimEnd(t));
  }

  lemma Rejoined(s: string, t: string, u: string)
    requires |t| <= |s| && s[|s| - |t|..] == t && u <= t
    ensures s == s[..|s| - |t|] + u + t[|u|..]
  {
  }

  lemma {:induction false} ContainedSomewhere(s: string, sub: string) returns (a: string, b: string)
    requires Contains(s, sub)
    ensures s == a + sub + b
  {
    if EndsWith(s, sub) {
      return s[..|s| - |sub|], "";
    }
    a, b := ContainedSomewhere(s[..|s| - 1], sub);
    b := b + [s[|s| - 1]];
  }

  lemma {:induction false} SomewhereIsContained(a: string, sub: string, b: string)
    ensures Contains(a + sub + b, sub)
  {
    var s := a + sub + b;
    if b == "" {
      assert s[|s| - |sub|..] == sub;
    } else {
      var n := |b| - 1;
      SomewhereIsContained(a, sub, b[..n]);
      assert s[..|s| - 1] == a + sub + b[..n];
    }
  }

  /** Containing is being somewhere inside. */
  lemma ContainsIff(s: string, sub: string)
    ensures Contains(s, sub) <==> exists a, b :: s == a + sub + b
  {
    if Contains(s, sub) {
      var a, b := ContainedSomewhere(s, sub);
    }
    if a, b :| s == a + sub + b {
      SomewhereIsContained(a, sub, b);
    }
  }

  /** Equality up to ASCII case is equality in lower case. */
  lemma IgnoringCaseIsLowering(a: string, b: string)
    ensures EqIgnoreCase(a, b) <==> ToLower(a) == ToLower(b)
  {
    if EqIgnoreCase(a, b) {
      assert forall i :: 0 <= i < |a| ==> ToLower(a)[i] == ToLower(b)[i];
    } else if ToLower(a) == ToLower(b) {
      assert |a| == |ToLower(a)| == |b|;
      assert forall i :: 0 <= i < |a| ==> LowerChar(a[i]) == ToLower(a)[i] == ToLower(b)[i] == LowerChar(b[i]);
    }
  }

  /** A turn id has a generation exactly when, trimmed, it ends in a colon and a positive number that fits 64
      bits; text before the colon is free and may itself hold colons. */
  lemma GenerationIff(id: string, g: I64)
    ensures ParseTurnGeneration(Some(id)) == Some(g) <==>
              g > 0 && exists loopId, digits ::
                Trim(id) == loopId + ":" + digits && ':' !in digits && ParseI64(digits) == Some(g)
  {
    var raw := Trim(id);
    if ':' in raw {
      LastColonSplits(raw);
    }
    if loopId, digits :| raw == loopId + ":" + digits && ':' !in digits && ParseI64(digits) == Some(g) {
      AfterLastOfSuffix(loopId, ':', digits);
      assert raw[|loopId|] == ':';
    }
  }

  lemma {:induction false} LastColonSplits(raw: string)
    requires ':' in raw
    ensures exists loopId :: raw == loopId + ":" + AfterLast(raw, ':')
    ensures ':' !in AfterLast(raw, ':')
  {
    var n := |raw| - 1;
    if raw[n] == ':' {
      assert raw == raw[..n] + ":" + "";
    } else {
      assert ':' in raw[..n];
      LastColonSplits(raw[..n]);
      var loopId :| raw[..n] == loopId + ":" + AfterLast(raw[..n], ':');
      assert raw == loopId + ":" + (AfterLast(raw[..n], ':') + [raw[n]]);
    }
  }

  /** Signed decimal numbers are read as such. */
  lemma SignedNumbers(n: nat)
    requires n <= 0x7FFF_FFFF_FFFF_FFFF
    ensures ParseI64(Decimal(n)) == Some(n)
    ensures ParseI64("+" + Decimal(n)) == Some(n)
    ensures var m: I64 := -(n as int); ParseI64("-" + Decimal(n)) == Some(m)
  {
    ParseDecimal(n);
    DecimalValue(n);
    assert ("+" + Decimal(n))[1..] == Decimal(n) && ("-" + Decimal(n))[1..] == Decimal(n);
  }

  /** A number that does not fit 64 bits is none. */
  lemma TooLarge(n: nat)
    requires n > 0x7FFF_FFFF_FFFF_FFFF
    ensures ParseI64(Decimal(n)).None?
  {
    DecimalValue(n);
    assert IsDigit(Decimal(n)[0]);
  }

  /** Digits are decimal. */
  lemma {:induction false} DigitRule(s: string, d: nat)
    requires AllDigits(s) && d < 10
    ensures var c := "0123456789"[d];
            IsDigit(c) && AllDigits(s + [c]) && DigitsValue(s + [c]) == 10 * DigitsValue(s) + d
    ensures DigitsValue("") == 0
  {
    var c := "0123456789"[d];
    assert c as int == '0' as int + d;
    assert (s + [c])[..|s|] == s;
  }

  /** Anything else is not a number: no digits, a character that is none, a value out of range. */
  lemma NotNumbers(s: string)
    requires s == "" || s == "+" || s == "-"
             || (exists i :: 1 <= i < |s| && !IsDigit(s[i]))
             || (s != "" && !IsDigit(s[0]) && s[0] != '+' && s[0] != '-')
    ensures ParseI64(s).None?
  {
    if i :| 1 <= i < |s| && !IsDigit(s[i]) {
      assert s[1..][i - 1] == s[i];
    }
  }

  /** The white space of Unicode. */
  lemma WhitespaceRule(c: char)
    ensures IsWhitespace(c) <==>
              (c as int) in {0x9, 0xA, 0xB, 0xC, 0xD, 0x20, 0x85, 0xA0, 0x1680, 0x2000, 0x2001, 0x2002, 0x2003, 0x2004,
                             0x2005, 0x2006, 0x2007, 0x2008, 0x2009, 0x200A, 0x2028, 0x2029, 0x202F, 0x205F, 0x3000}
  {
  }

  /** Only the letters A to Z have a lower case here. */
  lemma LowerRule(s: string, i: nat)
    requires i < |s|
    ensures var upper, lower := "ABCDEFGHIJKLMNOPQRSTUVWXYZ", "abcdefghijklmnopqrstuvwxyz";
            && |ToLower(s)| == |s|
            && (forall k :: 0 <= k < 26 && s[i] == upper[k] ==> ToLower(s)[i] == lower[k])
            && (s[i] !in upper ==> ToLower(s)[i] == s[i])
  {
    var upper, lower := "ABCDEFGHIJKLMNOPQRSTUVWXYZ", "abcdefghijklmnopqrstuvwxyz";
    assert forall k :: 0 <= k < 26 ==> upper[k] as int == 'A' as int + k;
    assert forall k :: 0 <= k < 26 ==> lower[k] as int == 'a' as int + k;
    if 'A' <= s[i] <= 'Z' {
      assert upper[s[i] as int - 'A' as int] == s[i];
    }
  }

  /** An id is the trimmed loop, a colon and the generation in decimal. */
  lemma FormatRule(loopId: string, generation: I64)
    ensures FormatTurnId(loopId, generation)
         == if Trim(loopId) == "" || generation < 1 then "" else Trim(loopId) + ":" + Decimal(generation)
  {
  }

  /** Ids match when they are the same text, blanks around it aside, and not blank. */
  lemma MatchRule(a: string, b: string)
    ensures TurnIdsMatch(Some(a), Some(b)) <==> Trim(a) == Trim(b) && Trim(a) != ""
    ensures !TurnIdsMatch(None, Some(b)) && !TurnIdsMatch(Some(a), None)
  {
  }
}

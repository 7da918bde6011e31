/**
 * Properties of the hex-token normaliser and the form-specification parser:
 * what each normalisation step does to the "FormID:" and "0x" prefixes, the
 * finding that the "FormID:" prefix is cut one character short, and the
 * round trip from "File|XXXXXXXX" back to the file and the id.
 */
module IniTextFacts {
  import opened Wrappers
  import opened Engine
  import opened IniText

  /** A leading hex digit rules out the "FormID:" and "0x" prefixes. */
  lemma NoPrefixBeforeDigit(d: string)
    requires HexToken(d)
    ensures !StartsWith(d, "FormID:") && !StartsWith(d, "0x") && !StartsWith(d, "0X")
  {
    HexTokenCharacters(d);
    if |d| >= 2 {
      assert d[..2][1] == d[1];
    }
    if |d| >= 7 {
      assert d[..7][1] == d[1];
    }
  }

  /** The as-written "FormID:" step keeps the ':' in front of the digits. */
  lemma CutFormIdAsWrittenToken(d: string)
    requires HexToken(d)
    ensures CutFormIdAsWritten("FormID:" + d) == ":" + d
  {
    HexTokenCharacters(d);
    var s := "FormID:" + d;
    assert s[|s| - 1] == d[|d| - 1];
    PrefixOfConcat("FormID:", d);
    var t := ":" + d;
    DropOneLess(s, 6);
    assert s[6..] == t;
    assert t[|t| - 1] == d[|d| - 1];
    TrimOfTrimmed(t);
  }

  /** A suffix from `i` is the character at `i` followed by the suffix from `i + 1`. */
  lemma DropOneLess(s: string, i: nat)
    requires i < |s|
    ensures s[i..] == [s[i]] + s[i + 1..]
  {
  }

  /** The intended "FormID:" step leaves just the digits. */
  lemma CutFormIdIntendedToken(d: string)
    requires HexToken(d)
    ensures CutFormIdIntended("FormID:" + d) == d
  {
    HexTokenCharacters(d);
    var s := "FormID:" + d;
    assert s[|s| - 1] == d[|d| - 1];
    TrimOfTrimmed(d);
    PrefixOfConcat("FormID:", d);
  }

  /** The "0x" step leaves ":" + digits alone. */
  lemma CutHexPrefixColon(d: string)
    requires HexToken(d)
    ensures IsTrimmed(":" + d) && CutHexPrefix(":" + d) == ":" + d
  {
    HexTokenCharacters(d);
    var t := ":" + d;
    assert t[|t| - 1] == d[|d| - 1];
    assert !StartsWith(t, "0x") && !StartsWith(t, "0X") by {
      assert t[..2][0] == ':';
    }
  }

  /** The "0x" step cuts "0x" / "0X" in front of digits. */
  lemma CutHexPrefixToken(d: string, x: string)
    requires HexToken(d)
    requires x == "0x" || x == "0X"
    ensures IsTrimmed(x + d) && CutHexPrefix(x + d) == d
  {
    HexTokenCharacters(d);
    var s := x + d;
    assert s[|s| - 1] == d[|d| - 1];
    TrimOfTrimmed(d);
    PrefixOfConcat(x, d);
  }

  /** Text starting with '0' has no "FormID:" prefix. */
  lemma NoFormIdBeforeZero(s: string)
    requires s != [] && s[0] == '0'
    ensures !StartsWith(s, "FormID:")
  {
    if |s| >= 7 { assert s[..7][0] == '0'; }
  }

  /**
   * As written, the "FormID:" prefix leaves a ':' in front of the digits, so
   * "FormID:00013796" never parses and the form spec is rejected.
   */
  lemma FormIdPrefixRejectedAsWritten(d: string)
    requires HexToken(d)
    ensures NormalizeHexToken("FormID:" + d) == ":" + d
    ensures ParseHex32(NormalizeHexToken("FormID:" + d)) == None
  {
    NormalizeFormIdAsWritten(d);
    var t := ":" + d;
    ColonNotHexDigit();
    assert t[0] == ':';
    ParseHex32NeedsDigit(t);
  }

  lemma ColonNotHexDigit()
    ensures !IsHexDigit(':')
  {
  }

  lemma NormalizeFormIdAsWritten(d: string)
    requires HexToken(d)
    ensures NormalizeHexToken("FormID:" + d) == ":" + d
  {
    HexTokenCharacters(d);
    var s := "FormID:" + d;
    assert s[|s| - 1] == d[|d| - 1];
    TrimOfTrimmed(s);
    CutFormIdAsWrittenToken(d);
    CutHexPrefixColon(d);
  }

  /** The intended normaliser turns "FormID:" + digits into the digits. */
  lemma FormIdPrefixAcceptedIntended(d: string)
    requires HexToken(d)
    ensures NormalizeHexTokenIntended("FormID:" + d) == d
  {
    HexTokenCharacters(d);
    var s := "FormID:" + d;
    assert s[|s| - 1] == d[|d| - 1];
    TrimOfTrimmed(s);
    CutFormIdIntendedToken(d);
    NoPrefixBeforeDigit(d);
  }

  /** A bare hex token is left alone by both normalisers. */
  lemma NormalizeHexBare(d: string)
    requires HexToken(d)
    ensures NormalizeHexToken(d) == d
    ensures NormalizeHexTokenIntended(d) == d
  {
    HexTokenCharacters(d);
    TrimOfTrimmed(d);
    NoPrefixBeforeDigit(d);
  }

  /** "0x" + digits is trimmed and starts with '0'. */
  lemma HexPrefixTrimmed(d: string, x: string)
    requires HexToken(d)
    requires x == "0x" || x == "0X"
    ensures IsTrimmed(x + d) && (x + d)[0] == '0'
  {
    HexTokenCharacters(d);
    var s := x + d;
    assert s[|s| - 1] == d[|d| - 1];
  }

  /** The normaliser as written cuts a leading "0x" / "0X" in front of a hex token. */
  lemma NormalizeHexPrefix(d: string, x: string)
    requires HexToken(d)
    requires x == "0x" || x == "0X"
    ensures NormalizeHexToken(x + d) == d
  {
    var s := x + d;
    assert Trim(s) == s by {
      HexPrefixTrimmed(d, x);
      TrimOfTrimmed(s);
    }
    assert CutFormIdAsWritten(s) == s by {
      HexPrefixTrimmed(d, x);
      NoFormIdBeforeZero(s);
    }
    assert CutHexPrefix(s) == d by {
      CutHexPrefixToken(d, x);
    }
  }

  /** So does the intended normaliser. */
  lemma NormalizeHexPrefixIntended(d: string, x: string)
    requires HexToken(d)
    requires x == "0x" || x == "0X"
    ensures NormalizeHexTokenIntended(x + d) == d
  {
    var s := x + d;
    assert Trim(s) == s by {
      HexPrefixTrimmed(d, x);
      TrimOfTrimmed(s);
    }
    assert CutFormIdIntended(s) == s by {
      HexPrefixTrimmed(d, x);
      NoFormIdBeforeZero(s);
    }
    assert CutHexPrefix(s) == d by {
      CutHexPrefixToken(d, x);
    }
  }

  // ---------------------------------------------------------------------
  // ParseFormSpec
  // ---------------------------------------------------------------------

  /** A file name as the INI writes it: non-empty, trimmed, no '|', ';', '#'. */
  predicate PlainFileName(file: string)
  {
    file != [] && IsTrimmed(file) && '|' !in file && ';' !in file && '#' !in file
  }

  /** The part after the bar, an optional "0x" / "0X" and the digits, holds no ';', '#' or '|'. */
  lemma HexPartCharacters(d: string, prefix: string)
    requires HexToken(d)
    requires prefix == "" || prefix == "0x" || prefix == "0X"
    ensures forall k | 0 <= k < |prefix + d| ::
      (prefix + d)[k] != ';' && (prefix + d)[k] != '#' && (prefix + d)[k] != '|'
    ensures (prefix + d)[|prefix + d| - 1] == d[|d| - 1] && !IsSpace(d[|d| - 1])
  {
    HexTokenCharacters(d);
    var t := prefix + d;
    forall k | 0 <= k < |t| ensures t[k] != ';' && t[k] != '#' && t[k] != '|' {
      if k >= |prefix| { assert t[k] == d[k - |prefix|]; }
    }
  }

  /** "File|rest" holds no comment marker when neither part does. */
  lemma SpecHasNoMarkers(file: string, t: string)
    requires PlainFileName(file)
    requires forall k | 0 <= k < |t| :: t[k] != ';' && t[k] != '#'
    ensures ';' !in file + "|" + t && '#' !in file + "|" + t
  {
    var spec := file + "|" + t;
    forall k | 0 <= k < |spec| ensures spec[k] != ';' && spec[k] != '#' {
      if k < |file| { assert spec[k] == file[k]; }
      else if k > |file| { assert spec[k] == t[k - |file| - 1]; }
    }
  }

  /** Where the file, the bar and the rest sit in "File|rest". */
  lemma SpecSlices(file: string, t: string)
    requires file != [] && t != []
    ensures (file + "|" + t)[..|file|] == file && (file + "|" + t)[|file|] == '|'
    ensures (file + "|" + t)[|file| + 1..] == t
    ensures (file + "|" + t)[0] == file[0] && (file + "|" + t)[|file + "|" + t| - 1] == t[|t| - 1]
  {
    var spec := file + "|" + t;
    assert spec[..|file|] == file;
    assert spec[|file| + 1..] == t;
  }

  /**
   * "File|rest", with a plain file and a rest free of markers and bars that
   * ends in a non-space, has no comment to strip and splits at the bar after
   * the file.
   */
  lemma SpecLayout(file: string, t: string)
    requires PlainFileName(file) && t != [] && !IsSpace(t[|t| - 1])
    requires forall k | 0 <= k < |t| :: t[k] != ';' && t[k] != '#' && t[k] != '|'
    ensures StripIniComment(file + "|" + t) == file + "|" + t
    ensures IndexOf(file + "|" + t, '|') == Some(|file|)
    ensures (file + "|" + t)[..|file|] == file && (file + "|" + t)[|file| + 1..] == t
  {
    var spec := file + "|" + t;
    SpecSlices(file, t);
    assert StripIniComment(spec) == spec by {
      SpecHasNoMarkers(file, t);
      StripIniCommentOfClean(spec);
    }
    assert IndexOf(spec, '|') == Some(|file|) by {
      IndexOfFirst(spec, '|', |file|);
    }
  }

  /** "File|digits" splits into the file and the value of the digits, under either normaliser. */
  lemma FormSpecRoundTripToken(file: string, d: string, prefix: string)
    requires PlainFileName(file) && HexToken(d) && HexValue(d) < U32_LIMIT
    requires prefix == "" || prefix == "0x" || prefix == "0X"
    ensures SplitFormSpec(file + "|" + prefix + d) == Some(FormSpec(file, HexValue(d)))
    ensures SplitFormSpecIntended(file + "|" + prefix + d) == Some(FormSpec(file, HexValue(d)))
  {
    var t := prefix + d;
    assert file + "|" + prefix + d == file + "|" + t;
    assert SpecParts(file + "|" + t) == Some((file, t)) by {
      HexPartCharacters(d, prefix);
      SpecLayout(file, t);
      TrimOfTrimmed(file);
    }
    assert NormalizeHexToken(t) == d && NormalizeHexTokenIntended(t) == d by {
      if prefix == "" {
        assert t == d;
        NormalizeHexBare(d);
      } else {
        NormalizeHexPrefix(d, prefix);
        NormalizeHexPrefixIntended(d, prefix);
      }
    }
    ParseHex32Token(d);
  }

  /** What `Hex8` prints is a hex token denoting the id. */
  lemma Hex8Token(v: FormID)
    ensures HexToken(Hex8(v)) && HexValue(Hex8(v)) == v && HexValue(Hex8(v)) < U32_LIMIT
  {
    assert Pow16(8) == U32_LIMIT;
    HexDigitsValue(v, 8);
  }

  /** "File|XXXXXXXX" parses back into the file and the id printed, under either normaliser. */
  lemma FormSpecRoundTrip(file: string, v: FormID)
    requires PlainFileName(file)
    ensures SplitFormSpec(file + "|" + Hex8(v)) == Some(FormSpec(file, v))
    ensures SplitFormSpecIntended(file + "|" + Hex8(v)) == Some(FormSpec(file, v))
  {
    var d := Hex8(v);
    Hex8Token(v);
    assert file + "|" + "" + d == file + "|" + d;
    FormSpecRoundTripToken(file, d, "");
  }

  /** So does "File|0xXXXXXXXX". */
  lemma FormSpecRoundTripPrefixed(file: string, v: FormID)
    requires PlainFileName(file)
    ensures SplitFormSpec(file + "|0x" + Hex8(v)) == Some(FormSpec(file, v))
    ensures SplitFormSpecIntended(file + "|0x" + Hex8(v)) == Some(FormSpec(file, v))
  {
    var d := Hex8(v);
    Hex8Token(v);
    assert file + "|" + "0x" + d == file + "|0x" + d;
    FormSpecRoundTripToken(file, d, "0x");
  }

  /**
   * "File|FormID:XXXXXXXX": as written the ':' left by the "FormID:" step
   * makes `stoul` throw and the specification names no form; the intended
   * parser looks the printed id up in the file.
   */
  lemma FormIdSpecRejectedAsWritten(file: string, v: FormID, data: DataHandler)
    requires PlainFileName(file)
    ensures ParseFormSpec(file + "|FormID:" + Hex8(v), data) == 0
    ensures data.DataHandler? ==>
      ParseFormSpecIntended(file + "|FormID:" + Hex8(v), data) == data.lookupFormID(v, file)
  {
    var d := Hex8(v);
    Hex8Token(v);
    var spec := file + "|FormID:" + d;
    assert SplitFormSpec(spec) == None by {
      FormIdSpecParts(file, d);
      FormIdPrefixRejectedAsWritten(d);
    }
    assert SplitFormSpecIntended(spec) == Some(FormSpec(file, v)) by {
      FormIdSpecParts(file, d);
      FormIdPrefixAcceptedIntended(d);
      ParseHex32Token(d);
    }
  }

  /** "File|FormID:digits" splits into the file and "FormID:digits". */
  lemma FormIdSpecParts(file: string, d: string)
    requires PlainFileName(file) && HexToken(d)
    ensures SpecParts(file + "|FormID:" + d) == Some((file, "FormID:" + d))
  {
    var t := "FormID:" + d;
    assert file + "|FormID:" + d == file + "|" + t;
    FormIdPartCharacters(d);
    SpecLayout(file, t);
    TrimOfTrimmed(file);
  }

  /** "FormID:" + digits holds no ';', '#' or '|' and ends in a digit. */
  lemma FormIdPartCharacters(d: string)
    requires HexToken(d)
    ensures forall k | 0 <= k < |"FormID:" + d| ::
      ("FormID:" + d)[k] != ';' && ("FormID:" + d)[k] != '#' && ("FormID:" + d)[k] != '|'
    ensures ("FormID:" + d)[|"FormID:" + d| - 1] == d[|d| - 1] && !IsSpace(d[|d| - 1])
  {
    HexTokenCharacters(d);
    var t := "FormID:" + d;
    forall k | 0 <= k < |t| ensures t[k] != ';' && t[k] != '#' && t[k] != '|' {
      if k >= 7 { assert t[k] == d[k - 7]; }
    }
  }

  /** A specification without '|' (outside a comment) names no form. */
  lemma ParseFormSpecNeedsBar(spec: string, data: DataHandler)
    requires '|' !in StripIniComment(spec)
    ensures ParseFormSpec(spec, data) == 0
    ensures ParseFormSpecIntended(spec, data) == 0
  {
  }

  /** The split of a specification whose comment-free text has its first '|' at `bar`. */
  lemma SpecPartsAt(spec: string, bar: nat)
    requires bar < |StripIniComment(spec)| && StripIniComment(spec)[bar] == '|'
    requires '|' !in StripIniComment(spec)[..bar]
    ensures SpecParts(spec) ==
      Some((Trim(StripIniComment(spec)[..bar]), StripIniComment(spec)[bar + 1..]))
  {
    var cleaned := StripIniComment(spec);
    SplitAtBarAt(cleaned, bar);
  }

  lemma SplitAtBarAt(cleaned: string, bar: nat)
    requires bar < |cleaned| && cleaned[bar] == '|' && '|' !in cleaned[..bar]
    ensures SplitAtBar(cleaned) == Some((Trim(cleaned[..bar]), cleaned[bar + 1..]))
  {
    IndexOfFirst(cleaned, '|', bar);
  }

  /**
   * With the first '|' at `bar`: a blank file part, an empty normalised hex
   * part, or a hex part `stoul` throws on each give 0; otherwise the id is
   * the engine's lookup of the parsed local id in the trimmed file.
   */
  lemma ParseFormSpecCases(spec: string, data: DataHandler, bar: nat)
    requires bar < |StripIniComment(spec)| && StripIniComment(spec)[bar] == '|'
    requires '|' !in StripIniComment(spec)[..bar]
    ensures Trim(StripIniComment(spec)[..bar]) == [] ==> ParseFormSpec(spec, data) == 0
    ensures NormalizeHexToken(StripIniComment(spec)[bar + 1..]) == [] ==> ParseFormSpec(spec, data) == 0
    ensures ParseHex32(NormalizeHexToken(StripIniComment(spec)[bar + 1..])).None? ==> ParseFormSpec(spec, data) == 0
    ensures
      && Trim(StripIniComment(spec)[..bar]) != []
      && NormalizeHexToken(StripIniComment(spec)[bar + 1..]) != []
      && ParseHex32(NormalizeHexToken(StripIniComment(spec)[bar + 1..])).Some?
      && data.DataHandler?
      ==> ParseFormSpec(spec, data) == data.lookupFormID(
            ParseHex32(NormalizeHexToken(StripIniComment(spec)[bar + 1..])).value,
            Trim(StripIniComment(spec)[..bar]))
  {
    SpecPartsAt(spec, bar);
  }

  /** The same cases for the intended parser. */
  lemma ParseFormSpecIntendedCases(spec: string, data: DataHandler, bar: nat)
    requires bar < |StripIniComment(spec)| && StripIniComment(spec)[bar] == '|'
    requires '|' !in StripIniComment(spec)[..bar]
    ensures Trim(StripIniComment(spec)[..bar]) == [] ==> ParseFormSpecIntended(spec, data) == 0
    ensures NormalizeHexTokenIntended(StripIniComment(spec)[bar + 1..]) == [] ==> ParseFormSpecIntended(spec, data) == 0
    ensures ParseHex32(NormalizeHexTokenIntended(StripIniComment(spec)[bar + 1..])).None? ==>
      ParseFormSpecIntended(spec, data) == 0
    ensures
      && Trim(StripIniComment(spec)[..bar]) != []
      && NormalizeHexTokenIntended(StripIniComment(spec)[bar + 1..]) != []
      && ParseHex32(NormalizeHexTokenIntended(StripIniComment(spec)[bar + 1..])).Some?
      && data.DataHandler?
      ==> ParseFormSpecIntended(spec, data) == data.lookupFormID(
            ParseHex32(NormalizeHexTokenIntended(StripIniComment(spec)[bar + 1..])).value,
            Trim(StripIniComment(spec)[..bar]))
  {
    SpecPartsAt(spec, bar);
  }
}

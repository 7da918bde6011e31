/**
 * The text helpers the configuration loader uses on INI values: trimming,
 * comment stripping, comma splitting, hex-token normalisation and the
 * "Plugin.esp|00ABCDEF" form specification.
 */
module IniText {
  import opened Wrappers
  import opened Engine

  // ---------------------------------------------------------------------
  // Trim
  // ---------------------------------------------------------------------

  /** `std::isspace` in the "C" locale. */
  predicate IsSpace(c: char)
  {
    c == ' ' || c == '\t' || c == '\n' || c == '\r' || c == '\U{000B}' || c == '\U{000C}'
  }

  predicate AllSpace(s: string)
  {
    forall k | 0 <= k < |s| :: IsSpace(s[k])
  }

  /** No white space at either end. */
  predicate IsTrimmed(s: string)
  {
    s == [] || (!IsSpace(s[0]) && !IsSpace(s[|s| - 1]))
  }

  /** Erases the leading run of white space. */
  function DropLeadingSpace(s: string): (r: string)
    ensures |r| <= |s| && r == s[|s| - |r|..]
    ensures AllSpace(s[..|s| - |r|])
    ensures r != [] ==> !IsSpace(r[0])
  {
    if s != [] && IsSpace(s[0]) then
      var r := DropLeadingSpace(s[1..]);
      assert s[..|s| - |r|] == [s[0]] + s[1..][..|s| - 1 - |r|];
      r
    else
      s
  }

  /** Erases the trailing run of white space. */
  function DropTrailingSpace(s: string): (r: string)
    ensures |r| <= |s| && r == s[..|r|]
    ensures AllSpace(s[|r|..])
    ensures r != [] ==> !IsSpace(r[|r| - 1])
  {
    if s != [] && IsSpace(s[|s| - 1]) then
      var r := DropTrailingSpace(s[..|s| - 1]);
      assert s[|r|..] == s[..|s| - 1][|r|..] + [s[|s| - 1]];
      r
    else
      s
  }

  /** `Trim`: erases white space at both ends; the result has none there. */
  function Trim(s: string): (r: string)
    ensures IsTrimmed(r)
  {
    DropTrailingSpace(DropLeadingSpace(s))
  }

  /**
   * What `Trim` removes is white space only, from the two ends: the result is
   * the slice of the input between a space-only prefix and a space-only suffix.
   */
  lemma TrimIsSlice(s: string)
    ensures exists i, j | 0 <= i <= j <= |s| :: Trim(s) == s[i..j] && AllSpace(s[..i]) && AllSpace(s[j..])
  {
    var l := DropLeadingSpace(s);
    var r := DropTrailingSpace(l);
    var i := |s| - |l|;
    assert r == s[i..i + |r|];
    assert s[i + |r|..] == l[|r|..];
  }

  /** Every character of `Trim(s)` comes from `s`. */
  lemma TrimKeepsCharacters(s: string)
    ensures forall c | c in Trim(s) :: c in s
  {
    var l := DropLeadingSpace(s);
    var r := DropTrailingSpace(l);
    SliceKeepsCharacters(l, 0, |r|);
    SliceKeepsCharacters(s, |s| - |l|, |s|);
  }

  lemma SliceKeepsCharacters(s: string, i: nat, j: nat)
    requires i <= j <= |s|
    ensures forall c | c in s[i..j] :: c in s
  {
    forall c | c in s[i..j] ensures c in s {
      var k :| 0 <= k < j - i && s[i..j][k] == c;
      assert s[i + k] == c;
    }
  }

  /** A trimmed string is its own trim. */
  lemma TrimOfTrimmed(s: string)
    requires IsTrimmed(s)
    ensures Trim(s) == s
  {
    assert DropLeadingSpace(s) == s;
    assert DropTrailingSpace(s) == s;
  }

  /** Trimming twice is trimming once. */
  lemma TrimIdempotent(s: string)
    ensures Trim(Trim(s)) == Trim(s)
  {
    TrimOfTrimmed(Trim(s));
  }

  // ---------------------------------------------------------------------
  // StripIniComment
  // ---------------------------------------------------------------------

  /** Position of the first ';' or '#', or the length when there is none. */
  function CommentStart(s: string): (p: nat)
    ensures p <= |s|
    ensures p < |s| ==> s[p] == ';' || s[p] == '#'
    ensures forall k | 0 <= k < p :: s[k] != ';' && s[k] != '#'
  {
    if s == [] || s[0] == ';' || s[0] == '#' then 0 else 1 + CommentStart(s[1..])
  }

  /**
   * `StripIniComment`: the trimmed text before the first comment marker. The
   * result is trimmed and holds neither marker.
   */
  function StripIniComment(s: string): (r: string)
    ensures IsTrimmed(r) && ';' !in r && '#' !in r
  {
    var p := CommentStart(s);
    TrimKeepsCharacters(s[..p]);
    Trim(s[..p])
  }

  /** Every character `StripIniComment` keeps comes from its input. */
  lemma StripIniCommentKeepsCharacters(s: string)
    ensures forall c | c in StripIniComment(s) :: c in s
  {
    var p := CommentStart(s);
    TrimKeepsCharacters(s[..p]);
    forall c | c in Trim(s[..p]) ensures c in s {
      var k :| 0 <= k < p && s[..p][k] == c;
      assert s[k] == c;
    }
  }

  /** A value without comment markers loses only its surrounding space. */
  lemma StripIniCommentWithoutMarker(s: string)
    requires ';' !in s && '#' !in s
    ensures StripIniComment(s) == Trim(s)
  {
    assert s[..CommentStart(s)] == s;
  }

  /** A trimmed value without comment markers is left as it is. */
  lemma StripIniCommentOfClean(s: string)
    requires IsTrimmed(s) && ';' !in s && '#' !in s
    ensures StripIniComment(s) == s
  {
    StripIniCommentWithoutMarker(s);
    TrimOfTrimmed(s);
  }

  // ---------------------------------------------------------------------
  // SplitCSV
  // ---------------------------------------------------------------------

  /** The raw comma-separated pieces of `s` (one more than there are commas). */
  function Fields(s: string): (r: seq<string>)
    ensures |r| >= 1
  {
    if s == [] then [[]]
    else
      var f := Fields(s[..|s| - 1]);
      if s[|s| - 1] == ',' then f + [[]]
      else f[..|f| - 1] + [f[|f| - 1] + [s[|s| - 1]]]
  }

  function CountChar(s: string, c: char): nat
  {
    if s == [] then 0 else CountChar(s[..|s| - 1], c) + (if s[|s| - 1] == c then 1 else 0)
  }

  /** The pieces joined back with commas between them. */
  function JoinComma(fs: seq<string>): string
  {
    if |fs| == 0 then []
    else if |fs| == 1 then fs[0]
    else JoinComma(fs[..|fs| - 1]) + "," + fs[|fs| - 1]
  }

  /**
   * Splitting on commas gives one piece more than there are commas, no piece
   * holds a comma, and joining the pieces with commas gives the text back.
   */
  lemma FieldsShape(s: string)
    ensures |Fields(s)| == CountChar(s, ',') + 1
    ensures forall i | 0 <= i < |Fields(s)| :: ',' !in Fields(s)[i]
    ensures JoinComma(Fields(s)) == s
  {
    FieldsCount(s);
    FieldsCommaFree(s);
    FieldsJoin(s);
  }

  lemma {:induction false} FieldsCount(s: string)
    ensures |Fields(s)| == CountChar(s, ',') + 1
  {
    if s != [] {
      FieldsCount(s[..|s| - 1]);
    }
  }

  lemma {:induction false} FieldsCommaFree(s: string)
    ensures forall i | 0 <= i < |Fields(s)| :: ',' !in Fields(s)[i]
  {
    if s != [] {
      var c := s[|s| - 1];
      var f := Fields(s[..|s| - 1]);
      FieldsCommaFree(s[..|s| - 1]);
      if c == ',' {
        CommaFreeSnoc(f, []);
      } else {
        var front := f[..|f| - 1];
        assert forall i | 0 <= i < |front| :: front[i] == f[i];
        var last := f[|f| - 1] + [c];
        assert ',' !in last by {
          assert ',' !in f[|f| - 1];
          forall k | 0 <= k < |last| ensures last[k] != ',' {
            if k < |f[|f| - 1]| { assert last[k] == f[|f| - 1][k]; }
          }
        }
        CommaFreeSnoc(front, last);
      }
    }
  }

  lemma {:induction false} FieldsJoin(s: string)
    ensures JoinComma(Fields(s)) == s
  {
    if |s| > 0 {
      var init := s[..|s| - 1];
      var c := s[|s| - 1];
      FieldsJoin(init);
      assert s == init + [c];
      if c == ',' {
        JoinSnocEmpty(Fields(init));
      } else {
        JoinExtendLast(Fields(init), c);
      }
    }
  }

  /** Adding an empty last piece adds a comma. */
  lemma JoinSnocEmpty(f: seq<string>)
    requires |f| >= 1
    ensures JoinComma(f + [[]]) == JoinComma(f) + ","
  {
    var g := f + [[]];
    assert g[..|g| - 1] == f;
    assert JoinComma(f) + "," + [] == JoinComma(f) + ",";
  }

  /** Extending the last piece extends the joined text. */
  lemma JoinExtendLast(f: seq<string>, c: char)
    requires |f| >= 1
    ensures JoinComma(f[..|f| - 1] + [f[|f| - 1] + [c]]) == JoinComma(f) + [c]
  {
    var g := f[..|f| - 1] + [f[|f| - 1] + [c]];
    assert g[..|g| - 1] == f[..|f| - 1];
    assert g[|g| - 1] == f[|f| - 1] + [c];
    if |f| > 1 {
      var front := JoinComma(f[..|f| - 1]);
      assert front + "," + (f[|f| - 1] + [c]) == (front + "," + f[|f| - 1]) + [c];
    }
  }

  /** An item `SplitCSV` can return: non-empty, trimmed, without comment markers. */
  predicate CleanItem(x: string)
  {
    x != [] && IsTrimmed(x) && ';' !in x && '#' !in x
  }

  /** Each piece stripped of comments and space; pieces left empty are dropped. */
  function Clean(fs: seq<string>): (r: seq<string>)
    ensures |r| <= |fs|
  {
    if fs == [] then []
    else
      var c := StripIniComment(fs[|fs| - 1]);
      Clean(fs[..|fs| - 1]) + (if c == [] then [] else [c])
  }

  /** Every cleaned item is non-empty, trimmed and free of comment markers. */
  lemma {:induction false} CleanItems(fs: seq<string>)
    ensures forall i | 0 <= i < |Clean(fs)| :: CleanItem(Clean(fs)[i])
  {
    if fs != [] {
      var init := fs[..|fs| - 1];
      CleanItems(init);
      var c := StripIniComment(fs[|fs| - 1]);
      var r := Clean(init) + (if c == [] then [] else [c]);
      assert Clean(fs) == r;
      forall i | 0 <= i < |r| ensures CleanItem(r[i]) {
        if i < |Clean(init)| { assert r[i] == Clean(init)[i]; } else { assert r[i] == c; }
      }
    }
  }

  /** Comma-free pieces stay comma-free once cleaned. */
  lemma {:induction false} CleanCommaFree(fs: seq<string>)
    requires forall k | 0 <= k < |fs| :: ',' !in fs[k]
    ensures forall i | 0 <= i < |Clean(fs)| :: ',' !in Clean(fs)[i]
  {
    if fs != [] {
      var init := fs[..|fs| - 1];
      var last := fs[|fs| - 1];
      assert forall i | 0 <= i < |Clean(init)| :: ',' !in Clean(init)[i] by {
        assert forall k | 0 <= k < |init| :: init[k] == fs[k];
        CleanCommaFree(init);
      }
      var c := StripIniComment(last);
      assert ',' !in c by {
        StripIniCommentKeepsCharacters(last);
      }
      if c != [] {
        CommaFreeSnoc(Clean(init), c);
      }
    }
  }

  lemma CommaFreeSnoc(xs: seq<string>, x: string)
    requires forall i | 0 <= i < |xs| :: ',' !in xs[i]
    requires ',' !in x
    ensures forall i | 0 <= i < |xs + [x]| :: ',' !in (xs + [x])[i]
  {
    forall i | 0 <= i < |xs + [x]| ensures ',' !in (xs + [x])[i] {
      if i < |xs| { assert (xs + [x])[i] == xs[i]; }
    }
  }

  /** What `SplitCSV` returns for `csv`. */
  function SplitCSVSpec(csv: string): seq<string>
  {
    Clean(Fields(csv))
  }

  /**
   * `SplitCSV`: walks the text once, collecting the characters of the
   * current item and closing the item at every comma and at the end.
   */
  method SplitCSV(csv: string) returns (out: seq<string>)
    ensures out == SplitCSVSpec(csv)
  {
    out := [];
    var cur: string := [];
    ghost var done: seq<string> := [];
    for i := 0 to |csv|
      invariant Fields(csv[..i]) == done + [cur]
      invariant out == Clean(done)
    {
      var c := csv[i];
      assert csv[..i + 1][..i] == csv[..i];
      if c == ',' {
        var stripped := StripIniComment(cur);
        if stripped != [] {
          out := out + [stripped];
        }
        assert (done + [cur])[..|done + [cur]| - 1] == done;
        done := done + [cur];
        cur := [];
      } else {
        cur := cur + [c];
      }
    }
    assert csv[..|csv|] == csv;
    var stripped := StripIniComment(cur);
    if stripped != [] {
      out := out + [stripped];
    }
    assert (done + [cur])[..|done + [cur]| - 1] == done;
  }

  /**
   * Every item `SplitCSV` returns is non-empty, trimmed and free of ',', ';'
   * and '#', and there are at most one more items than commas.
   */
  lemma SplitCSVItems(csv: string)
    ensures |SplitCSVSpec(csv)| <= CountChar(csv, ',') + 1
    ensures forall i | 0 <= i < |SplitCSVSpec(csv)| ::
      var item := SplitCSVSpec(csv)[i];
      item != [] && IsTrimmed(item) && ',' !in item && ';' !in item && '#' !in item
  {
    FieldsShape(csv);
    CleanItems(Fields(csv));
    CleanCommaFree(Fields(csv));
  }

  /** Appending comma-free text extends the last piece. */
  lemma {:induction false} FieldsAppendPlain(x: string, y: string)
    requires ',' !in y
    ensures Fields(x + y) == Fields(x)[..|Fields(x)| - 1] + [Fields(x)[|Fields(x)| - 1] + y]
    decreases |y|
  {
    if y == [] {
      assert x + y == x;
      var f := Fields(x);
      FieldsShape(x);
      assert f[|f| - 1] + y == f[|f| - 1];
      assert f[..|f| - 1] + [f[|f| - 1]] == f;
    } else {
      var y' := y[..|y| - 1];
      assert y == y' + [y[|y| - 1]];
      assert ',' !in y' by {
        forall k | 0 <= k < |y'| ensures y'[k] != ',' {
          assert y'[k] == y[k];
        }
      }
      FieldsAppendPlain(x, y');
      assert (x + y)[..|x + y| - 1] == x + y';
      assert (x + y)[|x + y| - 1] == y[|y| - 1] != ',';
      var f := Fields(x);
      var g := Fields(x + y');
      assert g[..|g| - 1] == f[..|f| - 1];
      assert g[|g| - 1] + [y[|y| - 1]] == f[|f| - 1] + y;
    }
  }

  /**
   * Items that `SplitCSV` would return unchanged survive a round trip: joining
   * them with commas and splitting the text gives the same items back.
   */
  lemma {:induction false} SplitCSVJoinRoundTrip(items: seq<string>)
    requires forall i | 0 <= i < |items| ::
      items[i] != [] && IsTrimmed(items[i]) && ',' !in items[i] && ';' !in items[i] && '#' !in items[i]
    ensures SplitCSVSpec(JoinComma(items)) == items
  {
    if items == [] {
      assert Fields(JoinComma(items)) == [[]];
    } else {
      FieldsOfJoin(items);
      CleanOfClean(items);
    }
  }

  lemma {:induction false} FieldsOfJoin(items: seq<string>)
    requires |items| >= 1
    requires forall i | 0 <= i < |items| :: ',' !in items[i]
    ensures Fields(JoinComma(items)) == items
  {
    if |items| == 1 {
      FieldsAppendPlain([], items[0]);
      assert [] + items[0] == items[0];
    } else {
      var init := items[..|items| - 1];
      var last := items[|items| - 1];
      FieldsOfJoin(init);
      var j := JoinComma(init);
      assert (j + ",")[..|j + ","| - 1] == j;
      assert Fields(j + ",") == init + [[]];
      FieldsAppendPlain(j + ",", last);
      assert j + "," + last == (j + ",") + last;
      assert (init + [[]])[..|init|] == init;
      assert [] + last == last;
      assert init + [last] == items;
    }
  }

  lemma {:induction false} CleanOfClean(items: seq<string>)
    requires forall i | 0 <= i < |items| :: CleanItem(items[i])
    ensures Clean(items) == items
  {
    if items != [] {
      var init := items[..|items| - 1];
      var last := items[|items| - 1];
      assert Clean(init) == init by {
        assert forall i | 0 <= i < |init| :: init[i] == items[i];
        CleanOfClean(init);
      }
      assert StripIniComment(last) == last by {
        StripIniCommentOfClean(last);
      }
      assert init + [last] == items;
    }
  }

  // ---------------------------------------------------------------------
  // Hex tokens
  // ---------------------------------------------------------------------

  predicate StartsWith(s: string, prefix: string)
  {
    |prefix| <= |s| && s[..|prefix|] == prefix
  }

  /**
   * `NormalizeHexToken` as written: trim, cut a "FormID:" prefix with
   * `substr(6)` (which keeps the ':'), then cut a "0x" or "0X" prefix.
   */
  function NormalizeHexToken(hex: string): (r: string)
    ensures IsTrimmed(r)
  {
    CutHexPrefix(CutFormIdAsWritten(Trim(hex)))
  }

  /** `NormalizeHexToken` as its comment intends: "FormID:" is cut whole. */
  function NormalizeHexTokenIntended(hex: string): (r: string)
    ensures IsTrimmed(r)
  {
    CutHexPrefix(CutFormIdIntended(Trim(hex)))
  }

  /** The "FormID:" step as written: `Trim(hex.substr(6))`. */
  function CutFormIdAsWritten(h: string): (r: string)
    requires IsTrimmed(h)
    ensures IsTrimmed(r)
  {
    if StartsWith(h, "FormID:") then Trim(h[6..]) else h
  }

  /** The "FormID:" step as intended: all seven characters go. */
  function CutFormIdIntended(h: string): (r: string)
    requires IsTrimmed(h)
    ensures IsTrimmed(r)
  {
    if StartsWith(h, "FormID:") then Trim(h[7..]) else h
  }

  /** The "0x" / "0X" step. */
  function CutHexPrefix(h: string): (r: string)
    requires IsTrimmed(h)
    ensures IsTrimmed(r)
  {
    if StartsWith(h, "0x") || StartsWith(h, "0X") then Trim(h[2..]) else h
  }

  lemma PrefixOfConcat(p: string, d: string)
    ensures StartsWith(p + d, p) && (p + d)[|p|..] == d
  {
    assert (p + d)[..|p|] == p;
  }

  /** Value of a hexadecimal digit, or -1 for any other character. */
  function HexDigitValue(c: char): (v: int)
    ensures -1 <= v < 16
  {
    if '0' <= c <= '9' then c as int - '0' as int
    else if 'a' <= c <= 'f' then c as int - 'a' as int + 10
    else if 'A' <= c <= 'F' then c as int - 'A' as int + 10
    else -1
  }

  predicate IsHexDigit(c: char)
  {
    HexDigitValue(c) >= 0
  }

  /** Length of the longest prefix of hexadecimal digits. */
  function HexRun(s: string): (n: nat)
    ensures n <= |s|
    ensures forall k | 0 <= k < n :: IsHexDigit(s[k])
    ensures n < |s| ==> !IsHexDigit(s[n])
  {
    if s != [] && IsHexDigit(s[0]) then 1 + HexRun(s[1..]) else 0
  }

  /** The number a string of hexadecimal digits denotes. */
  function HexValue(d: string): nat
    requires forall k | 0 <= k < |d| :: IsHexDigit(d[k])
  {
    if d == [] then 0
    else
      assert IsHexDigit(d[|d| - 1]);
      HexValue(d[..|d| - 1]) * 16 + HexDigitValue(d[|d| - 1])
  }

  /**
   * `std::stoul(hex, nullptr, 16)` into a 32-bit result: an optional "0x" or
   * "0X" when a hex digit follows it, then the longest prefix of hexadecimal
   * digits; no digit at all or a value beyond 32 bits throws, which is None
   * here.
   */
  function ParseHex32(s: string): Option<FormID>
  {
    if HasHexPrefix(s) then ParseHexDigits32(s[2..]) else ParseHexDigits32(s)
  }

  /** A base-16 prefix `stoul` skips: "0x" or "0X" followed by a hex digit. */
  predicate HasHexPrefix(s: string)
  {
    |s| >= 3 && s[0] == '0' && (s[1] == 'x' || s[1] == 'X') && IsHexDigit(s[2])
  }

  /** The digit run of `ParseHex32`, after any prefix. */
  function ParseHexDigits32(s: string): Option<FormID>
  {
    var n := HexRun(s);
    if n == 0 then None
    else
      var v := HexValue(s[..n]);
      if v < U32_LIMIT then Some(v) else None
  }

  /** The upper-case digit for 0..15. */
  function HexChar(d: nat): (c: char)
    requires d < 16
    ensures HexDigitValue(c) == d
  {
    if d < 10 then ('0' as int + d) as char else ('A' as int + d - 10) as char
  }

  /** `v` printed with `n` hexadecimal digits (leading zeros kept). */
  function HexDigits(v: nat, n: nat): (s: string)
    ensures |s| == n && forall k | 0 <= k < n :: IsHexDigit(s[k])
  {
    if n == 0 then [] else HexDigits(v / 16, n - 1) + [HexChar(v % 16)]
  }

  function Pow16(n: nat): (p: nat)
    ensures p >= 1
  {
    if n == 0 then 1 else 16 * Pow16(n - 1)
  }

  lemma {:induction false} HexDigitsValue(v: nat, n: nat)
    requires v < Pow16(n)
    ensures HexValue(HexDigits(v, n)) == v
  {
    if n > 0 {
      HexDigitsValue(v / 16, n - 1);
      var d := HexDigits(v, n);
      assert d[..|d| - 1] == HexDigits(v / 16, n - 1);
    }
  }

  /** A form id as the log prints it: eight upper-case hex digits. */
  function Hex8(v: FormID): (s: string)
    ensures |s| == 8 && forall k | 0 <= k < 8 :: IsHexDigit(s[k])
  {
    HexDigits(v, 8)
  }

  lemma {:induction false} HexRunOfDigits(d: string, rest: string)
    requires forall k | 0 <= k < |d| :: IsHexDigit(d[k])
    requires rest == [] || !IsHexDigit(rest[0])
    ensures HexRun(d + rest) == |d|
    decreases |d|
  {
    if d != [] {
      assert (d + rest)[1..] == d[1..] + rest;
      HexRunOfDigits(d[1..], rest);
    } else {
      assert d + rest == rest;
    }
  }

  /**
   * Parsing reads back what `Hex8` prints, whatever text follows that does
   * not start with another hex digit.
   */
  lemma ParseHex32Hex8(v: FormID, rest: string)
    requires rest == [] || !IsHexDigit(rest[0])
    ensures ParseHex32(Hex8(v) + rest) == Some(v)
  {
    assert Pow16(8) == U32_LIMIT;
    HexDigitsValue(v, 8);
    HexRunOfDigits(Hex8(v), rest);
    assert (Hex8(v) + rest)[..8] == Hex8(v);
    assert (Hex8(v) + rest)[1] == Hex8(v)[1];
    assert !IsHexDigit('x') && !IsHexDigit('X');
  }

  /** Text that does not start with a hex digit does not parse. */
  lemma ParseHex32NeedsDigit(s: string)
    requires s == [] || !IsHexDigit(s[0])
    ensures ParseHex32(s) == None
  {
  }

  /** "0x" or "0X" in front of a hex token within 32 bits is skipped, as `stoul` does in base 16. */
  lemma ParseHex32Prefixed(d: string, x: string)
    requires HexToken(d) && HexValue(d) < U32_LIMIT
    requires x == "0x" || x == "0X"
    ensures ParseHex32(x + d) == Some(HexValue(d))
  {
    var s := x + d;
    assert HasHexPrefix(s) by {
      assert s[2] == d[0];
    }
    assert s[2..] == d;
    assert ParseHexDigits32(d) == Some(HexValue(d)) by {
      ParseHex32Token(d);
      HexTokenCharacters(d);
    }
  }

  /** A non-empty run of hexadecimal digits. */
  predicate HexToken(d: string)
  {
    d != [] && forall k | 0 <= k < |d| :: IsHexDigit(d[k])
  }

  /** A hex token holds no space, comment marker, bar, 'x', 'X' or 'o'. */
  lemma HexTokenCharacters(d: string)
    requires HexToken(d)
    ensures IsTrimmed(d)
    ensures forall k | 0 <= k < |d| ::
      d[k] != ';' && d[k] != '#' && d[k] != '|' && d[k] != ':' && d[k] != 'x' && d[k] != 'X' && d[k] != 'o'
  {
    assert !IsHexDigit(';') && !IsHexDigit('#') && !IsHexDigit('|') && !IsHexDigit(':');
    assert !IsHexDigit('x') && !IsHexDigit('X') && !IsHexDigit('o');
  }

  /** A hex token within 32 bits parses to its value. */
  lemma ParseHex32Token(d: string)
    requires HexToken(d) && HexValue(d) < U32_LIMIT
    ensures ParseHex32(d) == Some(HexValue(d))
  {
    HexRunOfDigits(d, []);
    assert d + [] == d;
    assert d[..|d|] == d;
    assert !IsHexDigit('x') && !IsHexDigit('X');
    assert |d| >= 3 ==> IsHexDigit(d[1]);
  }

  // ---------------------------------------------------------------------
  // ParseFormSpec
  // ---------------------------------------------------------------------

  /** A parsed "File|LocalID" specification, before the engine lookup. */
  datatype FormSpec = FormSpec(file: string, localID: FormID)

  /** Position of the first occurrence of `c`, if any. */
  function IndexOf(s: string, c: char): (r: Option<nat>)
    ensures r.None? <==> c !in s
    ensures r.Some? ==> r.value < |s| && s[r.value] == c && c !in s[..r.value]
  {
    if s == [] then None
    else if s[0] == c then Some(0)
    else
      match IndexOf(s[1..], c)
      case None => None
      case Some(k) =>
        assert s[..k + 1] == [s[0]] + s[1..][..k];
        Some(k + 1)
  }

  /** A position holding `c` with no `c` before it is the first occurrence. */
  lemma {:induction false} IndexOfFirst(s: string, c: char, p: nat)
    requires p < |s| && s[p] == c && c !in s[..p]
    ensures IndexOf(s, c) == Some(p)
    decreases p
  {
    if p > 0 {
      assert s[0] == s[..p][0];
      assert s[1..][..p - 1] == s[..p][1..];
      IndexOfFirst(s[1..], c, p - 1);
    }
  }

  /**
   * The first steps of `ParseFormSpec`: strip comments and split at the
   * first '|'.
   */
  function SpecParts(spec: string): (r: Option<(string, string)>)
    ensures r.None? <==> '|' !in StripIniComment(spec)
    ensures r.Some? ==>
      && IsTrimmed(r.value.0) && '|' !in r.value.0 && ';' !in r.value.0 && '#' !in r.value.0
  {
    SplitAtBar(StripIniComment(spec))
  }

  /**
   * Text split at its first '|' into the trimmed part before it and the raw
   * part after it; None when there is no bar. The part before holds no '|',
   * and no comment marker when the text holds none.
   */
  function SplitAtBar(cleaned: string): (r: Option<(string, string)>)
    ensures r.None? <==> '|' !in cleaned
    ensures r.Some? ==> IsTrimmed(r.value.0) && '|' !in r.value.0
    ensures r.Some? && ';' !in cleaned ==> ';' !in r.value.0
    ensures r.Some? && '#' !in cleaned ==> '#' !in r.value.0
  {
    match IndexOf(cleaned, '|')
    case None => None
    case Some(bar) =>
      TrimKeepsCharacters(cleaned[..bar]);
      Some((Trim(cleaned[..bar]), cleaned[bar + 1..]))
  }

  /**
   * The last steps: an empty file or hex part is no form, and so is a hex
   * part `stoul` throws on; otherwise the file and the id read.
   */
  function MakeFormSpec(file: string, hex: string): (r: Option<FormSpec>)
    ensures r.Some? <==> file != [] && hex != [] && ParseHex32(hex).Some?
    ensures r.Some? ==> r.value == FormSpec(file, ParseHex32(hex).value)
  {
    if file == [] || hex == [] then None
    else
      match ParseHex32(hex)
      case None => None
      case Some(id) => Some(FormSpec(file, id))
  }

  /**
   * `ParseFormSpec` up to the engine lookup, as written: the hex part goes
   * through `NormalizeHexToken`, whose "FormID:" step keeps the ':'. Any
   * failure (no bar, an empty part, a hex part that does not parse) is None.
   * A success names a non-empty, trimmed file without '|', ';' or '#'.
   */
  function SplitFormSpec(spec: string): (r: Option<FormSpec>)
    ensures '|' !in StripIniComment(spec) ==> r.None?
    ensures r.Some? ==>
      && r.value.file != [] && IsTrimmed(r.value.file)
      && '|' !in r.value.file && ';' !in r.value.file && '#' !in r.value.file
  {
    match SpecParts(spec)
    case None => None
    case Some(parts) => MakeFormSpec(parts.0, NormalizeHexToken(parts.1))
  }

  /** The same with the "FormID:" prefix cut whole, as the normaliser's comment intends. */
  function SplitFormSpecIntended(spec: string): (r: Option<FormSpec>)
    ensures '|' !in StripIniComment(spec) ==> r.None?
    ensures r.Some? ==>
      && r.value.file != [] && IsTrimmed(r.value.file)
      && '|' !in r.value.file && ';' !in r.value.file && '#' !in r.value.file
  {
    match SpecParts(spec)
    case None => None
    case Some(parts) => MakeFormSpec(parts.0, NormalizeHexTokenIntended(parts.1))
  }

  /** The engine lookup of a split specification: 0 when there is none or no data handler. */
  function LookupFormSpec(fs: Option<FormSpec>, data: DataHandler): (r: FormID)
    ensures fs.None? || data.NoDataHandler? ==> r == 0
    ensures fs.Some? && data.DataHandler? ==> r == data.lookupFormID(fs.value.localID, fs.value.file)
  {
    match fs
    case None => 0
    case Some(f) =>
      match data
      case NoDataHandler => 0
      case DataHandler(lookup) => lookup(f.localID, f.file)
  }

  /** `ParseFormSpec` as written: the engine's form id for the specification, 0 on any failure. */
  function ParseFormSpec(spec: string, data: DataHandler): (r: FormID)
    ensures SplitFormSpec(spec).None? ==> r == 0
    ensures data.NoDataHandler? ==> r == 0
    ensures SplitFormSpec(spec).Some? && data.DataHandler? ==>
      r == data.lookupFormID(SplitFormSpec(spec).value.localID, SplitFormSpec(spec).value.file)
  {
    LookupFormSpec(SplitFormSpec(spec), data)
  }

  /** `ParseFormSpec` with the intended normaliser. */
  function ParseFormSpecIntended(spec: string, data: DataHandler): (r: FormID)
    ensures SplitFormSpecIntended(spec).None? ==> r == 0
    ensures data.NoDataHandler? ==> r == 0
    ensures SplitFormSpecIntended(spec).Some? && data.DataHandler? ==>
      r == data.lookupFormID(SplitFormSpecIntended(spec).value.localID, SplitFormSpecIntended(spec).value.file)
  {
    LookupFormSpec(SplitFormSpecIntended(spec), data)
  }
}

/**
 Material text: newline normalisation, splitting into lines, and the limits of
 backend/src/domain/main_agent.py. A Dafny `char` is a Unicode scalar value, so the
 lone-surrogate check of the source has nothing to reject here.
 */
module MaterialText {
  import opened Wrappers

  const CR: char := '\r'
  const LF: char := '\n'
  const CRLF: string := "\r\n"
  const MAX_MATERIAL_CODEPOINTS := 2_000
  const MAX_MATERIAL_LINES := 100

  datatype MaterialError = TooLong | TooManyLines

  /** Python's `str.replace` for a non-empty pattern: leftmost, non-overlapping. */
  function Replace(s: string, pattern: string, replacement: string): string
    requires pattern != ""
  {
    if |s| < |pattern| then s
    else if s[..|pattern|] == pattern then replacement + Replace(s[|pattern|..], pattern, replacement)
    else [s[0]] + Replace(s[1..], pattern, replacement)
  }

  function NormalizeMaterialText(s: string): string {
    Replace(Replace(s, CRLF, [LF]), [CR], [LF])
  }

  /** Reference definition: one left-to-right scan that turns CRLF and lone CR into LF. */
  function ScanNewlines(s: string): string {
    if s == "" then ""
    else if s[0] != CR then [s[0]] + ScanNewlines(s[1..])
    else if |s| > 1 && s[1] == LF then [LF] + ScanNewlines(s[2..])
    else [LF] + ScanNewlines(s[1..])
  }

  function CountChar(s: string, c: char): nat {
    if s == "" then 0 else (if s[0] == c then 1 else 0) + CountChar(s[1..], c)
  }

  function LineCount(normalized: string): nat {
    if normalized == "" then 0 else CountChar(normalized, LF) + 1
  }

  /** Python's `s.split("\n")`. */
  function Split(s: string): (lines: seq<string>)
    ensures lines != []
  {
    if s == "" then [""]
    else
      var rest := Split(s[1..]);
      if s[0] == LF then [""] + rest else [[s[0]] + rest[0]] + rest[1..]
  }

  /** Python's `"\n".join(lines)`. */
  function Join(lines: seq<string>): string {
    if lines == [] then ""
    else if |lines| == 1 then lines[0]
    else lines[0] + [LF] + Join(lines[1..])
  }

  function MaterialLines(normalized: string): seq<string> {
    if normalized == "" then [] else Split(normalized)
  }

  function ValidateMaterialText(s: string): Result<string, MaterialError> {
    if |s| > MAX_MATERIAL_CODEPOINTS then Err(TooLong)
    else
      var normalized := NormalizeMaterialText(s);
      if LineCount(normalized) > MAX_MATERIAL_LINES then Err(TooManyLines) else Ok(normalized)
  }

  // ----- the two-pass replace is one scan

  lemma {:induction false} ReplaceCrlfKeepsHead(s: string)
    requires s != "" && !(|s| > 1 && s[0] == CR && s[1] == LF)
    ensures Replace(s, CRLF, [LF]) == [s[0]] + Replace(s[1..], CRLF, [LF])
  {
    if |s| >= 2 {
      assert s[..2] == [s[0], s[1]];
    } else {
      assert s == [s[0]] && s[1..] == "";
    }
  }

  lemma {:induction false} ReplaceCrHead(c: char, t: string)
    ensures Replace([c] + t, [CR], [LF]) == [if c == CR then LF else c] + Replace(t, [CR], [LF])
  {
    var s := [c] + t;
    assert s[..1] == [c] && s[1..] == t;
  }

  lemma {:induction false} NormalizeIsOneScan(s: string)
    ensures NormalizeMaterialText(s) == ScanNewlines(s)
    decreases |s|
  {
    if s == "" {
    } else if |s| > 1 && s[0] == CR && s[1] == LF {
      assert s[..2] == CRLF;
      ReplaceCrHead(LF, Replace(s[2..], CRLF, [LF]));
      NormalizeIsOneScan(s[2..]);
    } else {
      ReplaceCrlfKeepsHead(s);
      ReplaceCrHead(s[0], Replace(s[1..], CRLF, [LF]));
      NormalizeIsOneScan(s[1..]);
    }
  }

  lemma {:induction false} ScanLeavesNoCr(s: string)
    ensures CR !in ScanNewlines(s)
    decreases |s|
  {
    if s == "" {
    } else if s[0] == CR && |s| > 1 && s[1] == LF {
      ScanLeavesNoCr(s[2..]);
    } else {
      ScanLeavesNoCr(s[1..]);
    }
  }

  lemma {:induction false} ScanFixesCrFree(s: string)
    requires CR !in s
    ensures ScanNewlines(s) == s
  {
    if s != "" {
      assert s[0] in s;
      assert forall c :: c in s[1..] ==> c in s;
      ScanFixesCrFree(s[1..]);
      assert s == [s[0]] + s[1..];
    }
  }

  /** No CR survives, CR-free text is untouched, and so a second pass changes nothing. */
  lemma NormalizeIsIdempotent(s: string)
    ensures CR !in NormalizeMaterialText(s)
    ensures CR !in s ==> NormalizeMaterialText(s) == s
    ensures NormalizeMaterialText(NormalizeMaterialText(s)) == NormalizeMaterialText(s)
  {
    NormalizeIsOneScan(s);
    ScanLeavesNoCr(s);
    NormalizeIsOneScan(ScanNewlines(s));
    ScanFixesCrFree(ScanNewlines(s));
    if CR !in s { ScanFixesCrFree(s); }
  }

  // ----- lines and text determine each other

  lemma {:induction false} JoinSplit(s: string)
    ensures Join(Split(s)) == s
    ensures |Split(s)| == CountChar(s, LF) + 1
  {
    if s != "" {
      JoinSplit(s[1..]);
      var rest := Split(s[1..]);
      if s[0] == LF {
        assert ([""] + rest)[1..] == rest;
      } else {
        var lines := [[s[0]] + rest[0]] + rest[1..];
        assert lines[1..] == rest[1..];
        assert Join(lines) == [s[0]] + Join(rest);
      }
      assert s == [s[0]] + s[1..];
    }
  }

  lemma {:induction false} SplitLinesAreClean(s: string)
    ensures forall i :: 0 <= i < |Split(s)| ==> LF !in Split(s)[i]
    ensures CR !in s ==> forall i :: 0 <= i < |Split(s)| ==> CR !in Split(s)[i]
  {
    if s != "" {
      SplitLinesAreClean(s[1..]);
      var rest := Split(s[1..]);
      var lines := Split(s);
      assert s[0] in s && forall c :: c in s[1..] ==> c in s;
      forall i | 0 <= i < |lines|
        ensures LF !in lines[i] && (CR !in s ==> CR !in lines[i])
      {
        if s[0] == LF {
          if i > 0 { assert lines[i] == rest[i - 1]; }
        } else if i == 0 {
          assert lines[0] == [s[0]] + rest[0];
        } else {
          assert lines[i] == rest[i];
        }
      }
    }
  }

  /** Joining the material lines gives the text back, and their number is the line count. */
  lemma MaterialLinesRoundTrip(normalized: string)
    ensures Join(MaterialLines(normalized)) == normalized
    ensures |MaterialLines(normalized)| == LineCount(normalized)
  {
    JoinSplit(normalized);
  }

  lemma {:induction false} MaterialLinesAreClean(normalized: string, i: nat)
    requires CR !in normalized && i < |MaterialLines(normalized)|
    ensures LF !in MaterialLines(normalized)[i] && CR !in MaterialLines(normalized)[i]
  {
    SplitLinesAreClean(normalized);
  }

  lemma MaterialLinesInjective(s: string, t: string)
    ensures MaterialLines(s) == MaterialLines(t) <==> s == t
  {
    MaterialLinesRoundTrip(s);
    MaterialLinesRoundTrip(t);
  }
}

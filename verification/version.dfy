/** The semantic-version guard `^\d+\.\d+\.\d+$`: exactly three non-empty runs of
    ASCII digits separated by single dots, with nothing before or after. The
    predicate is written by hand on top of a dot-splitting function whose
    round trip with joining is proved. */
module Version {
  import opened Json

  predicate DigitRun(s: string) {
    |s| > 0 && forall i :: 0 <= i < |s| ==> IsDigit(s[i])
  }

  predicate DotFree(s: string) {
    forall i :: 0 <= i < |s| ==> s[i] != '.'
  }

  /** The maximal dot-free pieces of `s`, left to right; "" splits into [""]. */
  function Split(s: string): (parts: seq<string>)
    ensures |parts| >= 1
    ensures forall k :: 0 <= k < |parts| ==> DotFree(parts[k])
  {
    if |s| == 0 then [""]
    else if s[0] == '.' then [""] + Split(s[1..])
    else
      var rest := Split(s[1..]);
      [[s[0]] + rest[0]] + rest[1..]
  }

  /** Joins pieces with single dots. */
  function JoinDots(parts: seq<string>): string
    requires |parts| >= 1
  {
    if |parts| == 1 then parts[0] else parts[0] + "." + JoinDots(parts[1..])
  }

  lemma {:induction false} JoinSplit(s: string)
    ensures JoinDots(Split(s)) == s
  {
    if |s| == 0 {
    } else if s[0] == '.' {
      JoinSplit(s[1..]);
      assert Split(s)[1..] == Split(s[1..]);
    } else {
      var rest := Split(s[1..]);
      JoinSplit(s[1..]);
      var parts := Split(s);
      if |rest| == 1 {
        assert parts == [[s[0]] + rest[0]];
      } else {
        assert parts[1..] == rest[1..];
        assert JoinDots(rest) == rest[0] + "." + JoinDots(rest[1..]);
        assert s == [s[0]] + s[1..];
      }
    }
  }

  lemma {:induction false} SplitPiece(p: string, tail: string)
    requires DotFree(p)
    ensures Split(p + tail)[0] == p + Split(tail)[0]
    ensures Split(p + tail)[1..] == Split(tail)[1..]
  {
    if |p| > 0 {
      assert (p + tail)[1..] == p[1..] + tail;
      SplitPiece(p[1..], tail);
      assert [p[0]] + p[1..] == p;
    } else {
      assert p + tail == tail;
    }
  }

  lemma {:induction false} SplitJoin(parts: seq<string>)
    requires |parts| >= 1
    requires forall k :: 0 <= k < |parts| ==> DotFree(parts[k])
    ensures Split(JoinDots(parts)) == parts
  {
    if |parts| == 1 {
      SplitPiece(parts[0], "");
      assert parts[0] + "" == parts[0];
    } else {
      var tail := "." + JoinDots(parts[1..]);
      assert JoinDots(parts) == parts[0] + tail;
      SplitPiece(parts[0], tail);
      SplitJoin(parts[1..]);
      assert tail[1..] == JoinDots(parts[1..]);
      assert Split(tail) == [""] + parts[1..];
      var r := Split(JoinDots(parts));
      assert r[0] == parts[0] + "" == parts[0];
      assert r[1..] == parts[1..];
      assert r == [r[0]] + r[1..];
      assert parts == [parts[0]] + parts[1..];
    }
  }

  /** The regular expression `^\d+\.\d+\.\d+$` (JavaScript `\d` is ASCII-only). */
  predicate IsVersion(s: string) {
    var parts := Split(s);
    |parts| == 3 && DigitRun(parts[0]) && DigitRun(parts[1]) && DigitRun(parts[2])
  }

  /** Soundness: an accepted string is three digit runs joined by two dots. */
  lemma VersionSound(s: string)
    requires IsVersion(s)
    ensures s == Split(s)[0] + "." + Split(s)[1] + "." + Split(s)[2]
    ensures DigitRun(Split(s)[0]) && DigitRun(Split(s)[1]) && DigitRun(Split(s)[2])
    ensures s[|Split(s)[0]|] == '.'
  {
    var p := Split(s);
    JoinSplit(s);
    assert JoinDots(p) == p[0] + "." + JoinDots(p[1..]);
    assert JoinDots(p[1..]) == p[1] + "." + JoinDots(p[2..]);
  }

  /** Completeness: any three digit runs joined by two dots are accepted. */
  lemma VersionComplete(a: string, b: string, c: string)
    requires DigitRun(a) && DigitRun(b) && DigitRun(c)
    ensures IsVersion(a + "." + b + "." + c)
  {
    var parts := [a, b, c];
    forall k | 0 <= k < 3
      ensures DotFree(parts[k])
    {
      assert DigitRun(parts[k]);
    }
    SplitJoin(parts);
    assert parts[1..] == [b, c];
    assert parts[1..][1..] == [c];
    assert JoinDots([c]) == c;
    assert JoinDots([b, c]) == b + "." + c;
    assert JoinDots(parts) == a + "." + (b + "." + c);
    assert a + "." + b + "." + c == a + "." + (b + "." + c);
  }

  /** Every character of an accepted string is a digit or a dot, and it has at least five. */
  lemma VersionAlphabet(s: string)
    requires IsVersion(s)
    ensures |s| >= 5
    ensures forall i :: 0 <= i < |s| ==> IsDigit(s[i]) || s[i] == '.'
  {
    VersionSound(s);
    var p := Split(s);
    forall i | 0 <= i < |s|
      ensures IsDigit(s[i]) || s[i] == '.'
    {
      if i < |p[0]| {
        assert s[i] == p[0][i];
      } else if i == |p[0]| {
      } else if i < |p[0]| + 1 + |p[1]| {
        assert s[i] == p[1][i - |p[0]| - 1];
      } else if i == |p[0]| + 1 + |p[1]| {
      } else {
        assert s[i] == p[2][i - |p[0]| - |p[1]| - 2];
      }
    }
  }

  lemma VersionExamples()
    ensures IsVersion("1.0.0")
    ensures IsVersion("10.20.300")
    ensures !IsVersion("1.0")
    ensures !IsVersion("1..0")
    ensures !IsVersion("1.0.0-beta")
    ensures !IsVersion("v1.0.0")
  {
    VersionComplete("1", "0", "0");
    assert "1" + "." + "0" + "." + "0" == "1.0.0";
    VersionComplete("10", "20", "300");
    assert "10" + "." + "20" + "." + "300" == "10.20.300";
    TooShort("1.0");
    TooShort("1..0");
    BadCharacter("1.0.0-beta", 5);
    BadCharacter("v1.0.0", 0);
  }

  lemma TooShort(s: string)
    requires |s| < 5
    ensures !IsVersion(s)
  {
    if IsVersion(s) {
      VersionAlphabet(s);
    }
  }

  lemma NoDot(s: string)
    requires DotFree(s)
    ensures !IsVersion(s)
  {
    if IsVersion(s) {
      VersionSound(s);
    }
  }

  lemma BadCharacter(s: string, i: nat)
    requires i < |s| && !IsDigit(s[i]) && s[i] != '.'
    ensures !IsVersion(s)
  {
    if IsVersion(s) {
      VersionAlphabet(s);
    }
  }
}

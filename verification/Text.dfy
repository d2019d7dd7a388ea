/** Decimal numbers, last positions, and paths split at and joined by slashes. */
module Text {

  function Digits(n: nat): (s: string)
    ensures |s| > 0
  {
    if n < 10 then [('0' as int + n) as char] else Digits(n / 10) + [('0' as int + n % 10) as char]
  }

  lemma {:induction false} DigitsInjective(a: nat, b: nat)
    requires Digits(a) == Digits(b)
    ensures a == b
  {
    var s, t := Digits(a), Digits(b);
    assert s[|s| - 1] == t[|t| - 1];
    if a >= 10 && b >= 10 {
      assert Digits(a / 10) == s[..|s| - 1] == t[..|t| - 1] == Digits(b / 10);
      DigitsInjective(a / 10, b / 10);
    }
  }

  /** base (i)ext, as both suffix loops build it. */
  function Suffixed(base: string, i: nat, ext: string): (r: string)
    ensures |r| > |base| + |ext|
  {
    base + " (" + Digits(i) + ")" + ext
  }

  lemma SuffixedInjective(base: string, ext: string, a: nat, b: nat)
    requires Suffixed(base, a, ext) == Suffixed(base, b, ext)
    ensures a == b
  {
    var x, y := Suffixed(base, a, ext), Suffixed(base, b, ext);
    var front, back := |base| + 2, |ext| + 1;
    assert x == base + " (" + (Digits(a) + (")" + ext)) && y == base + " (" + (Digits(b) + (")" + ext));
    assert Digits(a) == x[front..|x| - back];
    assert Digits(b) == y[front..|y| - back];
    DigitsInjective(a, b);
  }

  /** The last position of c in s, or -1. */
  function LastIndex(s: string, c: char): (i: int)
    ensures -1 <= i < |s|
    ensures i >= 0 ==> s[i] == c
    ensures forall j :: i < j < |s| ==> s[j] != c
  {
    if |s| == 0 then -1
    else if s[|s| - 1] == c then |s| - 1
    else LastIndex(s[..|s| - 1], c)
  }

  function Split(s: string): (parts: seq<string>)
    ensures |parts| > 0
  {
    if s == "" then [""]
    else
      var rest := Split(s[1..]);
      if s[0] == '/' then [""] + rest else [[s[0]] + rest[0]] + rest[1..]
  }

  function JoinSlash(parts: seq<string>): string {
    if |parts| == 0 then "" else if |parts| == 1 then parts[0] else parts[0] + "/" + JoinSlash(parts[1..])
  }

  lemma {:induction false} JoinSplit(s: string)
    ensures JoinSlash(Split(s)) == s
  {
    if s != "" {
      JoinSplit(s[1..]);
      var rest := Split(s[1..]);
      if s[0] == '/' {
        assert ([""] + rest)[1..] == rest;
        assert s == "" + "/" + s[1..];
      } else {
        var parts := [[s[0]] + rest[0]] + rest[1..];
        assert parts[1..] == rest[1..];
        assert s == [s[0]] + s[1..];
        if |rest| > 1 { assert JoinSlash(parts) == [s[0]] + rest[0] + "/" + JoinSlash(rest[1..]); }
      }
    }
  }

  lemma {:induction false} SplitOne(a: string)
    requires '/' !in a
    ensures Split(a) == [a]
  {
    if a != "" {
      SplitOne(a[1..]);
      assert a == [a[0]] + a[1..];
    }
  }

  lemma SplitTwo(a: string, b: string)
    requires '/' !in a && '/' !in b
    ensures Split(a + "/" + b) == [a, b]
  {
    SplitOne(a);
    SplitAppended(a, b);
  }

  /** A piece of a split has no slash, and no character the text lacks. */
  lemma {:induction false} SplitPieces(s: string, i: nat)
    requires i < |Split(s)|
    ensures '/' !in Split(s)[i] && forall c :: c in Split(s)[i] ==> c in s
  {
    if s != "" {
      var rest := Split(s[1..]);
      if s[0] == '/' {
        if i > 0 { SplitPieces(s[1..], i - 1); }
      } else {
        SplitPieces(s[1..], i);
        assert i > 0 ==> Split(s)[i] == rest[i];
        assert i == 0 ==> Split(s)[0] == [s[0]] + rest[0];
      }
    }
  }

  /** Text without a slash in front only lengthens the first piece. */
  lemma {:induction false} SplitPrefix(ins: string, b: string)
    requires '/' !in ins
    ensures Split(ins + b) == [ins + Split(b)[0]] + Split(b)[1..]
  {
    if ins == "" {
      assert ins + b == b && ins + Split(b)[0] == Split(b)[0];
    } else {
      SplitPrefix(ins[1..], b);
      assert (ins + b)[1..] == ins[1..] + b;
      assert ins + Split(b)[0] == [ins[0]] + (ins[1..] + Split(b)[0]);
    }
  }

  /** Text without a slash inserted anywhere changes one piece, which becomes at least as long. */
  lemma {:induction false} SplitInserted(a: string, ins: string, b: string, i: nat)
    requires '/' !in ins
    ensures |Split(a + ins + b)| == |Split(a + b)|
    ensures i < |Split(a + b)| ==> Split(a + ins + b)[i] == Split(a + b)[i] || |Split(a + ins + b)[i]| >= |ins|
  {
    if a == "" {
      SplitPrefix(ins, b);
      assert a + ins + b == ins + b && a + b == b;
    } else {
      assert (a + ins + b)[1..] == a[1..] + ins + b && (a + b)[1..] == a[1..] + b;
      SplitInserted(a[1..], ins, b, if a[0] == '/' && i > 0 then i - 1 else i);
    }
  }

  /** A slash between two texts splits there, and each text as before. */
  lemma {:induction false} SplitJoined(a: string, b: string)
    ensures Split(a + "/" + b) == Split(a) + Split(b)
  {
    var s := a + "/" + b;
    if a == "" {
      assert s[1..] == b;
    } else {
      SplitJoined(a[1..], b);
      assert s[0] == a[0] && s[1..] == a[1..] + "/" + b;
      PieceByPiece(a[0], Split(a[1..]), Split(b));
    }
  }

  lemma PieceByPiece(c: char, first: seq<string>, second: seq<string>)
    requires |first| > 0
    ensures [""] + (first + second) == [""] + first + second
    ensures [[c] + (first + second)[0]] + (first + second)[1..] == [[c] + first[0]] + first[1..] + second
  {
  }

  lemma SplitAppended(a: string, b: string)
    requires '/' !in b
    ensures Split(a + "/" + b) == Split(a) + [b]
  {
    SplitOne(b);
    SplitJoined(a, b);
  }
}

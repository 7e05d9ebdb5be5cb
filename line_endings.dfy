/**
 * Line-ending normalisation of decoded command output: the substitution of
 * the regular expression `\r\n?` by `\n`. The regex engine scans left to
 * right and `?` is greedy, so a carriage return followed by a line feed is
 * one match and a lone carriage return is a match of its own.
 */
module LineEndings {

  const CR := '\r'
  const LF := '\n'

  /** `re.sub(r'\r\n?', '\n', s)`. */
  function Normalize(s: string): (r: string)
    ensures CR !in r
    decreases |s|
  {
    if |s| == 0 then []
    else if s[0] == CR then
      if |s| >= 2 && s[1] == LF then [LF] + Normalize(s[2..])
      else [LF] + Normalize(s[1..])
    else [s[0]] + Normalize(s[1..])
  }

  /** The number of `\r\n` pairs in `s` (they never overlap). */
  function CountCRLF(s: string): nat
  {
    if |s| < 2 then 0
    else (if s[0] == CR && s[1] == LF then 1 else 0) + CountCRLF(s[1..])
  }

  /** The number of occurrences of `c` in `s`. */
  function Count(s: string, c: char): nat
  {
    if |s| == 0 then 0 else (if s[0] == c then 1 else 0) + Count(s[1..], c)
  }

  /** `s` with every line-break character removed: the text between the breaks. */
  function Plain(s: string): string
  {
    if |s| == 0 then []
    else if s[0] == CR || s[0] == LF then Plain(s[1..])
    else [s[0]] + Plain(s[1..])
  }

  /** Each `\r\n` pair shrinks to one character and nothing else changes length. */
  lemma {:induction false} NormalizeLength(s: string)
    ensures |Normalize(s)| == |s| - CountCRLF(s)
    decreases |s|
  {
    if |s| == 0 {
    } else if s[0] == CR && |s| >= 2 && s[1] == LF {
      NormalizeLength(s[2..]);
      assert s[1..][1..] == s[2..];
      assert CountCRLF(s[1..]) == CountCRLF(s[2..]);
    } else {
      NormalizeLength(s[1..]);
      if |s| >= 2 {
        assert CountCRLF(s) == CountCRLF(s[1..]);
      }
    }
  }

  /** Text without carriage returns is left exactly as it is. */
  lemma {:induction false} NormalizeIdentity(s: string)
    requires CR !in s
    ensures Normalize(s) == s
    decreases |s|
  {
    if |s| > 0 {
      assert s[0] in s;
      assert forall c :: c in s[1..] ==> c in s;
      NormalizeIdentity(s[1..]);
      assert [s[0]] + s[1..] == s;
    }
  }

  /** Normalising twice is the same as normalising once. */
  lemma NormalizeIdempotent(s: string)
    ensures Normalize(Normalize(s)) == Normalize(s)
  {
    NormalizeIdentity(Normalize(s));
  }

  /** Only line breaks are touched: the text between them is preserved in order. */
  lemma {:induction false} NormalizeKeepsText(s: string)
    ensures Plain(Normalize(s)) == Plain(s)
    decreases |s|
  {
    if |s| == 0 {
    } else {
      var r := Normalize(s);
      if s[0] == CR && |s| >= 2 && s[1] == LF {
        NormalizeKeepsText(s[2..]);
        assert r[1..] == Normalize(s[2..]);
        assert s[1..][1..] == s[2..];
      } else {
        NormalizeKeepsText(s[1..]);
        assert r[1..] == Normalize(s[1..]);
      }
    }
  }

  /**
   * Every line break of the input (`\n`, lone `\r` or `\r\n`) becomes exactly
   * one `\n` of the output.
   */
  lemma {:induction false} NormalizeCountsBreaks(s: string)
    ensures Count(Normalize(s), LF) == Count(s, LF) + Count(s, CR) - CountCRLF(s)
    decreases |s|
  {
    if |s| == 0 {
    } else {
      var r := Normalize(s);
      CountCRLFBound(s);
      if s[0] == CR && |s| >= 2 && s[1] == LF {
        NormalizeCountsBreaks(s[2..]);
        assert r[1..] == Normalize(s[2..]);
        assert s[1..][1..] == s[2..];
        assert CountCRLF(s[1..]) == CountCRLF(s[2..]);
      } else {
        NormalizeCountsBreaks(s[1..]);
        assert r[1..] == Normalize(s[1..]);
        if |s| >= 2 {
          assert CountCRLF(s) == CountCRLF(s[1..]);
        }
      }
    }
  }

  /** Each `\r\n` pair holds one of the carriage returns. */
  lemma {:induction false} CountCRLFBound(s: string)
    ensures CountCRLF(s) <= Count(s, CR)
    decreases |s|
  {
    if |s| >= 2 {
      CountCRLFBound(s[1..]);
    } else if |s| == 1 {
    }
  }

  /**
   * Output can be normalised chunk by chunk, provided a chunk does not end in
   * a carriage return whose line feed may start the next chunk.
   */
  lemma {:induction false} NormalizeAppend(a: string, b: string)
    requires a == [] || a[|a| - 1] != CR
    ensures Normalize(a + b) == Normalize(a) + Normalize(b)
    decreases |a|
  {
    if a == [] {
      assert a + b == b;
    } else if a[0] == CR && |a| >= 2 && a[1] == LF {
      assert (a + b)[2..] == a[2..] + b;
      NormalizeAppend(a[2..], b);
    } else {
      assert (a + b)[1..] == a[1..] + b;
      NormalizeAppend(a[1..], b);
    }
  }

  /** The output `hello\r\nworld` reads back as `hello\nworld`. */
  lemma HelloWorld()
    ensures Normalize("hello" + [CR, LF] + "world") == "hello" + [LF] + "world"
  {
    var hello, world := "hello", "world";
    NormalizeIdentity(hello);
    NormalizeIdentity(world);
    var tail := [CR, LF] + world;
    assert tail[2..] == world;
    assert hello + [CR, LF] + world == hello + tail;
    NormalizeAppend(hello, tail);
  }
}

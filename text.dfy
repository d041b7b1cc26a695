/** String operations the converter performs through JavaScript's `String.prototype.replace`. */
module Text {

  /** Position of the first occurrence of `c`. */
  function IndexOf(s: string, c: char): (i: nat)
    requires c in s
    ensures i < |s| && s[i] == c && c !in s[..i]
  {
    if s[0] == c then 0 else 1 + IndexOf(s[1..], c)
  }

  /**
   * `str.replace('\\', '')`: the pattern is a string, not a global regular
   * expression, so only the FIRST backslash is removed.
   */
  function UnescapeStr(s: string): (r: string)
    ensures '\\' !in s ==> r == s
    ensures |r| == if '\\' in s then |s| - 1 else |s|
  {
    if s == [] then []
    else if s[0] == '\\' then s[1..]
    else [s[0]] + UnescapeStr(s[1..])
  }

  /** Exactly the first backslash is cut out; everything around it stays in order. */
  lemma {:induction false} UnescapeStrRemovesFirst(s: string)
    requires '\\' in s
    ensures UnescapeStr(s) == s[..IndexOf(s, '\\')] + s[IndexOf(s, '\\') + 1..]
  {
    if s[0] != '\\' {
      UnescapeStrRemovesFirst(s[1..]);
      var i := IndexOf(s[1..], '\\');
      assert s[..i + 1] == [s[0]] + s[1..][..i];
      assert s[i + 2..] == s[1..][i + 1..];
    }
  }

  /** Putting a backslash in front is undone by UnescapeStr, whatever follows it. */
  lemma UnescapeStrEscaped(s: string)
    ensures UnescapeStr(['\\'] + s) == s
  {
  }

  /** A backslash-free prefix is copied and the search goes on behind it. */
  lemma {:induction false} UnescapeStrPrefix(p: string, s: string)
    requires '\\' !in p
    ensures UnescapeStr(p + s) == p + UnescapeStr(s)
  {
    if p != [] {
      assert (p + s)[0] == p[0];
      assert (p + s)[1..] == p[1..] + s;
      UnescapeStrPrefix(p[1..], s);
    } else {
      assert p + s == s;
    }
  }

  /**
   * UnescapeStr is not idempotent: when a second backslash follows the first,
   * a second application removes it too.
   */
  lemma UnescapeStrNotIdempotent(s: string)
    requires '\\' in s && '\\' in s[IndexOf(s, '\\') + 1..]
    ensures UnescapeStr(UnescapeStr(s)) != UnescapeStr(s)
  {
    var i := IndexOf(s, '\\');
    var t := s[i + 1..];
    var k := IndexOf(t, '\\');
    UnescapeStrRemovesFirst(s);
    var once := UnescapeStr(s);
    assert once[i + k] == '\\' by {
      assert once == s[..i] + t;
      assert |s[..i]| == i;
      assert once[i + k] == t[k];
    }
    assert |UnescapeStr(once)| == |once| - 1;
  }

  /** An escaped time zone name loses its backslash. */
  lemma UnescapeStrExample()
    ensures UnescapeStr("Asia" + (['\\'] + "/Tokyo")) == "Asia" + "/Tokyo"
  {
    UnescapeStrEscaped("/Tokyo");
    UnescapeStrPrefix("Asia", ['\\'] + "/Tokyo");
  }

  /** `body.replace(/\n/g, '<br>')` */
  function BreakLines(s: string): (r: string)
    ensures '\n' !in r
  {
    if s == [] then []
    else (if s[0] == '\n' then "<br>" else [s[0]]) + BreakLines(s[1..])
  }

  /** Text without a line feed is left as it is. */
  lemma {:induction false} BreakLinesUnchanged(s: string)
    requires '\n' !in s
    ensures BreakLines(s) == s
  {
    if s != [] {
      BreakLinesUnchanged(s[1..]);
    }
  }

  /** The conversion works piece by piece, so each line feed becomes one `<br>` in place. */
  lemma {:induction false} BreakLinesAppend(a: string, b: string)
    ensures BreakLines(a + b) == BreakLines(a) + BreakLines(b)
  {
    if a != [] {
      assert (a + b)[1..] == a[1..] + b;
      BreakLinesAppend(a[1..], b);
    } else {
      assert a + b == b;
    }
  }

  /** A line feed between two pieces turns into `<br>`. */
  lemma BreakLinesAtNewline(a: string, b: string)
    ensures BreakLines(a + "\n" + b) == BreakLines(a) + "<br>" + BreakLines(b)
  {
    BreakLinesAppend(a + "\n", b);
    BreakLinesAppend(a, "\n");
  }

  predicate EndsWith(s: string, suffix: string) {
    |suffix| <= |s| && s[|s| - |suffix|..] == suffix
  }

  lemma Assoc(a: string, b: string, c: string)
    ensures a + b + c == a + (b + c)
  {
  }

  /** The two halves of a concatenation are found again by slicing at the seam. */
  lemma Split(x: string, y: string)
    ensures (x + y)[..|x|] == x && (x + y)[|x|..] == y
  {
  }
}

/**
 * The JavaScript string operations the request handlers rely on:
 * `String.prototype.trim` and `String.prototype.split(',')`.
 * Strings are sequences of Unicode scalar values.
 */
module JsStrings {

  /** ECMAScript WhiteSpace and LineTerminator code points: what `trim` removes. */
  predicate IsSpace(c: char) {
    || c == '\t' || c == '\n' || c == '\U{000B}' || c == '\U{000C}' || c == '\r'
    || c == ' ' || c == '\U{00A0}' || c == '\U{1680}'
    || ('\U{2000}' <= c <= '\U{200A}')
    || c == '\U{2028}' || c == '\U{2029}' || c == '\U{202F}' || c == '\U{205F}'
    || c == '\U{3000}' || c == '\U{FEFF}'
  }

  predicate AllSpace(s: string) {
    forall k :: 0 <= k < |s| ==> IsSpace(s[k])
  }

  /** Number of white-space characters `s` starts with. */
  function LeadingSpace(s: string): (n: nat)
    ensures n <= |s|
    ensures forall k :: 0 <= k < n ==> IsSpace(s[k])
    ensures n < |s| ==> !IsSpace(s[n])
  {
    if s != [] && IsSpace(s[0]) then 1 + LeadingSpace(s[1..]) else 0
  }

  /** Number of white-space characters `s` ends with. */
  function TrailingSpace(s: string): (n: nat)
    ensures n <= |s|
    ensures forall k :: |s| - n <= k < |s| ==> IsSpace(s[k])
    ensures n < |s| ==> !IsSpace(s[|s| - n - 1])
  {
    if s != [] && IsSpace(s[|s| - 1]) then 1 + TrailingSpace(s[..|s| - 1]) else 0
  }

  /** Removes leading white space (ECMAScript TrimString with `start`). */
  function TrimStart(s: string): string {
    s[LeadingSpace(s)..]
  }

  /** `String.prototype.trim`: removes white space at both ends. */
  function Trim(s: string): (r: string)
    ensures var i := LeadingSpace(s);
      i + |r| <= |s| && r == s[i..i + |r|] && AllSpace(s[..i]) && AllSpace(s[i + |r|..])
    ensures r != [] ==> !IsSpace(r[0]) && !IsSpace(r[|r| - 1])
    ensures r == [] <==> AllSpace(s)
  {
    TrimInfix(s);
    TrimEnds(s);
    TrimEmpty(s);
    Trimmed(s)
  }

  /** The text between the leading and the trailing white space. */
  function Trimmed(s: string): string {
    var t := TrimStart(s);
    t[..|t| - TrailingSpace(t)]
  }

  lemma TrimInfix(s: string)
    ensures var i := LeadingSpace(s); var r := Trimmed(s);
      i + |r| <= |s| && r == s[i..i + |r|] && AllSpace(s[..i]) && AllSpace(s[i + |r|..])
  {
    TrimHead(s);
    TrimTail(s);
  }

  lemma TrimHead(s: string)
    ensures var i := LeadingSpace(s); var r := Trimmed(s);
      i + |r| <= |s| && r == s[i..i + |r|] && AllSpace(s[..i])
  {
  }

  lemma TrimTail(s: string)
    ensures LeadingSpace(s) + |Trimmed(s)| <= |s|
    ensures AllSpace(s[LeadingSpace(s) + |Trimmed(s)|..])
  {
    var t := TrimStart(s);
    assert s[LeadingSpace(s) + |Trimmed(s)|..] == t[|Trimmed(s)|..];
  }

  lemma TrimEnds(s: string)
    ensures var r := Trimmed(s); r != [] ==> !IsSpace(r[0]) && !IsSpace(r[|r| - 1])
  {
    var t := TrimStart(s);
    var r := Trimmed(s);
    if r != [] {
      assert r[0] == t[0];
      assert r[|r| - 1] == t[|t| - TrailingSpace(t) - 1];
    }
  }

  lemma TrimEmpty(s: string)
    ensures Trimmed(s) == [] <==> AllSpace(s)
  {
    var t := TrimStart(s);
    if Trimmed(s) == [] {
      if t != [] {
        assert false;
      }
      assert LeadingSpace(s) == |s|;
    }
  }

  /** A single non-space character is left alone. */
  lemma TrimSingle(c: char)
    requires !IsSpace(c)
    ensures Trim([c]) == [c]
  {
    assert !IsSpace([c][0]);
    assert LeadingSpace([c]) == 0;
  }

  /** One leading space before a non-space character is removed. */
  lemma TrimSpaced(c: char)
    requires !IsSpace(c)
    ensures Trim([' ', c]) == [c]
  {
    assert !IsSpace([' ', c][1]);
    assert LeadingSpace([' ', c]) == 1 by {
      assert [' ', c][1..] == [c];
    }
  }

  /** Trimming twice is trimming once. */
  lemma TrimIdempotent(s: string)
    ensures Trim(Trim(s)) == Trim(s)
  {
    var r := Trim(s);
    if r != [] {
      assert LeadingSpace(r) == 0;
      assert TrailingSpace(r) == 0;
    }
  }

  /** Number of occurrences of `c` in `s`. */
  function Count(s: string, c: char): nat
  {
    if s == [] then 0 else (if s[0] == c then 1 else 0) + Count(s[1..], c)
  }

  /**
   * `s.split(',')`: the maximal comma-free pieces between commas, in order,
   * empty pieces kept; `"".split(',')` is `[""]`.
   */
  function Split(s: string): (pieces: seq<string>)
    ensures |pieces| == Count(s, ',') + 1
    ensures forall i :: 0 <= i < |pieces| ==> ',' !in pieces[i]
    decreases |s|
  {
    if s == [] then [""]
    else
      var rest := Split(s[1..]);
      if s[0] == ',' then [""] + rest
      else [[s[0]] + rest[0]] + rest[1..]
  }

  /** `pieces.join(',')`, the inverse of `Split`. */
  function Join(pieces: seq<string>): string
    requires |pieces| >= 1
  {
    if |pieces| == 1 then pieces[0] else pieces[0] + "," + Join(pieces[1..])
  }

  /** Joining the pieces back with commas gives the original string. */
  lemma {:induction false} JoinSplit(s: string)
    ensures Join(Split(s)) == s
    decreases |s|
  {
    if s != [] {
      var rest := Split(s[1..]);
      JoinSplit(s[1..]);
      if s[0] == ',' {
        assert Join(Split(s)) == "" + "," + Join(rest);
      } else if |rest| == 1 {
        assert Join(Split(s)) == [s[0]] + rest[0];
      } else {
        assert Join(rest) == rest[0] + "," + Join(rest[1..]);
        assert Join(Split(s)) == ([s[0]] + rest[0]) + "," + Join(rest[1..]);
      }
    }
  }

  /** A comma-free string is a single piece. */
  lemma {:induction false} SplitNoComma(p: string)
    requires ',' !in p
    ensures Split(p) == [p]
    decreases |p|
  {
    if p != [] {
      SplitNoComma(p[1..]);
      assert [p[0]] + p[1..] == p;
    }
  }

  /** A comma-free prefix followed by a comma is the first piece. */
  lemma {:induction false} SplitAfterPiece(p: string, t: string)
    requires ',' !in p
    ensures Split(p + "," + t) == [p] + Split(t)
    decreases |p|
  {
    if p == [] {
      assert p + "," + t == [','] + t;
      assert (p + "," + t)[1..] == t;
    } else {
      assert (p + "," + t)[1..] == p[1..] + "," + t;
      SplitAfterPiece(p[1..], t);
      assert [p[0]] + p[1..] == p;
    }
  }

  /** Two comma-free pieces joined by one comma split back into the two. */
  lemma SplitTwo(a: string, b: string)
    requires ',' !in a && ',' !in b
    ensures Split(a + "," + b) == [a, b]
  {
    SplitNoComma(b);
    SplitAfterPiece(a, b);
  }

  /** Splitting the join of comma-free pieces gives the pieces back. */
  lemma {:induction false} SplitJoin(pieces: seq<string>)
    requires |pieces| >= 1
    requires forall i :: 0 <= i < |pieces| ==> ',' !in pieces[i]
    ensures Split(Join(pieces)) == pieces
    decreases |pieces|
  {
    if |pieces| == 1 {
      SplitNoComma(pieces[0]);
    } else {
      SplitJoin(pieces[1..]);
      SplitAfterPiece(pieces[0], Join(pieces[1..]));
      assert [pieces[0]] + pieces[1..] == pieces;
    }
  }
}

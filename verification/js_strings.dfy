/**
 * The JavaScript string operations the client and server code rely on:
 * `String.prototype.split` with a one-character separator, `Array.prototype.join`,
 * `String.prototype.trim` and ASCII case mapping.
 */
module JsStrings {

  /** `s.split(sep)` for a one-character separator: "" gives [""], "a..b" gives ["a", "", "b"]. */
  function Split(s: string, sep: char): (r: seq<string>)
    ensures |r| >= 1
    decreases |s|
  {
    if |s| == 0 then [""]
    else
      var rest := Split(s[1..], sep);
      if s[0] == sep then [""] + rest
      else [[s[0]] + rest[0]] + rest[1..]
  }

  /** `words.join(sep)`: starts with the first word, and each of the |words| - 1 gaps holds a separator. */
  function Join(words: seq<string>, sep: char): (r: string)
    ensures |words| >= 1 ==> words[0] <= r
    ensures |r| >= |words| - 1
    decreases |words|
  {
    if |words| == 0 then ""
    else if |words| == 1 then words[0]
    else words[0] + [sep] + Join(words[1..], sep)
  }

  /** Number of occurrences of `c` in `s`. */
  function Count(s: string, c: char): nat
  {
    if |s| == 0 then 0 else (if s[0] == c then 1 else 0) + Count(s[1..], c)
  }

  /** Joining the pieces of a split gives the original string back. */
  lemma {:induction false} JoinSplit(s: string, sep: char)
    ensures Join(Split(s, sep), sep) == s
    decreases |s|
  {
    if |s| > 0 {
      var rest := Split(s[1..], sep);
      JoinSplit(s[1..], sep);
      if s[0] == sep {
        assert Split(s, sep) == [""] + rest;
        assert Join([""] + rest, sep) == "" + [sep] + Join(rest, sep);
      } else {
        var r := Split(s, sep);
        assert r == [[s[0]] + rest[0]] + rest[1..];
        if |rest| == 1 {
          assert r == [[s[0]] + rest[0]];
        } else {
          assert r[1..] == rest[1..];
          assert Join(rest, sep) == rest[0] + [sep] + Join(rest[1..], sep);
        }
      }
    }
  }

  /** No piece of a split contains the separator. */
  lemma {:induction false} SplitPiecesFree(s: string, sep: char)
    ensures forall i :: 0 <= i < |Split(s, sep)| ==> sep !in Split(s, sep)[i]
    decreases |s|
  {
    if |s| > 0 {
      SplitPiecesFree(s[1..], sep);
      var rest := Split(s[1..], sep);
      if s[0] != sep {
        assert sep !in rest[0];
        assert sep !in [s[0]] + rest[0];
      }
    }
  }

  /** A split yields one more piece than there are separators. */
  lemma {:induction false} SplitLength(s: string, sep: char)
    ensures |Split(s, sep)| == Count(s, sep) + 1
    decreases |s|
  {
    if |s| > 0 {
      SplitLength(s[1..], sep);
    }
  }

  /** Splitting a join of separator-free pieces gives the pieces back. */
  lemma {:induction false} SplitJoin(words: seq<string>, sep: char)
    requires |words| >= 1
    requires forall i :: 0 <= i < |words| ==> sep !in words[i]
    ensures Split(Join(words, sep), sep) == words
    decreases |words|, |words[0]|
  {
    var w := words[0];
    if |words| == 1 {
      if |w| > 0 {
        SplitJoin([w[1..]], sep);
        assert w == [w[0]] + w[1..];
        assert Join([w[1..]], sep) == w[1..];
      }
    } else if |w| == 0 {
      SplitJoin(words[1..], sep);
      var j := Join(words, sep);
      assert j == [sep] + Join(words[1..], sep);
      assert j[1..] == Join(words[1..], sep);
    } else {
      var words' := [w[1..]] + words[1..];
      assert words'[1..] == words[1..];
      SplitJoin(words', sep);
      var j := Join(words, sep);
      assert j == [w[0]] + Join(words', sep);
      assert j[1..] == Join(words', sep);
      assert w == [w[0]] + w[1..];
    }
  }

  /** The join of the first k pieces is a prefix of the join of all of them. */
  lemma {:induction false} JoinPrefix(words: seq<string>, sep: char, k: nat)
    requires k <= |words|
    ensures Join(words[..k], sep) <= Join(words, sep)
    decreases k
  {
    if k > 0 && |words| > 1 {
      if k == 1 {
        assert words[..1] == [words[0]];
      } else {
        JoinPrefix(words[1..], sep, k - 1);
        assert words[..k][1..] == words[1..][..k - 1];
      }
    }
  }

  /** Joining splits at any inner boundary: the first k pieces, one separator, the rest. */
  lemma {:induction false} JoinAppend(words: seq<string>, sep: char, k: nat)
    requires 1 <= k < |words|
    ensures Join(words, sep) == Join(words[..k], sep) + [sep] + Join(words[k..], sep)
    decreases k
  {
    if k == 1 {
      assert words[..1] == [words[0]];
      assert words[1..] == words[k..];
    } else {
      JoinAppend(words[1..], sep, k - 1);
      assert words[..k][1..] == words[1..][..k - 1];
      assert words[1..][k - 1..] == words[k..];
    }
  }

  /** The characters `String.prototype.trim` removes: ECMAScript WhiteSpace and LineTerminator. */
  predicate IsJsWhitespace(c: char)
  {
    c == '\t' || c == '\n' || c == '\U{B}' || c == '\U{C}' || c == '\r' || c == ' '
    || c == '\U{A0}' || c == '\U{1680}' || ('\U{2000}' <= c <= '\U{200A}')
    || c == '\U{2028}' || c == '\U{2029}' || c == '\U{202F}' || c == '\U{205F}'
    || c == '\U{3000}' || c == '\U{FEFF}'
  }

  /** The number of leading whitespace characters. */
  function TrimStartIndex(s: string): (i: nat)
    ensures i <= |s|
    ensures forall k :: 0 <= k < i ==> IsJsWhitespace(s[k])
    ensures i < |s| ==> !IsJsWhitespace(s[i])
    decreases |s|
  {
    if |s| > 0 && IsJsWhitespace(s[0]) then
      var i := TrimStartIndex(s[1..]);
      assert forall k :: 1 <= k < i + 1 ==> s[k] == s[1..][k - 1];
      i + 1
    else 0
  }

  /** The length that remains once trailing whitespace is removed. */
  function TrimEndIndex(s: string): (j: nat)
    ensures j <= |s|
    ensures forall k :: j <= k < |s| ==> IsJsWhitespace(s[k])
    ensures j > 0 ==> !IsJsWhitespace(s[j - 1])
    decreases |s|
  {
    if |s| > 0 && IsJsWhitespace(s[|s| - 1]) then TrimEndIndex(s[..|s| - 1]) else |s|
  }

  /**
   * `s.trim()`: the piece of `s` between its leading and its trailing whitespace, or "" when
   * there is nothing else.
   */
  function Trim(s: string): (r: string)
    ensures |r| <= |s|
    ensures |r| > 0 ==> !IsJsWhitespace(r[0]) && !IsJsWhitespace(r[|r| - 1])
  {
    var i, j := TrimStartIndex(s), TrimEndIndex(s);
    if j <= i then "" else s[i..j]
  }

  /**
   * Trimming removes only whitespace, and only at the ends: either everything was whitespace and
   * the result is "", or the result is the slice between a whitespace-only prefix and suffix.
   */
  lemma TrimRemovesOnlyWhitespace(s: string)
    ensures var i, j := TrimStartIndex(s), TrimEndIndex(s);
            if Trim(s) == "" then forall k :: 0 <= k < |s| ==> IsJsWhitespace(s[k])
            else i < j && Trim(s) == s[i..j]
                 && (forall k :: 0 <= k < i ==> IsJsWhitespace(s[k]))
                 && (forall k :: j <= k < |s| ==> IsJsWhitespace(s[k]))
  {
    var i, j := TrimStartIndex(s), TrimEndIndex(s);
    if j <= i {
      forall k | 0 <= k < |s| ensures IsJsWhitespace(s[k]) {
        if k >= i && k < j { assert false; }
      }
    }
  }

  /** A string trims to "" exactly when every character is whitespace. */
  lemma TrimEmptyIff(s: string)
    ensures Trim(s) == "" <==> forall k :: 0 <= k < |s| ==> IsJsWhitespace(s[k])
  {
    TrimRemovesOnlyWhitespace(s);
    var i := TrimStartIndex(s);
    if Trim(s) != "" {
      assert i < |s| && !IsJsWhitespace(s[i]);
    }
  }

  /** Trimming twice is the same as trimming once. */
  lemma TrimIdempotent(s: string)
    ensures Trim(Trim(s)) == Trim(s)
  {
    var r := Trim(s);
    if |r| > 0 {
      assert TrimStartIndex(r) == 0;
      assert TrimEndIndex(r) == |r|;
      assert r[0..|r|] == r;
    }
  }

  /** ASCII `toLowerCase` for one character; every other character is kept. */
  function LowerChar(c: char): (r: char)
    ensures 'A' <= c <= 'Z' ==> 'a' <= r <= 'z'
    ensures !('A' <= c <= 'Z') ==> r == c
  {
    if 'A' <= c <= 'Z' then (c as int + 32) as char else c
  }

  /** ASCII `toUpperCase` for one character; every other character is kept. */
  function UpperChar(c: char): (r: char)
    ensures 'a' <= c <= 'z' ==> 'A' <= r <= 'Z'
    ensures !('a' <= c <= 'z') ==> r == c
  {
    if 'a' <= c <= 'z' then (c as int - 32) as char else c
  }

  /** `s.toLowerCase()` restricted to ASCII letters. */
  function ToLower(s: string): (r: string)
    ensures |r| == |s|
    ensures forall i :: 0 <= i < |s| ==> r[i] == LowerChar(s[i])
  {
    if |s| == 0 then "" else [LowerChar(s[0])] + ToLower(s[1..])
  }

  /** `s.toUpperCase()` restricted to ASCII letters. */
  function ToUpper(s: string): (r: string)
    ensures |r| == |s|
    ensures forall i :: 0 <= i < |s| ==> r[i] == UpperChar(s[i])
  {
    if |s| == 0 then "" else [UpperChar(s[0])] + ToUpper(s[1..])
  }

  /** Upper-casing first does not change the lower-case form: comparisons through ToLower ignore case. */
  lemma LowerOfUpper(s: string)
    ensures ToLower(ToUpper(s)) == ToLower(s)
  {
    var a, b := ToLower(ToUpper(s)), ToLower(s);
    forall i | 0 <= i < |s| ensures a[i] == b[i] {
      assert LowerChar(UpperChar(s[i])) == LowerChar(s[i]);
    }
  }
}

/** The home-page image card: a fixed caption shortened to six words. */
module HomeImage {
  import opened JsStrings
  import opened AvailableProducts

  /** The caption text before shortening. */
  const CaptionSource: string := "Pink macro image of a ranunculus flower"

  /** The caption shown on the card: `truncateText(text, 6)`. */
  function Caption(): string
  {
    TruncateText(CaptionSource, 6)
  }

  /** Joining six and seven words puts one separator between neighbours. */
  lemma JoinSeven(a: string, b: string, c: string, d: string, e: string, f: string, g: string, sep: char)
    ensures Join([a, b, c, d, e, f], sep) == a + [sep] + b + [sep] + c + [sep] + d + [sep] + e + [sep] + f
    ensures Join([a, b, c, d, e, f, g], sep) == a + [sep] + b + [sep] + c + [sep] + d + [sep] + e + [sep] + f + [sep] + g
  {
    JoinAppend([a, b], sep, 1);
    assert [a, b][..1] == [a] && [a, b][1..] == [b];
    JoinAppend([a, b, c], sep, 2);
    assert [a, b, c][..2] == [a, b] && [a, b, c][2..] == [c];
    JoinAppend([a, b, c, d], sep, 3);
    assert [a, b, c, d][..3] == [a, b, c] && [a, b, c, d][3..] == [d];
    JoinAppend([a, b, c, d, e], sep, 4);
    assert [a, b, c, d, e][..4] == [a, b, c, d] && [a, b, c, d, e][4..] == [e];
    JoinAppend([a, b, c, d, e, f], sep, 5);
    assert [a, b, c, d, e, f][..5] == [a, b, c, d, e] && [a, b, c, d, e, f][5..] == [f];
    JoinAppend([a, b, c, d, e, f, g], sep, 6);
    assert [a, b, c, d, e, f, g][..6] == [a, b, c, d, e, f] && [a, b, c, d, e, f, g][6..] == [g];
  }

  /** Any seven space-free words joined by spaces, shortened to six words, lose the last word and gain "...". */
  lemma SevenWordsTruncate(a: string, b: string, c: string, d: string, e: string, f: string, g: string)
    requires ' ' !in a && ' ' !in b && ' ' !in c && ' ' !in d && ' ' !in e && ' ' !in f && ' ' !in g
    ensures TruncateText(a + " " + b + " " + c + " " + d + " " + e + " " + f + " " + g, 6)
            == a + " " + b + " " + c + " " + d + " " + e + " " + f + "..."
  {
    var w := [a, b, c, d, e, f, g];
    JoinSeven(a, b, c, d, e, f, g, ' ');
    SplitJoin(w, ' ');
    assert w[..6] == [a, b, c, d, e, f];
    assert SliceEnd(7, 6) == 6;
  }

  /** A 39-character text is its pieces at the caption's word boundaries, concatenated. */
  lemma CaptionPieces(s: string)
    requires |s| == 39
    ensures s == s[..4] + [s[4]] + s[5..10] + [s[10]] + s[11..16] + [s[16]] + s[17..19] + [s[19]]
                 + s[20..21] + [s[21]] + s[22..32] + [s[32]] + s[33..]
  {
    assert s[..4] + [s[4]] == s[..5];
    assert s[..5] + s[5..10] == s[..10];
    assert s[..10] + [s[10]] == s[..11];
    assert s[..11] + s[11..16] == s[..16];
    assert s[..16] + [s[16]] == s[..17];
    assert s[..17] + s[17..19] == s[..19];
    assert s[..19] + [s[19]] == s[..20];
    assert s[..20] + s[20..21] == s[..21];
    assert s[..21] + [s[21]] == s[..22];
    assert s[..22] + s[22..32] == s[..32];
    assert s[..32] + [s[32]] == s[..33];
    assert s[..33] + s[33..] == s;
  }

  // The caption's spaces and words, located by index; each fact is kept small for the solver.
  lemma CaptionSpaces()
    ensures CaptionSource[4] == ' ' && CaptionSource[10] == ' ' && CaptionSource[16] == ' '
    ensures CaptionSource[19] == ' ' && CaptionSource[21] == ' ' && CaptionSource[32] == ' '
  {
  }
  lemma CaptionWord1() ensures CaptionSource[..4] == "Pink" {
    assert CaptionSource[0] == 'P' && CaptionSource[1] == 'i' && CaptionSource[2] == 'n' && CaptionSource[3] == 'k';
  }
  lemma CaptionWord2() ensures CaptionSource[5..10] == "macro" {
    assert forall k | 0 <= k < 5 :: CaptionSource[5..10][k] == CaptionSource[5 + k];
  }
  lemma CaptionWord3() ensures CaptionSource[11..16] == "image" {
    assert forall k | 0 <= k < 5 :: CaptionSource[11..16][k] == CaptionSource[11 + k];
  }
  lemma CaptionWord4() ensures CaptionSource[17..19] == "of" {}
  lemma CaptionWord5() ensures CaptionSource[20..21] == "a" {}
  lemma CaptionWord6() ensures CaptionSource[22..32] == "ranunculus" {}
  lemma CaptionWord7() ensures CaptionSource[33..] == "flower" {}

  /** The caption is the seven words "Pink", "macro", "image", "of", "a", "ranunculus", "flower" joined by spaces. */
  lemma CaptionWords()
    ensures CaptionSource == "Pink" + " " + "macro" + " " + "image" + " " + "of" + " " + "a" + " " + "ranunculus" + " " + "flower"
  {
    CaptionPieces(CaptionSource);
    CaptionSpaces();
    CaptionWord1(); CaptionWord2(); CaptionWord3(); CaptionWord4(); CaptionWord5(); CaptionWord6(); CaptionWord7();
  }

  /** The seven-word caption with limit 6 shows the first six words followed by "...". */
  lemma CaptionValue()
    ensures Caption() == "Pink" + " " + "macro" + " " + "image" + " " + "of" + " " + "a" + " " + "ranunculus" + "..."
  {
    CaptionWords();
    SevenWordsTruncate("Pink", "macro", "image", "of", "a", "ranunculus", "flower");
  }
}

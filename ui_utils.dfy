/**
 * The reader's small pure helpers: the record of an illustration to insert,
 * caption truncation, image scaling and the `font-family` stripper.
 */
module UiUtils {
  import opened Wrappers
  import opened Numerals
  import FontFamily

  /** An illustration to insert: base64 image data, the text block it follows and an optional caption. */
  datatype Illustration = Illustration(imgData: string, blockNum: int, caption: Option<string> := None)

  lemma IllustrationCaptionDefaultsToAbsent(imgData: string, blockNum: int)
    ensures Illustration(imgData, blockNum).caption == None
    ensures Illustration(imgData, blockNum).imgData == imgData
    ensures Illustration(imgData, blockNum).blockNum == blockNum
  {
  }

  /** Python's `s[:k]`: a negative `k` counts from the end, and both ends are clamped. */
  function SlicePrefix(s: string, k: int): (r: string)
    ensures |r| == if k >= |s| then |s| else if k >= 0 then k else if |s| + k < 0 then 0 else |s| + k
    ensures r == s[..|r|]
  {
    if k >= |s| then s
    else if k >= 0 then s[..k]
    else if |s| + k < 0 then ""
    else s[..|s| + k]
  }

  /**
   * A caption cut to `l` characters: when `s` is longer than `l`, its first
   * `l - |truncChar|` characters followed by `truncChar`.
   */
  function TruncateStr(s: string, l: int := 79, truncChar: string := "..."): (r: string)
    ensures |s| <= l ==> r == s
    ensures |s| > l >= |truncChar| ==>
              && |r| == l
              && r[..l - |truncChar|] == s[..l - |truncChar|]
              && r[l - |truncChar|..] == truncChar
    ensures |s| > l && l < |truncChar| ==>
              r == s[..if |s| + l - |truncChar| < 0 then 0 else |s| + l - |truncChar|] + truncChar
  {
    if |s| > l then SlicePrefix(s, l - |truncChar|) + truncChar else s
  }

  /** A truncated caption always fits, once the marker itself fits. */
  lemma TruncateStrFits(s: string, l: int, truncChar: string)
    requires |truncChar| <= l
    ensures |TruncateStr(s, l, truncChar)| <= l
  {
  }

  /** Truncating a truncated caption changes nothing. */
  lemma TruncateStrIdempotent(s: string, l: int, truncChar: string)
    requires |truncChar| <= l
    ensures TruncateStr(TruncateStr(s, l, truncChar), l, truncChar) == TruncateStr(s, l, truncChar)
  {
    TruncateStrFits(s, l, truncChar);
  }

  lemma TruncateStrDefaults()
    ensures TruncateStr("short caption") == "short caption"
    ensures |TruncateStr(seq(100, i => 'a'))| == 79
    ensures TruncateStr(seq(100, i => 'a'))[76..] == "..."
  {
  }

  /**
   * Both sides scaled by `largest / max(w, h)`, each truncated toward zero as
   * `int()` does; the arithmetic is exact.
   */
  function ScaleToLargest(w: int, h: int, largest: int): (r: (int, int))
    requires (if w > h then w else h) != 0
    ensures w > h ==> r.0 == largest
    ensures w <= h ==> r.1 == largest
  {
    var d := if w > h then w else h;
    MulDivCancel(largest, d);
    (TruncDiv(w * largest, d), TruncDiv(h * largest, d))
  }

  /** For non-negative sizes the smaller side is the floor of its exact scaled length. */
  lemma ScaleToLargestFloor(w: int, h: int, largest: int)
    requires 0 <= w && 0 <= h && 0 <= largest
    requires (if w > h then w else h) != 0
    ensures var r := ScaleToLargest(w, h, largest);
      && (w > h ==> r.1 * w <= h * largest < (r.1 + 1) * w)
      && (w <= h ==> r.0 * h <= w * largest < (r.0 + 1) * h)
  {
    var r := ScaleToLargest(w, h, largest);
    if w > h {
      FloorBracket(h * largest, w);
      assert r.1 == (h * largest) / w;
    } else {
      FloorBracket(w * largest, h);
      assert r.0 == (w * largest) / h;
    }
  }

  lemma FloorBracket(a: int, d: int)
    requires 0 <= a && 0 < d
    ensures (a / d) * d <= a < (a / d + 1) * d
  {
    assert d * (a / d) + a % d == a;
  }

  lemma ScaleToLargestSquare(side: int, largest: int)
    requires side != 0
    ensures ScaleToLargest(side, side, largest) == (largest, largest)
  {
    MulDivCancel(largest, side);
  }

  /** Down and up: the larger side is brought to the bound either way. */
  lemma ScaleToLargestExamples()
    ensures ScaleToLargest(2000, 1000, 768) == (768, 384)
    ensures ScaleToLargest(100, 50, 768) == (768, 384)
    ensures ScaleToLargest(300, 600, 1024) == (512, 1024)
  {
    MulDivCancel(768, 2000);
    MulDivCancel(768, 100);
    MulDivCancel(1024, 600);
  }

  /**
   * Every `font-family` declaration that follows `;`, `"` or white space is
   * cut out, up to and including the next `;` (or to the end); everything
   * else is kept in order.
   */
  function RemoveFontFamily(s: string): (r: string)
    ensures r == FontFamily.KeptFrom(s, 0)
    ensures |r| <= |s|
    ensures (forall m: nat :: m <= |s| ==> !FontFamily.NeedleAt(s, m)) ==> r == s
  {
    FontFamily.ScanMatchesReference(s, 0);
    FontFamily.NoNeedleUnchanged(s);
    FontFamily.Scan(s, 0)
  }

  /** A `font-family` at the very start has no character before it to satisfy the lookbehind, so it stays. */
  lemma LeadingFontFamilyKept(s: string)
    requires FontFamily.NeedleAt(s, 0)
    ensures RemoveFontFamily(s) == FontFamily.Needle + FontFamily.Scan(s, |FontFamily.Needle|)
    ensures RemoveFontFamily(s)[..|FontFamily.Needle|] == FontFamily.Needle
  {
    FontFamily.UnmatchedNeedleKept(s, 0);
  }

  lemma LeadingFontFamilyExample(s: string)
    requires s == "font-family:x"
    ensures RemoveFontFamily(s) == s
  {
    LeadingFontFamilyKept(s);
    FontFamily.CopiedWithoutF(s, 11, 13);
  }

  /** A declaration after `;` goes, with its own `;`. */
  lemma RemoveFontFamilyAfterSemicolon(s: string)
    requires s == "a;font-family:x;b"
    ensures RemoveFontFamily(s) == "a;b"
  {
    assert s == "a;" + FontFamily.Needle + ":x" + ";" + "b";
    FontFamily.RemovesClosedDeclaration("a;", ":x", "b");
  }

  /** The span runs across line breaks up to the next `;`. */
  lemma RemoveFontFamilyAcrossLines(s: string)
    requires s == "a\nfont-family:\nserif\n;b"
    ensures RemoveFontFamily(s) == "a\nb"
  {
    assert s == "a\n" + FontFamily.Needle + ":\nserif\n" + ";" + "b";
    FontFamily.RemovesClosedDeclaration("a\n", ":\nserif\n", "b");
  }

  /**
   * In an inline style whose last declaration has no `;`, the span does not
   * stop at the closing quote: it takes the markup and text up to the next `;`.
   */
  lemma RemoveFontFamilyRunsPastQuote(s: string)
    requires s == "<p style=\"font-family:x\">Hi; there"
    ensures RemoveFontFamily(s) == "<p style=\" there"
  {
    assert s == "<p style=\"" + FontFamily.Needle + ":x\">Hi" + ";" + " there";
    FontFamily.RemovesClosedDeclaration("<p style=\"", ":x\">Hi", " there");
  }

  /** Without a `;` the span runs to the end of the string. */
  lemma RemoveFontFamilyToEnd(s: string)
    requires s == "x font-family: serif"
    ensures RemoveFontFamily(s) == "x "
  {
    assert s == "x " + FontFamily.Needle + ": serif";
    FontFamily.RemovesOpenDeclaration("x ", ": serif");
  }
}

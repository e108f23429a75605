/**
 * The reader widget's link handling: a clicked link's URL is split at its
 * last `#`, and the part after it is the anchor to scroll to. A URL without
 * `#` leaves the view where it is.
 */
module Widgets {
  import opened Wrappers

  /** The index of the last `c` in `s`, if any. */
  function LastIndexOf(s: string, c: char): (r: Option<nat>)
    ensures r.None? <==> c !in s
    ensures r.Some? ==> r.value < |s| && s[r.value] == c
    ensures r.Some? ==> forall j :: r.value < j < |s| ==> s[j] != c
  {
    if |s| == 0 then None
    else if s[|s| - 1] == c then Some(|s| - 1)
    else
      assert s == s[..|s| - 1] + [s[|s| - 1]];
      LastIndexOf(s[..|s| - 1], c)
  }

  /**
   * The anchor `scroll_to_anchor` scrolls to for a link to `url`, or `None`
   * when the split finds no `#` and the handler returns without scrolling.
   */
  function ScrollTarget(url: string): (r: Option<string>)
    ensures r.None? <==> '#' !in url
    ensures r.Some? ==> '#' !in r.value
    ensures r.Some? ==> |r.value| < |url| && url == url[..|url| - |r.value| - 1] + "#" + r.value
  {
    match LastIndexOf(url, '#')
    case None => None
    case Some(k) =>
      assert url == url[..k] + "#" + url[k + 1..];
      Some(url[k + 1..])
  }

  /** Splitting undoes joining: whatever precedes the last `#`, the anchor comes back. */
  lemma ScrollTargetOfJoin(prefix: string, anchor: string)
    requires '#' !in anchor
    ensures ScrollTarget(prefix + "#" + anchor) == Some(anchor)
  {
    var url := prefix + "#" + anchor;
    assert url[|prefix|] == '#';
    var k := LastIndexOf(url, '#').value;
    assert url[k + 1..] == anchor;
  }

  /** A link ending in `#` still scrolls, to the empty anchor. */
  lemma TrailingHashGivesEmptyAnchor(url: string)
    requires |url| > 0 && url[|url| - 1] == '#'
    ensures ScrollTarget(url) == Some("")
  {
  }

  lemma ScrollTargetExamples(a: string, b: string, c: string)
    requires a == "chapter2.xhtml#note-3" && b == "index.html" && c == "a#b#c"
    ensures ScrollTarget(a) == Some("note-3")
    ensures ScrollTarget(b) == None
    ensures ScrollTarget(c) == Some("c")
  {
    ScrollTargetOfJoin("chapter2.xhtml", "note-3");
    assert a == "chapter2.xhtml" + "#" + "note-3";
    ScrollTargetOfJoin("a#b", "c");
    assert c == "a#b" + "#" + "c";
  }
}

/**
 * The book loader's own copy of the `font-family` stripper. It uses the same
 * pattern as the one in the UI helpers, and the model proves the two agree.
 */
module BookUtils {
  import FontFamily
  import UiUtils

  function RemoveFontFamily(s: string): (r: string)
    ensures r == UiUtils.RemoveFontFamily(s)
    ensures r == FontFamily.KeptFrom(s, 0)
    ensures |r| <= |s|
    ensures (forall m: nat :: m <= |s| ==> !FontFamily.NeedleAt(s, m)) ==> r == s
  {
    FontFamily.ScanMatchesReference(s, 0);
    FontFamily.NoNeedleUnchanged(s);
    FontFamily.Scan(s, 0)
  }
}

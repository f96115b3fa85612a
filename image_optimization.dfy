/**
 * The image optimiser's URL rewrite for responsive images: the width marker
 * `-<width>w` is inserted before the extension of the path.
 *
 * The width is a whole number of pixels, written in decimal. The loading,
 * lazy-loading and preloading of images in the same class act on the page and are
 * not modelled.
 */
module ImageOptimization {
  import opened JsCore

  /** `p.split('.').pop()`: the text after the last dot, or the whole path when it has none. */
  function Extension(p: string): (e: string)
    ensures '.' !in e
    ensures |e| <= |p| && e == p[|p| - |e|..]
    ensures '.' !in p ==> e == p
  {
    p[LastIndexOf(p, '.') + 1..]
  }

  /** `p.substring(0, p.lastIndexOf('.'))`: the text before the last dot. Without a dot
      the end index is -1, which `substring` treats as 0, so the stem is empty. */
  function Stem(p: string): (s: string)
    ensures '.' !in p ==> s == []
    ensures |s| <= |p| && s == p[..|s|]
  {
    var k := LastIndexOf(p, '.');
    if k < 0 then [] else p[..k]
  }

  /** The stem with the width marker `-<width>w` appended. */
  function Marked(basePath: string, width: nat): string
  {
    Stem(basePath) + "-" + Decimal(width) + "w"
  }

  /** `getResponsiveImageUrl(basePath, width)`: the marked stem, a dot, the extension. */
  function ResponsiveImageUrl(basePath: string, width: nat): (url: string)
    ensures |url| == |Stem(basePath)| + |Decimal(width)| + |Extension(basePath)| + 3
    ensures url[..|Stem(basePath)|] == Stem(basePath)
    ensures url[|url| - |Extension(basePath)| - 1..] == "." + Extension(basePath)
  {
    Marked(basePath, width) + "." + Extension(basePath)
  }

  /** The last dot of `a + "." + b`, when `b` has none, is the one between them. */
  lemma LastDotBefore(a: string, b: string)
    requires '.' !in b
    ensures LastIndexOf(a + "." + b, '.') == |a|
  {
    var s := a + "." + b;
    assert s[|a|] == '.' && s[|a| + 1..] == b;
  }

  /** A path with a dot is its stem, the dot and its extension. */
  lemma StemAndExtensionRecompose(p: string)
    requires '.' in p
    ensures Stem(p) + "." + Extension(p) == p
  {
    var k := LastIndexOf(p, '.');
    assert p == p[..k] + [p[k]] + p[k + 1..];
  }

  /** The rewritten URL keeps the path's extension, and its stem is the path's stem with
      the width marker appended; this holds for a path without a dot too, whose whole
      text counts as the extension. */
  lemma UrlKeepsExtension(basePath: string, width: nat)
    ensures Extension(ResponsiveImageUrl(basePath, width)) == Extension(basePath)
    ensures Stem(ResponsiveImageUrl(basePath, width)) == Stem(basePath) + "-" + Decimal(width) + "w"
  {
    var a := Marked(basePath, width);
    var e := Extension(basePath);
    var url := a + "." + e;
    LastDotBefore(a, e);
    assert url[|a| + 1..] == e && url[..|a|] == a;
  }

  /** Without a dot the whole path counts as the extension and lands after the marker,
      so the URL starts with '-' and ends with the path. */
  lemma PathWithoutDot(basePath: string, width: nat)
    requires '.' !in basePath
    ensures var url := ResponsiveImageUrl(basePath, width);
      url[0] == '-' && |url| > |basePath| && url[|url| - |basePath|..] == basePath
  {
    var a := Marked(basePath, width);
    assert Stem(basePath) == [] && Extension(basePath) == basePath;
    assert a[0] == '-';
    var url := a + "." + basePath;
    assert url[|url| - |basePath|..] == basePath;
  }

  /** The example in the method's documentation is not what it computes: "/images/photo"
      at width 1200 does not become "/images/photo-1200w.jpg". */
  lemma DocumentedExampleNotProduced()
    ensures ResponsiveImageUrl("/images/photo", 1200) != "/images/photo-1200w.jpg"
  {
    var p := "/images/photo";
    assert '.' !in p;
    PathWithoutDot(p, 1200);
  }
}

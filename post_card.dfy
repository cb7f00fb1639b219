/**
 * The cover-image path normalisation of the post card component
 * (components/PostCard.js): the front-matter `image` value is rewritten in
 * two sequential steps so that the path handed to the image component starts
 * with a `/`.
 */
module PostCard {

  predicate StartsWith(s: string, prefix: string)
  {
    |prefix| <= |s| && s[..|prefix|] == prefix
  }

  /** Number of `/` characters at the start of `s`. */
  function LeadingSlashCount(s: string): (k: nat)
    ensures k <= |s|
    ensures forall i :: 0 <= i < k ==> s[i] == '/'
    ensures k < |s| ==> s[k] != '/'
  {
    if |s| > 0 && s[0] == '/' then 1 + LeadingSlashCount(s[1..]) else 0
  }

  /**
   * Reference definition of the normalised path, by cases on the prefix:
   * a `//` prefix loses its first character, a single `/` prefix is kept,
   * and anything else gets a `/` in front.
   */
  function NormalizedImageSrc(image: string): string
  {
    if StartsWith(image, "//") then image[1..]
    else if StartsWith(image, "/") then image
    else "/" + image
  }

  /**
   * The component's own two-step rewrite of the local `imageSrc`: first drop
   * one character when it starts with `//`, then prepend `/` when it does not
   * start with `/`.
   */
  method NormalizeImageSrc(image: string) returns (imageSrc: string)
    ensures imageSrc == NormalizedImageSrc(image)
    ensures |imageSrc| > 0 && imageSrc[0] == '/'
  {
    imageSrc := image;
    if StartsWith(imageSrc, "//") {
      imageSrc := imageSrc[1..];
      assert StartsWith(imageSrc, "/") by { assert imageSrc[..1] == image[1..2]; }
    }
    if !StartsWith(imageSrc, "/") {
      imageSrc := "/" + imageSrc;
    }
  }

  /**
   * The normalised path is a single `/` followed by the input with at most
   * two of its leading slashes removed. In particular it always starts
   * with `/`, even for the empty input.
   */
  lemma NormalizedIsSlashThenRest(image: string)
    ensures var k := if LeadingSlashCount(image) < 2 then LeadingSlashCount(image) else 2;
            NormalizedImageSrc(image) == "/" + image[k..]
    ensures NormalizedImageSrc(image)[0] == '/'
  {
    var n := LeadingSlashCount(image);
    if n >= 2 {
      assert StartsWith(image, "//") by { assert image[..2] == "//"; }
      assert image[1..] == "/" + image[2..];
    } else if n == 1 {
      assert image[..1] == "/";
      assert !StartsWith(image, "//");
      assert image == "/" + image[1..];
    } else {
      assert !StartsWith(image, "/");
      assert !StartsWith(image, "//");
    }
  }

  /** `"//a/b.png"` becomes `"/a/b.png"`: exactly the first character is dropped. */
  lemma DoubleSlashLosesOneCharacter(image: string)
    requires StartsWith(image, "//")
    ensures NormalizedImageSrc(image) == image[1..]
    ensures |NormalizedImageSrc(image)| == |image| - 1
  {
  }

  /** A path starting with one `/` but not `//` is returned unchanged. */
  lemma SingleSlashUnchanged(image: string)
    requires StartsWith(image, "/") && !StartsWith(image, "//")
    ensures NormalizedImageSrc(image) == image
  {
  }

  /** A path with no leading `/` gets exactly one `/` prepended. */
  lemma NoSlashGetsOnePrepended(image: string)
    requires !StartsWith(image, "/")
    ensures NormalizedImageSrc(image) == "/" + image
    ensures |NormalizedImageSrc(image)| == |image| + 1
  {
  }

  /**
   * How many slashes the normalised path starts with: one whenever the input
   * starts with at most two, and otherwise one fewer than the input. So the
   * result starts with exactly one slash iff the input starts with at most
   * two; `"///a"` becomes `"//a"`.
   */
  lemma {:induction false} LeadingSlashesAfterNormalizing(image: string)
    ensures var n := LeadingSlashCount(image);
            LeadingSlashCount(NormalizedImageSrc(image)) == if n <= 2 then 1 else n - 1
  {
    var n := LeadingSlashCount(image);
    var k := if n < 2 then n else 2;
    NormalizedIsSlashThenRest(image);
    var rest := image[k..];
    LeadingSlashesOfSuffix(image, k);
    assert ("/" + rest)[1..] == rest;
  }

  /** Dropping `k` leading slashes lowers the leading-slash count by `k`. */
  lemma {:induction false} LeadingSlashesOfSuffix(s: string, k: nat)
    requires k <= LeadingSlashCount(s)
    ensures LeadingSlashCount(s[k..]) == LeadingSlashCount(s) - k
  {
    if k > 0 {
      LeadingSlashesOfSuffix(s[1..], k - 1);
      assert s[1..][k - 1..] == s[k..];
    }
  }

  /**
   * Normalising twice gives the same path as normalising once exactly when
   * the input starts with at most two slashes.
   */
  lemma IdempotentIffAtMostTwoLeadingSlashes(image: string)
    ensures NormalizedImageSrc(NormalizedImageSrc(image)) == NormalizedImageSrc(image)
            <==> LeadingSlashCount(image) <= 2
  {
    var once := NormalizedImageSrc(image);
    var n := LeadingSlashCount(image);
    LeadingSlashesAfterNormalizing(image);
    LeadingSlashesAfterNormalizing(once);
    if n <= 2 {
      assert LeadingSlashCount(once) == 1;
      NormalizedIsSlashThenRest(once);
      assert "/" + once[1..] == once;
    } else {
      assert LeadingSlashCount(NormalizedImageSrc(once)) != LeadingSlashCount(once);
    }
  }

  /** An input with three leading slashes, such as `"///a"`, is changed again by a second pass. */
  lemma TripleSlashNotIdempotent()
    ensures NormalizedImageSrc("///a") == "//a"
    ensures NormalizedImageSrc(NormalizedImageSrc("///a")) == "/a"
  {
    assert StartsWith("///a", "//");
    assert StartsWith("//a", "//");
  }
}

/**
 * The home page's build-time listing (src/pages/index.tsx): every file of the
 * posts directory is turned into a post, the batch is rejected as a whole
 * when the directory is empty or some front matter lacks a title or a date,
 * the posts are sorted newest first, and the page returns the first
 * `PageSize` posts together with the list of page numbers.
 *
 * Reading the directory and parsing front matter are not modelled: the input
 * is the sequence of files with their already-parsed front matter.
 */
module Listing {

  /** Number of posts on one listing page. */
  const PageSize: nat := 4

  datatype Option<T> = None | Some(value: T)

  /**
   * The parsed front matter of one file. `None` stands for a field that is
   * absent or falsy; a date is a timestamp.
   */
  datatype FrontMatter = FrontMatter(
    title: Option<string>,
    date: Option<int>,
    description: Option<string>,
    image: Option<string>)

  /** One entry of the posts directory: its file name and its front matter. */
  datatype PostFile = PostFile(fileName: string, frontMatter: FrontMatter)

  datatype Post = Post(frontMatter: FrontMatter, slug: string)

  /** The two errors the listing throws (and then catches). */
  datatype LoadError = NoPostsFound | InvalidFrontMatter(fileName: string)

  datatype Result<T> = Ok(value: T) | Err(error: LoadError)

  /** The props handed to the home page. */
  datatype Props = Props(posts: seq<Post>, pages: seq<int>)

  // ---------------------------------------------------------------------------
  // range and the page numbers

  /**
   * `range(start, end)`: the integers `start, start + 1, …, end`, built from
   * an array of length `end - start + 1`; a negative length counts as zero.
   * The source's optional third parameter, which overrides that length, is
   * left out: the only call passes two arguments.
   */
  function Range(start: int, end: int): seq<int>
  {
    var length := end - start + 1;
    seq(if length < 0 then 0 else length, i => start + i)
  }

  /** `range` yields exactly the integers between its bounds, in increasing order. */
  lemma RangeMembers(start: int, end: int)
    ensures |Range(start, end)| == if end < start then 0 else end - start + 1
    ensures forall x :: x in Range(start, end) <==> start <= x <= end
    ensures forall i, j :: 0 <= i < j < |Range(start, end)| ==> Range(start, end)[i] < Range(start, end)[j]
  {
    var r := Range(start, end);
    forall x | start <= x <= end
      ensures x in r
    {
      assert r[x - start] == x;
    }
  }

  /** `Math.ceil(n / d)` for a count `n` and a positive divisor `d`. */
  function CeilDiv(n: nat, d: nat): nat
    requires d > 0
  {
    (n + d - 1) / d
  }

  /** `CeilDiv(n, d)` is the least number of blocks of size `d` that hold `n` items. */
  lemma CeilDivIsLeastCover(n: nat, d: nat)
    requires d > 0
    ensures n <= CeilDiv(n, d) * d
    ensures (CeilDiv(n, d) - 1) * d < n
    ensures CeilDiv(n, d) == 0 <==> n == 0
  {
    var c := CeilDiv(n, d);
    var m := (n + d - 1) % d;
    assert n + d - 1 == c * d + m;
    assert (c - 1) * d == c * d - d;
  }

  /** The page numbers for `n` posts: `range(1, Math.ceil(n / PAGE_SIZE))`. */
  function PageNumbers(n: nat): seq<int>
  {
    Range(1, CeilDiv(n, PageSize))
  }

  /**
   * The page list is `[1, 2, …, ceil(n / 4)]`: enough pages for all posts and
   * not one more; it is empty iff there are no posts, and otherwise starts
   * with page 1.
   */
  lemma PageNumbersCoverPosts(n: nat)
    ensures forall i :: 0 <= i < |PageNumbers(n)| ==> PageNumbers(n)[i] == i + 1
    ensures (|PageNumbers(n)| - 1) * PageSize < n <= |PageNumbers(n)| * PageSize
    ensures PageNumbers(n) == [] <==> n == 0
    ensures n >= 1 ==> PageNumbers(n)[0] == 1
  {
    CeilDivIsLeastCover(n, PageSize);
    RangeMembers(1, CeilDiv(n, PageSize));
  }

  // ---------------------------------------------------------------------------
  // Loading the posts

  predicate EndsWith(s: string, suffix: string)
  {
    |suffix| <= |s| && s[|s| - |suffix|..] == suffix
  }

  /** `fileName.replace(/\.md$/, "")`: one trailing `.md` is removed, if any. */
  function Slug(fileName: string): string
  {
    if EndsWith(fileName, ".md") then fileName[..|fileName| - 3] else fileName
  }

  /**
   * The slug undoes appending `.md` (so `"x.md.md"` gives `"x.md"`), and a
   * name that does not end in `.md` (such as `"x.mdx"`) is its own slug.
   */
  lemma SlugRemovesOneSuffix(name: string)
    ensures Slug(name + ".md") == name
    ensures !EndsWith(name, ".md") ==> Slug(name) == name
    ensures EndsWith(name, ".md") ==> Slug(name) + ".md" == name
  {
    var s := name + ".md";
    assert s[|s| - 3..] == ".md";
    assert s[..|s| - 3] == name;
  }

  /** `!data.title || !data.date` is false: both fields are present and truthy. */
  predicate HasRequiredFrontMatter(fm: FrontMatter)
  {
    fm.title.Some? && fm.title.value != "" && fm.date.Some?
  }

  /** `files.map(...)`: each file becomes a post, and the first file whose
   * front matter lacks a title or a date aborts the whole map.
   */
  function LoadPosts(files: seq<PostFile>): (r: Result<seq<Post>>)
    ensures r.Ok? <==> forall i :: 0 <= i < |files| ==> HasRequiredFrontMatter(files[i].frontMatter)
    ensures r.Ok? ==> |r.value| == |files|
    ensures r.Ok? ==> forall i :: 0 <= i < |files| ==>
              r.value[i] == Post(files[i].frontMatter, Slug(files[i].fileName))
    ensures r.Err? ==> exists i :: 0 <= i < |files| && FirstInvalid(files, i)
                                   && r.error == InvalidFrontMatter(files[i].fileName)
  {
    if files == [] then Ok([])
    else if !HasRequiredFrontMatter(files[0].frontMatter) then
      assert FirstInvalid(files, 0);
      Err(InvalidFrontMatter(files[0].fileName))
    else
      match LoadPosts(files[1..])
      case Err(e) =>
        assert forall i :: 0 <= i < |files| - 1 && FirstInvalid(files[1..], i) ==> FirstInvalid(files, i + 1);
        Err(e)
      case Ok(rest) => Ok([Post(files[0].frontMatter, Slug(files[0].fileName))] + rest)
  }

  /** `files[i]` is the first file whose front matter is rejected. */
  predicate FirstInvalid(files: seq<PostFile>, i: int)
    requires 0 <= i < |files|
  {
    !HasRequiredFrontMatter(files[i].frontMatter)
    && forall j :: 0 <= j < i ==> HasRequiredFrontMatter(files[j].frontMatter)
  }

  /** The whole batch is rejected: no files at all, or some file is invalid. */
  predicate Rejected(files: seq<PostFile>)
  {
    |files| == 0 || exists i :: 0 <= i < |files| && !HasRequiredFrontMatter(files[i].frontMatter)
  }

  /**
   * The body of the `try` up to the sort: an empty directory throws
   * "No posts found.", and otherwise the files are loaded one by one.
   */
  function LoadAllPosts(files: seq<PostFile>): (r: Result<seq<Post>>)
    ensures r.Err? <==> Rejected(files)
    ensures |files| == 0 ==> r == Err(NoPostsFound)
    ensures |files| > 0 ==> r == LoadPosts(files)
  {
    if |files| == 0 then Err(NoPostsFound) else LoadPosts(files)
  }

  // ---------------------------------------------------------------------------
  // Sorting newest first

  /** `new Date(post.frontMatter.date || 0)`: a missing date sorts as time 0. */
  function DateOrZero(p: Post): int
  {
    match p.frontMatter.date
    case Some(d) => d
    case None => 0
  }

  /** Every post is at least as new as every post after it. */
  predicate NewestFirst(s: seq<Post>)
  {
    forall i, j :: 0 <= i < j < |s| ==> DateOrZero(s[i]) >= DateOrZero(s[j])
  }

  /** Newest-first order is the same as each post being at least as new as the next one. */
  lemma {:induction false} NewestFirstIffAdjacent(s: seq<Post>)
    ensures NewestFirst(s) <==> forall i :: 0 <= i < |s| - 1 ==> DateOrZero(s[i]) >= DateOrZero(s[i + 1])
  {
    if |s| > 1 && forall i :: 0 <= i < |s| - 1 ==> DateOrZero(s[i]) >= DateOrZero(s[i + 1]) {
      NewestFirstIffAdjacent(s[1..]);
      assert NewestFirst(s[1..]);
      forall i, j | 0 <= i < j < |s|
        ensures DateOrZero(s[i]) >= DateOrZero(s[j])
      {
        if i > 0 {
          assert DateOrZero(s[1..][i - 1]) >= DateOrZero(s[1..][j - 1]);
        } else if j > 1 {
          assert DateOrZero(s[1..][0]) >= DateOrZero(s[1..][j - 1]);
        }
      }
    }
  }

  method Swap(a: array<Post>, i: int, j: int)
    requires 0 <= i < a.Length && 0 <= j < a.Length
    modifies a
    ensures a[..] == old(a[..])[i := old(a[j])][j := old(a[i])]
    ensures multiset(a[..]) == multiset(old(a[..]))
  {
    a[i], a[j] := a[j], a[i];
  }

  /**
   * `posts.sort((a, b) => date(b) - date(a))`, in place: afterwards the array
   * holds the same posts, newest first; an array already in that order is
   * left as it is.
   */
  method SortNewestFirst(a: array<Post>)
    modifies a
    ensures NewestFirst(a[..])
    ensures multiset(a[..]) == multiset(old(a[..]))
    ensures NewestFirst(old(a[..])) ==> a[..] == old(a[..])
  {
    var i := 0;
    while i < a.Length
      invariant 0 <= i <= a.Length
      invariant forall p, q :: 0 <= p < q < i ==> DateOrZero(a[p]) >= DateOrZero(a[q])
      invariant multiset(a[..]) == multiset(old(a[..]))
      invariant NewestFirst(old(a[..])) ==> a[..] == old(a[..])
    {
      var j := i;
      while j > 0 && DateOrZero(a[j - 1]) < DateOrZero(a[j])
        invariant 0 <= j <= i
        invariant forall p, q :: 0 <= p < q <= i && p != j && q != j ==> DateOrZero(a[p]) >= DateOrZero(a[q])
        invariant forall q :: j < q <= i ==> DateOrZero(a[j]) > DateOrZero(a[q])
        invariant multiset(a[..]) == multiset(old(a[..]))
        invariant NewestFirst(old(a[..])) ==> a[..] == old(a[..])
      {
        Swap(a, j - 1, j);
        j := j - 1;
      }
      i := i + 1;
    }
  }

  // ---------------------------------------------------------------------------
  // getStaticProps

  /**
   * The home page's props. A rejected batch (no files, or a file without a
   * title or date) yields no posts and no pages. Otherwise the posts are
   * sorted newest first (`sorted`, a permutation of the loaded posts), the
   * page holds the first `min(n, 4)` of them, and `pages` is the page list
   * for `n` posts.
   */
  method GetStaticProps(files: seq<PostFile>) returns (props: Props, ghost sorted: seq<Post>)
    ensures props.posts == [] && props.pages == [] <==> Rejected(files)
    ensures !Rejected(files) ==>
              && LoadAllPosts(files).Ok?
              && |sorted| == |files| && NewestFirst(sorted)
              && multiset(sorted) == multiset(LoadAllPosts(files).value)
              && |props.posts| == (if |files| < PageSize then |files| else PageSize)
              && props.posts == sorted[..|props.posts|]
              && props.pages == PageNumbers(|files|)
    ensures props.posts != [] ==> props.pages != [] && props.pages[0] == 1
  {
    var loaded := LoadAllPosts(files);
    if loaded.Err? {
      return Props([], []), [];
    }
    var posts := loaded.value;
    var a := new Post[|posts|](i requires 0 <= i < |posts| => posts[i]);
    assert a[..] == posts;
    SortNewestFirst(a);
    sorted := a[..];
    var pages := PageNumbers(|posts|);
    PageNumbersCoverPosts(|posts|);
    var count := if a.Length < PageSize then a.Length else PageSize;
    props := Props(a[..count], pages);
  }

  /** Five valid posts: the home page shows four of them and offers pages 1 and 2. */
  method FivePostsListing(files: seq<PostFile>)
    requires |files| == 5
    requires forall i :: 0 <= i < 5 ==> HasRequiredFrontMatter(files[i].frontMatter)
  {
    var props, sorted := GetStaticProps(files);
    assert |props.posts| == 4;
    PageNumbersCoverPosts(5);
    assert props.pages == [1, 2];
  }
}

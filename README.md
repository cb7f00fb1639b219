# Blog home-page listing and cover-image paths, in Dafny

This project models the two computations of a statically generated Next.js
blog that run on data rather than on markup:

- **The home-page listing** (`getStaticProps` of `src/pages/index.tsx`). Each
  file of the posts directory becomes a post. Its slug is the file name with a
  trailing `.md` removed, and its front matter is kept whole. The whole batch
  is rejected when the directory is empty or when any file's front matter
  lacks a truthy `title` or `date`. A rejected batch gives the page no posts
  and no page numbers. Otherwise the posts are sorted in place, newest first.
  The page receives the first `PAGE_SIZE = 4` of them and the page list
  `range(1, Math.ceil(n / 4))`.
- **The cover-image path** of a post card (`components/PostCard.js`). The
  front-matter `image` value is rewritten in two steps. A path starting with
  `//` loses its first character. Then a path that does not start with `/`
  gets one prepended.

Module `Listing` (`listing.dfy`) holds the listing, and module `PostCard`
(`post_card.dfy`) holds the image path.

Design decisions:

- The directory read and the front-matter parser are not modelled. The input
  of `Listing.GetStaticProps` is the sequence of `PostFile`s: a file name plus
  its parsed `FrontMatter`.
- A date is an integer timestamp. `None` stands for a field that is absent or
  falsy. A title is also falsy when it is the empty string.
- `getStaticProps` mixes pure code with an in-place sort, so it is a method.
  Loading is the pure function `Listing.LoadPosts`, which mirrors `files.map`
  throwing at the first invalid file. The sort is the in-place method
  `Listing.SortNewestFirst` over an array. The exception and its `catch`
  become the `Result` returned by `Listing.LoadAllPosts` (which adds the
  empty-directory error to `LoadPosts`) and the fallback branch of
  `GetStaticProps`.
- `GetStaticProps` returns the sorted array as a ghost out-parameter, so that
  "the page shows a prefix of the sorted posts" can be stated.
- The image rewrite is the method `PostCard.NormalizeImageSrc`, which keeps the
  source's local variable and two sequential `if`s. It is proved equal to the
  case-by-case function `PostCard.NormalizedImageSrc`, and the lemmas are
  about that function.
- Image paths follow the code: a `//` prefix loses one character only, so
  `"///a"` becomes `"//a"`, not `"/a"`. `PostCard.LeadingSlashesAfterNormalizing`
  shows that the result starts with exactly one slash iff the input starts
  with at most two.

## Model

| member | source | states |
|---|---|---|
| `Listing.RangeMembers` | src/pages/index.tsx:19-20 | `range(start, end)` has `end - start + 1` elements, or none when `end < start`. Its elements are exactly the integers from `start` to `end`, in strictly increasing order. |
| `Listing.CeilDivIsLeastCover` | src/pages/index.tsx:54 | `Math.ceil(n / d)` is the least number of blocks of `d` that hold `n` items: `(c - 1) * d < n <= c * d`. It is zero iff `n` is zero. |
| `Listing.PageNumbersCoverPosts` | src/pages/index.tsx:54 | The page list for `n` posts is `[1, 2, …, ceil(n / 4)]`, with `(|pages| - 1) * 4 < n <= |pages| * 4`. It is empty iff `n == 0`, and otherwise starts with 1. |
| `Listing.SlugRemovesOneSuffix` | src/pages/index.tsx:32 | The slug removes exactly one trailing `.md`: `Slug(name + ".md") == name` for every name, so `"x.md.md"` gives `"x.md"`. A name not ending in `.md`, such as `"x.mdx"`, is unchanged. |
| `Listing.LoadPosts` | src/pages/index.tsx:31-44 | Loading succeeds iff every file has a truthy title and date. On success, post `i` is file `i`'s front matter with its slug, in directory order. On failure, the error names the first invalid file. |
| `Listing.LoadAllPosts` | src/pages/index.tsx:25-44 | Loading fails iff the batch is rejected: an empty directory fails with "No posts found.", and a non-empty one fails exactly when some file lacks a truthy title or date. |
| `Listing.NewestFirstIffAdjacent` | src/pages/index.tsx:47-51 | Newest-first order over all pairs is equivalent to each post being at least as new as the next one. |
| `Listing.SortNewestFirst` | src/pages/index.tsx:47-51 | The in-place sort leaves the array newest first and a permutation of what it held. An array already newest first is left unchanged. |
| `Listing.GetStaticProps` | src/pages/index.tsx:22-71 | `posts` and `pages` are both empty iff the directory is empty or some file lacks a title or date: all or nothing. Otherwise `sorted` is a newest-first permutation of the loaded posts. `posts` is its first `min(n, 4)` entries, and `pages` is the page list for `n`. Non-empty `posts` implies `pages` starts with 1. |
| `PostCard.NormalizeImageSrc` | components/PostCard.js:9-18 | The two-step rewrite computes the case-by-case normal form, and the result always starts with `/`. |
| `PostCard.NormalizedIsSlashThenRest` | components/PostCard.js:13-18 | The result is one `/` followed by the input with at most two leading slashes removed. So `""` becomes `"/"`, and the length changes by −1, 0 or +1 and nothing else. |
| `PostCard.DoubleSlashLosesOneCharacter` | components/PostCard.js:13-15 | An input starting with `//` loses exactly its first character: `"//a/b.png"` becomes `"/a/b.png"`. |
| `PostCard.SingleSlashUnchanged` | components/PostCard.js:13-16 | An input starting with `/` but not `//` is returned unchanged. |
| `PostCard.NoSlashGetsOnePrepended` | components/PostCard.js:16-18 | An input without a leading `/` gets exactly one `/` prepended. |
| `PostCard.LeadingSlashesAfterNormalizing` | components/PostCard.js:13-18 | The result starts with one slash when the input starts with at most two. Otherwise it starts with one slash fewer than the input. |
| `PostCard.IdempotentIffAtMostTwoLeadingSlashes` | components/PostCard.js:13-18 | Normalising twice equals normalising once iff the input starts with at most two slashes. |
| `PostCard.TripleSlashNotIdempotent` | components/PostCard.js:13-15 | `"///a"` normalises to `"//a"`, and a second pass gives `"/a"`. |

## Left out

- Reading the posts directory and each file (`fs.readdirSync`, `fs.readFileSync`) and parsing front matter with `gray-matter`: the parsed files are the input. A directory that cannot be read would throw into the same fallback as an empty one. So would an entry that cannot be read as a file (a sub-directory of `posts/`, say) and front matter that `gray-matter` cannot parse: each rejects the whole batch, as an invalid title or date does, but `PostFile` cannot express them.
- `new Date(...)` string parsing and the NaN an unparsable date would give in the comparator: dates are integer timestamps.
- `Listing.SortNewestFirst`: stability under equal dates is not proved. The source relies on the JavaScript engine's `Array.prototype.sort`, which the shown code does not establish.
- `Listing.CeilDivIsLeastCover`: floating-point division in `Math.ceil(n / 4)` is exact for any realistic post count, so it is modelled as integer ceiling division.
- Logging (`console.error`, `console.log`): no observable effect on the result.
- The `Home` component's rendering, including the "no posts" message and the pagination bar: presentation.
- `md.render(description)` in the post card: it calls the markdown-it library, which is not part of this model.
- The `onError` fallback to `/default-image.JPG`: browser event handling.
- A missing `image` field makes the post card throw on `.startsWith`: `PostCard.NormalizeImageSrc` takes the image path as a string that is present.
- JavaScript strings are UTF-16 code units; here a string is a sequence of characters, which agrees for the `/` and `.md` tests made.
- The paginated page (`src/pages/page/[page].js`), category pages, post pages with their markdown pipeline, analytics, header, layout, pagination links and sitemap configuration are not part of this model.

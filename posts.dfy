/** The blog post record shared by the insights list and the post page, and the
    order-preserving `Array.prototype.filter` both pages use. */
module Posts {

  datatype Post = Post(
    slug: string,
    title: string,
    date: string,
    description: string,
    tags: seq<string>,
    author: string,
    readTime: string,
    content: string)

  /** `a` is `b` with some entries left out, the rest kept in their order. */
  predicate IsSubsequence<T(==)>(a: seq<T>, b: seq<T>)
    decreases |b|
  {
    a == [] || (b != [] && ((a[0] == b[0] && IsSubsequence(a[1..], b[1..])) || IsSubsequence(a, b[1..])))
  }

  lemma {:induction false} SubsequenceTransitive<T>(a: seq<T>, b: seq<T>, c: seq<T>)
    requires IsSubsequence(a, b) && IsSubsequence(b, c)
    ensures IsSubsequence(a, c)
    decreases |c|
  {
    if a != [] {
      if IsSubsequence(b, c[1..]) {
        SubsequenceTransitive(a, b, c[1..]);
      } else if a[0] == b[0] && IsSubsequence(a[1..], b[1..]) {
        SubsequenceTransitive(a[1..], b[1..], c[1..]);
      } else {
        SubsequenceTransitive(a, b[1..], c[1..]);
      }
    }
  }

  /** A prefix is a subsequence. */
  lemma {:induction false} PrefixIsSubsequence<T>(s: seq<T>, n: nat)
    requires n <= |s|
    ensures IsSubsequence(s[..n], s)
    decreases n
  {
    if n > 0 {
      assert s[..n][1..] == s[1..][..n - 1];
      PrefixIsSubsequence(s[1..], n - 1);
    }
  }

  /** `s.filter(keep)`: exactly the entries that pass, in their original order. */
  function Filter(s: seq<Post>, keep: Post -> bool): (r: seq<Post>)
    ensures forall x :: x in r <==> x in s && keep(x)
    ensures forall x :: multiset(r)[x] == (if keep(x) then multiset(s)[x] else 0)
    ensures IsSubsequence(r, s)
    decreases |s|
  {
    if s == [] then []
    else
      assert s == [s[0]] + s[1..];
      if keep(s[0]) then [s[0]] + Filter(s[1..], keep)
      else Filter(s[1..], keep)
  }

  /** Two filters in a row are one filter by both tests. */
  lemma {:induction false} FilterFusion(s: seq<Post>, first: Post -> bool, second: Post -> bool, both: Post -> bool)
    requires forall x :: both(x) == (first(x) && second(x))
    ensures Filter(Filter(s, first), second) == Filter(s, both)
    decreases |s|
  {
    if s != [] {
      FilterFusion(s[1..], first, second, both);
      if first(s[0]) {
        var f := Filter(s, first);
        assert f == [s[0]] + Filter(s[1..], first);
        assert f[0] == s[0] && f[1..] == Filter(s[1..], first);
      }
    }
  }

  /** Filtering keeps everything when every entry passes. */
  lemma {:induction false} FilterAll(s: seq<Post>, keep: Post -> bool)
    requires forall x :: x in s ==> keep(x)
    ensures Filter(s, keep) == s
    decreases |s|
  {
    if s != [] {
      FilterAll(s[1..], keep);
    }
  }
}

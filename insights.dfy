/**
  The insights list page: the sorted, de-duplicated index of every tag used by any post,
  the search-and-tag filter over the posts, and the tag buttons that select or clear the
  active tag.
 */
module Insights {
  import opened Optional
  import opened Strings
  import opened Posts

  // ---------------------------------------------------------------- the tag index

  /** Strictly ascending in the default sort order, hence also free of duplicates. */
  predicate StrictlySorted(s: seq<string>) {
    forall i, j :: 0 <= i < j < |s| ==> Below(s[i], s[j])
  }

  /** A strictly sorted sequence holds no string twice. */
  lemma {:induction false} SortedNoDuplicates(s: seq<string>)
    requires StrictlySorted(s)
    ensures forall i, j :: 0 <= i < j < |s| ==> s[i] != s[j]
  {
    forall i, j | 0 <= i < j < |s|
      ensures s[i] != s[j]
    {
      BelowIrreflexive(s[i]);
    }
  }

  /** Every tag of every post. */
  ghost function Tagged(posts: seq<Post>): set<string> {
    set p, t | p in posts && t in p.tags :: t
  }

  /** The elements of a sequence, as a set. */
  ghost function Elements(s: seq<string>): set<string> {
    set x | x in s
  }

  /** `x` placed into the strictly sorted `s` at its position, unless it is already there. */
  function Insert(s: seq<string>, x: string): seq<string>
    decreases |s|
  {
    if s == [] then [x]
    else if x == s[0] then s
    else if Below(x, s[0]) then [x] + s
    else [s[0]] + Insert(s[1..], x)
  }

  lemma {:induction false} InsertSorted(s: seq<string>, x: string)
    requires StrictlySorted(s)
    ensures StrictlySorted(Insert(s, x))
    ensures forall y :: y in Insert(s, x) <==> y in s || y == x
    decreases |s|
  {
    if s == [] {
    } else if x == s[0] {
    } else if Below(x, s[0]) {
      var r := [x] + s;
      forall i, j | 0 <= i < j < |r|
        ensures Below(r[i], r[j])
      {
        if i == 0 && j > 1 {
          BelowTransitive(x, s[0], s[j - 1]);
        }
      }
    } else {
      BelowTotal(x, s[0]);
      var t := Insert(s[1..], x);
      InsertSorted(s[1..], x);
      var r := [s[0]] + t;
      forall i, j | 0 <= i < j < |r|
        ensures Below(r[i], r[j])
      {
        if i == 0 {
          assert r[j] in t;
          if r[j] != x {
            var k :| 0 <= k < |s[1..]| && s[1..][k] == r[j];
            assert Below(s[0], s[k + 1]);
          }
        }
      }
    }
  }

  /** `Array.prototype.sort()` with the default order: the same strings, ascending, each once. */
  function SortStrings(s: seq<string>): (r: seq<string>)
    ensures StrictlySorted(r)
    ensures forall y :: y in r <==> y in s
    decreases |s|
  {
    if s == [] then []
    else
      var init := SortStrings(s[..|s| - 1]);
      InsertSorted(init, s[|s| - 1]);
      assert forall y :: y in s <==> y in s[..|s| - 1] || y == s[|s| - 1] by {
        assert s == s[..|s| - 1] + [s[|s| - 1]];
      }
      Insert(init, s[|s| - 1])
  }

  /** Two strictly sorted sequences with the same elements are the same sequence: the tag
      index is determined by the set of tags alone, whatever order it was gathered in. */
  lemma {:induction false} SortedUnique(a: seq<string>, b: seq<string>)
    requires StrictlySorted(a) && StrictlySorted(b)
    requires forall y :: y in a <==> y in b
    ensures a == b
    decreases |a|
  {
    assert a != [] ==> a[0] in a;
    assert b != [] ==> b[0] in b;
    if a != [] && b != [] {
      if a[0] != b[0] {
        var i :| 0 <= i < |b| && b[i] == a[0];
        var j :| 0 <= j < |a| && a[j] == b[0];
        assert Below(b[0], a[0]) by {
          if i == 0 { assert false; }
        }
        assert Below(a[0], b[0]) by {
          if j == 0 { assert false; }
        }
        BelowAsymmetric(a[0], b[0]);
      } else {
        forall y
          ensures y in a[1..] <==> y in b[1..]
        {
          if y in a[1..] {
            var k :| 0 <= k < |a[1..]| && a[1..][k] == y;
            assert Below(a[0], a[k + 1]);
            BelowIrreflexive(y);
            assert y in b;
          }
          if y in b[1..] {
            var k :| 0 <= k < |b[1..]| && b[1..][k] == y;
            assert Below(b[0], b[k + 1]);
            BelowIrreflexive(y);
            assert y in a;
          }
        }
        SortedUnique(a[1..], b[1..]);
      }
    }
  }

  lemma TaggedSnoc(posts: seq<Post>, p: Post)
    ensures Tagged(posts + [p]) == Tagged(posts) + Elements(p.tags)
  {
  }

  /** `allTags`: every tag of every post added to a set in the order met, then sorted. */
  method AllTags(posts: seq<Post>) returns (tags: seq<string>)
    ensures StrictlySorted(tags)
    ensures forall t :: t in tags <==> exists p :: p in posts && t in p.tags
  {
    var seen: seq<string> := [];
    for i := 0 to |posts|
      invariant Elements(seen) == Tagged(posts[..i])
    {
      var post := posts[i];
      for j := 0 to |post.tags|
        invariant Elements(seen) == Tagged(posts[..i]) + Elements(post.tags[..j])
      {
        var tag := post.tags[j];
        if tag !in seen {
          assert Elements(seen + [tag]) == Elements(seen) + {tag};
          seen := seen + [tag];
        }
        assert post.tags[..j + 1] == post.tags[..j] + [tag];
      }
      assert post.tags[..|post.tags|] == post.tags;
      assert posts[..i + 1] == posts[..i] + [post];
      TaggedSnoc(posts[..i], post);
    }
    assert posts[..|posts|] == posts;
    tags := SortStrings(seen);
    forall t
      ensures t in tags <==> exists p :: p in posts && t in p.tags
    {
      assert t in tags <==> t in Elements(seen);
    }
  }

  // ---------------------------------------------------------------- the filter

  /** The search test: an empty query matches everything; otherwise the lower-cased query
      must occur in the lower-cased title or description. `lower` stands for
      `String.prototype.toLowerCase`. */
  predicate MatchesSearch(post: Post, query: string, lower: string -> string) {
    query == "" || Contains(lower(post.title), lower(query)) || Contains(lower(post.description), lower(query))
  }

  /** The tag test: no active tag (or an empty one) matches everything; otherwise the post
      must carry the active tag. */
  predicate MatchesTag(post: Post, activeTag: Option<string>) {
    activeTag.None? || activeTag.value == "" || activeTag.value in post.tags
  }

  /** `filteredPosts`: the posts that pass both tests, in their original order. */
  function FilteredPosts(posts: seq<Post>, query: string, activeTag: Option<string>, lower: string -> string): (r: seq<Post>)
    ensures forall p :: p in r <==> p in posts && MatchesSearch(p, query, lower) && MatchesTag(p, activeTag)
    ensures IsSubsequence(r, posts)
  {
    Filter(posts, (p: Post) => MatchesSearch(p, query, lower) && MatchesTag(p, activeTag))
  }

  /** With an empty query and no active tag, every post is listed, in order. */
  lemma EverythingUnfiltered(posts: seq<Post>, lower: string -> string)
    ensures FilteredPosts(posts, "", None, lower) == posts
  {
    FilterAll(posts, (p: Post) => MatchesSearch(p, "", lower) && MatchesTag(p, None));
  }

  /** Only the title and the description are searched: two posts that agree on those are
      either both found or both not, whatever their tags and content. */
  lemma SearchIgnoresTagsAndContent(a: Post, b: Post, query: string, lower: string -> string)
    requires a.title == b.title && a.description == b.description
    ensures MatchesSearch(a, query, lower) <==> MatchesSearch(b, query, lower)
  {
  }

  /** A post is found exactly when the lower-cased query occurs at some position of the
      lower-cased title or description. */
  lemma SearchFindsOccurrence(post: Post, query: string, lower: string -> string)
    requires query != ""
    ensures MatchesSearch(post, query, lower) <==>
      (exists k: nat :: OccursAt(lower(post.title), lower(query), k)) ||
      (exists k: nat :: OccursAt(lower(post.description), lower(query), k))
  {
    if Contains(lower(post.title), lower(query)) {
      ContainsOnlyAt(lower(post.title), lower(query));
    }
    if Contains(lower(post.description), lower(query)) {
      ContainsOnlyAt(lower(post.description), lower(query));
    }
    if exists k: nat :: OccursAt(lower(post.title), lower(query), k) {
      var k: nat :| OccursAt(lower(post.title), lower(query), k);
      ContainsAt(lower(post.title), lower(query), k);
    }
    if exists k: nat :: OccursAt(lower(post.description), lower(query), k) {
      var k: nat :| OccursAt(lower(post.description), lower(query), k);
      ContainsAt(lower(post.description), lower(query), k);
    }
  }

  // ---------------------------------------------------------------- the tag buttons

  /** A tag button: clicking the active tag clears it, clicking any other selects it. */
  function ClickedTag(activeTag: Option<string>, tag: string): (r: Option<string>)
    ensures r == None <==> activeTag == Some(tag)
    ensures r != None ==> r == Some(tag)
  {
    if activeTag == Some(tag) then None else Some(tag)
  }

  /** The search box and the active tag of the page. */
  class InsightsPage {
    var searchQuery: string
    var activeTag: Option<string>

    constructor ()
      ensures searchQuery == "" && activeTag == None
    {
      searchQuery := "";
      activeTag := None;
    }

    /** Typing in the search box. */
    method SetQuery(q: string)
      modifies this
      ensures searchQuery == q && activeTag == old(activeTag)
    {
      searchQuery := q;
    }

    /** The "All" button clears the tag filter. */
    method ClickAll()
      modifies this
      ensures activeTag == None && searchQuery == old(searchQuery)
    {
      activeTag := None;
    }

    /** A tag button toggles that tag. */
    method ClickTag(tag: string)
      modifies this
      ensures activeTag == ClickedTag(old(activeTag), tag) && searchQuery == old(searchQuery)
    {
      activeTag := if activeTag == Some(tag) then None else Some(tag);
    }
  }

  /** Clicking one tag twice ends with that tag active when it was active before, and with
      the filter cleared otherwise. */
  lemma ClickTwice(activeTag: Option<string>, tag: string)
    ensures ClickedTag(ClickedTag(activeTag, tag), tag) == (if activeTag == Some(tag) then Some(tag) else None)
  {
  }
}

/** The article record of `Models/Article.swift`, as decoded from a feed. */
module ArticleModel {
  import opened Options

  datatype Multimedia = Multimedia(url: string)

  /** The decoded fields; `abstractText` is the field named `abstract`.  The
      `id` property, a fresh identifier on every access, is not part of the
      value. */
  datatype Article = Article(
    section: string,
    title: string,
    abstractText: string,
    url: string,
    multimedia: Option<seq<Multimedia>>)

  /** An article is worth listing when it has a link and a title. */
  predicate IsPresentable(a: Article)
  {
    a.url != "null" && a.title != ""
  }

  /** The article's `==`: only the link is compared. */
  predicate Same(a: Article, b: Article)
  {
    a.url == b.url
  }

  /** What `hash(into:)` feeds the hasher, in order. */
  function HashFeed(a: Article): seq<string>
  {
    [a.url]
  }

  /** `==` is an equivalence relation. */
  lemma SameIsEquivalence()
    ensures forall a :: Same(a, a)
    ensures forall a, b :: Same(a, b) ==> Same(b, a)
    ensures forall a, b, c :: Same(a, b) && Same(b, c) ==> Same(a, c)
  {
  }

  /** Articles with one link are equal whatever else they carry. */
  lemma SameIgnoresContent(a: Article, section: string, title: string, abstractText: string, media: Option<seq<Multimedia>>)
    ensures Same(a, Article(section, title, abstractText, a.url, media))
  {
  }

  /** Hashing agrees with `==` in both directions: equal articles feed the
      hasher the same values, and articles that feed it the same values are
      equal. */
  lemma HashAgreesWithSame(a: Article, b: Article)
    ensures Same(a, b) <==> HashFeed(a) == HashFeed(b)
  {
    if HashFeed(a) == HashFeed(b) {
      assert HashFeed(a)[0] == HashFeed(b)[0];
    }
  }

  /** `multimedia?[1]` reads the second entry, which traps when the list has
      fewer than two. */
  predicate HasCoverImage(a: Article)
  {
    a.multimedia.None? || |a.multimedia.value| >= 2
  }

  /** The url of the second multimedia entry, or nothing without multimedia. */
  function CoverImageURL(a: Article): (r: Option<string>)
    requires HasCoverImage(a)
    ensures r.None? <==> a.multimedia.None?
    ensures r.Some? ==> |a.multimedia.value| >= 2 && r.value == a.multimedia.value[1].url
  {
    match a.multimedia
    case None => None
    case Some(media) => Some(media[1].url)
  }

  /** `xs` is `ys` with some elements deleted, the rest kept in order. */
  predicate IsSubsequence<T(==)>(xs: seq<T>, ys: seq<T>)
    decreases |ys|
  {
    if |xs| == 0 then true
    else if |ys| == 0 then false
    else if xs[0] == ys[0] then IsSubsequence(xs[1..], ys[1..])
    else IsSubsequence(xs, ys[1..])
  }

  /** `articles.filter(\.isPresentable)`. */
  function Presentable(list: seq<Article>): (kept: seq<Article>)
    ensures |kept| <= |list|
    ensures forall i :: 0 <= i < |kept| ==> IsPresentable(kept[i])
    ensures forall a :: multiset(kept)[a] == if IsPresentable(a) then multiset(list)[a] else 0
    decreases |list|
  {
    if |list| == 0 then []
    else
      assert list == [list[0]] + list[1..];
      (if IsPresentable(list[0]) then [list[0]] else []) + Presentable(list[1..])
  }

  /** The filter keeps the input's order. */
  lemma {:induction false} PresentableKeepsOrder(list: seq<Article>)
    ensures IsSubsequence(Presentable(list), list)
    decreases |list|
  {
    if |list| > 0 {
      PresentableKeepsOrder(list[1..]);
      var rest := Presentable(list[1..]);
      if IsPresentable(list[0]) {
        assert Presentable(list) == [list[0]] + rest;
        assert ([list[0]] + rest)[1..] == rest;
      } else {
        assert Presentable(list) == rest;
        if |rest| > 0 {
          assert IsPresentable(rest[0]);
          assert rest[0] != list[0];
        }
      }
    }
  }

  /** A list whose every entry is presentable passes the filter unchanged. */
  lemma {:induction false} PresentableOfPresentable(list: seq<Article>)
    requires forall i :: 0 <= i < |list| ==> IsPresentable(list[i])
    ensures Presentable(list) == list
    decreases |list|
  {
    if |list| > 0 {
      PresentableOfPresentable(list[1..]);
      assert [list[0]] + list[1..] == list;
    }
  }

  /** Filtering the stored list again changes nothing. */
  lemma PresentableIdempotent(list: seq<Article>)
    ensures Presentable(Presentable(list)) == Presentable(list)
  {
    PresentableOfPresentable(Presentable(list));
  }
}

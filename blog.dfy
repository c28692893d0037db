/**
 * The blog page's post list: the posts fetched from the content store are
 * filtered by the search box, which matches the title or, when the post has a
 * non-empty body, its content, ignoring case. The category buttons are shown
 * but do not take part in the filter.
 */
module Blog {

  import opened Wrappers
  import Seqs
  import Text

  /** The fields of a blog post record that the page reads. */
  datatype Post = Post(
    id: string,
    title: string,
    excerpt: Option<string>,
    content: Option<string>,
    createdAt: string)

  /** The search box matches the title, or the content when the content is truthy. */
  predicate MatchesSearch(post: Post, searchTerm: string)
  {
    || Text.ContainsIgnoringCase(post.title, searchTerm)
    || (Text.Truthy(post.content) && Text.ContainsIgnoringCase(post.content.value, searchTerm))
  }

  /** `filteredPosts`; `selectedCategory` is accepted and not consulted. */
  function FilteredPosts(posts: seq<Post>, searchTerm: string, selectedCategory: string): seq<Post>
  {
    Seqs.Filter(posts, (post: Post) => MatchesSearch(post, searchTerm))
  }

  /** The filtered list keeps exactly the matching posts, every occurrence of each, in order. */
  lemma FilteredPostsSpec(posts: seq<Post>, searchTerm: string, selectedCategory: string)
    ensures var r := FilteredPosts(posts, searchTerm, selectedCategory);
      && Seqs.IsSubsequence(r, posts)
      && (forall post :: post in r ==> MatchesSearch(post, searchTerm))
      && (forall post :: multiset(r)[post] == if MatchesSearch(post, searchTerm) then multiset(posts)[post] else 0)
  {
    var keep := (post: Post) => MatchesSearch(post, searchTerm);
    Seqs.FilterIsSubsequence(posts, keep);
    forall post {
      Seqs.FilterCount(posts, keep, post);
    }
  }

  /** A post whose content is missing or empty can match only through its title. */
  lemma ContentlessMatchesByTitle(post: Post, searchTerm: string)
    requires post.content.None? || post.content.value == ""
    ensures MatchesSearch(post, searchTerm) <==> Text.ContainsIgnoringCase(post.title, searchTerm)
  {
  }

  /** The excerpt is never searched: two posts that differ only there match the same terms. */
  lemma ExcerptNotSearched(post: Post, excerpt: Option<string>, searchTerm: string)
    ensures MatchesSearch(post.(excerpt := excerpt), searchTerm) == MatchesSearch(post, searchTerm)
  {
  }

  /** Choosing a category does not change the list. */
  lemma CategoryIgnored(posts: seq<Post>, searchTerm: string, category1: string, category2: string)
    ensures FilteredPosts(posts, searchTerm, category1) == FilteredPosts(posts, searchTerm, category2)
  {
  }

  /** With an empty search box every post is listed, in the fetched order. */
  lemma EmptySearchShowsAll(posts: seq<Post>, selectedCategory: string)
    ensures FilteredPosts(posts, "", selectedCategory) == posts
  {
    var keep := (post: Post) => MatchesSearch(post, "");
    forall k | 0 <= k < |posts|
      ensures keep(posts[k])
    {
      Text.ContainsEmptyTerm(posts[k].title);
    }
    Seqs.FilterKeepsAll(posts, keep);
  }

  /** A search term that no title and no truthy content contains empties the list. */
  lemma {:induction false} UnmatchedSearchShowsNone(posts: seq<Post>, searchTerm: string, selectedCategory: string)
    requires forall k :: 0 <= k < |posts| ==> !MatchesSearch(posts[k], searchTerm)
    ensures FilteredPosts(posts, searchTerm, selectedCategory) == []
  {
    if posts != [] {
      UnmatchedSearchShowsNone(posts[..|posts| - 1], searchTerm, selectedCategory);
    }
  }
}

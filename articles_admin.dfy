/**
 * The admin list of articles: the articles fetched from the store, the same
 * title/author search as the public list, a row per article and per-row
 * delete.
 */
module ArticlesAdmin {
  import opened Wrappers
  import opened Store
  import opened Records
  import opened AdminCommon
  import opened ArticleList

  const DeletePrompt := "¿Estás seguro de que quieres eliminar este artículo?"
  const DeleteFailedAlert := "No se pudo eliminar el artículo."
  const ArticlePathPrefix := "/articulos/"

  function ArticleId(a: Article): string { a.id }

  /** What a table row shows: title, author, likes, a comment count and the
      public link. */
  datatype RowView = RowView(title: string, author: string, likes: int, comments: int, link: string)

  /** The comment column is the constant 0: the record's own count is never
      read. */
  function RowOf(a: Article): (v: RowView)
    ensures v.title == a.title && v.author == a.authorName && v.likes == a.likesCount
    ensures v.comments == 0
    ensures |v.link| == |ArticlePathPrefix| + |a.slug|
    ensures v.link[..|ArticlePathPrefix|] == ArticlePathPrefix && v.link[|ArticlePathPrefix|..] == a.slug
  {
    RowView(a.title, a.authorName, a.likesCount, 0, ArticlePathPrefix + a.slug)
  }

  /** Any two articles that differ only in their comment count show the same
      row, whatever the count. */
  lemma CommentsColumnIgnoresCount(a: Article, n: Option<int>)
    ensures RowOf(a.(commentsCount := n)) == RowOf(a)
  {
  }

  class ArticlesPage {
    var articles: seq<Article>
    var loading: bool
    var searchQuery: string
    var requests: seq<Call<Article>>
    var alerts: seq<string>
    var confirms: seq<string>

    /** The initial state, and the mount effect's fetch. */
    constructor ()
      ensures articles == [] && loading && searchQuery == ""
      ensures requests == [Select] && alerts == [] && confirms == []
    {
      articles := [];
      loading := true;
      searchQuery := "";
      requests := [Select];
      alerts := [];
      confirms := [];
    }

    function Shown(): seq<Article>
      reads this
    {
      SearchArticles(articles, searchQuery)
    }

    /** The answer to the fetch: a thrown error is only logged. */
    method Fetched(answer: Fetch<Article>)
      modifies this`articles, this`loading
      ensures articles == AfterFetch(old(articles), answer) && !loading
    {
      articles := AfterFetch(articles, answer);
      loading := false;
    }

    method SearchChanged(query: string)
      modifies this`searchQuery
      ensures searchQuery == query
    {
      searchQuery := query;
    }

    /** A row's delete button: the confirm dialog's answer, then the store's
        answer; an error is thrown, caught and alerted. */
    method HandleDelete(id: string, confirmed: bool, answer: Outcome)
      modifies this`articles, this`requests, this`alerts, this`confirms
      ensures confirms == old(confirms) + [DeletePrompt]
      ensures !confirmed ==> requests == old(requests) && articles == old(articles) && alerts == old(alerts)
      ensures confirmed ==> requests == old(requests) + [Delete(id)]
      ensures confirmed && answer.Ok? ==>
        articles == RemoveById(old(articles), id, ArticleId) && alerts == old(alerts)
      ensures confirmed && answer.Failed? ==>
        articles == old(articles) && alerts == old(alerts) + [DeleteFailedAlert]
    {
      confirms := confirms + [DeletePrompt];
      if !confirmed {
        return;
      }
      requests := requests + [Delete(id)];
      if answer.Failed? {
        alerts := alerts + [DeleteFailedAlert];
      } else {
        articles := RemoveById(articles, id, ArticleId);
      }
    }
  }
}

/** What the news source returns for a category. */
module News {

  /** One fetched item. */
  datatype NewsItem = NewsItem(title: string, summaryText: string, sourceUrl: string)

  /**
   * One snapshot of the news source: the items it returns for each category.
   * A category that is not a key is one whose fetch fails.
   */
  type Feed = map<string, seq<NewsItem>>
}

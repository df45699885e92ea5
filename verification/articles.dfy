/** What every part of the system agrees on about an article: its status, and when it is publicly visible. */
module Articles {
  import opened Basics

  datatype ArticleStatus = Draft | Published | Archived | Scheduled

  /** IsArticlePubliclyVisible, and the WHERE clause of every public query. */
  predicate VisibleAt(status: ArticleStatus, scheduledAt: Option<Time>, now: Time) {
    status == Published && (scheduledAt.None? || scheduledAt.value <= now)
  }
}

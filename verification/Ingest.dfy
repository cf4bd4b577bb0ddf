/** Feed ingestion: storing the posts of a feed and one notification intent per follower. */
module Ingest {
  import opened Types
  import Contract

  const PRODUCER := "feedflow-monolith"

  datatype Post = Post(id: Uuid, feed: Uuid, title: string, description: Option<string>, publishedAt: Time, url: Url)

  /** The `outbox_events` row that `SavePost` writes for one follower. */
  function NewIntent(id: Uuid, user: Uuid, post: Post, now: Time): OutboxRow {
    var body := match post.description case None => "" case Some(text) => text;
    OutboxRow(
      IntentOf(post.id, user), Some(RequestsTopic), UuidText(user),
      RequestedJson(Requested(
        id, Contract.NOTIFICATION_REQUESTED, Contract.SCHEMA_V1, now, PRODUCER, id, user, Contract.TEMPLATE_NEW_POST,
        RequestedData(post.id, post.feed, post.title, body, post.url, post.publishedAt))),
      Contract.NOTIFICATION_REQUESTED, Contract.SCHEMA_V1, 0, now, now, None)
  }
}

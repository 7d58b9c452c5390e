/** `updatePost` (owner-checked content edit) and `updatePostMetadata` (one
    field of a post, with the `published` flag decoded from its form value).
 */
module PostActions {
  import opened JsValues
  import opened Effects

  /** The parts of a post record the actions read or write. */
  datatype Post = Post(
    id: string,
    userId: string,
    siteId: string,
    slug: string,
    title: Option<string>,
    description: Option<string>,
    content: Option<string>)

  /** The write `updatePost` issues: the three content columns of one post. */
  datatype ContentWrite = ContentWrite(id: string, title: Option<string>, description: Option<string>, content: Option<string>)

  /** What an action returns: an `{ error }` object, or the updated post. */
  datatype PostReply = ErrorReply(message: string) | Updated(post: Post)

  /** The write issued (if any) and the reply. */
  datatype PostUpdate = PostUpdate(issued: Option<ContentWrite>, reply: PostReply)

  const NotAuthenticatedMessage := "Not authenticated"
  const PostNotFoundMessage := "Post not found"

  /** The content edit of `data`. `session` is the signed-in user's id,
      `stored` the post the database holds under `data.id` (if any), and
      `writeFails` the error the write throws, if any. */
  function UpdatePost(
    session: Option<string>,
    data: Post,
    stored: Option<Post>,
    writeFails: Option<ErrorValue>
  ): (u: PostUpdate)
    ensures !Truthy(session) ==> u == PostUpdate(None, ErrorReply(NotAuthenticatedMessage))
    // a missing post and someone else's post are indistinguishable, and nothing is written
    ensures Truthy(session) && (stored.None? || stored.value.userId != session.value) ==>
              u == PostUpdate(None, ErrorReply(PostNotFoundMessage))
    // the write is issued only for the signed-in owner, and only touches content
    ensures u.issued.Some? <==> Truthy(session) && stored.Some? && stored.value.userId == session.value
    ensures u.issued.Some? ==> u.issued.value == ContentWrite(data.id, data.title, data.description, data.content)
    ensures u.reply.Updated? ==>
              && u.issued.Some?
              && writeFails.None?
              && u.reply.post.userId == session.value
              && u.reply.post.title == data.title
              && u.reply.post.description == data.description
              && u.reply.post.content == data.content
              && u.reply.post.slug == stored.value.slug
              && u.reply.post.siteId == stored.value.siteId
    // the owner's write that does not throw returns the updated post
    ensures u.issued.Some? && writeFails.None? ==> u.reply.Updated? && u.reply.post.id == stored.value.id
    // a failing write reports its raw message
    ensures u.issued.Some? && writeFails.Some? ==> u.reply == ErrorReply(writeFails.value.message)
  {
    if !Truthy(session) then PostUpdate(None, ErrorReply(NotAuthenticatedMessage))
    else if stored.None? || stored.value.userId != session.value then PostUpdate(None, ErrorReply(PostNotFoundMessage))
    else
      var write := ContentWrite(data.id, data.title, data.description, data.content);
      match writeFails
      case Some(error) => PostUpdate(Some(write), ErrorReply(error.message))
      case None =>
        PostUpdate(Some(write), Updated(stored.value.(title := data.title, description := data.description, content := data.content)))
  }

  /** Re-applying an edit to the post it produced changes nothing: the same
      write is issued and the same post is returned. */
  lemma RepeatedEditIsStable(session: Option<string>, data: Post, stored: Option<Post>)
    requires UpdatePost(session, data, stored, None).reply.Updated?
    ensures var post := UpdatePost(session, data, stored, None).reply.post;
            UpdatePost(session, data, Some(post), None) == UpdatePost(session, data, stored, None)
  {
  }

  /** A value stored into a post column by `updatePostMetadata`. */
  datatype PostValue = Flag(b: bool) | Raw(s: string)

  /** The effect of `updatePostMetadata`: the image upload (blob, blur and
      column writes), or one column write. */
  datatype MetadataEffect = StoreImage | SetPostField(field: string, value: PostValue)

  /** The effect issued and the reply; the reply's post is left abstract. */
  datatype MetadataUpdate = MetadataUpdate(effect: MetadataEffect, error: Option<string>)

  const PublishedKey := "published"
  const SlugTakenMessage := "This slug is already in use"

  /** `key === "published" ? value === "true" : value`. */
  function MetadataValue(key: string, value: string): (v: PostValue)
    ensures v.Flag? <==> key == PublishedKey
    ensures v.Flag? ==> (v.b <==> value == "true")
    ensures v.Raw? ==> v.s == value
  {
    if key == PublishedKey then Flag(value == "true") else Raw(value)
  }

  /** The error message returned for an error thrown while updating metadata:
      a unique violation is reported as a taken slug, whatever the key. */
  function MetadataErrorMessage(error: ErrorValue): string {
    if error.code == Some(UniqueViolation) then SlugTakenMessage else error.message
  }

  /** The action for one form field; `fails` is the error the effect throws. */
  function UpdatePostMetadata(key: string, value: string, fails: Option<ErrorValue>): (u: MetadataUpdate)
    ensures key == "image" <==> u.effect.StoreImage?
    ensures u.effect.SetPostField? ==> u.effect.field == key && u.effect.value == MetadataValue(key, value)
    ensures u.error.Some? <==> fails.Some?
    ensures fails.Some? ==> u.error.value == MetadataErrorMessage(fails.value)
  {
    var effect := if key == "image" then StoreImage else SetPostField(key, MetadataValue(key, value));
    MetadataUpdate(effect, if fails.Some? then Some(MetadataErrorMessage(fails.value)) else None)
  }

  /** The form's serialisation of a boolean, `String(b)`, decodes back to `b`. */
  lemma PublishedRoundTrip(b: bool)
    ensures UpdatePostMetadata(PublishedKey, if b then "true" else "false", None).effect ==
              SetPostField(PublishedKey, Flag(b))
  {
  }

  /** Only the exact text `"true"` publishes: `"True"`, `"1"` or `"on"` store `false`. */
  lemma OnlyExactTruePublishes(value: string)
    requires value != "true"
    ensures UpdatePostMetadata(PublishedKey, value, None).effect == SetPostField(PublishedKey, Flag(false))
  {
  }

  /** A unique violation is reported as a taken slug whichever field was
      edited; any other error by its own message. */
  lemma MetadataUniqueViolationIsSlug(key: string, value: string, error: ErrorValue)
    ensures error.code == Some(UniqueViolation) ==>
              UpdatePostMetadata(key, value, Some(error)).error == Some(SlugTakenMessage)
    ensures error.code != Some(UniqueViolation) ==>
              UpdatePostMetadata(key, value, Some(error)).error == Some(error.message)
  {
  }
}

/** The public feed (`NoAuthPost`): the posts query's result, and which of the
    loading skeletons, the empty-feed notice and the list of posts is shown. */
module Feed {
  import opened Common

  datatype Post = Post(id: string, text: string)

  /** The parsed body of `GET /api/posts/all`: the array of posts, or an
      object of which the client reads only the `error` field. */
  datatype PostsBody = PostArray(posts: seq<Post>) | ErrorObject(error: Option<string>)

  datatype QueryResult = Loaded(data: PostsBody) | QueryError(message: string)

  const FallbackMessage := "Something went wrong"

  /** The `error` field of a body; an array has none. */
  function ErrorField(body: PostsBody): Option<string> {
    if body.ErrorObject? then body.error else None
  }

  /** The posts `queryFn`. A non-ok reply throws an `Error` carrying the
      backend's `error` or the generic text; the catch then wraps whatever was
      thrown in `new Error(error)`, whose message is the thrown error as a
      string, that is, its name and its message. */
  function PostsQuery(reply: Reply<PostsBody>): (r: QueryResult)
    ensures r.Loaded? <==> reply.Answered? && reply.ok
    ensures r.Loaded? ==> r.data == reply.body
    ensures reply.Threw? ==> r == QueryError(ErrorString(reply.name, reply.message))
    ensures reply.Answered? && !reply.ok && Truthy(ErrorField(reply.body)) ==>
              r == QueryError("Error: " + ErrorField(reply.body).value)
    ensures reply.Answered? && !reply.ok && !Truthy(ErrorField(reply.body)) ==>
              r == QueryError("Error: " + FallbackMessage)
  {
    match reply
    case Threw(name, message) => QueryError(ErrorString(name, message))
    case Answered(ok, body) =>
      if !ok then QueryError(ErrorString("Error", ErrorOr(ErrorField(body), FallbackMessage)))
      else Loaded(body)
  }

  /** One `NoAuthList` entry, keyed by the post's id. */
  datatype ListItem = ListItem(key: string, post: Post)

  /** `posts.map(post => <NoAuthList key={post._id} post={post} />)` */
  function RenderList(posts: seq<Post>): (items: seq<ListItem>)
    ensures |items| == |posts|
    ensures forall i :: 0 <= i < |posts| ==> items[i] == ListItem(posts[i].id, posts[i])
  {
    if posts == [] then []
    else [ListItem(posts[0].id, posts[0])] + RenderList(posts[1..])
  }

  /** Rendering keeps the order of the posts: the entries of a concatenation
      are the entries of its parts, one after the other. */
  lemma RenderListAppend(front: seq<Post>, back: seq<Post>)
    ensures RenderList(front + back) == RenderList(front) + RenderList(back)
  {
  }

  /** The list block: absent, the rendered entries, or a render failure when
      the data is an object that has no `map`. */
  datatype PostList = NoList | Entries(items: seq<ListItem>) | MapFailure

  datatype FeedScreen = FeedScreen(skeletons: bool, emptyNotice: bool, list: PostList)

  /** The three conditions of the render: skeletons while loading or
      refetching; once settled, the notice for an empty array and the list for
      any data at all. */
  function FeedView(isLoading: bool, isRefetching: bool, data: Option<PostsBody>): (v: FeedScreen)
    ensures v.skeletons <==> isLoading || isRefetching
    ensures v.emptyNotice <==> !isLoading && !isRefetching && data == Some(PostArray([]))
    ensures !v.list.NoList? <==> !isLoading && !isRefetching && data.Some?
    ensures v.skeletons ==> !v.emptyNotice && v.list.NoList?
    ensures v.list.MapFailure? <==> !v.list.NoList? && data.value.ErrorObject?
    ensures v.list.Entries? ==>
              data.Some? && data.value.PostArray?
              && |v.list.items| == |data.value.posts|
              && forall i :: 0 <= i < |data.value.posts| ==>
                   v.list.items[i].key == data.value.posts[i].id
                   && v.list.items[i].post == data.value.posts[i]
  {
    var settled := !isLoading && !isRefetching;
    var list :=
      if !settled then NoList
      else match data
        case None => NoList
        case Some(PostArray(posts)) => Entries(RenderList(posts))
        case Some(ErrorObject(_)) => MapFailure;
    var emptyNotice :=
      settled && data.Some? && data.value.PostArray? && |data.value.posts| == 0;
    FeedScreen(isLoading || isRefetching, emptyNotice, list)
  }
}

/** The Express router of the forum back end: the post and comment routes, their
    `:post` / `:comment` resolvers, the JWT gate on writes, and register / login.

    The document store is held in memory as maps from ids to documents. What the
    persistence layer, the JWT library and the passport strategy decide is passed
    in as inputs: a save or query outcome is a `bool`, a verified token is the
    username of its payload (`Option<string>`), and the strategy's verdict is a
    `Strategy` value. */
module Routes {
  import opened Wrappers
  import opened Js

  /** Document ids. Fresh ids come from a counter that stands for ObjectId generation. */
  type Id = nat

  /** A stored post; `author` is always a username taken from a verified token. */
  datatype Post = Post(title: Option<string>, link: Option<string>, author: string,
                       upvotes: int, comments: seq<Id>)

  /** A stored comment; `post` is the id of the post it was created under. */
  datatype Comment = Comment(body: Option<string>, author: string, post: Id, upvotes: int)

  /** The request body of `POST /posts`. `new Post(req.body)` copies every field of the
      schema it carries, so a client may also send `upvotes` and a `comments` id list;
      an `author` in it is overwritten. */
  datatype PostFields = PostFields(title: Option<string>, link: Option<string>, author: Option<string>,
                                   upvotes: Option<int>, comments: Option<seq<Id>>)

  /** The request body of `POST /posts/:post/comments`. A client may also send `upvotes`;
      an `author` in it is overwritten. */
  datatype CommentFields = CommentFields(body: Option<string>, author: Option<string>,
                                         upvotes: Option<int>)

  /** The request body of `/register` and `/login`. */
  datatype Credentials = Credentials(username: Option<string>, password: Option<string>)

  /** What `passport.authenticate('local', ...)` hands to its callback. */
  datatype Strategy = StrategyError | Authenticated(user: string) | Rejected(info: string)

  /** Errors handed to Express's `next(err)`. */
  datatype Error =
    | Unauthorized            // express-jwt found no valid token
    | NotFound(message: string)
    | Persistence             // a query or save reported an error
    | StrategyFailure         // the passport strategy reported an error

  /** Bodies passed to `res.json`. A token is represented by the user it was issued for. */
  datatype Body =
    | PostList(all: map<Id, Post>)
    | OnePost(id: Id, post: Post)
    | PopulatedPost(id: Id, post: Post, comments: seq<Comment>)
    | OneComment(id: Id, comment: Comment)
    | TokenFor(username: string)
    | Message(text: string)
    | Info(info: string)

  /** How a request ends: a JSON reply, an error passed to `next`, or an exception
      thrown inside a callback that nothing catches. */
  datatype Response = Reply(status: int, body: Body) | Next(error: Error) | Uncaught(reason: string)

  const CantFindPost := "can't find post"
  const CantFindComment := "can't find comment"
  const FillOutAllFields := "Please fill out all fields"

  /** The `auth` middleware: with a verified payload the request goes on with its
      username, otherwise it stops with 401. */
  function Auth(payload: Option<string>): (r: Result<string, Error>)
    ensures r.Success? <==> payload.Some?
    ensures r.Success? ==> r.value == payload.value
    ensures r.Failure? ==> r.error == Unauthorized
  {
    match payload
    case Some(username) => Success(username)
    case None => Failure(Unauthorized)
  }

  /** `router.param('post')`: look the id up, fail with "can't find post". */
  function ResolvePost(posts: map<Id, Post>, id: Id): (r: Result<Post, Error>)
    ensures r.Success? <==> id in posts
    ensures r.Success? ==> r.value == posts[id]
    ensures r.Failure? ==> r.error == NotFound(CantFindPost)
  {
    if id in posts then Success(posts[id]) else Failure(NotFound(CantFindPost))
  }

  /** `router.param('comment')`: look the id up, fail with "can't find comment". */
  function ResolveComment(comments: map<Id, Comment>, id: Id): (r: Result<Comment, Error>)
    ensures r.Success? <==> id in comments
    ensures r.Success? ==> r.value == comments[id]
    ensures r.Failure? ==> r.error == NotFound(CantFindComment)
  {
    if id in comments then Success(comments[id]) else Failure(NotFound(CantFindComment))
  }

  /** Both resolvers of `/posts/:post/comments/:comment/upvote`, in path order. The
      comment is found by its own id: whether it belongs to `:post` is never asked. */
  function ResolveCommentRoute(posts: map<Id, Post>, comments: map<Id, Comment>,
                               postId: Id, commentId: Id): (r: Result<Comment, Error>)
    ensures r.Success? <==> postId in posts && commentId in comments
    ensures r.Success? ==> r.value == comments[commentId]
    ensures r.Failure? && postId !in posts ==> r.error == NotFound(CantFindPost)
    ensures r.Failure? && postId in posts ==> r.error == NotFound(CantFindComment)
  {
    match ResolvePost(posts, postId)
    case Failure(e) => Failure(e)
    case Success(_) => ResolveComment(comments, commentId)
  }

  /** The listed ids that have a document, in list order. */
  function PresentIds(ids: seq<Id>, comments: map<Id, Comment>): (r: seq<Id>)
    ensures |r| <= |ids|
    ensures forall i :: i in r ==> i in ids && i in comments
    ensures forall k :: 0 <= k < |ids| && ids[k] in comments ==> ids[k] in r
    ensures (forall k :: 0 <= k < |ids| ==> ids[k] in comments) ==> r == ids
  {
    if ids == [] then []
    else (if ids[0] in comments then [ids[0]] else []) + PresentIds(ids[1..], comments)
  }

  /** `populate('comments')`: replace each id by its document, dropping ids that
      have none. When every id has a document the result lists them in order; the
      lemmas below state the result for a list with missing ids. */
  function Populate(ids: seq<Id>, comments: map<Id, Comment>): (r: seq<Comment>)
    ensures |r| <= |ids|
    ensures forall c :: c in r ==> c in comments.Values
    ensures (forall k :: 0 <= k < |ids| ==> ids[k] in comments) ==>
              |r| == |ids| && forall k :: 0 <= k < |ids| ==> r[k] == comments[ids[k]]
  {
    if ids == [] then []
    else (if ids[0] in comments then [comments[ids[0]]] else []) + Populate(ids[1..], comments)
  }

  /** `populate('comments')` yields one document per present id, in list order: pointwise,
      the documents of `PresentIds`. */
  lemma {:induction false} PopulateFollowsPresentIds(ids: seq<Id>, comments: map<Id, Comment>)
    ensures |Populate(ids, comments)| == |PresentIds(ids, comments)|
    ensures forall j :: 0 <= j < |Populate(ids, comments)| ==>
              && PresentIds(ids, comments)[j] in comments
              && Populate(ids, comments)[j] == comments[PresentIds(ids, comments)[j]]
  {
    if ids != [] {
      var r', p' := Populate(ids[1..], comments), PresentIds(ids[1..], comments);
      PopulateFollowsPresentIds(ids[1..], comments);
      if ids[0] in comments {
        var r, p := [comments[ids[0]]] + r', [ids[0]] + p';
        assert Populate(ids, comments) == r;
        assert PresentIds(ids, comments) == p;
        forall j | 0 <= j < |r|
          ensures p[j] in comments && r[j] == comments[p[j]]
        {
          if j > 0 {
            assert r[j] == r'[j - 1] && p[j] == p'[j - 1];
          }
        }
      } else {
        assert Populate(ids, comments) == r';
        assert PresentIds(ids, comments) == p';
      }
    }
  }

  /** `populate('comments')` shows the document of every listed id that has one, and
      nothing but such documents. */
  lemma {:induction false} PopulateShowsListedDocuments(ids: seq<Id>, comments: map<Id, Comment>)
    ensures forall c :: c in Populate(ids, comments) ==>
              exists k :: 0 <= k < |ids| && ids[k] in comments && c == comments[ids[k]]
    ensures forall k :: 0 <= k < |ids| && ids[k] in comments ==> comments[ids[k]] in Populate(ids, comments)
  {
    PopulateFollowsPresentIds(ids, comments);
    var r, p := Populate(ids, comments), PresentIds(ids, comments);
    forall c | c in r
      ensures exists k :: 0 <= k < |ids| && ids[k] in comments && c == comments[ids[k]]
    {
      var j :| 0 <= j < |r| && r[j] == c;
      assert p[j] in p;
      var k :| 0 <= k < |ids| && ids[k] == p[j];
    }
    forall k | 0 <= k < |ids| && ids[k] in comments
      ensures comments[ids[k]] in r
    {
      var j :| 0 <= j < |p| && p[j] == ids[k];
      assert r[j] == comments[ids[k]];
    }
  }



  /** The body's value of a field when it carries one, the schema default otherwise. */
  function OrDefault<T>(sent: Option<T>, default: T): (r: T)
    ensures sent.Some? ==> r == sent.value
    ensures sent.None? ==> r == default
  {
    match sent
    case Some(v) => v
    case None => default
  }

  /** The comment ids a new post starts with: those of the body, or none. */
  function Listed(fields: PostFields): (r: seq<Id>)
    ensures fields.comments.Some? ==> r == fields.comments.value
    ensures fields.comments.None? ==> r == []
  {
    OrDefault(fields.comments, [])
  }

  /** The test of `/register` and `/login`: both credentials present and non-empty. */
  function Filled(c: Credentials): (r: bool)
    ensures r <==> c.username != None && c.username != Some("")
                   && c.password != None && c.password != Some("")
  {
    Truthy(c.username) && Truthy(c.password)
  }

  /** Every comment points at a stored post. A stored comment need not be listed
      by that post (its post's save may have failed). */
  ghost predicate Owned(posts: map<Id, Post>, comments: map<Id, Comment>) {
    forall c :: c in comments ==> comments[c].post in posts
  }

  /** Post `p` is stored, and every id it lists is a stored comment pointing back at it. */
  ghost predicate ListsOwn(posts: map<Id, Post>, comments: map<Id, Comment>, p: Id) {
    && p in posts
    && forall k :: 0 <= k < |posts[p].comments| ==>
         posts[p].comments[k] in comments && comments[posts[p].comments[k]].post == p
  }

  /** Referential integrity of the store: every comment points at a stored post, and
      every post lists only its own stored comments. */
  ghost predicate Linked(posts: map<Id, Post>, comments: map<Id, Comment>) {
    && Owned(posts, comments)
    && forall p :: p in posts ==> ListsOwn(posts, comments, p)
  }

  /** Between two states, every post that listed only its own comments still does. */
  ghost predicate KeepsLinks(posts: map<Id, Post>, comments: map<Id, Comment>,
                             posts': map<Id, Post>, comments': map<Id, Comment>) {
    forall p :: ListsOwn(posts, comments, p) ==> ListsOwn(posts', comments', p)
  }

  /** No post disappears and no post's comment list loses or reorders an entry:
      between two states, every comment list only ever gains entries at its end. */
  ghost predicate Grows(before: map<Id, Post>, after: map<Id, Post>) {
    && before.Keys <= after.Keys
    && forall p :: p in before ==> before[p].comments <= after[p].comments
  }

  /** The router together with the collections its handlers read and write. */
  class Router {
    var posts: map<Id, Post>
    var comments: map<Id, Comment>
    var users: set<string>
    var nextId: Id
    /** The schema defaults for `upvotes` of a new post and of a new comment. */
    const newPostUpvotes: int
    const newCommentUpvotes: int
    /** What the `upvote()` methods of the Post model and of the Comment model do to
        the counter. */
    const postUpvote: int -> int
    const commentUpvote: int -> int

    /** Fresh ids are above every stored one, and every comment points at a stored post.
        `Linked` is not part of it: a `POST /posts` body may list comment ids. */
    ghost predicate Valid()
      reads this
    {
      && (forall id :: id in posts ==> id < nextId)
      && (forall id :: id in comments ==> id < nextId)
      && Owned(posts, comments)
    }

    constructor (newPostUpvotes: int, newCommentUpvotes: int,
                 postUpvote: int -> int, commentUpvote: int -> int)
      ensures Valid() && Linked(posts, comments)
      ensures posts == map[] && comments == map[] && users == {}
      ensures this.newPostUpvotes == newPostUpvotes && this.newCommentUpvotes == newCommentUpvotes
      ensures this.postUpvote == postUpvote && this.commentUpvote == commentUpvote
    {
      posts, comments, users, nextId := map[], map[], {}, 0;
      this.newPostUpvotes, this.newCommentUpvotes := newPostUpvotes, newCommentUpvotes;
      this.postUpvote, this.commentUpvote := postUpvote, commentUpvote;
    }

    /** `GET /posts`: no token needed; the whole collection, or the query's error. */
    method ListPosts(findOk: bool) returns (resp: Response)
      ensures findOk ==> resp == Reply(200, PostList(posts))
      ensures !findOk ==> resp == Next(Persistence)
    {
      if !findOk {
        return Next(Persistence);
      }
      resp := Reply(200, PostList(posts));
    }

    /** `GET /posts/:post`: no token needed; the post with the stored comments it lists.
        When the post lists only its own stored comments, they appear in list order. */
    method GetPost(id: Id, populateOk: bool) returns (resp: Response)
      ensures id !in posts ==> resp == Next(NotFound(CantFindPost))
      ensures id in posts && !populateOk ==> resp == Next(Persistence)
      ensures id in posts && populateOk ==>
        && resp.Reply? && resp.status == 200
        && resp.body.PopulatedPost? && resp.body.id == id && resp.body.post == posts[id]
        && |resp.body.comments| <= |posts[id].comments|
        && (forall c :: c in resp.body.comments ==> c in comments.Values)
        && (forall c :: c in resp.body.comments ==>
              exists k :: 0 <= k < |posts[id].comments| && posts[id].comments[k] in comments
                          && c == comments[posts[id].comments[k]])
        && (forall k :: 0 <= k < |posts[id].comments| && posts[id].comments[k] in comments ==>
              comments[posts[id].comments[k]] in resp.body.comments)
        && |resp.body.comments| == |PresentIds(posts[id].comments, comments)|
        && (forall j :: 0 <= j < |resp.body.comments| ==>
              PresentIds(posts[id].comments, comments)[j] in comments
              && resp.body.comments[j] == comments[PresentIds(posts[id].comments, comments)[j]])
        && (ListsOwn(posts, comments, id) ==>
              && |resp.body.comments| == |posts[id].comments|
              && (forall k :: 0 <= k < |posts[id].comments| ==>
                    resp.body.comments[k] == comments[posts[id].comments[k]])
              && forall c :: c in resp.body.comments ==> c.post == id)
    {
      match ResolvePost(posts, id)
      case Failure(e) =>
        return Next(e);
      case Success(post) =>
        if !populateOk {
          return Next(Persistence);
        }
        PopulateFollowsPresentIds(post.comments, comments);
        PopulateShowsListedDocuments(post.comments, comments);
        resp := Reply(200, PopulatedPost(id, post, Populate(post.comments, comments)));
    }

    /** `GET /posts/:post` as written: the handler takes no `next`, so a populate
        error throws a ReferenceError from the callback instead of reaching Express. */
    method GetPostAsWritten(id: Id, populateOk: bool) returns (resp: Response)
      ensures id !in posts ==> resp == Next(NotFound(CantFindPost))
      ensures id in posts && !populateOk ==> resp == Uncaught("next is not defined")
      ensures id in posts && populateOk ==>
        resp == Reply(200, PopulatedPost(id, posts[id], Populate(posts[id].comments, comments)))
    {
      match ResolvePost(posts, id)
      case Failure(e) =>
        return Next(e);
      case Success(post) =>
        if !populateOk {
          return Uncaught("next is not defined");
        }
        resp := Reply(200, PopulatedPost(id, post, Populate(post.comments, comments)));
    }

    /** `POST /posts`: gated; the author is the token's username, whatever the body says.
        `upvotes` and the comment list come from the body when it carries them; a
        non-empty list makes the new post list comments that are not its own. */
    method CreatePost(payload: Option<string>, fields: PostFields, saveOk: bool) returns (resp: Response)
      requires Valid()
      modifies this`posts, this`nextId
      ensures Valid() && Grows(old(posts), posts)
      ensures KeepsLinks(old(posts), old(comments), posts, comments)
      ensures Linked(old(posts), old(comments)) && Listed(fields) == [] ==> Linked(posts, comments)
      ensures payload.None? ==> resp == Next(Unauthorized) && posts == old(posts)
      ensures payload.Some? && !saveOk ==> resp == Next(Persistence) && posts == old(posts)
      ensures payload.Some? && saveOk ==>
        var id := old(nextId);
        && id !in old(posts)
        && posts == old(posts)[id := Post(fields.title, fields.link, payload.value,
                                          OrDefault(fields.upvotes, newPostUpvotes), Listed(fields))]
        && resp == Reply(200, OnePost(id, posts[id]))
        && (ListsOwn(posts, comments, id) <==> Listed(fields) == [])
      ensures comments == old(comments) && users == old(users)
    {
      match Auth(payload)
      case Failure(e) =>
        return Next(e);
      case Success(username) =>
        var post := Post(fields.title, fields.link, username,
                         OrDefault(fields.upvotes, newPostUpvotes), Listed(fields));
        if !saveOk {
          return Next(Persistence);
        }
        var id := nextId;
        posts := posts[id := post];
        nextId := nextId + 1;
        if Listed(fields) != [] {
          var first := Listed(fields)[0];
          assert first in comments ==> comments[first].post in old(posts);
        }
        resp := Reply(200, OnePost(id, post));
    }

    /** `PUT /posts/:post/upvote`: resolve `:post`, then the gate, then the Post model's
        `upvote()`; only that post's counter changes. */
    method UpvotePost(payload: Option<string>, id: Id, saveOk: bool) returns (resp: Response)
      requires Valid()
      modifies this`posts
      ensures Valid() && Grows(old(posts), posts)
      ensures KeepsLinks(old(posts), old(comments), posts, comments)
      ensures Linked(old(posts), old(comments)) ==> Linked(posts, comments)
      ensures id !in old(posts) ==> resp == Next(NotFound(CantFindPost)) && posts == old(posts)
      ensures id in old(posts) && payload.None? ==> resp == Next(Unauthorized) && posts == old(posts)
      ensures id in old(posts) && payload.Some? && !saveOk ==> resp == Next(Persistence) && posts == old(posts)
      ensures id in old(posts) && payload.Some? && saveOk ==>
        && posts == old(posts)[id := old(posts)[id].(upvotes := postUpvote(old(posts)[id].upvotes))]
        && resp == Reply(200, OnePost(id, posts[id]))
      ensures comments == old(comments) && users == old(users)
    {
      match ResolvePost(posts, id)
      case Failure(e) =>
        return Next(e);
      case Success(post) =>
        match Auth(payload)
        case Failure(e) =>
          return Next(e);
        case Success(_) =>
          if !saveOk {
            return Next(Persistence);
          }
          var upvoted := post.(upvotes := postUpvote(post.upvotes));
          posts := posts[id := upvoted];
          resp := Reply(200, OnePost(id, upvoted));
    }

    /** `POST /posts/:post/comments`: resolve `:post`, gate, save the comment (author
        from the token, `post` the resolved id), push its id onto the post, save the post. */
    method AddComment(payload: Option<string>, postId: Id, fields: CommentFields,
                      commentSaveOk: bool, postSaveOk: bool) returns (resp: Response)
      requires Valid()
      modifies this`posts, this`comments, this`nextId
      ensures Valid() && Grows(old(posts), posts)
      ensures KeepsLinks(old(posts), old(comments), posts, comments)
      ensures Linked(old(posts), old(comments)) ==> Linked(posts, comments)
      ensures postId !in old(posts) ==>
        resp == Next(NotFound(CantFindPost)) && posts == old(posts) && comments == old(comments)
      ensures postId in old(posts) && payload.None? ==>
        resp == Next(Unauthorized) && posts == old(posts) && comments == old(comments)
      ensures postId in old(posts) && payload.Some? && !commentSaveOk ==>
        resp == Next(Persistence) && posts == old(posts) && comments == old(comments)
      ensures postId in old(posts) && payload.Some? && commentSaveOk ==>
        var cid := old(nextId);
        && cid !in old(comments)
        && comments == old(comments)[cid := Comment(fields.body, payload.value, postId,
                                                    OrDefault(fields.upvotes, newCommentUpvotes))]
        && (postSaveOk ==>
              && posts == old(posts)[postId := old(posts)[postId].(comments := old(posts)[postId].comments + [cid])]
              && resp == Reply(200, OneComment(cid, comments[cid])))
        && (!postSaveOk ==> posts == old(posts) && resp == Next(Persistence))
      ensures users == old(users)
    {
      match ResolvePost(posts, postId)
      case Failure(e) =>
        return Next(e);
      case Success(post) =>
        match Auth(payload)
        case Failure(e) =>
          return Next(e);
        case Success(username) =>
          var comment := Comment(fields.body, username, postId,
                                 OrDefault(fields.upvotes, newCommentUpvotes));
          if !commentSaveOk {
            return Next(Persistence);
          }
          var cid := nextId;
          comments := comments[cid := comment];
          nextId := nextId + 1;
          if !postSaveOk {
            return Next(Persistence);
          }
          posts := posts[postId := post.(comments := post.comments + [cid])];
          resp := Reply(200, OneComment(cid, comment));
    }

    /** `PUT /posts/:post/comments/:comment/upvote`: resolve `:post`, then `:comment`
        by its own id, then the gate, then the Comment model's `upvote()`; only that
        comment's counter changes. */
    method UpvoteComment(payload: Option<string>, postId: Id, commentId: Id, saveOk: bool)
      returns (resp: Response)
      requires Valid()
      modifies this`comments
      ensures Valid() && Grows(old(posts), posts)
      ensures KeepsLinks(old(posts), old(comments), posts, comments)
      ensures Linked(old(posts), old(comments)) ==> Linked(posts, comments)
      ensures postId !in old(posts) ==> resp == Next(NotFound(CantFindPost)) && comments == old(comments)
      ensures postId in old(posts) && commentId !in old(comments) ==>
        resp == Next(NotFound(CantFindComment)) && comments == old(comments)
      ensures postId in old(posts) && commentId in old(comments) && payload.None? ==>
        resp == Next(Unauthorized) && comments == old(comments)
      ensures postId in old(posts) && commentId in old(comments) && payload.Some? && !saveOk ==>
        resp == Next(Persistence) && comments == old(comments)
      ensures postId in old(posts) && commentId in old(comments) && payload.Some? && saveOk ==>
        && comments == old(comments)[commentId := old(comments)[commentId].(upvotes := commentUpvote(old(comments)[commentId].upvotes))]
        && resp == Reply(200, OneComment(commentId, comments[commentId]))
      ensures posts == old(posts) && users == old(users)
    {
      match ResolveCommentRoute(posts, comments, postId, commentId)
      case Failure(e) =>
        return Next(e);
      case Success(comment) =>
        match Auth(payload)
        case Failure(e) =>
          return Next(e);
        case Success(_) =>
          if !saveOk {
            return Next(Persistence);
          }
          var upvoted := comment.(upvotes := commentUpvote(comment.upvotes));
          comments := comments[commentId := upvoted];
          resp := Reply(200, OneComment(commentId, upvoted));
    }

    /** `POST /register`: 400 unless both fields are filled; otherwise save the user and
        answer with a token for it. */
    method Register(creds: Credentials, saveOk: bool) returns (resp: Response)
      modifies this`users
      ensures !Filled(creds) ==> resp == Reply(400, Message(FillOutAllFields)) && users == old(users)
      ensures Filled(creds) && !saveOk ==> resp == Next(Persistence) && users == old(users)
      ensures Filled(creds) && saveOk ==>
        users == old(users) + {creds.username.value} && resp == Reply(200, TokenFor(creds.username.value))
    {
      if !Filled(creds) {
        return Reply(400, Message(FillOutAllFields));
      }
      if !saveOk {
        return Next(Persistence);
      }
      users := users + {creds.username.value};
      resp := Reply(200, TokenFor(creds.username.value));
    }

    /** `POST /login`: 400 unless both fields are filled; otherwise the strategy decides:
        a token for the user it yields, 401 with its info when it yields none. */
    method Login(creds: Credentials, strategy: Strategy) returns (resp: Response)
      ensures !Filled(creds) ==> resp == Reply(400, Message(FillOutAllFields))
      ensures Filled(creds) ==> match strategy
        case StrategyError => resp == Next(StrategyFailure)
        case Authenticated(user) => resp == Reply(200, TokenFor(user))
        case Rejected(info) => resp == Reply(401, Info(info))
      ensures resp.Reply? && resp.body.TokenFor? ==> Filled(creds) && strategy == Authenticated(resp.body.username)
    {
      if !Filled(creds) {
        return Reply(400, Message(FillOutAllFields));
      }
      match strategy
      case StrategyError =>
        resp := Next(StrategyFailure);
      case Authenticated(user) =>
        resp := Reply(200, TokenFor(user));
      case Rejected(info) =>
        resp := Reply(401, Info(info));
    }
  }
}

/** The AngularJS client: the `posts` factory and its cached list, the `auth`
    factory and its stored token, and the mutators of `MainCtrl` and `PostsCtrl`.

    `$http` is an `Http` object that records each request it is handed; whether
    the request succeeds and the data it answers with are inputs of the method
    that issues it, and a success handler runs only when that input says so.
    Post and comment objects are class instances, so the in-place updates of
    the source (`post.upvotes += 1`, `push`) are updates of their fields. */
module AngularApp {
  import opened Wrappers
  import opened Js

  /** The claims of a token's payload segment that the client reads. */
  datatype Payload = Payload(username: string, exp: int)

  /** The result of client code that may throw (a malformed token makes `atob` or
      `JSON.parse` throw). */
  datatype Eval<T> = Returns(value: T) | Throws

  /** Request bodies the client builds. */
  datatype PostDraft = PostDraft(title: Option<string>, link: Option<string>)
  datatype CommentDraft = CommentDraft(body: Option<string>, author: string)
  datatype User = User(username: Option<string>, password: Option<string>)

  /** One request handed to `$http`. `bearer` is what `auth.getToken()` returned
      when the `Authorization: Bearer ...` header was built. */
  datatype Call =
    | GetPostCall(postId: string)
    | GetPostsCall
    | CreatePostCall(draft: PostDraft, bearer: Option<string>)
    | UpvotePostCall(postId: string, bearer: Option<string>)
    | UpvoteCommentCall(postId: string, commentId: string, bearer: Option<string>)
    | AddCommentCall(postId: string, comment: CommentDraft, bearer: Option<string>)
    | RegisterCall(user: User)
    | LogInCall(user: User)

  /** `$http`, seen as the sequence of requests it has been handed. */
  class Http {
    var sent: seq<Call>

    constructor ()
      ensures sent == []
    {
      sent := [];
    }

    method Send(c: Call)
      modifies this`sent
      ensures sent == old(sent) + [c]
    {
      sent := sent + [c];
    }
  }

  /** A comment object as received from the server (only the fields the client uses). */
  class CommentObj {
    const id: string
    var upvotes: int

    constructor (id: string, upvotes: int)
      ensures this.id == id && this.upvotes == upvotes
    {
      this.id, this.upvotes := id, upvotes;
    }
  }

  /** A post object as received from the server (only the fields the client uses). */
  class PostObj {
    const id: string
    var upvotes: int
    var comments: seq<CommentObj>

    constructor (id: string, upvotes: int, comments: seq<CommentObj>)
      ensures this.id == id && this.upvotes == upvotes && this.comments == comments
    {
      this.id, this.upvotes, this.comments := id, upvotes, comments;
    }
  }

  /** The array `o.posts`: one object whose contents are replaced or extended in place. */
  class PostList {
    var items: seq<PostObj>

    constructor ()
      ensures items == []
    {
      items := [];
    }
  }

  /** `auth.isLoggedIn`, given what `getToken()` returns: false without a (truthy)
      token; otherwise the payload's `exp` compared with the clock in seconds,
      `Date.now() / 1000`; a token whose payload cannot be decoded makes it throw. */
  function IsLoggedIn(token: Option<string>, decode: string -> Option<Payload>, nowMs: int): (r: Eval<bool>)
    ensures !Truthy(token) ==> r == Returns(false)
    ensures r.Throws? <==> Truthy(token) && decode(token.value).None?
    ensures r == Returns(true) <==>
      Truthy(token) && decode(token.value).Some? && decode(token.value).value.exp * 1000 > nowMs
  {
    if Truthy(token) then
      match decode(token.value)
      case None => Throws
      case Some(payload) => Returns(payload.exp as real > nowMs as real / 1000.0)
    else
      Returns(false)
  }

  /** `auth.currentUser`: the payload's username, but only while `isLoggedIn` holds;
      `undefined` otherwise. */
  function CurrentUser(token: Option<string>, decode: string -> Option<Payload>, nowMs: int): (r: Eval<Option<string>>)
    ensures IsLoggedIn(token, decode, nowMs).Throws? ==> r.Throws?
    ensures IsLoggedIn(token, decode, nowMs) == Returns(false) ==> r == Returns(None)
    ensures IsLoggedIn(token, decode, nowMs) == Returns(true) ==>
      r == Returns(Some(decode(token.value).value.username))
    ensures (r.Returns? && r.value.Some?) <==> IsLoggedIn(token, decode, nowMs) == Returns(true)
  {
    match IsLoggedIn(token, decode, nowMs)
    case Throws => Throws
    case Returns(loggedIn) =>
      if loggedIn then
        match decode(token.value)
        case None => Throws
        case Some(payload) => Returns(Some(payload.username))
      else
        Returns(None)
  }

  /** The key under which the `auth` factory keeps the token in `localStorage`. */
  const TokenKey := "flapper-news-token"

  /** The `auth` factory; `storage` is the page's `localStorage`. */
  class AuthService {
    const http: Http
    var storage: map<string, string>

    constructor (http: Http, storage: map<string, string>)
      ensures this.http == http && this.storage == storage
    {
      this.http, this.storage := http, storage;
    }

    /** `getToken`: the value under the token key, `undefined` when there is none. */
    function GetToken(): (t: Option<string>)
      reads this
      ensures t.Some? <==> TokenKey in storage
      ensures t.Some? ==> t.value == storage[TokenKey]
    {
      if TokenKey in storage then Some(storage[TokenKey]) else None
    }

    /** `saveToken`: write the token key, leaving every other key as it was. */
    method SaveToken(token: string)
      modifies this`storage
      ensures storage == old(storage)[TokenKey := token]
      ensures GetToken() == Some(token)
    {
      storage := storage[TokenKey := token];
    }

    /** `register`: POST the user; on success store the token from the reply. */
    method Register(user: User, ok: bool, token: string)
      modifies http`sent, this`storage
      ensures http.sent == old(http.sent) + [RegisterCall(user)]
      ensures storage == if ok then old(storage)[TokenKey := token] else old(storage)
      ensures GetToken() == if ok then Some(token) else old(GetToken())
    {
      http.Send(RegisterCall(user));
      if ok {
        SaveToken(token);
      }
    }

    /** `logIn`: POST the user; on success store the token from the reply. */
    method LogIn(user: User, ok: bool, token: string)
      modifies http`sent, this`storage
      ensures http.sent == old(http.sent) + [LogInCall(user)]
      ensures storage == if ok then old(storage)[TokenKey := token] else old(storage)
      ensures GetToken() == if ok then Some(token) else old(GetToken())
    {
      http.Send(LogInCall(user));
      if ok {
        SaveToken(token);
      }
    }

    /** `logOut`: remove the token key, after which nobody is logged in; other keys stay. */
    method LogOut()
      modifies this`storage
      ensures storage == old(storage) - {TokenKey}
      ensures GetToken() == None
      ensures forall decode, nowMs :: IsLoggedIn(GetToken(), decode, nowMs) == Returns(false)
      ensures forall decode, nowMs :: CurrentUser(GetToken(), decode, nowMs) == Returns(None)
    {
      storage := storage - {TokenKey};
    }
  }

  /** The `posts` factory `o`: its list `o.posts` and the requests it issues. */
  class PostsService {
    const http: Http
    const auth: AuthService
    const list: PostList

    constructor (http: Http, auth: AuthService)
      ensures this.http == http && this.auth == auth
      ensures fresh(list) && list.items == []
    {
      this.http, this.auth := http, auth;
      list := new PostList();
    }

    /** `get`: the post the server answers with; the cache is not touched. */
    method Get(id: string, ok: bool, data: PostObj) returns (r: Option<PostObj>)
      modifies http`sent
      ensures http.sent == old(http.sent) + [GetPostCall(id)]
      ensures r == if ok then Some(data) else None
    {
      http.Send(GetPostCall(id));
      r := if ok then Some(data) else None;
    }

    /** `getAll`: on success the contents of `o.posts` become the server's list; the
        list object itself stays the same. */
    method GetAll(ok: bool, data: seq<PostObj>)
      modifies http`sent, list`items
      ensures http.sent == old(http.sent) + [GetPostsCall]
      ensures list.items == if ok then data else old(list.items)
    {
      http.Send(GetPostsCall);
      if ok {
        list.items := data;
      }
    }

    /** `create`: POST the draft with the stored token; on success append the
        returned post to `o.posts`. */
    method Create(post: PostDraft, ok: bool, data: PostObj)
      modifies http`sent, list`items
      ensures http.sent == old(http.sent) + [CreatePostCall(post, auth.GetToken())]
      ensures list.items == if ok then old(list.items) + [data] else old(list.items)
    {
      http.Send(CreatePostCall(post, auth.GetToken()));
      if ok {
        list.items := list.items + [data];
      }
    }

    /** `upvote`: PUT the upvote; on success the local counter goes up by exactly one. */
    method Upvote(post: PostObj, ok: bool)
      modifies http`sent, post`upvotes
      ensures http.sent == old(http.sent) + [UpvotePostCall(post.id, auth.GetToken())]
      ensures post.upvotes == if ok then old(post.upvotes) + 1 else old(post.upvotes)
    {
      http.Send(UpvotePostCall(post.id, auth.GetToken()));
      if ok {
        post.upvotes := post.upvotes + 1;
      }
    }

    /** `upvoteComment`: PUT the upvote; on success the comment's local counter goes up by one. */
    method UpvoteComment(post: PostObj, comment: CommentObj, ok: bool)
      modifies http`sent, comment`upvotes
      ensures http.sent == old(http.sent) + [UpvoteCommentCall(post.id, comment.id, auth.GetToken())]
      ensures comment.upvotes == if ok then old(comment.upvotes) + 1 else old(comment.upvotes)
    {
      http.Send(UpvoteCommentCall(post.id, comment.id, auth.GetToken()));
      if ok {
        comment.upvotes := comment.upvotes + 1;
      }
    }

    /** `addComment`: POST the comment with the stored token; the reply goes back to
        the caller and the cache is not touched. */
    method AddComment(id: string, comment: CommentDraft, ok: bool, data: CommentObj)
      returns (r: Option<CommentObj>)
      modifies http`sent
      ensures http.sent == old(http.sent) + [AddCommentCall(id, comment, auth.GetToken())]
      ensures r == if ok then Some(data) else None
    {
      http.Send(AddCommentCall(id, comment, auth.GetToken()));
      r := if ok then Some(data) else None;
    }
  }

  /** `MainCtrl`: `$scope.posts` is the factory's list object itself. */
  class MainCtrl {
    const service: PostsService
    const posts: PostList
    var title: Option<string>
    var link: Option<string>

    /** `$scope.posts` and `o.posts` are one object. */
    ghost predicate Valid() {
      posts == service.list
    }

    constructor (service: PostsService)
      ensures Valid() && this.service == service
      ensures title == None && link == None
    {
      this.service := service;
      posts := service.list;
      title, link := None, None;
    }

    /** `addPost`: nothing without a title; otherwise create `{title, link}` and clear
        both fields. What the server answers shows up in `$scope.posts`. */
    method AddPost(ok: bool, data: PostObj)
      requires Valid()
      modifies this`title, this`link, service.http`sent, service.list`items
      ensures !Truthy(old(title)) ==>
        && title == old(title) && link == old(link)
        && service.http.sent == old(service.http.sent) && posts.items == old(posts.items)
      ensures Truthy(old(title)) ==>
        && service.http.sent == old(service.http.sent) +
             [CreatePostCall(PostDraft(old(title), old(link)), service.auth.GetToken())]
        && posts.items == (if ok then old(posts.items) + [data] else old(posts.items))
        && title == Some("") && link == Some("")
    {
      if !Truthy(title) || title == Some("") {
        return;
      }
      service.Create(PostDraft(title, link), ok, data);
      title := Some("");
      link := Some("");
    }

    /** `incrementUpvotes`: delegate to the factory's `upvote`. */
    method IncrementUpvotes(post: PostObj, ok: bool)
      modifies service.http`sent, post`upvotes
      ensures service.http.sent == old(service.http.sent) + [UpvotePostCall(post.id, service.auth.GetToken())]
      ensures post.upvotes == if ok then old(post.upvotes) + 1 else old(post.upvotes)
    {
      service.Upvote(post, ok);
    }

    /** `incrementDownvotes`: only the local counter, down by one, with no lower bound
        and no request to the server. */
    method IncrementDownvotes(post: PostObj)
      modifies post`upvotes
      ensures post.upvotes == old(post.upvotes) - 1
    {
      post.upvotes := post.upvotes - 1;
    }
  }

  /** `PostsCtrl`: `$scope.post` is the post resolved by the route. */
  class PostsCtrl {
    const service: PostsService
    const post: PostObj
    var body: Option<string>

    constructor (service: PostsService, post: PostObj)
      ensures this.service == service && this.post == post && body == None
    {
      this.service, this.post := service, post;
      body := None;
    }

    /** `addComment`: return early only when the body is exactly `''` (an untouched,
        undefined body is sent); push the returned comment onto the post on success,
        and clear the body. */
    method AddComment(ok: bool, data: CommentObj)
      modifies this`body, service.http`sent, post`comments
      ensures old(body) == Some("") ==>
        body == old(body) && service.http.sent == old(service.http.sent) && post.comments == old(post.comments)
      ensures old(body) != Some("") ==>
        && service.http.sent == old(service.http.sent) +
             [AddCommentCall(post.id, CommentDraft(old(body), "user"), service.auth.GetToken())]
        && post.comments == (if ok then old(post.comments) + [data] else old(post.comments))
        && body == Some("")
    {
      if body == Some("") {
        return;
      }
      var reply := service.AddComment(post.id, CommentDraft(body, "user"), ok, data);
      if reply.Some? {
        post.comments := post.comments + [reply.value];
      }
      body := Some("");
    }

    /** `incrementUpvotes`: delegate to the factory's `upvoteComment` for this post. */
    method IncrementUpvotes(comment: CommentObj, ok: bool)
      modifies service.http`sent, comment`upvotes
      ensures service.http.sent == old(service.http.sent) +
                [UpvoteCommentCall(post.id, comment.id, service.auth.GetToken())]
      ensures comment.upvotes == if ok then old(comment.upvotes) + 1 else old(comment.upvotes)
    {
      service.UpvoteComment(post, comment, ok);
    }
  }
}

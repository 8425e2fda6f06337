# Flapper News: route handlers and client cache, modelled in Dafny

Flapper News is a small link-sharing forum. This project models two stateful parts of it.

- **The Express router** (`routes/index.js`), in module `Routes`. Class `Routes.Router` holds the
  document store in memory:
  - a map from post id to `Post` (title, link, author, upvotes, comment ids);
  - a map from comment id to `Comment` (body, author, owning post, upvotes);
  - the set of registered usernames.

  Each route is a method. It takes what the libraries decide as inputs:
  - the username of a payload that `express-jwt` verified, or none;
  - whether a save or query succeeded;
  - the verdict of the passport `local` strategy.

  It returns what the handler sends: a JSON reply with a status, an error handed to `next`,
  or an exception nothing catches. Three properties of the store are tracked:
  - `Router.Valid` is kept by every route. Fresh ids lie above every stored one, and every
    comment points at a stored post.
  - `Linked` adds that a post lists only stored comments that point back at it. It holds
    initially and every route keeps it, with one exception. `new Post(req.body)` copies a
    `comments` id list sent by the client, so a `POST /posts` whose body lists ids breaks it
    for the new post. `KeepsLinks` is kept by every write route: a post that listed only its
    own comments still does.
  - Every write route keeps `Grows`: no post disappears, and a post's comment list only gains
    entries at its end.
- **The AngularJS client** (`public/javascripts/angularApp.js`), in module `AngularApp`:
  - the `posts` factory with its cached list `o.posts`, a `PostList` object mutated in place;
  - the `auth` factory with its stored token;
  - the `MainCtrl` and `PostsCtrl` mutators.

  `$http` is an `Http` object that records every request handed to it, including the bearer
  token read at send time. Whether a request succeeded, and the data it returned, are inputs.
  Post and comment objects are class instances, so `post.upvotes += 1` and `push` update them
  in place. `isLoggedIn` and `currentUser` are functions of the stored token, an abstract
  payload decoder and an integer clock in milliseconds.

`Js.Truthy` gives JavaScript truthiness for a value that is missing or a string. Both halves
use it.

Facts of the route code that the model keeps:
- `/register` has no duplicate-username check; whether the user save is rejected is an input.
- `POST /posts` does no title or link validation of its own; it accepts whatever the request
  body carries, including `upvotes` and `comments`.
- The server's `upvote()` belongs to the Post and Comment models, which are not part of this
  model, so each is a parameter rather than a fixed `+1`.
- Express runs the `:post` and `:comment` resolvers before a route's `auth` middleware. So an
  unknown id is reported even to an unauthenticated request.

## Model

| member | source | states |
|---|---|---|
| `Js.Truthy` | public/javascripts/angularApp.js:175 | a missing value and `""` are falsy; every other string is truthy |
| `Routes.Auth` | routes/index.js:13 | with a verified payload the request goes on with exactly that username; without one it fails with 401 `Unauthorized` |
| `Routes.ResolvePost` | routes/index.js:40-50 | succeeds iff the id is stored, yielding that post; otherwise fails with "can't find post" |
| `Routes.ResolveComment` | routes/index.js:92-102 | succeeds iff the id is stored, yielding that comment; otherwise fails with "can't find comment" |
| `Routes.ResolveCommentRoute` | routes/index.js:92-111 | resolves `:post` and then `:comment`; succeeds iff both ids are stored, so it never asks whether the comment belongs to the post; reports the first missing id |
| `Routes.Filled` | routes/index.js:115 | true exactly when the username and the password are both present and non-empty, so both `/register` and `/login` (routes/index.js:134) answer 400 exactly when it is false |
| `Routes.PresentIds` | routes/index.js:54 | the listed ids that have a stored document: each is listed and stored, every listed stored id is among them, and when every id is stored they are the whole list |
| `Routes.Populate` | routes/index.js:54 | no more documents than ids, each a stored comment; when every id is stored, the documents of all ids in list order |
| `Routes.PopulateFollowsPresentIds` | routes/index.js:54 | for any list, missing ids included, exactly one document per listed id that has one, in list order: pointwise the documents of `PresentIds` |
| `Routes.PopulateShowsListedDocuments` | routes/index.js:54 | every document shown is that of a listed id that has one, and the document of every such id is shown |
| `Routes.Router.ListPosts` | routes/index.js:16-22 | needs no token and changes nothing; replies 200 with the whole collection, or passes the query error on |
| `Routes.Router.GetPost` | routes/index.js:53-59 | needs no token and changes nothing; unknown id gives "can't find post"; otherwise replies 200 with the post and exactly one comment per listed id that has a stored document, in list order, and no other comment; when the post lists only its own stored comments, exactly one per listed id, in order, each pointing back at that post (the corrected error path) |
| `Routes.Router.GetPostAsWritten` | routes/index.js:53-59 | as the source is written, a populate error throws an uncaught "next is not defined" |
| `Routes.Router.CreatePost` | routes/index.js:29-37 | without a token: 401 and no change; otherwise the stored post's author is the token's username, whatever the body says; it is stored under a fresh id with the body's title and link, the body's `upvotes` or the default, and the body's comment list or an empty one; the new post lists only its own comments exactly when that list is empty; a failed save changes nothing; keeps `Valid`, `KeepsLinks` and `Grows`, and `Linked` when the body lists no comment ids |
| `Routes.Router.UpvotePost` | routes/index.js:65-71 | unknown post first, then the gate; on success only that post's counter changes, by the Post model's `upvote()`; comments and users are untouched; keeps `Valid`, `KeepsLinks`, `Linked` and `Grows` |
| `Routes.Router.AddComment` | routes/index.js:74-89 | unknown post first, then the gate. On success, one new comment is stored under a fresh id, its author the token's username, its post the resolved id and its `upvotes` the body's or the default. Its id is appended once, at the end of that post's list; earlier entries and other posts are unchanged; the reply is the comment. If the comment save fails, nothing changes. If only the post save fails, the comment stays stored but unlisted. Keeps `Valid`, `KeepsLinks`, `Linked` and `Grows` |
| `Routes.Router.UpvoteComment` | routes/index.js:105-111 | unknown post, then unknown comment, then the gate; on success only that comment's counter changes, by the Comment model's `upvote()`, whichever post it belongs to; keeps `Valid`, `KeepsLinks`, `Linked` and `Grows` |
| `Routes.Router.Register` | routes/index.js:114-130 | a missing or empty username or password gives 400 "Please fill out all fields", no token and no new user; a failed save adds no user; otherwise the user is added and the reply carries a token for it |
| `Routes.Router.Login` | routes/index.js:133-148 | missing fields give 400; a strategy error goes to `next`; a user gives a token for that user; no user gives 401 with the strategy's info; a token is only ever issued for the user the strategy returned |
| `AngularApp.IsLoggedIn` | public/javascripts/angularApp.js:68-83 | false when no truthy token is stored; throws exactly when the payload cannot be decoded; true exactly when `exp * 1000` exceeds the clock in milliseconds, which is the source's `exp > Date.now() / 1000` |
| `AngularApp.CurrentUser` | public/javascripts/angularApp.js:85-92 | returns a username exactly when `IsLoggedIn` is true, and then the payload's username; nothing when `IsLoggedIn` is false; throws when it throws |
| `AngularApp.AuthService.GetToken` | public/javascripts/angularApp.js:64-66 | the value stored under `'flapper-news-token'`, and `undefined` exactly when that key is absent |
| `AngularApp.AuthService.SaveToken` | public/javascripts/angularApp.js:60-62 | only the `'flapper-news-token'` key is written; afterwards `getToken` returns the saved token |
| `AngularApp.AuthService.Register` | public/javascripts/angularApp.js:95-99 | sends the user to `/register`; on success the returned token is stored under the token key, otherwise `localStorage` is unchanged |
| `AngularApp.AuthService.LogIn` | public/javascripts/angularApp.js:101-105 | sends the user to `/login`; on success the returned token is stored under the token key, otherwise `localStorage` is unchanged |
| `AngularApp.AuthService.LogOut` | public/javascripts/angularApp.js:107-109 | only the token key is removed from `localStorage`, so no token is stored afterwards, and `isLoggedIn` is false and `currentUser` returns nothing for every clock and decoder |
| `AngularApp.PostsService.constructor` | public/javascripts/angularApp.js:4-6 | `o.posts` starts as a new empty list |
| `AngularApp.PostsService.Get` | public/javascripts/angularApp.js:10-14 | sends `GET /posts/:id`; yields the server's post on success; the cache is untouched |
| `AngularApp.PostsService.GetAll` | public/javascripts/angularApp.js:16-20 | on success the contents of the same list object become the server's list; on failure they are unchanged |
| `AngularApp.PostsService.Create` | public/javascripts/angularApp.js:22-28 | sends the draft with the stored token; on success exactly the returned post is appended at the end; on failure the cache is unchanged |
| `AngularApp.PostsService.Upvote` | public/javascripts/angularApp.js:30-36 | sends the upvote with the stored token; on success that post's counter rises by exactly 1; nothing else in the cache changes |
| `AngularApp.PostsService.UpvoteComment` | public/javascripts/angularApp.js:38-45 | sends the upvote for that post and comment with the stored token; on success that comment's counter rises by exactly 1; nothing else changes |
| `AngularApp.PostsService.AddComment` | public/javascripts/angularApp.js:47-51 | sends the comment with the stored token; yields the server's comment on success; the cache is untouched |
| `AngularApp.MainCtrl.constructor` | public/javascripts/angularApp.js:171 | `$scope.posts` is the factory's list object itself |
| `AngularApp.MainCtrl.AddPost` | public/javascripts/angularApp.js:174-183 | with a missing or empty title nothing happens; otherwise `{title, link}` is created with the stored token, the returned post shows up in `$scope.posts` on success, and both fields are cleared |
| `AngularApp.MainCtrl.IncrementUpvotes` | public/javascripts/angularApp.js:185-187 | delegates to the factory's `upvote` |
| `AngularApp.MainCtrl.IncrementDownvotes` | public/javascripts/angularApp.js:188-190 | the local counter drops by exactly 1, with no lower bound and no request sent |
| `AngularApp.PostsCtrl.constructor` | public/javascripts/angularApp.js:195 | `$scope.post` is the post the route resolved, and the comment body starts out undefined |
| `AngularApp.PostsCtrl.AddComment` | public/javascripts/angularApp.js:198-208 | returns early only when the body is exactly `''` (an undefined body is still sent); otherwise sends `{body, author: 'user'}`, pushes the returned comment onto the post on success, and clears the body |
| `AngularApp.PostsCtrl.IncrementUpvotes` | public/javascripts/angularApp.js:210-212 | delegates to the factory's `upvoteComment` for the controller's post |

## Left out

- Mongoose persistence is not modelled directly. The store is held in memory as maps. Saves and queries succeed or fail according to a `bool` input. Fresh ObjectIds come from a counter.
- `Post.find` answers with an array in the order the database returns; the model replies with the whole map of stored posts, so that order is not modelled.
- `findById` query errors (such as a malformed ObjectId) are not modelled: ids are natural numbers.
- The Post, Comment and User schemas are not part of this model. The following are therefore parameters of `Routes.Router`:
  - the default `upvotes` of new posts and comments;
  - what `upvote()` of the Post model and of the Comment model each do to a counter (`postUpvote`, `commentUpvote`). Each is assumed to change only that counter.
- Routes.Router.UpvotePost: does not promise `+1`, because `Post.upvote` is defined in a model file that is not part of this model. The same holds for Routes.Router.UpvoteComment and `Comment.upvote`.
- Request-body fields other than title, link, author, upvotes and comments (posts) and body, author and upvotes (comments) are not modelled. The model assumes the Post schema has `upvotes` and `comments` paths, which `upvote()` and `populate('comments')` use, and that the Comment schema has `upvotes`. A `post` sent in a comment body is overwritten by the route, so it is not modelled either.
- Routes.Router.GetPost: promises the in-order comments, one per listed id and each pointing back at the post, only for a post that lists only its own stored comments. A post created with a body `comments` list may list ids of other posts' comments or of no comment at all.
- Routes.Router.CreatePost: does not promise to keep `Linked`, because a body `comments` list is stored as given. For the new post it states exactly when that post lists only its own comments.
- JWT verification, signing and `generateJWT` are not modelled. A verified request carries only its payload's username. An issued token is represented by the user it was issued for.
- `setPassword`, password hashing and the passport `local` strategy are not modelled. The strategy's outcome is an input.
- `res.render` for `/`, the ui-router configuration, `AuthCtrl` and `NavCtrl` are not modelled: they are UI wiring.
- `$http`, promises and `localStorage` are not modelled as libraries. A request is a recorded `Call`; its outcome is an `ok` flag plus the returned data; `localStorage` is the map `storage`.
- AngularApp.PostsService.GetAll: `angular.copy` makes a deep copy of the server's objects; the model stores the received objects themselves, which nothing else references.
- `atob`, `JSON.parse` and `token.split('.')` are not modelled. They are one abstract partial decoder; a token it cannot decode makes the caller throw.
- Client post and comment objects carry only the fields the client reads or writes (id, upvotes, comments).
- In `MainCtrl.addPost` and in `PostsCtrl.addComment`, the fields are cleared before the server answers; the model applies the answer first. In both the two steps touch disjoint state, so the final state is the same.
- Interleaving of concurrent requests is not modelled: every operation runs to completion in sequence.

## Findings

| source | as written | input that shows it | evidently intended | confidence | as-written member | corrected member |
|---|---|---|---|---|---|---|
| routes/index.js:53-58 | the `GET /posts/:post` handler is `function(req, res)` but calls `next(err)` when `populate` fails; `next` is not defined there, so a ReferenceError is thrown from the callback and never reaches Express | any stored post id while `populate` reports an error | hand the error to Express's error handler, as every other handler does | high (not executed) | `Routes.Router.GetPostAsWritten` | `Routes.Router.GetPost` |

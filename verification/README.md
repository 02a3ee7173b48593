# Posts endpoint handler — a Dafny model

This project models the request handler of a blog's posts API
(`deepseek_javascript_20250713_5bc8e0.js`). The handler connects to the database and then
dispatches on the HTTP method:

- `GET` normalises the `page` and `limit` query parameters, builds an equality filter from the
  optional `category` and `language` parameters, runs a paginated read and a count with that
  filter, and answers 200 with the posts, the total, the page and the page count.
- `POST` takes the bearer token from the `Authorization` header, has it verified, checks that
  the body has a truthy `title` and `content`, and writes the body with `author` set to the
  verified user's id. It answers 401, 401, 400 or 201.
- Any other method gets 405 with `Allow: GET, POST`.
- Anything thrown (connection, verifier, store, an `undefined` or `null` body) becomes a 500
  "Internal server error". The error's message is included only when `NODE_ENV` is `development`.

Everything is modelled as pure functions over values. The collaborators are passed in as the
`Backend` value: the connection outcome, the token verifier, and the store's find, count and
create. `NODE_ENV` is the `Env` value. An `Exchange` records the response, the paginated read
issued (the count query takes that read's filter and is not recorded separately), and the record
handed to `Post.create`. That is how "no write on failure" is stated.

Files:

- `wrappers.dfy`: `Option` and `Result`.
- `js_values.dfy`: JSON values and JavaScript truthiness.
- `pagination.dfy`: page and limit clamping, skip offset, ceiling division.
- `query_filter.dfy`: the store filter.
- `bearer_token.dfy`: `split(' ')` and the token candidate.
- `posts_handler.dfy`: the method branches, the guard chain and the error envelope.

Three details of the code that the model keeps:

- The token is piece 1 of `split(' ')`. `"Bearer  x"` (two spaces) yields the empty token, which
  is rejected.
- The filter includes a parameter only when it is truthy, so an empty string is left out.
- The error detail is shown only when `NODE_ENV` is exactly `development`.

`QueryFilter.Matches` reads the filter as plain equality on string fields. The handler itself
never uses it: the store's `find` is an input with no constraint, so the two lemmas about
`Matches` describe what the filter selects, not which posts the handler returns.

## Model

| member | source | states |
|---|---|---|
| `Pagination.EffectivePage` | deepseek_javascript_20250713_5bc8e0.js:13-14 | the page is at least 1; it is 1 when absent, the given page when that is at least 1, and 1 for a page of 0 or below |
| `Pagination.EffectiveLimit` | deepseek_javascript_20250713_5bc8e0.js:13-15 | the limit lies in [1, 50]; it is 10 when absent, the given limit when in range, 1 below the range and 50 above it |
| `Pagination.SkipBounds` | deepseek_javascript_20250713_5bc8e0.js:17 | the skip offset is non-negative and a multiple of the limit; it is 0 exactly on page 1; dividing it by the limit gives `page - 1` |
| `Pagination.TotalPages` | deepseek_javascript_20250713_5bc8e0.js:37 | the page count covers the total (`total <= n * limit`); one page fewer would not (`(n - 1) * limit < total` when `total > 0`); it is 0 for an empty collection |
| `Pagination.TotalPagesUnique` | deepseek_javascript_20250713_5bc8e0.js:37 | any count with those three properties equals `TotalPages`, so it is exactly the ceiling of `total / limit` |
| `Pagination.PageInRange` | deepseek_javascript_20250713_5bc8e0.js:17-37 | a page starts inside the collection if and only if its number is at most the page count, so every later page is empty |
| `Pagination.RecordOnOnePage` | deepseek_javascript_20250713_5bc8e0.js:17-37 | each record index lies on exactly one page, `i / limit + 1`, and that page is within the page count |
| `QueryFilter.Build` | deepseek_javascript_20250713_5bc8e0.js:19-21 | the filter has `category` if and only if the category is truthy, and then with its value; the same holds for `language`; it has no other keys |
| `QueryFilter.NoParametersMatchAll` | deepseek_javascript_20250713_5bc8e0.js:19-29 | without category and language the filter is `{}`, and under the equality reading of `Matches` every record matches it |
| `QueryFilter.CategoryOnly` | deepseek_javascript_20250713_5bc8e0.js:19-29 | with only a category, under the equality reading of `Matches`, a record matches exactly when its `category` equals that string |
| `BearerToken.Split` | deepseek_javascript_20250713_5bc8e0.js:43 | `split` yields at least one piece; it yields exactly one when the separator does not occur; no piece contains the separator |
| `BearerToken.JoinSplit` | deepseek_javascript_20250713_5bc8e0.js:43 | joining the pieces of a split gives back the original string |
| `BearerToken.SplitJoin` | deepseek_javascript_20250713_5bc8e0.js:43 | splitting the join of separator-free pieces gives back those pieces |
| `BearerToken.Candidate` | deepseek_javascript_20250713_5bc8e0.js:43 | a token candidate exists if and only if the header is present and contains a space; the candidate contains no space |
| `BearerToken.TokenAfterFirstSpace` | deepseek_javascript_20250713_5bc8e0.js:43 | for `scheme + " " + token`, optionally followed by a space and more text, the candidate is `token`; the scheme is not checked |
| `BearerToken.BearerHeader` | deepseek_javascript_20250713_5bc8e0.js:43-44 | `"Bearer <token>"` with a non-empty, space-free token yields that token, and the token is not missing |
| `BearerToken.MissingCases` | deepseek_javascript_20250713_5bc8e0.js:43-45 | the token is missing for an absent header, a header without a space, and a header with two spaces after the scheme |
| `PostsHandler.InternalError` | deepseek_javascript_20250713_5bc8e0.js:73-79 | the catch envelope is 500, unsuccessful, "Internal server error"; it carries the error's message if and only if `NODE_ENV` is `development` |
| `PostsHandler.MethodNotAllowed` | deepseek_javascript_20250713_5bc8e0.js:69-71 | 405, unsuccessful, `Allow` holds exactly GET and POST, message `Method <m> not allowed` |
| `PostsHandler.WithAuthor` | deepseek_javascript_20250713_5bc8e0.js:60-63 | the record has the body's keys plus `author`; `author` is the user's id, overriding any `author` in the body; every other field is the body's |
| `PostsHandler.ListQueryFor` | deepseek_javascript_20250713_5bc8e0.js:13-29 | the read uses the built filter and a limit in [1, 50]; the skip is a non-negative multiple of the limit and equals `(page - 1) * limit` |
| `PostsHandler.BodyReadError` | deepseek_javascript_20250713_5bc8e0.js:53 | reading `title` throws exactly for an `undefined` or `null` body, with the matching TypeError message |
| `PostsHandler.HandleGet` | deepseek_javascript_20250713_5bc8e0.js:12-39 | both queries are issued and nothing is written; the branch returns if and only if both resolve; a 200 carries the fetched posts and the count, a page of at least 1 and the ceiling page count; otherwise it throws the find's error, or the count's when only the count rejects |
| `PostsHandler.HandlePost` | deepseek_javascript_20250713_5bc8e0.js:42-67 | the guards in order: no token gives 401; a rejecting verifier throws its error; no user gives 401; an unreadable body throws; a readable body without truthy title and content gives 400; a record is written if and only if every guard passes, and it is the body with `author` set to the verified id; a rejected write throws its error; 201 with the stored post if and only if the write resolves |
| `PostsHandler.Handle` | deepseek_javascript_20250713_5bc8e0.js:5-81 | after a successful connection, whatever the dispatched branch throws is answered with `InternalError` of that message, and what it returns is sent as is; a read is issued only for GET; a write happens only for an admitted POST; 201 implies a write; the status is one of 200, 201, 400, 401, 405 and 500; a 500's detail appears only in development |
| `PostsHandler.SuccessIffTwoHundred` | deepseek_javascript_20250713_5bc8e0.js:32-79 | the envelope's `success` is true exactly for the 2xx statuses |
| `PostsHandler.ConnectFailure` | deepseek_javascript_20250713_5bc8e0.js:8-9 | a failed connection gives the 500 envelope for any method, with no read and no write |
| `PostsHandler.UnsupportedMethod` | deepseek_javascript_20250713_5bc8e0.js:69-71 | any method other than GET and POST (case-sensitive) gives 405 with no read and no write |
| `PostsHandler.ListSucceeds` | deepseek_javascript_20250713_5bc8e0.js:32-38 | a GET whose queries resolve answers the posts, the total, the effective page and `TotalPages(total, limit)` |
| `PostsHandler.MissingTokenRejected` | deepseek_javascript_20250713_5bc8e0.js:43-46 | POST without a token gives 401 "Authorization token required" and no write; the outcome does not depend on the verifier |
| `PostsHandler.InvalidTokenRejected` | deepseek_javascript_20250713_5bc8e0.js:48-51 | a token the verifier rejects gives 401 "Invalid or expired token" and no write; the outcome does not depend on the body |
| `PostsHandler.MissingFieldsRejected` | deepseek_javascript_20250713_5bc8e0.js:53-58 | a verified POST with a readable body (an object, or a string, number, boolean or array, which have neither field) and a falsy title or content gives 400 "Title and content are required"; the outcome does not depend on the store's create |
| `PostsHandler.ListFails` | deepseek_javascript_20250713_5bc8e0.js:23-30 | a rejected find gives the 500 envelope with the find's message; the read was issued and nothing is written |
| `PostsHandler.CountFails` | deepseek_javascript_20250713_5bc8e0.js:23-30 | a rejected count after a resolved find gives the 500 envelope with the count's message |
| `PostsHandler.VerifyFails` | deepseek_javascript_20250713_5bc8e0.js:48 | a verifier that rejects gives the 500 envelope with its message, and nothing is written |
| `PostsHandler.BodyUnreadable` | deepseek_javascript_20250713_5bc8e0.js:53 | for a verified user, an `undefined` or `null` body gives the 500 envelope with the TypeError's message, and nothing is written |
| `PostsHandler.PostCreated` | deepseek_javascript_20250713_5bc8e0.js:60-65 | an admitted POST writes the body's title and content with the verified author; a resolved write gives 201 with the stored post; a rejected write gives the 500 envelope |

## Left out

- Mongoose is not part of this model: `Post.find`, `sort`, `populate`, `Post.countDocuments` and `Post.create`. Their answers are inputs. `QueryFilter.Matches` is plain string equality; MongoDB's matching of array fields is not modelled.
- `connectToDB` and `verifyToken` (`lib/db`, `lib/auth`) are not part of this model. Their outcomes are inputs.
- `Promise.all` concurrency is not modelled. If both queries reject, the model reports the find's error; the real handler reports whichever rejects first.
- `parseInt`'s string grammar and its NaN result are not modelled. `page` and `limit` arrive as integers, and absent means not given. A non-numeric parameter makes NaN slip past the clamp in the source; the model does not cover that case.
- `TotalPages` computes `Math.ceil` by integer ceiling division, not floating-point division.
- JSON numbers are integers. Fractional values and NaN are not modelled, which matters only for the truthiness of `title` and `content`.
- Query parameters given as arrays (`?category=a&category=b`) are not modelled; each parameter is one string.
- `BODY_UNDEFINED` and `BODY_NULL` are V8's TypeError messages for reading `title` of an `undefined` or `null` body; other engines word them differently. A collaborator that throws a value which is not an `Error` has no `message`; that case is not modelled.
- A string, number, boolean or array body is modelled as having no `title` or `content`. JavaScript strings and arrays have no such properties, but a body whose prototype was altered to supply them is not modelled.
- SkipBounds: the model computes `(page - 1) * limit` on unbounded integers. In the source it is a double, which is exact only up to 2^53. Past that the product is rounded: `page = 9007199254740992` with `limit = 10` gives 90071992547409904, which is not a multiple of 10. The properties therefore hold in the source only while `page * limit` stays below 2^53.
- ListQueryFor: its skip clauses are exact only under the same 2^53 bound, for the same reason.
- The `res` object, the `console.error` logging and the ambient `process.env` are not modelled. The response is returned as a value, and the environment is a parameter.

# AI code review backend: review job store and user table

This project models the two stateful parts of the code-review service:

- **The review job store** (`app/api/reviews/viewer.py`). `create_review` inserts a document with status `pending` and then schedules a background task. The task `process_review` calls a language-model provider, parses its reply as JSON, and sets the document to `completed` with the parsed feedback. If anything in its single `try` fails, it sets the document to `failed` with `{"error": str(e)}`. `get_review` and `list_reviews` read the collection back through the projection `serialize_review`. FastAPI then validates each result against `ReviewResponse`, whose `feedback` must be a dict or None, and answers 500 when it is not.
- **The user table** (`app/api/auth/routes.py`). `register` and `login` use an email normalised by `lower().strip()`. `login_with_google` creates an account for a verified Google email. `get_current_user` and `get_current_user_optional` resolve a bearer token to a user, by `_id` first and then by `email`.

In `reviews.dfy`, the `reviews` collection is the class `Reviews.ReviewStore`. It holds the documents in insertion order, the log of scheduled background tasks, and a counter for fresh ids. Its invariant says four things:
- ids are unique and fresh;
- a document has a `feedback` key exactly when it has left `pending`;
- one task was scheduled per document, in insertion order;
- each task carries its document's id, code and language.

The transition written by `process_review` is the pure function `Reviews.Outcome` of the provider's reply, an arbitrary JSON parser, and an arbitrary refusal by the driver to encode the parsed value. `Reviews.UpdateOne` applies it as a `$set` to the first document with the id. `Reviews.Replay` runs any sequence of submissions and completions. Lemmas about `Replay` show that a settled review never returns to `pending` (`Reviews.ReplayNeverReopens`), and that ids stay unique, stay below the counter advanced by one per submission, and `feedback` stays present exactly on settled reviews (`Reviews.ReplayConsistent`). `Replay` keeps no task log; the methods of `ReviewStore` preserve the whole invariant, task log included, through `Valid()`.

In `auth.dfy`, the `users` collection is the class `Auth.UserStore`. Its invariant is that `_id` equals `email`, no email is empty, and emails are unique. `register` and `login_with_google` are its methods. The read-only handlers are functions of the table's contents. `text.dfy` models `str.lower()` and `str.strip()` and proves how `(email or "").lower().strip()` behaves. `common.dfy` holds the shared `Option`, `Result`, `HttpError` and `Json` types.

Two behaviours of the code are worth stating outright:
- **Google login without an email.** The `login_with_google` docstring (routes.py:235) promises 400 when the Google token has no email. The code raises that 400 inside a `try` whose `except Exception` turns it into 401 (routes.py:259-268). The model follows the code; `Auth.NoGoogleEmailIsUnauthorized` states this.
- **Unparseable provider replies.** `json.loads` sits inside the same `try` as the provider call (viewer.py:51), so a reply that does not parse lands in `failed` with the parser's message, exactly like a provider error (viewer.py:58-62). `Reviews.Outcome` states this.

## Model

| member | source | states |
|---|---|---|
| `Reviews.StatusText` | app/api/reviews/viewer.py:53-71 | the stored status is always one of the three texts `pending`, `completed`, `failed` |
| `Reviews.StoredTime` | app/api/reviews/viewer.py:72-74 | the stored `created_at` is the request time rounded down to whole milliseconds, as a BSON date holds it |
| `Reviews.Serialize` | app/api/reviews/viewer.py:14-22 | `serialize_review` copies id, code, language and creation time, writes the status as its text, and reads `feedback` with `.get`: None both for a missing key and for a stored null, the stored value otherwise |
| `Reviews.SerializeInjective` | app/api/reviews/viewer.py:14-22 | `serialize_review` maps a stored null `feedback` and a missing one both to None, yet on documents whose `feedback` is present exactly when they have left `pending` it still tells any two documents apart |
| `Reviews.Validate` | app/api/reviews/schema.py:12-18 | validation against `ReviewResponse` copies every field and succeeds exactly when `feedback` is None, null or an object; otherwise it is a 500 |
| `Reviews.ValidateAll` | app/api/reviews/viewer.py:93 | validation against `list[ReviewResponse]` succeeds exactly when every element validates, and then yields each element's validation in order; otherwise it is a 500 |
| `Reviews.Outcome` | app/api/reviews/viewer.py:44-62 | the task never writes `pending`; it writes `completed` exactly when the provider replied, the reply parsed and the driver accepted the parsed value, with that value as feedback; a provider error, a parse error or a refused write each give `failed` with `{"error": message}` |
| `Reviews.OutcomePresentable` | app/api/reviews/viewer.py:44-62 | a document the task has settled reads back without a 500 exactly when the task failed, or completed with a reply that parsed to null or to an object |
| `Reviews.Find` | app/api/reviews/viewer.py:87 | the id lookup yields the first document with that id, or reports that none has it |
| `Reviews.UpdateOne` | app/api/reviews/viewer.py:53-62 | the `$set` changes only `status` and `feedback`, only of the first document with the id; id, code, language and creation time of every document, and every other document, are unchanged; no match, no change |
| `Reviews.ReplayNeverReopens` | app/api/reviews/viewer.py:53-75 | after any sequence of submissions and completions, a review that has left `pending` is still settled and keeps its id, code, language and creation time |
| `Reviews.ReplayConsistent` | app/api/reviews/viewer.py:53-75 | every sequence of submissions and completions keeps ids unique, keeps every id below the counter advanced by one per submission, and keeps `feedback` present exactly on settled reviews |
| `Reviews.ReviewStore.Get` | app/api/reviews/viewer.py:84-90 | 404 "Review not found" exactly when no document has the id; 500 only when a document with the id has a `feedback` that is neither null nor an object; otherwise the validated projection of a document with the id; reads only |
| `Reviews.ReviewStore.Create` | app/api/reviews/viewer.py:65-81 | appends exactly one `pending` document with a fresh id, the request's code and language and no feedback; schedules one task with that id, code and language; returns the validated projection of its local dict (status `pending`, feedback None, the untruncated request time); a lookup by the id now returns the same response with the creation time rounded down to milliseconds |
| `Reviews.ReviewStore.Process` | app/api/reviews/viewer.py:25-62 | the collection becomes the `$set` of `Outcome` on the given id, and a lookup reports the status it wrote; tasks and the id counter are untouched; no document becomes `pending` again |
| `Reviews.ReviewStore.List` | app/api/reviews/viewer.py:93-98 | 500 exactly when a document on the page has a `feedback` that is neither null nor an object; otherwise at most `limit` validated projections, those of the documents after the first `skip` in insertion order, in that order, with no sorting |
| `Text.Lower` | app/api/auth/routes.py:122 | `lower()` keeps the length, turns each ASCII capital into its small letter, leaves every other character, and leaves no ASCII capital behind |
| `Text.Normalize` | app/api/auth/routes.py:174 | `(data.get("email") or "").lower().strip()` yields a lower-case string with no whitespace at either end, which is the lower-cased input with whitespace removed from both sides |
| `Text.LeadingSpaces` | app/api/auth/routes.py:122 | counts the whitespace prefix that `strip()` removes: all of it is whitespace and the next character is not |
| `Text.TrailingSpaces` | app/api/auth/routes.py:122 | counts the whitespace suffix that `strip()` removes: all of it is whitespace and the character before it is not |
| `Text.Strip` | app/api/auth/routes.py:122 | `strip()` returns a part of its input with whitespace on both sides and none at either end |
| `Text.StripPadded` | app/api/auth/routes.py:122 | `strip()` of any whitespace-padded string is exactly its trimmed core |
| `Text.NormalizeIdempotent` | app/api/auth/routes.py:122 | normalising an already normalised email changes nothing |
| `Text.NormalizeIgnoresCaseAndPadding` | app/api/auth/routes.py:174 | emails differing only in letter case and surrounding whitespace normalise to the same key |
| `Auth.FindByEmail` | app/api/auth/routes.py:126 | the email lookup yields the first document with that email, or reports that none has it |
| `Auth.FindById` | app/api/auth/routes.py:44 | the `_id` lookup yields a document with that `_id`, or reports that none has it |
| `Auth.Lookup` | app/api/auth/routes.py:44 | resolution tries `_id` first and falls back to `email`; it fails exactly when no document has the subject as `_id` or email |
| `Auth.LookupIsEmailLookup` | app/api/auth/routes.py:44 | on a table built by these handlers, `_id` lookup, email lookup and their combination agree |
| `Auth.CurrentUser` | app/api/auth/routes.py:39-47 | 401 "Not authenticated" without credentials, 401 "Invalid token" without a subject, 401 "User not found" exactly when nothing matches; otherwise a stored user whose `_id` or email is the subject |
| `Auth.CurrentUserOptional` | app/api/auth/routes.py:70-79 | never raises; yields a user exactly when `get_current_user` would, and that same user |
| `Auth.Login` | app/api/auth/routes.py:174-180 | every failure is 401 "Invalid credentials"; an unknown email fails; success means a stored account with the normalised email accepted the password, and returns a bearer token for that email |
| `Auth.WrongPasswordLooksLikeUnknownEmail` | app/api/auth/routes.py:176-178 | a wrong password for an existing password account gives the same error as an unknown email |
| `Auth.RegisteredUserCanLogin` | app/api/auth/routes.py:174-179 | a stored password account accepts login with its password under any casing and padding of the email |
| `Auth.GoogleTry` | app/api/auth/routes.py:257-261 | inside the `try`, a rejected token raises and a token without an email raises HTTPException 400; otherwise the lower-cased email |
| `Auth.GoogleIdentity` | app/api/auth/routes.py:257-268 | with the `except`, every failure is 401 "Invalid Google token"; success exactly for a verified token with a non-empty email |
| `Auth.NoGoogleEmailIsUnauthorized` | app/api/auth/routes.py:259-268 | the 400 raised for a missing Google email reaches the caller as 401 |
| `Auth.UserStore.Register` | app/api/auth/routes.py:122-132 | 400 for a blank email or missing password and 409 for a known email, both leaving the table unchanged; otherwise exactly one `{_id: email, email, password_hash}` document is appended, its `_id` collides with none, and a bearer token for the normalised email is returned |
| `Auth.UserStore.LoginWithGoogle` | app/api/auth/routes.py:254-266 | 400 before verification without token or client id; 401 for every later failure; otherwise inserts `{_id: email, email, google: True}` only when no account has the lower-cased (untrimmed) email, leaves existing accounts untouched, and returns a bearer token |

## Left out

- The OpenAI request and prompt (viewer.py:28-50): the provider's reply is an input `Ok(content)` or `Err(message)`; `json.loads` is an arbitrary parser returning a JSON value or an error message.
- Reviews.Outcome: which values the driver refuses to encode (an integer wider than 8 bytes, a document over the size limit) is a parameter, not a concrete rule; the `failed` write with `{"error": message}` is taken to be accepted.
- Reviews.Validate: pydantic's `dict` check is taken to accept only JSON objects (pydantic 2's behaviour); the exact 500 body is FastAPI's, modelled only as "Internal Server Error".
- Atomicity: each handler and each background task is modelled as one atomic step. In the service, handlers interleave at every `await`; two `register` calls, or two `login_with_google` calls, can both pass the `find_one` check before either `insert_one` runs (routes.py:126-130, 262-264), and `process_review` can interleave with reads of the same review.
- BackgroundTasks execution: a scheduled task is only recorded in the `tasks` log; `Process` may be called for any id, as `update_one` allows, and its running once per task is not enforced.
- MongoDB and ObjectId: ids are naturals from a counter; the string conversion of ids is the identity; the exception on a malformed id string is library behaviour.
- Natural order: MongoDB's natural order is taken to be insertion order.
- Reviews.ReviewStore.List: `skip` and `limit` are naturals; the negative values FastAPI would accept make the driver raise, which is not modelled. The query defaults `skip = 0` and `limit = 10` (viewer.py:94) belong to FastAPI's parameter parsing: callers pass both values explicitly.
- `datetime.utcnow()`: creation times are passed in, as microseconds.
- JSON numbers are integers; floating point is not modelled.
- Auth.Login: for an account without `password_hash` (one created by Google login), `login` checks the password against the empty hash, which passlib rejects by raising; the uncaught exception makes the reply 500. The model leaves that check to the abstract `verify`, so "every failure is 401" and `Auth.WrongPasswordLooksLikeUnknownEmail` hold for password accounts only.
- Text.Lower: lower-cases ASCII letters only (through `Text.LowerChar`), whereas Python's `str.lower()` also maps non-ASCII letters and can change a string's length (U+0130 becomes two characters); "keeps the length" holds of the model only. `Text.Normalize` inherits this gap.
- bcrypt, JWT and Google verification are parameters: `hash`, `verify`, `issue`, `decode` and a verification outcome. bcrypt's random salt, token expiry and the random default secret are not modelled.
- Exceptions these libraries or the database could raise are not modelled. This covers a `verify_password` call on the empty hash of a Google-only account, database errors swallowed by `get_current_user_optional`, and a non-string `email` or `password` in the request body.
- HTTP Bearer header parsing: the credentials are the already extracted token, or None.
- The `me` handler (routes.py:214), which only projects the user's email, and the router mounting in app/main.py (only the reviews router is mounted; the auth handlers are modelled as plain functions).
- app/core/security.py, app/database/database.py and start.py are not part of this model beyond the abstractions above.

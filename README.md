# Recipe wizard: a Dafny model

This project models the request handling of a small Flask application. The
application stores recipes in a MongoDB collection. A five-page wizard
creates or edits one recipe. Each page posts a step number and a navigation
directive.

Each POST does the following:

- It moves the step one up on `next`, which is the default. On any other
  directive it moves one down.
- On a forward move only, it copies the five recipe fields from the form
  into the per-browser session. These fields are `base`, `flavor`,
  `nutrition`, `texture` and `name`.
- When the new step is exactly 6, it writes the session as one document
  with the time of the request. It then clears the session and redirects to
  the list.
- For any other step, including 0 and 7, it redirects to that step's page.

So a page left with any directive other than `next` loses what was typed on
it: only the values of forms posted with `next` reach the stored recipe
(`Routes.AnyRunToSix`).

Around the wizard sit three small pieces:

- the list page's handling of its query string (sort field, sort direction,
  the next order offered, and the name filter);
- the GET pages of the wizard;
- deletion by identifier.

Modules:

- `Wrappers`: `Option` and `Result`.
- `PyInt`: Python's `int(text)` and `str(n)` for base 10, as far as the step
  number needs them.
- `Records`: recipes, timestamps, identifiers, and the string maps used for
  the session, the form and the query string. It also holds `ObjectId(text)`
  parsing.
- `Routes`: each handler as a pure transition. A handler takes the server
  state `Server(session, store)` and the request. It gives the response and
  the new state. The lemmas about single requests and about runs of
  requests live here.
- `ListView`: the list page's parameter logic.
- `Handlers`: the class `App`, whose fields are the session and the store. Its methods
  change those fields in place, in the order the handlers do. Each method is
  proved equal to its transition in `Routes`.

Error handling:

- Every exception ends in the blanket error page, `ErrorPage(error)`:
  - `ValueError` from `int()`;
  - `KeyError` from reading a missing session field;
  - `InvalidId` from `ObjectId()`;
  - `DuplicateKey` from inserting an identifier that is already used.
- Flask still saves the session when the error handler renders. So after a
  failure at step 6, the session keeps the fields just merged into it. The
  store is unchanged.

Step comparison:

- The handlers compare the printed step with the text `"6"`, and
  `Handlers.App.Submit` does the same.
- The pure transition compares the number with 6. `PyInt.IntToStringIsSix`
  proves the two tests agree.

Two behaviours of the code worth noting:

- Search is a regular-expression match on the name with the `i` option, not
  a plain substring test. The model keeps the pattern and the option in the
  filter value (`ListView.NameMatches`); nothing in the code escapes the
  search text.
- Editing with a well-formed identifier that names no document is not an
  error. `update_one` matches nothing, and the session is still cleared
  before the redirect to the list.

## Model

| member | source | states |
|---|---|---|
| PyInt.ParseIntToString | app.py:90-92 | `int(str(n)) == n` for every integer, so the step text a redirect carries reads back as the step |
| PyInt.IntToStringIsSix | app.py:102 | the text comparison `step == '6'` holds exactly when the new step number is 6 |
| PyInt.NatToString | app.py:90-92 | `str(n)` of a natural number is one or more decimal digits with no leading zero (unless `n` is 0), and has at least two exactly when `n >= 10` |
| PyInt.ParseNatToString | app.py:90-92 | the digits `str(n)` writes for a natural number read back as `n`, by induction on the number of digits |
| PyInt.ParseInt | app.py:90-92 | `int(step)`: strips ASCII whitespace, takes one optional sign, then digits with single underscores between them; None stands for ValueError. No contract of its own: ParseIntToString states its round trip |
| PyInt.IntToString | app.py:90-92 | `str(n)`: a minus sign for negative numbers, then the digits of the magnitude. No contract of its own: ParseIntToString and IntToStringIsSix state what it means |
| Records.Lookup | app.py:86-87 | `m.get(key, default)` is the stored value when the key is present, else the default |
| Records.ParseObjectId | app.py:163 | an identifier text is accepted exactly when it has 24 hexadecimal digits, and the result is that text with each letter in lower case |
| Records.ParsePrinted | app.py:171 | parsing the printed form of an identifier gives the identifier back |
| Records.ParseIgnoresCase | app.py:184 | two texts that differ only in letter case name the same document |
| Routes.DefaultMove | app.py:86-90 | without a directive or a step, a POST moves from step 1 to step 2 |
| Routes.MoveByOne | app.py:86-92 | on `next` the new step is `int(step)+1`; on any other directive it is `int(step)-1` |
| Routes.BackUndoesForward | app.py:136-142 | going back from the step a forward move reached returns to the step it started from |
| Routes.MergeSetsFields | app.py:95-100 | after a forward move each field is the form's value, else the session's, else empty; all five are present; other keys are unchanged |
| Routes.MissingField | app.py:103-108 | the first field, in the order the document reads them, that the session lacks; none exactly when all five are present |
| Routes.NewStep | app.py:86-92 | the new step number, or None where `int()` raises; DefaultMove and MoveByOne state its meaning |
| Routes.Merge | app.py:95-100 | the five session assignments of a forward move, in the source's order; MergeSetsFields states their effect |
| Routes.Write | app.py:111 | the create insert (refused for an identifier already used) or the edit update (InvalidId for a malformed identifier, nothing changed for an absent one); CreateAddsOne and EditOverwritesOne state their effect |
| Routes.Post | app.py:85-115 | one POST to either wizard; the lemmas from UnparsableStepChangesNothing to CompletesAtSix state its cases |
| Routes.Finish | app.py:102-113 | the step-6 branch: KeyError for the first missing field, else the write, then an empty session; CompletesAtSix and FailureCases state its cases |
| Routes.CreatePage | app.py:117-118 | GET /create: the requested step's template with the session; RedirectShowsStep states it |
| Routes.EditPage | app.py:170-172 | GET /edit: the requested step's template with the session and the stored document, InvalidId for a malformed identifier; RedirectShowsStep states it |
| Routes.Delete | app.py:184-187 | delete by identifier, InvalidId for a malformed one; DeleteRemovesOnly and DeleteIdempotent state its effect |
| Routes.UnparsableStepChangesNothing | app.py:90 | a step that is not a number fails with ValueError and leaves session and store as they were |
| Routes.RedirectUnlessSix | app.py:114-115 | any new step other than 6, including 0 and 7, redirects to that step and leaves the store unchanged |
| Routes.BackKeepsSession | app.py:145-150 | a move that is not forward does not change the session unless the recipe is written |
| Routes.WritesOnlyAtSix | app.py:102-115 | the store changes only when the new step is 6, whichever directive led there, and the response is then the redirect to the list |
| Routes.FailureCases | app.py:86-115 | a POST fails exactly for a non-numeric step, or at step 6 for a missing field or a refused write; a failure never changes the store |
| Routes.KeyErrorOnlyGoingBack | app.py:104-108 | a missing-field failure happens only on a backward move into step 6, for a field the session lacked |
| Routes.CompletesAtSix | app.py:102-113 | reaching step 6 with all five fields writes them with the request time, clears the session and redirects to the list |
| Routes.CreateAddsOne | app.py:111 | the create write adds exactly one document under the new identifier and keeps every other |
| Routes.EditOverwritesOne | app.py:162-164 | the edit write overwrites the named document if there is one, and no other; the set of identifiers is unchanged |
| Routes.RedirectShowsStep | app.py:115-172 | a redirect leaves the store as it was; the page the browser then asks for is that step's create page with the session, or for the edit flow that step's edit page with the session and the stored document, or InvalidId for a malformed identifier |
| Routes.DeleteRemovesOnly | app.py:184-187 | delete removes the named document and changes no other, and redirects to the list whether it existed or not |
| Routes.DeleteIdempotent | app.py:184 | deleting twice is the same as deleting once |
| Routes.Run | app.py:85-115 | a run of posts gives one response per post |
| Routes.RunSplit | app.py:85-115 | running posts and then one more post is the run followed by that post |
| Routes.LastValueFirst | app.py:96-100 | the last value submitted for a key can be computed from the first form onwards |
| Routes.FoldSplit | app.py:95-100 | applying session updates for forms and then one more form is the same as applying that update last |
| Routes.MergedFieldsAreLast | app.py:96-100 | after forward moves each field holds the last value submitted for it, else the one the session held |
| Routes.WizardCompletes | app.py:85-115 | five forward posts from step 1 redirect to steps 2 to 5, then write the recipe of the last submitted values and leave the session empty |
| Routes.StepsTwoToFive | app.py:89-115 | four redirects to the steps the forms move to, 2 to 5, and the redirect to the list make up exactly that five-response list |
| Routes.Forwards | app.py:95 | the forms of a run posted with `next`, in order; every one of them is forward and there are no more of them than forms |
| Routes.ForwardsOfForward | app.py:95 | in a run posted entirely with `next`, every form is merged |
| Routes.MoveFoldIsMergeFold | app.py:95-100 | moving through a run changes the session exactly as merging its `next` forms alone would; forms posted otherwise are dropped |
| Routes.RedirectRun | app.py:114-115 | a run of posts that each redirect and update only the session gives those redirects, the session updated by every post, and the same store |
| Routes.RedirectThenLast | app.py:85-115 | redirecting posts followed by one other post give the redirects, then that post's reply and state |
| Routes.Targets | app.py:89-92 | the step each form of a run moves to |
| Routes.WizardRedirects | app.py:114-115 | every post whose new step is a number other than 6 redirects there and changes only the session, by the move |
| Routes.RunSessionRecipe | app.py:95-108 | after any run, if some form was posted with `next` or the session already held every field, all five are present and the document is the recipe of the last values posted with `next`, else the session's |
| Routes.LastToSix | app.py:102-113 | the post that reaches step 6 after the redirects writes that recipe and clears the session |
| Routes.AnyRunToSix | app.py:85-115 | any run of redirecting posts in either direction, ended by a post reaching step 6, gives those redirects and then writes the recipe of the last values posted with `next` (else the session's), and leaves the session empty |
| ListView.NextOrder | app.py:62 | the next order is `asc` exactly when the current order is `desc`, and is always `asc` or `desc` |
| ListView.Direction | app.py:63 | the direction is -1 exactly when the order is `desc`, and 1 otherwise |
| ListView.SearchFilter | app.py:65 | the filter matches everything exactly when the search text is empty; otherwise it is a case-insensitive match on the name |
| ListView.ReadQuery | app.py:58-65 | sort field and search text are the parameters or their defaults; the direction is -1, and the next order `asc`, exactly when the `order` parameter (default `desc`) is `desc`, and otherwise 1 and `desc`; the filter is empty exactly when the search is, and otherwise the case-insensitive pattern of the search text |
| ListView.ReadDefaults | app.py:58-60 | without parameters: sort by `created_at`, descending, everything listed, `asc` offered next |
| ListView.ReadIgnoresOtherKeys | app.py:58-60 | only `sort`, `order` and `search` affect the list page |
| ListView.ToggleFlipsDirection | app.py:62-63 | the order offered next always sorts the other way round |
| ListView.ToggleReturns | app.py:62 | on `asc` and `desc`, toggling twice gives the order back |
| ListView.FollowLinkReverses | app.py:58-65 | following the header link reverses the direction and keeps the field and the filter |
| ListView.FollowLinkTwice | app.py:58-65 | following the header link twice gives the first list back |
| Handlers.App.MergeForm | app.py:95-100 | the five assignments in turn leave the session as `Merge` describes and the store unchanged |
| Handlers.App.Submit | app.py:85-115 | the in-place handler gives the response and new session and store of the `Post` transition |
| Handlers.App.Save | app.py:102-113 | the in-place last step gives the response and state of `Finish` |
| Handlers.App.PostCreate | app.py:85-115 | POST /create behaves as the create transition |
| Handlers.App.PostEdit | app.py:135-168 | POST /edit/<mongoid> behaves as the edit transition |
| Handlers.App.ShowCreate | app.py:117-118 | GET /create renders the requested step's page with the session and changes nothing |
| Handlers.App.ShowEdit | app.py:170-172 | GET /edit renders the requested step with the session and the stored document, if there is one; a malformed identifier fails |
| Handlers.App.Delete | app.py:184-187 | the in-place delete gives the response and state of the `Delete` transition |

## Left out

- Connecting to the database, the ping and the exit on failure (app.py:25-37) are process start-up and I/O.
- The home page and all template rendering are left out. A rendered page is the template name with its data. Whether the template exists (for example `create_step7.html`) is not modelled.
- `url_for` and `redirect` become the response values `RedirectToStep(n)` and `RedirectToRead`.
- MongoDB's regular-expression matching, case folding and the execution of the sort (app.py:65-68) are foreign library code. The model stops at the query values. So the properties that the sort reverses and that search ignores case are stated on those values, not on the listed documents.
- `datetime.utcnow()` is a parameter, `now`.
- Routes.CompletesAtSix: the stored `created_at` is `now` itself. The store's precision is not modelled; BSON keeps datetimes to the millisecond, so the stored value is `now` truncated.
- The identifier `insert_one` generates is a parameter, `newId`. An identifier already in the store gives `DuplicateKey`.
- Records.ParseObjectId: does not model the whitespace that `bytes.fromhex` would skip, or `ObjectId` arguments that are not strings.
- PyInt.ParseInt: covers ASCII digits and ASCII whitespace only. It does not model Unicode digits or spaces, or the limit on the number of digits `int()` accepts.
- PyInt.IntToString: does not model the same digit limit in `str()`. Where that limit applies, a step of more than 4300 nines with `next` parses, but `str()` of the next step raises ValueError at app.py:90, before the merge. The model instead redirects with the merged session.
- Routes.FailureCases: the failures are exact only inside the model. `insert_one` (app.py:111), `update_one` (app.py:162), `find_one` (app.py:171) and `delete_one` (app.py:184) can also raise when the database refuses or cannot be reached, which ends in the error page. `Write`, `EditPage` and `Delete` never fail that way.
- Records.Recipe: a document holds exactly the six fields the wizard writes. Documents with other fields are not modelled, so `$set` and replacing the stored value cannot differ.
- The webhook (app.py:190-207) runs shell commands; it is left out.
- Cookie signing, one session shared by several tabs, and concurrent edits are left out. The model has one browser and one request at a time.

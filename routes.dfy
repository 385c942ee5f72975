/**
 * The request handlers of the recipe application as pure transitions: each
 * takes the server state (the browser's session and the document store) and
 * the request, and gives the response with the state afterwards.
 *
 * The create and edit wizards are one state machine with two ways of writing
 * the finished recipe. A POST reads a step number and a navigation directive,
 * moves the step one up ("next", the default) or one down (anything else),
 * merges the submitted fields into the session on forward moves only, and
 * writes the session as one recipe when the new step is exactly 6.
 */
module Routes {
  import opened Wrappers
  import opened PyInt
  import opened Records

  /** The wizard's five fields, in the order the last step reads them. */
  const Fields: seq<string> := ["base", "flavor", "nutrition", "texture", "name"]
  const FieldSet: set<string> := set k | k in Fields

  /** The exceptions a handler can raise; each ends in the generic error page. */
  datatype Error =
    | ValueError           // `int()` of a step that is not a number
    | KeyError(key: string) // a wizard field missing from the session at the last step
    | InvalidId            // `ObjectId()` of a malformed identifier
    | DuplicateKey         // `insert_one` of an identifier the store already holds

  datatype Response =
    | RedirectToStep(step: int)
    | RedirectToRead
    | Render(template: string, data: Session, oldData: Option<Recipe>)
    | ErrorPage(error: Error)   // the blanket error handler's page

  datatype Server = Server(session: Session, store: Store)

  datatype Step = Step(response: Response, after: Server)

  /** Which wizard is running: create, with the identifier the driver will give the new document, or edit, with the identifier from the URL. */
  datatype Flow = Creating(newId: ObjectId) | Editing(mongoid: string)

  predicate IsForward(form: Form) {
    Lookup(form, "navigation", "next") == "next"
  }

  function StepText(form: Form): string {
    Lookup(form, "step", "1")
  }

  /** The step the wizard moves to, or None where `int()` raises ValueError. */
  function NewStep(form: Form): Option<int> {
    match ParseInt(StepText(form))
    case None => None
    case Some(n) => Some(if IsForward(form) then n + 1 else n - 1)
  }

  /** `session[key] = form.get(key, session.get(key, ''))`. */
  function SetField(session: Session, form: Form, key: string): Session {
    session[key := Lookup(form, key, Lookup(session, key, ""))]
  }

  /**
   * The session after a forward move: the five fields assigned in turn, each
   * taking the submitted value, else the one it had, else the empty string.
   */
  function Merge(session: Session, form: Form): Session {
    SetField(SetField(SetField(SetField(SetField(session, form, "base"), form, "flavor"), form, "nutrition"), form, "texture"), form, "name")
  }

  function AfterMove(session: Session, form: Form): Session {
    if IsForward(form) then Merge(session, form) else session
  }

  /** The first wizard field, in reading order, that the session lacks. */
  function MissingField(session: Session): (r: Option<string>)
    ensures r.None? <==> forall k :: k in FieldSet ==> k in session
    ensures r.Some? ==> r.value in FieldSet && r.value !in session
    ensures forall i, j :: 0 <= i < j < |Fields| && r == Some(Fields[j]) ==> Fields[i] in session
  {
    if "base" !in session then Some("base")
    else if "flavor" !in session then Some("flavor")
    else if "nutrition" !in session then Some("nutrition")
    else if "texture" !in session then Some("texture")
    else if "name" !in session then Some("name")
    else None
  }

  function Document(session: Session, now: Timestamp): Recipe
    requires MissingField(session).None?
  {
    Recipe(session["base"], session["flavor"], session["nutrition"], session["texture"], session["name"], now)
  }

  /**
   * Writing the finished recipe: create inserts it under the new identifier;
   * edit parses the identifier and overwrites the document it names, if any
   * (an update that matches nothing changes nothing).
   */
  function Write(flow: Flow, store: Store, doc: Recipe): Result<Store, Error> {
    match flow
    case Creating(id) =>
      if id in store then Failure(DuplicateKey) else Success(store[id := doc])
    case Editing(text) =>
      match ParseObjectId(text)
      case None => Failure(InvalidId)
      case Some(id) => Success(if id in store then store[id := doc] else store)
  }

  /** One POST to the create or edit wizard. */
  function Post(flow: Flow, s: Server, form: Form, now: Timestamp): Step {
    match NewStep(form)
    case None => Step(ErrorPage(ValueError), s)
    case Some(n) =>
      var session := AfterMove(s.session, form);
      if n != 6 then Step(RedirectToStep(n), Server(session, s.store))
      else Finish(flow, Server(session, s.store), now)
  }

  /** The last step: write the session as one recipe and clear it, or fail and keep both. */
  function Finish(flow: Flow, s: Server, now: Timestamp): Step {
    match MissingField(s.session)
    case Some(k) => Step(ErrorPage(KeyError(k)), s)
    case None =>
      match Write(flow, s.store, Document(s.session, now))
      case Failure(e) => Step(ErrorPage(e), s)
      case Success(store) => Step(RedirectToRead, Server(map[], store))
  }

  /** A GET of the create wizard renders the page of the requested step with the session. */
  function CreatePage(s: Server, args: Args): Response {
    Render("create_step" + Lookup(args, "step", "1") + ".html", s.session, None)
  }

  /** A GET of the edit wizard also looks up the document being edited. */
  function EditPage(s: Server, mongoid: string, args: Args): Response {
    match ParseObjectId(mongoid)
    case None => ErrorPage(InvalidId)
    case Some(id) =>
      Render("edit_step" + Lookup(args, "step", "1") + ".html", s.session,
             if id in s.store then Some(s.store[id]) else None)
  }

  /** Delete the document with the given identifier, then show the list. */
  function Delete(s: Server, mongoid: string): Step {
    match ParseObjectId(mongoid)
    case None => Step(ErrorPage(InvalidId), s)
    case Some(id) => Step(RedirectToRead, Server(s.session, s.store - {id}))
  }

  // ---------------------------------------------------------------------------
  // One request

  /** A form that names neither a step nor a direction moves from step 1 to step 2. */
  lemma DefaultMove(form: Form)
    requires "navigation" !in form && "step" !in form
    ensures NewStep(form) == Some(2)
  {
    ParseIntToString(1);
    assert IntToString(1) == "1";
  }

  /** The new step is the old one plus one on "next", minus one on any other directive. */
  lemma MoveByOne(form: Form, n: int)
    requires ParseInt(StepText(form)) == Some(n)
    ensures Lookup(form, "navigation", "next") == "next" ==> NewStep(form) == Some(n + 1)
    ensures Lookup(form, "navigation", "next") != "next" ==> NewStep(form) == Some(n - 1)
  {
  }

  /** Going back from the page a forward move led to returns to the step it started from. */
  lemma BackUndoesForward(forward: Form, back: Form, m: int)
    requires IsForward(forward) && NewStep(forward) == Some(m)
    requires !IsForward(back) && StepText(back) == IntToString(m)
    ensures NewStep(back).Some? && NewStep(back) == ParseInt(StepText(forward))
  {
    var from := ParseInt(StepText(forward));
    assert from == Some(m - 1);
    ParseIntToString(m);
    assert ParseInt(StepText(back)) == Some(m);
  }

  /** A forward move sets all five fields, from the form first and the session second, and keeps every other key. */
  lemma MergeSetsFields(session: Session, form: Form)
    ensures forall k :: k in FieldSet ==>
      k in Merge(session, form) && Merge(session, form)[k] == Lookup(form, k, Lookup(session, k, ""))
    ensures forall k :: k !in FieldSet ==>
      (k in Merge(session, form) <==> k in session) &&
      (k in session ==> Merge(session, form)[k] == session[k])
    ensures MissingField(Merge(session, form)).None?
  {
  }

  /** A step that is not a number fails before anything is touched. */
  lemma UnparsableStepChangesNothing(flow: Flow, s: Server, form: Form, now: Timestamp)
    requires ParseInt(StepText(form)).None?
    ensures Post(flow, s, form, now) == Step(ErrorPage(ValueError), s)
  {
  }

  /** Any step but 6, including 0 and 7, redirects to that step and leaves the store alone. */
  lemma RedirectUnlessSix(flow: Flow, s: Server, form: Form, now: Timestamp, n: int)
    requires NewStep(form) == Some(n) && n != 6
    ensures Post(flow, s, form, now) == Step(RedirectToStep(n), Server(AfterMove(s.session, form), s.store))
  {
    IntToStringIsSix(n);
  }

  /** A move that is not forward leaves the session as it was, unless the recipe was written. */
  lemma BackKeepsSession(flow: Flow, s: Server, form: Form, now: Timestamp)
    requires !IsForward(form)
    ensures var r := Post(flow, s, form, now);
      r.response != RedirectToRead ==> r.after.session == s.session
  {
  }

  /** The store changes only on a move to step 6, and then the response is the list. */
  lemma WritesOnlyAtSix(flow: Flow, s: Server, form: Form, now: Timestamp)
    ensures var r := Post(flow, s, form, now);
      r.after.store != s.store ==> NewStep(form) == Some(6) && r.response == RedirectToRead
  {
    if NewStep(form).Some? {
      IntToStringIsSix(NewStep(form).value);
    }
  }

  /**
   * The ways a POST fails, and nothing else: a step that is not a number, or
   * reaching step 6 with a field missing or a write the store refuses. A
   * failure never changes the store.
   */
  lemma FailureCases(flow: Flow, s: Server, form: Form, now: Timestamp)
    ensures var r := Post(flow, s, form, now);
      var session := AfterMove(s.session, form);
      (r.response.ErrorPage? <==>
        NewStep(form).None? ||
        (NewStep(form) == Some(6) &&
         (MissingField(session).Some? || Write(flow, s.store, Document(session, now)).Failure?)))
      && (r.response.ErrorPage? ==> r.after.store == s.store)
  {
    if NewStep(form).Some? {
      IntToStringIsSix(NewStep(form).value);
    }
  }

  /** A missing field can only show after a backward move into step 6; a forward move has just set all five. */
  lemma KeyErrorOnlyGoingBack(flow: Flow, s: Server, form: Form, now: Timestamp, key: string)
    requires Post(flow, s, form, now).response == ErrorPage(KeyError(key))
    ensures !IsForward(form) && NewStep(form) == Some(6)
    ensures key in FieldSet && key !in s.session
  {
    MergeSetsFields(s.session, form);
    IntToStringIsSix(NewStep(form).value);
  }

  /** Reaching step 6 with all five fields writes them with the time of the request, then clears the session. */
  lemma CompletesAtSix(flow: Flow, s: Server, form: Form, now: Timestamp)
    requires NewStep(form) == Some(6)
    requires MissingField(AfterMove(s.session, form)).None?
    requires Write(flow, s.store, Document(AfterMove(s.session, form), now)).Success?
    ensures var session := AfterMove(s.session, form);
      var r := Post(flow, s, form, now);
      r.response == RedirectToRead && r.after.session == map[] &&
      r.after.store == Write(flow, s.store, Document(session, now)).value &&
      Document(session, now) == Recipe(session["base"], session["flavor"], session["nutrition"],
                                       session["texture"], session["name"], now)
  {
    IntToStringIsSix(6);
  }

  /** Create adds exactly one document, under the new identifier, and keeps all others. */
  lemma CreateAddsOne(store: Store, id: ObjectId, doc: Recipe)
    requires id !in store
    ensures Write(Creating(id), store, doc).Success?
    ensures var after := Write(Creating(id), store, doc).value;
      after.Keys == store.Keys + {id} && |after| == |store| + 1 && after[id] == doc &&
      forall k :: k in store ==> after[k] == store[k]
  {
  }

  /** Edit overwrites the document it names, if there is one, and no other. */
  lemma EditOverwritesOne(store: Store, mongoid: string, id: ObjectId, doc: Recipe)
    requires ParseObjectId(mongoid) == Some(id)
    ensures Write(Editing(mongoid), store, doc).Success?
    ensures var after := Write(Editing(mongoid), store, doc).value;
      after.Keys == store.Keys &&
      (id in store ==> after[id] == doc) &&
      forall k :: k in store && k != id ==> after[k] == store[k]
  {
  }

  /**
   * After a redirect to a step, the page the browser then asks for is that
   * step's page with the session the move left; the edit page also shows the
   * document being edited, or fails on a malformed identifier.
   */
  lemma RedirectShowsStep(flow: Flow, s: Server, form: Form, now: Timestamp, n: int)
    requires Post(flow, s, form, now).response == RedirectToStep(n)
    ensures var after := Post(flow, s, form, now).after;
      var args := map["step" := IntToString(n)];
      after == Server(AfterMove(s.session, form), s.store) &&
      match flow
      case Creating(_) =>
        CreatePage(after, args) == Render("create_step" + IntToString(n) + ".html", after.session, None)
      case Editing(mongoid) =>
        EditPage(after, mongoid, args) ==
          match ParseObjectId(mongoid)
          case None => ErrorPage(InvalidId)
          case Some(id) =>
            Render("edit_step" + IntToString(n) + ".html", after.session,
                   if id in s.store then Some(s.store[id]) else None)
  {
  }

  /** Delete removes the named document and no other, and answers alike whether it existed or not. */
  lemma DeleteRemovesOnly(s: Server, mongoid: string)
    ensures var r := Delete(s, mongoid);
      match ParseObjectId(mongoid)
      case None => r == Step(ErrorPage(InvalidId), s)
      case Some(id) =>
        r.response == RedirectToRead && r.after.session == s.session &&
        r.after.store.Keys == s.store.Keys - {id} &&
        forall k :: k in s.store && k != id ==> r.after.store[k] == s.store[k]
  {
  }

  /** Deleting twice is deleting once. */
  lemma DeleteIdempotent(s: Server, mongoid: string)
    ensures Delete(Delete(s, mongoid).after, mongoid) == Delete(s, mongoid)
  {
  }

  // ---------------------------------------------------------------------------
  // A run of requests

  datatype Trace = Trace(responses: seq<Response>, last: Server)

  /** A handler as a value: the server state and a submitted form give a response and a new state. */
  type Handler = (Server, Form) -> Step

  /** The wizard's POST handler for one flow, at one instant. */
  function Wizard(flow: Flow, now: Timestamp): Handler {
    (s: Server, form: Form) => Post(flow, s, form, now)
  }

  /** Submitting each form in turn. */
  function Run(handler: Handler, s: Server, forms: seq<Form>): (t: Trace)
    ensures |t.responses| == |forms|
    decreases |forms|
  {
    if forms == [] then Trace([], s)
    else
      var first := handler(s, forms[0]);
      var rest := Run(handler, first.after, forms[1..]);
      Trace([first.response] + rest.responses, rest.last)
  }

  lemma {:induction false} RunSplit(handler: Handler, s: Server, init: seq<Form>, last: Form)
    ensures var t := Run(handler, s, init);
      var r := handler(t.last, last);
      Run(handler, s, init + [last]) == Trace(t.responses + [r.response], r.after)
    decreases |init|
  {
    if init == [] {
      assert [] + [last] == [last];
    } else {
      var first := handler(s, init[0]);
      assert (init + [last])[1..] == init[1..] + [last];
      RunSplit(handler, first.after, init[1..], last);
    }
  }

  /** The value of `key` in the last form that holds it, or `default` if none does. */
  function LastValue(forms: seq<Form>, key: string, default: string): string
    decreases |forms|
  {
    if forms == [] then default
    else if key in forms[|forms| - 1] then forms[|forms| - 1][key]
    else LastValue(forms[..|forms| - 1], key, default)
  }

  lemma {:induction false} LastValueFirst(forms: seq<Form>, key: string, default: string)
    requires forms != []
    ensures LastValue(forms, key, default) == LastValue(forms[1..], key, Lookup(forms[0], key, default))
    decreases |forms|
  {
    if |forms| > 1 && key !in forms[|forms| - 1] {
      var init := forms[..|forms| - 1];
      LastValueFirst(init, key, default);
      assert init[1..] == forms[1..][..|forms[1..]| - 1];
    }
  }

  /** Applying `update` to the session with each form in turn. */
  function Fold(update: (Session, Form) -> Session, session: Session, forms: seq<Form>): Session
    decreases |forms|
  {
    if forms == [] then session else Fold(update, update(session, forms[0]), forms[1..])
  }

  lemma {:induction false} FoldSplit(update: (Session, Form) -> Session, session: Session, init: seq<Form>, last: Form)
    ensures Fold(update, session, init + [last]) == update(Fold(update, session, init), last)
    decreases |init|
  {
    if init == [] {
      assert [] + [last] == [last];
    } else {
      assert (init + [last])[1..] == init[1..] + [last];
      FoldSplit(update, update(session, init[0]), init[1..], last);
    }
  }

  /** After a series of forward moves each field holds the last value submitted for it. */
  lemma {:induction false} MergedFieldsAreLast(session: Session, forms: seq<Form>, key: string)
    requires key in FieldSet
    ensures Lookup(Fold(Merge, session, forms), key, "") == LastValue(forms, key, Lookup(session, key, ""))
    ensures forms != [] ==> key in Fold(Merge, session, forms)
    decreases |forms|
  {
    if forms != [] {
      MergeSetsFields(session, forms[0]);
      MergedFieldsAreLast(Merge(session, forms[0]), forms[1..], key);
      LastValueFirst(forms, key, Lookup(session, key, ""));
    }
  }

  /** The recipe a completed wizard writes: each field the last value submitted for it, else the session's, else empty. */
  function Submitted(session: Session, forms: seq<Form>, now: Timestamp): Recipe {
    Recipe(
      LastValue(forms, "base", Lookup(session, "base", "")),
      LastValue(forms, "flavor", Lookup(session, "flavor", "")),
      LastValue(forms, "nutrition", Lookup(session, "nutrition", "")),
      LastValue(forms, "texture", Lookup(session, "texture", "")),
      LastValue(forms, "name", Lookup(session, "name", "")),
      now)
  }

  /**
   * Five forward posts from step 1 finish the wizard: four redirects, then a
   * write of the recipe whose every field is the last value submitted for it
   * (or the one the session already held), and an empty session.
   */
  lemma WizardCompletes(flow: Flow, s: Server, forms: seq<Form>, now: Timestamp)
    requires |forms| == 5
    requires forall i :: 0 <= i < 5 ==> IsForward(forms[i]) && ParseInt(StepText(forms[i])) == Some(i + 1)
    requires Write(flow, s.store, Submitted(s.session, forms, now)).Success?
    ensures var t := Run(Wizard(flow, now), s, forms);
      t.responses == [RedirectToStep(2), RedirectToStep(3), RedirectToStep(4), RedirectToStep(5), RedirectToRead] &&
      t.last == Server(map[], Write(flow, s.store, Submitted(s.session, forms, now)).value)
  {
    var init := forms[..4];
    assert init + [forms[4]] == forms;
    ForwardsOfForward(forms);
    forall i | 0 <= i < 4
      ensures NewStep(init[i]) == Some(i + 2)
    {
      MoveByOne(init[i], i + 1);
    }
    MoveByOne(forms[4], 5);
    AnyRunToSix(flow, s, init, forms[4], now);
    StepsTwoToFive(Run(Wizard(flow, now), s, forms).responses, init);
  }

  lemma StepsTwoToFive(responses: seq<Response>, init: seq<Form>)
    requires |responses| == 5 && |init| == 4
    requires forall i :: 0 <= i < 4 ==> NewStep(init[i]) == Some(i + 2)
    requires forall i :: 0 <= i < 4 ==> responses[i] == RedirectToStep(NewStep(init[i]).value)
    requires responses[4] == RedirectToRead
    ensures responses == [RedirectToStep(2), RedirectToStep(3), RedirectToStep(4), RedirectToStep(5), RedirectToRead]
  {
    var expected := [RedirectToStep(2), RedirectToStep(3), RedirectToStep(4), RedirectToStep(5), RedirectToRead];
    assert forall i :: 0 <= i < 5 ==> responses[i] == expected[i];
  }

  // ---------------------------------------------------------------------------
  // Any traversal that ends at step 6

  /** The forms of a run that were posted with `next`, in order; the others are never merged. */
  function Forwards(forms: seq<Form>): (f: seq<Form>)
    ensures |f| <= |forms|
    ensures forall i :: 0 <= i < |f| ==> IsForward(f[i])
    decreases |forms|
  {
    if forms == [] then []
    else (if IsForward(forms[0]) then [forms[0]] else []) + Forwards(forms[1..])
  }

  lemma {:induction false} ForwardsOfForward(forms: seq<Form>)
    requires forall i :: 0 <= i < |forms| ==> IsForward(forms[i])
    ensures Forwards(forms) == forms
    decreases |forms|
  {
    if forms != [] {
      ForwardsOfForward(forms[1..]);
    }
  }

  /** Moving through a run changes the session as merging its forward forms alone would. */
  lemma {:induction false} MoveFoldIsMergeFold(session: Session, forms: seq<Form>)
    ensures Fold(AfterMove, session, forms) == Fold(Merge, session, Forwards(forms))
    decreases |forms|
  {
    if forms != [] {
      MoveFoldIsMergeFold(AfterMove(session, forms[0]), forms[1..]);
      if IsForward(forms[0]) {
        assert Forwards(forms) == [forms[0]] + Forwards(forms[1..]);
        assert ([forms[0]] + Forwards(forms[1..]))[1..] == Forwards(forms[1..]);
      } else {
        assert Forwards(forms) == Forwards(forms[1..]);
      }
    }
  }

  /**
   * A handler that answers each form `forms[i]` by redirecting to `steps[i]`
   * and updating only the session: running it gives those redirects, the
   * session updated with every form in turn, and the same store.
   */
  lemma {:induction false} RedirectRun(handler: Handler, update: (Session, Form) -> Session, s: Server,
                                       forms: seq<Form>, steps: seq<int>)
    requires |steps| == |forms|
    requires forall t: Server, i {:trigger handler(t, forms[i])} :: 0 <= i < |forms| ==>
      handler(t, forms[i]) == Step(RedirectToStep(steps[i]), Server(update(t.session, forms[i]), t.store))
    ensures var t := Run(handler, s, forms);
      (forall i :: 0 <= i < |forms| ==> t.responses[i] == RedirectToStep(steps[i])) &&
      t.last == Server(Fold(update, s.session, forms), s.store)
    decreases |forms|
  {
    if forms != [] {
      var next := Server(update(s.session, forms[0]), s.store);
      assert handler(s, forms[0]) == Step(RedirectToStep(steps[0]), next);
      var rest := forms[1..];
      forall t: Server, i | 0 <= i < |rest|
        ensures handler(t, rest[i]) == Step(RedirectToStep(steps[1..][i]), Server(update(t.session, rest[i]), t.store))
      {
        assert rest[i] == forms[i + 1];
      }
      RedirectRun(handler, update, next, rest, steps[1..]);
      var t := Run(handler, next, rest);
      var whole := Run(handler, s, forms);
      assert whole == Trace([RedirectToStep(steps[0])] + t.responses, t.last);
      forall i | 0 <= i < |forms|
        ensures whole.responses[i] == RedirectToStep(steps[i])
      {
        if i > 0 {
          assert whole.responses[i] == t.responses[i - 1];
        }
      }
    }
  }

  /** The step each form of `init` moves to. */
  function Targets(init: seq<Form>): (steps: seq<int>)
    requires forall i :: 0 <= i < |init| ==> NewStep(init[i]).Some?
    ensures |steps| == |init|
    ensures forall i :: 0 <= i < |init| ==> NewStep(init[i]) == Some(steps[i])
  {
    seq(|init|, i requires 0 <= i < |init| => NewStep(init[i]).value)
  }

  lemma WizardRedirects(flow: Flow, now: Timestamp, init: seq<Form>)
    requires forall i :: 0 <= i < |init| ==> NewStep(init[i]).Some? && NewStep(init[i]).value != 6
    ensures forall t: Server, i {:trigger Wizard(flow, now)(t, init[i])} :: 0 <= i < |init| ==>
      Wizard(flow, now)(t, init[i]) == Step(RedirectToStep(Targets(init)[i]), Server(AfterMove(t.session, init[i]), t.store))
  {
    forall t: Server, i | 0 <= i < |init|
      ensures Wizard(flow, now)(t, init[i]) == Step(RedirectToStep(Targets(init)[i]), Server(AfterMove(t.session, init[i]), t.store))
    {
      RedirectUnlessSix(flow, t, init[i], now, Targets(init)[i]);
    }
  }

  /** After a run, the session holds every field and its recipe is the one of the last values posted with `next`. */
  lemma RunSessionRecipe(session: Session, forms: seq<Form>, now: Timestamp)
    requires Forwards(forms) != [] || MissingField(session).None?
    ensures var moved := Fold(AfterMove, session, forms);
      MissingField(moved).None? && Document(moved, now) == Submitted(session, Forwards(forms), now)
  {
    var f := Forwards(forms);
    MoveFoldIsMergeFold(session, forms);
    MergedFieldsAreLast(session, f, "base");
    MergedFieldsAreLast(session, f, "flavor");
    MergedFieldsAreLast(session, f, "nutrition");
    MergedFieldsAreLast(session, f, "texture");
    MergedFieldsAreLast(session, f, "name");
  }

  /**
   * Any run of posts that only redirect, in either direction, followed by a
   * post that reaches step 6 (from step 5 with `next` or from step 7 with any
   * other directive): the redirects, then the write of the recipe whose every
   * field is the last value posted with `next` (what was typed on a page left
   * with another directive is dropped), else the one the session held, and an
   * empty session.
   */
  lemma AnyRunToSix(flow: Flow, s: Server, init: seq<Form>, last: Form, now: Timestamp)
    requires forall i :: 0 <= i < |init| ==> NewStep(init[i]).Some? && NewStep(init[i]).value != 6
    requires NewStep(last) == Some(6)
    requires Forwards(init + [last]) != [] || MissingField(s.session).None?
    requires Write(flow, s.store, Submitted(s.session, Forwards(init + [last]), now)).Success?
    ensures var t := Run(Wizard(flow, now), s, init + [last]);
      |t.responses| == |init| + 1 &&
      (forall i :: 0 <= i < |init| ==> t.responses[i] == RedirectToStep(NewStep(init[i]).value)) &&
      t.responses[|init|] == RedirectToRead &&
      t.last == Server(map[], Write(flow, s.store, Submitted(s.session, Forwards(init + [last]), now)).value)
  {
    var final := LastToSix(flow, s, init, last, now);
    WizardRedirects(flow, now, init);
    RedirectThenLast(Wizard(flow, now), AfterMove, s, init, Targets(init), last, final);
  }

  /** The post that reaches step 6, from the state the redirects left. */
  lemma LastToSix(flow: Flow, s: Server, init: seq<Form>, last: Form, now: Timestamp) returns (final: Step)
    requires NewStep(last) == Some(6)
    requires Forwards(init + [last]) != [] || MissingField(s.session).None?
    requires Write(flow, s.store, Submitted(s.session, Forwards(init + [last]), now)).Success?
    ensures final == Step(RedirectToRead, Server(map[], Write(flow, s.store, Submitted(s.session, Forwards(init + [last]), now)).value))
    ensures Wizard(flow, now)(Server(Fold(AfterMove, s.session, init), s.store), last) == final
  {
    FoldSplit(AfterMove, s.session, init, last);
    RunSessionRecipe(s.session, init + [last], now);
    CompletesAtSix(flow, Server(Fold(AfterMove, s.session, init), s.store), last, now);
    final := Step(RedirectToRead, Server(map[], Write(flow, s.store, Submitted(s.session, Forwards(init + [last]), now)).value));
  }

  /** Redirects through `init`, then `last` answered by `final`. */
  lemma RedirectThenLast(handler: Handler, update: (Session, Form) -> Session, s: Server,
                         init: seq<Form>, steps: seq<int>, last: Form, final: Step)
    requires |steps| == |init|
    requires forall t: Server, i {:trigger handler(t, init[i])} :: 0 <= i < |init| ==>
      handler(t, init[i]) == Step(RedirectToStep(steps[i]), Server(update(t.session, init[i]), t.store))
    requires handler(Server(Fold(update, s.session, init), s.store), last) == final
    ensures var t := Run(handler, s, init + [last]);
      |t.responses| == |init| + 1 &&
      (forall i :: 0 <= i < |init| ==> t.responses[i] == RedirectToStep(steps[i])) &&
      t.responses[|init|] == final.response && t.last == final.after
  {
    RedirectRun(handler, update, s, init, steps);
    RunSplit(handler, s, init, last);
  }
}

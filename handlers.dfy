/**
 * The application object: one browser's session and the document store, and
 * the handlers that change them in place, each proved to do what the
 * transition of the same name in `Routes` describes.
 */
module Handlers {
  import opened Wrappers
  import opened PyInt
  import opened Records
  import opened Routes

  class App {
    var session: Session
    var store: Store

    /** A fresh browser against an existing store. */
    constructor(store: Store)
      ensures session == map[] && this.store == store
    {
      session := map[];
      this.store := store;
    }

    function State(): Server
      reads this
    {
      Server(session, store)
    }

    /** The five assignments of a forward move, one field at a time. */
    method MergeForm(form: Form)
      modifies this
      ensures session == Merge(old(session), form) && store == old(store)
    {
      session := session["base" := Lookup(form, "base", Lookup(session, "base", ""))];
      session := session["flavor" := Lookup(form, "flavor", Lookup(session, "flavor", ""))];
      session := session["nutrition" := Lookup(form, "nutrition", Lookup(session, "nutrition", ""))];
      session := session["texture" := Lookup(form, "texture", Lookup(session, "texture", ""))];
      session := session["name" := Lookup(form, "name", Lookup(session, "name", ""))];
      assert session == Merge(old(session), form);
    }

    /**
     * One POST to a wizard: parse the step, move it, merge the form on a
     * forward move, and at step 6 write the recipe and clear the session.
     */
    method Submit(flow: Flow, form: Form, now: Timestamp) returns (response: Response)
      modifies this
      ensures Step(response, State()) == Post(flow, old(State()), form, now)
    {
      var navigation := Lookup(form, "navigation", "next");
      var parsed := ParseInt(Lookup(form, "step", "1"));
      if parsed.None? {
        return ErrorPage(ValueError);
      }
      var n: int;
      if navigation == "next" {
        n := parsed.value + 1;
      } else {
        n := parsed.value - 1;
      }
      var step := IntToString(n);
      if navigation == "next" {
        MergeForm(form);
      }
      IntToStringIsSix(n);
      if step != "6" {
        return RedirectToStep(n);
      }
      response := Save(flow, now);
    }

    /** The last step: build the recipe from the session, write it, and clear the session. */
    method Save(flow: Flow, now: Timestamp) returns (response: Response)
      modifies this
      ensures Step(response, State()) == Finish(flow, old(State()), now)
    {
      if "base" !in session {
        return ErrorPage(KeyError("base"));
      }
      if "flavor" !in session {
        return ErrorPage(KeyError("flavor"));
      }
      if "nutrition" !in session {
        return ErrorPage(KeyError("nutrition"));
      }
      if "texture" !in session {
        return ErrorPage(KeyError("texture"));
      }
      if "name" !in session {
        return ErrorPage(KeyError("name"));
      }
      var doc := Recipe(session["base"], session["flavor"], session["nutrition"], session["texture"], session["name"], now);
      match flow {
        case Creating(id) =>
          if id in store {
            return ErrorPage(DuplicateKey);
          }
          store := store[id := doc];
        case Editing(mongoid) =>
          var id := ParseObjectId(mongoid);
          if id.None? {
            return ErrorPage(InvalidId);
          }
          if id.value in store {
            store := store[id.value := doc];
          }
      }
      session := map[];
      return RedirectToRead;
    }

    /** POST /create: the new document gets the identifier `newId`. */
    method PostCreate(form: Form, newId: ObjectId, now: Timestamp) returns (response: Response)
      modifies this
      ensures Step(response, State()) == Post(Creating(newId), old(State()), form, now)
    {
      response := Submit(Creating(newId), form, now);
    }

    /** POST /edit/<mongoid>. */
    method PostEdit(mongoid: string, form: Form, now: Timestamp) returns (response: Response)
      modifies this
      ensures Step(response, State()) == Post(Editing(mongoid), old(State()), form, now)
    {
      response := Submit(Editing(mongoid), form, now);
    }

    /** GET /create: changes nothing. */
    method ShowCreate(args: Args) returns (response: Response)
      ensures response == CreatePage(State(), args)
      ensures response.Render? && response.data == session && response.oldData == None
    {
      var step := Lookup(args, "step", "1");
      response := Render("create_step" + step + ".html", session, None);
    }

    /** GET /edit/<mongoid>: changes nothing; shows the stored document if there is one. */
    method ShowEdit(mongoid: string, args: Args) returns (response: Response)
      ensures response == EditPage(State(), mongoid, args)
      ensures response.Render? <==> ParseObjectId(mongoid).Some?
      ensures response.Render? ==>
        response.data == session &&
        (response.oldData.Some? <==> ParseObjectId(mongoid).value in store) &&
        (response.oldData.Some? ==> response.oldData.value == store[ParseObjectId(mongoid).value])
    {
      var step := Lookup(args, "step", "1");
      var id := ParseObjectId(mongoid);
      if id.None? {
        return ErrorPage(InvalidId);
      }
      var oldData := if id.value in store then Some(store[id.value]) else None;
      response := Render("edit_step" + step + ".html", session, oldData);
    }

    /** GET /delete/<mongoid>. */
    method Delete(mongoid: string) returns (response: Response)
      modifies this
      ensures Step(response, State()) == Routes.Delete(old(State()), mongoid)
    {
      var id := ParseObjectId(mongoid);
      if id.None? {
        return ErrorPage(InvalidId);
      }
      store := store - {id.value};
      response := RedirectToRead;
    }
  }
}

/** The dashboard page's local state and the transitions its handlers make.
    Every server reply is a parameter: `None` when the request (or anything
    after it inside the same try-block) fails, else the JSON it returned.
    The list keeps the project documents exactly as the server sent them. */
module Dashboard {
  import opened Wrappers
  import opened JsValues
  import opened Documents
  import C = ProjectController

  datatype Page = DashboardPage | LoginPage

  /** The create/edit form (`newProject`), sent as the request body. */
  datatype Form = Form(name: Value, description: Value, deadline: Value)

  const EmptyForm := Form(Str(""), Str(""), Str(""))

  /** The component's state together with the token kept in local storage
      and the page the router shows. */
  datatype State = State(projects: seq<Doc>, form: Form, editing: Option<Doc>, error: Option<string>,
                         username: Value, token: Option<string>, page: Page)

  const LoadError := "Failed to fetch projects. Please log in again."
  const SaveError := "Failed to create or update project."
  const DeleteError := "Failed to delete project."

  /** `if (!token)`: a missing or empty stored token. */
  predicate HasToken(token: Option<string>) {
    token.Some? && token.value != ""
  }

  /** The form body the page sends on submit. */
  function FormBody(f: Form): C.Payload {
    map["name" := f.name, "description" := f.description, "deadline" := f.deadline]
  }

  /** The initial load. `me` is the `name` of the reply to the identity
      request; `listing` the reply to GET /api/projects, which is only sent
      once the identity request succeeded. Any failure logs the user out. */
  function Load(st: State, me: Option<Value>, listing: Option<seq<Doc>>): (r: State)
    ensures !HasToken(st.token) ==> r == st.(page := LoginPage)
    ensures HasToken(st.token) && me.None? ==>
              r == st.(error := Some(LoadError), token := None, page := LoginPage)
    ensures HasToken(st.token) && me.Some? && listing.None? ==>
              r == st.(username := me.value, error := Some(LoadError), token := None, page := LoginPage)
    ensures HasToken(st.token) && me.Some? && listing.Some? ==>
              r == st.(username := me.value, projects := listing.value)
    ensures r.page == DashboardPage <==> HasToken(st.token) && me.Some? && listing.Some? && st.page == DashboardPage
    ensures r.token != st.token ==> r.token.None?
  {
    if !HasToken(st.token) then st.(page := LoginPage)
    else match me
      case None => st.(error := Some(LoadError), token := None, page := LoginPage)
      case Some(name) =>
        var named := st.(username := name);
        match listing
        case None => named.(error := Some(LoadError), token := None, page := LoginPage)
        case Some(list) => named.(projects := list)
  }

  /** Submitting the form: an update when a project is being edited, else a create. */
  function Submit(st: State, reply: Option<Doc>): (r: State)
    ensures reply.None? ==> r == st.(error := Some(SaveError))
    ensures reply.Some? ==> r.form == EmptyForm && r.editing.None?
    ensures reply.Some? ==> r.error == st.error && r.token == st.token && r.page == st.page && r.username == st.username
    ensures reply.Some? && st.editing.Some? ==>
              && |r.projects| == |st.projects|
              && (forall i :: 0 <= i < |st.projects| && st.projects[i].id == st.editing.value.id ==> r.projects[i] == reply.value)
              && (forall i :: 0 <= i < |st.projects| && st.projects[i].id != st.editing.value.id ==> r.projects[i] == st.projects[i])
    ensures reply.Some? && st.editing.None? ==>
              && |r.projects| == |st.projects| + 1
              && r.projects[..|st.projects|] == st.projects
              && r.projects[|st.projects|] == reply.value
  {
    match reply
    case None => st.(error := Some(SaveError))
    case Some(data) =>
      match st.editing
      case Some(e) => st.(projects := ReplaceById(st.projects, e.id, data), editing := None, form := EmptyForm)
      case None => st.(projects := st.projects + [data], form := EmptyForm)
  }

  /** `split('T')[0]`: the text before the first 'T', or all of it. */
  function DatePart(s: string): (r: string)
    ensures r <= s
    ensures 'T' !in r
    ensures |r| < |s| ==> s[|r|] == 'T'
  {
    if s == [] || s[0] == 'T' then [] else [s[0]] + DatePart(s[1..])
  }

  /** The three properties above determine the date part: no other string has them. */
  lemma DatePartIsSplit(s: string, r: string)
    requires r <= s && 'T' !in r && (|r| < |s| ==> s[|r|] == 'T')
    ensures r == DatePart(s)
  {
  }

  /** Entering edit mode. `split` exists only on strings: for any other
      deadline the call throws after edit mode was set, and the form stays. */
  function Edit(st: State, d: Doc): (r: State)
    ensures r.editing == Some(d)
    ensures r.projects == st.projects && r.error == st.error && r.token == st.token && r.page == st.page
    ensures r.username == st.username
    ensures d.project.deadline.Str? ==>
              var s, f := d.project.deadline.s, r.form;
              && f.name == d.project.name && f.description == d.project.description
              && f.deadline.Str? && f.deadline.s <= s && 'T' !in f.deadline.s
              && (|f.deadline.s| < |s| ==> s[|f.deadline.s|] == 'T')
    ensures !d.project.deadline.Str? ==> r.form == st.form
  {
    var editing := st.(editing := Some(d));
    match d.project.deadline
    case Str(s) => editing.(form := Form(d.project.name, d.project.description, Str(DatePart(s))))
    case _ => editing
  }

  /** Deleting a project: `ok` says whether the server accepted the request. */
  function Delete(st: State, id: ProjectId, ok: bool): (r: State)
    ensures !ok ==> r == st.(error := Some(DeleteError))
    ensures ok ==> r == st.(projects := r.projects)
    ensures ok ==> (forall d :: d in r.projects <==> d in st.projects && d.id != id)
    ensures ok ==> IsSubseq(r.projects, st.projects)
    ensures ok ==> forall d: Doc :: d.id != id ==> multiset(r.projects)[d] == multiset(st.projects)[d]
  {
    if ok then st.(projects := RemoveById(st.projects, id)) else st.(error := Some(DeleteError))
  }

  /** The logout button: the token is dropped and the login page shown. */
  function Logout(st: State): (r: State)
    ensures !HasToken(r.token) && r.page == LoginPage
    ensures r.projects == st.projects && r.form == st.form && r.editing == st.editing
    ensures r.error == st.error && r.username == st.username
  {
    st.(token := None, page := LoginPage)
  }

  /** After logging out, a reload of the dashboard only sends the user back to login. */
  lemma LogoutThenLoad(st: State, me: Option<Value>, listing: Option<seq<Doc>>)
    ensures Load(Logout(st), me, listing) == Logout(st)
  {
  }

  /** The list shows the server's listing for `user`. */
  predicate Mirrors(st: State, s: seq<Doc>, user: UserId) {
    st.projects == OwnedBy(s, user)
  }

  /** A successful initial load shows exactly what GET /api/projects lists. */
  lemma LoadMirrors(st: State, s: seq<Doc>, user: UserId, name: Value)
    requires HasToken(st.token)
    ensures var reply := C.GetProjects(s, user, C.NoFault).response.body.docs;
            Mirrors(Load(st, Some(name), Some(reply)), s, user)
  {
  }

  /** A create the server accepted keeps the list equal to the server's listing. */
  lemma {:induction false} CreateMirrors(st: State, s: seq<Doc>, user: UserId, newId: ProjectId,
                                         parseDate: Value -> Value, fault: C.Fault)
    requires UniqueIds(s) && Mirrors(st, s, user) && st.editing.None?
    requires C.CreateProject(s, user, FormBody(st.form), newId, parseDate, fault).response.status == 201
    ensures var r := C.CreateProject(s, user, FormBody(st.form), newId, parseDate, fault);
            Mirrors(Submit(st, Some(r.response.body.doc)), r.store, user)
  {
    var r := C.CreateProject(s, user, FormBody(st.form), newId, parseDate, fault);
    var d := r.response.body.doc;
    assert r.store == s + [d];
    OwnedByAppend(s, user, d);
  }

  /** An update the server accepted keeps the list equal to the server's listing. */
  lemma {:induction false} UpdateMirrors(st: State, s: seq<Doc>, user: UserId, fault: C.Fault)
    requires UniqueIds(s) && Mirrors(st, s, user) && st.editing.Some?
    requires C.UpdateProject(s, user, st.editing.value.id, FormBody(st.form), fault).response.status == 200
    ensures var r := C.UpdateProject(s, user, st.editing.value.id, FormBody(st.form), fault);
            Mirrors(Submit(st, Some(r.response.body.doc)), r.store, user)
  {
    var id := st.editing.value.id;
    var r := C.UpdateProject(s, user, id, FormBody(st.form), fault);
    var d := r.response.body.doc;
    assert r.store == ReplaceById(s, id, d);
    ViewValues(s);
    OwnedByReplace(s, user, id, d);
  }

  /** A delete the server accepted keeps the list equal to the server's listing. */
  lemma {:induction false} DeleteMirrors(st: State, s: seq<Doc>, user: UserId, id: ProjectId, fault: C.Fault)
    requires UniqueIds(s) && Mirrors(st, s, user)
    requires C.DeleteProject(s, user, id, fault).response.status == 200
    ensures var r := C.DeleteProject(s, user, id, fault);
            Mirrors(Delete(st, id, true), r.store, user)
  {
    var r := C.DeleteProject(s, user, id, fault);
    assert r.store == RemoveById(s, id);
    OwnedByRemove(s, user, id);
  }
}

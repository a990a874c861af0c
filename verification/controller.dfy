/** The six request handlers of the project service, each a pure transition
    from (store, resolved caller, request) to (status, JSON body, new store).
    A `Fault` stands for the store call that throws inside the handler's
    try-block: `ReadFails` for `find`/`findById` (including a malformed id
    that cannot be cast), `WriteFails` for `save`/`deleteOne`. Every such
    failure becomes a 500 with the handler's fixed message and leaves the
    store as it was. */
module ProjectController {
  import opened Wrappers
  import opened JsValues
  import opened Documents

  /** A parsed JSON request body; a key that is absent reads as `undefined`. */
  type Payload = map<string, Value>

  function Field(body: Payload, key: string): Value {
    if key in body then body[key] else Undefined
  }

  datatype Body = ProjectList(docs: seq<Doc>) | ProjectDoc(doc: Doc) | TaskDoc(task: Task) | Message(text: string)

  datatype Response = Response(status: int, body: Body)

  /** What a handler sends and the store it leaves behind. */
  datatype Step = Step(response: Response, store: seq<Doc>)

  datatype Fault = NoFault | ReadFails | WriteFails

  const NotFound := Response(404, Message("Project not found"))
  const Forbidden := Response(403, Message("User not authorized"))

  function Failed(text: string): Response {
    Response(500, Message(text))
  }

  /** `findById`: the project stored under `id`, if any. */
  function Lookup(s: seq<Doc>, id: ProjectId): Option<Project> {
    if id in View(s) then Some(View(s)[id]) else None
  }

  /** The ownership test shared by read, add-task, update and delete. */
  predicate Owns(s: seq<Doc>, caller: UserId, id: ProjectId) {
    id in View(s) && View(s)[id].owner == caller
  }

  /** Every project whose owner is not `caller` is present, and the same, before and after. */
  ghost predicate Untouched(s: seq<Doc>, s': seq<Doc>, caller: UserId) {
    var m, m' := View(s), View(s');
    && (forall id :: id in m && m[id].owner != caller ==> id in m' && m'[id] == m[id])
    && (forall id :: id in m' && m'[id].owner != caller ==> id in m && m[id] == m'[id])
  }

  /** The body shows no stored project of another owner. */
  ghost predicate ShowsOnlyOwn(b: Body, caller: UserId) {
    match b
    case ProjectList(docs) => forall d :: d in docs ==> d.project.owner == caller
    case ProjectDoc(d) => d.project.owner == caller
    case TaskDoc(_) => true
    case Message(_) => true
  }

  /** The update merge: each field is overwritten only by a truthy request value. */
  function Merge(p: Project, body: Payload): (q: Project)
    ensures q.owner == p.owner && q.tasks == p.tasks
    ensures Truthy(Field(body, "name")) ==> q.name == Field(body, "name")
    ensures !Truthy(Field(body, "name")) ==> q.name == p.name
    ensures Truthy(Field(body, "description")) ==> q.description == Field(body, "description")
    ensures !Truthy(Field(body, "description")) ==> q.description == p.description
    ensures Truthy(Field(body, "deadline")) ==> q.deadline == Field(body, "deadline")
    ensures !Truthy(Field(body, "deadline")) ==> q.deadline == p.deadline
  {
    p.(name := Or(Field(body, "name"), p.name),
       description := Or(Field(body, "description"), p.description),
       deadline := Or(Field(body, "deadline"), p.deadline))
  }

  /** GET /: the caller's projects, in store order. */
  function GetProjects(s: seq<Doc>, caller: UserId, fault: Fault): (r: Step)
    ensures r.store == s
    ensures ShowsOnlyOwn(r.response.body, caller)
    ensures fault == ReadFails ==> r.response == Failed("Failed to fetch projects")
    ensures fault != ReadFails ==>
              && r.response.status == 200
              && r.response.body.ProjectList?
              && (forall d :: d in r.response.body.docs <==> d in s && d.project.owner == caller)
              && IsSubseq(r.response.body.docs, s)
  {
    if fault == ReadFails then Step(Failed("Failed to fetch projects"), s)
    else Step(Response(200, ProjectList(OwnedBy(s, caller))), s)
  }

  /** GET /:id: the project if the caller owns it; a missing and a foreign id look the same. */
  function GetProjectById(s: seq<Doc>, caller: UserId, id: ProjectId, fault: Fault): (r: Step)
    ensures r.store == s
    ensures ShowsOnlyOwn(r.response.body, caller)
    ensures fault == ReadFails ==> r.response == Failed("Failed to fetch project")
    ensures fault != ReadFails && id !in View(s) ==> r.response == NotFound
    ensures fault != ReadFails && id in View(s) && View(s)[id].owner != caller ==> r.response == NotFound
    ensures fault != ReadFails && id in View(s) && View(s)[id].owner == caller ==>
              r.response == Response(200, ProjectDoc(Doc(id, View(s)[id])))
  {
    if fault == ReadFails then Step(Failed("Failed to fetch project"), s)
    else match Lookup(s, id)
      case None => Step(NotFound, s)
      case Some(p) =>
        if p.owner != caller then Step(NotFound, s)
        else Step(Response(200, ProjectDoc(Doc(id, p))), s)
  }

  /** POST /: a new project owned by the caller under a fresh id, with no tasks.
      `parseDate` is `new Date(...)` as it will be stored; an id already in
      use fails like any other write. */
  function CreateProject(s: seq<Doc>, caller: UserId, body: Payload, newId: ProjectId,
                         parseDate: Value -> Value, fault: Fault): (r: Step)
    requires UniqueIds(s)
    ensures UniqueIds(r.store)
    ensures Untouched(s, r.store, caller)
    ensures ShowsOnlyOwn(r.response.body, caller)
    ensures fault == WriteFails || newId in View(s) ==> r == Step(Failed("Failed to create project"), s)
    ensures fault != WriteFails && newId !in View(s) ==>
              var p := Project(caller, Field(body, "name"), Field(body, "description"),
                               parseDate(Field(body, "deadline")), []);
              && r.response == Response(201, ProjectDoc(Doc(newId, p)))
              && View(r.store) == View(s)[newId := p]
              && |r.store| == |s| + 1 && r.store[..|s|] == s
  {
    var p := Project(caller, Field(body, "name"), Field(body, "description"),
                     parseDate(Field(body, "deadline")), []);
    if fault == WriteFails || newId in View(s) then Step(Failed("Failed to create project"), s)
    else
      AppendView(s, Doc(newId, p));
      AppendUnique(s, Doc(newId, p));
      Step(Response(201, ProjectDoc(Doc(newId, p))), s + [Doc(newId, p)])
  }

  /** POST /:id/tasks: append `{title, description}` to an owned project and answer with the task alone. */
  function AddTaskToProject(s: seq<Doc>, caller: UserId, id: ProjectId, body: Payload, fault: Fault): (r: Step)
    requires UniqueIds(s)
    ensures UniqueIds(r.store)
    ensures Untouched(s, r.store, caller)
    ensures ShowsOnlyOwn(r.response.body, caller)
    ensures fault == ReadFails ==> r == Step(Failed("Failed to add task"), s)
    ensures fault != ReadFails && !Owns(s, caller, id) ==> r == Step(NotFound, s)
    ensures fault == WriteFails && Owns(s, caller, id) ==> r == Step(Failed("Failed to add task"), s)
    ensures fault == NoFault && Owns(s, caller, id) ==>
              var p, t := View(s)[id], Task(Field(body, "title"), Field(body, "description"));
              && r.response == Response(201, TaskDoc(t))
              && View(r.store) == View(s)[id := p.(tasks := p.tasks + [t])]
              && |r.store| == |s|
              && (forall i :: 0 <= i < |s| ==> r.store[i].id == s[i].id)
  {
    if fault == ReadFails then Step(Failed("Failed to add task"), s)
    else match Lookup(s, id)
      case None => Step(NotFound, s)
      case Some(p) =>
        if p.owner != caller then Step(NotFound, s)
        else if fault == WriteFails then Step(Failed("Failed to add task"), s)
        else
          var t := Task(Field(body, "title"), Field(body, "description"));
          var d := Doc(id, p.(tasks := p.tasks + [t]));
          ReplaceView(s, id, d);
          ReplaceKeepsIds(s, id, d);
          Step(Response(201, TaskDoc(t)), ReplaceById(s, id, d))
  }

  /** PUT /:id: merge the truthy request fields into an owned project and answer with the result. */
  function UpdateProject(s: seq<Doc>, caller: UserId, id: ProjectId, body: Payload, fault: Fault): (r: Step)
    requires UniqueIds(s)
    ensures UniqueIds(r.store)
    ensures Untouched(s, r.store, caller)
    ensures ShowsOnlyOwn(r.response.body, caller)
    ensures fault == ReadFails ==> r == Step(Failed("Failed to update project"), s)
    ensures fault != ReadFails && !Owns(s, caller, id) ==> r == Step(NotFound, s)
    ensures fault == WriteFails && Owns(s, caller, id) ==> r == Step(Failed("Failed to update project"), s)
    ensures fault == NoFault && Owns(s, caller, id) ==>
              var q := Merge(View(s)[id], body);
              && r.response == Response(200, ProjectDoc(Doc(id, q)))
              && View(r.store) == View(s)[id := q]
              && |r.store| == |s|
              && (forall i :: 0 <= i < |s| ==> r.store[i].id == s[i].id)
  {
    if fault == ReadFails then Step(Failed("Failed to update project"), s)
    else match Lookup(s, id)
      case None => Step(NotFound, s)
      case Some(p) =>
        if p.owner != caller then Step(NotFound, s)
        else if fault == WriteFails then Step(Failed("Failed to update project"), s)
        else
          var d := Doc(id, Merge(p, body));
          ReplaceView(s, id, d);
          ReplaceKeepsIds(s, id, d);
          Step(Response(200, ProjectDoc(d)), ReplaceById(s, id, d))
  }

  /** DELETE /:id: 404 for a missing id, 403 for another owner's project, else removal. */
  function DeleteProject(s: seq<Doc>, caller: UserId, id: ProjectId, fault: Fault): (r: Step)
    requires UniqueIds(s)
    ensures UniqueIds(r.store)
    ensures Untouched(s, r.store, caller)
    ensures ShowsOnlyOwn(r.response.body, caller)
    ensures fault == ReadFails ==> r == Step(Failed("Failed to delete project"), s)
    ensures fault != ReadFails && id !in View(s) ==> r == Step(NotFound, s)
    ensures fault != ReadFails && id in View(s) && View(s)[id].owner != caller ==> r == Step(Forbidden, s)
    ensures fault == WriteFails && Owns(s, caller, id) ==> r == Step(Failed("Failed to delete project"), s)
    ensures fault == NoFault && Owns(s, caller, id) ==>
              && r.response == Response(200, Message("Project removed"))
              && View(r.store) == View(s) - {id}
              && IsSubseq(r.store, s)
  {
    if fault == ReadFails then Step(Failed("Failed to delete project"), s)
    else match Lookup(s, id)
      case None => Step(NotFound, s)
      case Some(p) =>
        if p.owner != caller then Step(Forbidden, s)
        else if fault == WriteFails then Step(Failed("Failed to delete project"), s)
        else
          RemoveView(s, id);
          Step(Response(200, Message("Project removed")), RemoveById(s, id))
  }

  /** A just-created project reads back, for its creator, with exactly the
      given fields and no tasks; for anyone else it does not exist. */
  lemma CreateThenGet(s: seq<Doc>, caller: UserId, other: UserId, body: Payload, newId: ProjectId,
                      parseDate: Value -> Value, fault: Fault, readFault: Fault)
    requires UniqueIds(s) && fault != WriteFails && newId !in View(s) && readFault != ReadFails
    requires other != caller
    ensures var s' := CreateProject(s, caller, body, newId, parseDate, fault).store;
            && GetProjectById(s', caller, newId, readFault).response
               == Response(200, ProjectDoc(Doc(newId, Project(caller, Field(body, "name"), Field(body, "description"),
                                                              parseDate(Field(body, "deadline")), []))))
            && GetProjectById(s', other, newId, readFault).response == NotFound
  {
  }

  /** After the owner deletes a project, nobody can read, update, add to or delete it again. */
  lemma DeleteThenGone(s: seq<Doc>, caller: UserId, id: ProjectId, anyone: UserId, body: Payload, fault: Fault)
    requires UniqueIds(s) && Owns(s, caller, id) && fault != ReadFails
    ensures var s' := DeleteProject(s, caller, id, NoFault).store;
            && id !in View(s')
            && GetProjectById(s', anyone, id, fault).response == NotFound
            && UpdateProject(s', anyone, id, body, fault) == Step(NotFound, s')
            && AddTaskToProject(s', anyone, id, body, fault) == Step(NotFound, s')
            && DeleteProject(s', anyone, id, fault) == Step(NotFound, s')
  {
  }

  /** The truthy-field merge is idempotent. */
  lemma MergeTwice(p: Project, body: Payload)
    ensures Merge(Merge(p, body), body) == Merge(p, body)
  {
  }

  /** Sending the same update twice gives the same answer and the same store as sending it once. */
  lemma UpdateTwice(s: seq<Doc>, caller: UserId, id: ProjectId, body: Payload)
    requires UniqueIds(s)
    ensures var r := UpdateProject(s, caller, id, body, NoFault);
            UpdateProject(r.store, caller, id, body, NoFault) == r
  {
    var r := UpdateProject(s, caller, id, body, NoFault);
    if Owns(s, caller, id) {
      var q := Merge(View(s)[id], body);
      MergeTwice(View(s)[id], body);
      ReplaceTwice(s, id, Doc(id, q));
      assert r.store == ReplaceById(s, id, Doc(id, q));
      assert View(r.store)[id] == q;
    }
  }
}

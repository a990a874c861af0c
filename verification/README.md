# Project service of the MERN project-management app, in Dafny

This project models the project service of a small project/task web
application. Users own projects, and each project embeds an ordered list of
tasks. The model covers three parts:

- **The six Express handlers** of `back/controllers/projectController.js`
  (module `ProjectController`). Each is a pure transition from
  (store, resolved caller, request) to (HTTP status, JSON body, new store).
- **The router** of `back/routes/projectRoutes.js`, mounted at
  `/api/projects` (module `ProjectRoutes`). It is a first-match table of six
  (method, path pattern) entries, each behind the `protect` gate.
- **The dashboard page** `front/src/pages/Dashboard.jsx` (module `Dashboard`).
  This covers its local state and how it reconciles its project list with
  server replies.

The store is a sequence of documents (`Documents.Doc`: an `_id` and a
`Project`) with unique ids, kept in insertion order. `Documents.View` turns
it into the abstract `map<ProjectId, Project>` that `findById` consults.
Every "nothing else changes" property is stated over that map. The server's
`deleteOne` and the page's `filter(p => p._id !== id)` are the same
operation, `RemoveById`. So are the server's save of a loaded document and
the page's `map(p => p._id === id ? data : p)`, both `ReplaceById`. The
`Dashboard.*Mirrors` lemmas use this: if the page showed the caller's
listing before a successful request, it shows the server's new listing
after it. The page's handlers are taken to run one at a time (see "Left out").

Request bodies are maps from field names to `JsValues.Value`, and an absent
key reads as `undefined`. This makes the update's `req.body.x || project.x`
merge exact for undefined, null, `false`, `0` and `""`.

A store call that throws is a `Fault` parameter. `ReadFails` stands for
`find`/`findById` throwing, which includes a malformed id. `WriteFails`
stands for `save`/`deleteOne` throwing. Each fault becomes the handler's
fixed 500 message and leaves the store unchanged. The id for a new document
is also a parameter, and an id that is already taken fails like a write.
`new Date(deadline)` is the parameter `parseDate`. The handlers that write
require the store's unique-id index (`UniqueIds`), and every handler keeps it.

On the page, only the initial load removes the token and redirects to login
when a request fails (Dashboard.jsx:31-34). A failed create, update or
delete only sets the error message (Dashboard.jsx:60-61, 77-78;
`Dashboard.Submit`, `Dashboard.Delete`).

## Model

| member | source | states |
|---|---|---|
| ProjectController.GetProjects | back/controllers/projectController.js:3-10 | The list holds exactly the caller's projects, in store order, and nothing of another owner. The store is unchanged. A failing `find` gives 500 "Failed to fetch projects". |
| ProjectController.GetProjectById | back/controllers/projectController.js:13-23 | A missing id and another owner's id both give the same 404 "Project not found". The owner gets 200 with the stored project unchanged. The store is never changed. |
| ProjectController.CreateProject | back/controllers/projectController.js:25-41 | 201 with a new project under the fresh id. It is owned by the caller, has the given name and description, the parsed deadline and no tasks. It is appended at the end of the store, and the map view gains exactly that key. A failed or colliding save gives 500 with the store unchanged. |
| ProjectController.AddTaskToProject | back/controllers/projectController.js:43-60 | For an owned project, exactly one task `{title, description}` is appended at the end of `tasks`. Other fields and other projects are unchanged, and the reply is 201 with the task only. A missing or foreign id gives 404 with the store unchanged. |
| ProjectController.UpdateProject | back/controllers/projectController.js:61-78 | A missing or foreign id gives 404 with the store unchanged. For the owner, the project is replaced by the truthy-field merge, which is returned with 200. All other keys and the store order are kept. |
| ProjectController.Merge | back/controllers/projectController.js:69-71 | Name, description and deadline are each overwritten only by a truthy request value; a falsy or absent one keeps the stored value. Owner and tasks are untouched. |
| JsValues.Or | back/controllers/projectController.js:69-71 | JavaScript's `or` operator returns one of its operands. It returns `a` when `a` is truthy and `b` otherwise, and the result is truthy iff either operand is. |
| ProjectController.DeleteProject | back/controllers/projectController.js:82-100 | A missing id gives 404, and another owner's project gives 403 "User not authorized", both with the store unchanged. For the owner, exactly that key leaves the view and the other documents keep their order; the reply is 200 "Project removed". |
| ProjectController.CreateThenGet | back/controllers/projectController.js:27-37 | A created project reads back for its creator with exactly the given fields and no tasks. For any other user it is "not found". |
| ProjectController.DeleteThenGone | back/controllers/projectController.js:84-95 | After the owner deletes a project, get, update, add-task and delete by anyone all give 404. |
| ProjectController.MergeTwice | back/controllers/projectController.js:69-71 | Merging the same request twice equals merging it once. |
| ProjectController.UpdateTwice | back/controllers/projectController.js:63-74 | Sending the same update twice gives the same reply and store as sending it once. |
| Documents.OwnedBy | back/controllers/projectController.js:5 | `find({ user })` holds exactly the stored documents of that owner, each as often as it is stored, as a subsequence of the store. |
| Documents.ViewValues | back/controllers/projectController.js:15 | With unique ids, `findById` on a stored id returns the document stored under it. |
| Documents.RemoveView | back/controllers/projectController.js:94 | `deleteOne({_id})` removes exactly that key from the map view. |
| Documents.ReplaceView | back/controllers/projectController.js:53-54 | Saving a loaded document changes exactly its own key in the map view. |
| Documents.AppendView | back/controllers/projectController.js:36 | Saving a new document under a fresh id adds exactly that key to the map view. |
| Documents.RemoveById | front/src/pages/Dashboard.jsx:76 | Every element with the id is removed, and nothing else is: every other element keeps its number of occurrences. The remaining elements keep their relative order, and unique ids stay unique. |
| Documents.ReplaceById | front/src/pages/Dashboard.jsx:50 | Every element whose `_id` equals the id becomes the reply. Length and all other elements are unchanged. |
| Documents.ReplaceTwice | back/controllers/projectController.js:73 | Replacing twice with the same document equals replacing once. |
| Documents.OwnedByRemove | back/controllers/projectController.js:94 | Deleting an id commutes with restricting the store to one owner. |
| Documents.OwnedByReplace | back/controllers/projectController.js:73 | Saving an owner's document as another of the same owner commutes with restricting to that owner. |
| Documents.OwnedByAppend | back/controllers/projectController.js:36 | A new document of owner `u` appears last in `u`'s listing. |
| ProjectRoutes.BelowMount | back/index.js:21 | Stripping the mount point undoes prefixing it: any spelling of `api/projects` that matches ignoring case, followed by a rest, gives back that rest. Conversely, every path the router accepts is such a spelling followed by what stripping returned. |
| ProjectRoutes.Bind | back/routes/projectRoutes.js:7-17 | A pattern matches a path iff they have equal length and every segment fits: a literal ignoring case, `:id` any non-empty segment. A leading `:id` is bound to the first segment. |
| ProjectRoutes.FirstMatch | back/routes/projectRoutes.js:7-17 | The route found is the first entry, in declaration order, that accepts the request, with the parameters its pattern binds. None is found iff no entry accepts the request. |
| ProjectRoutes.AtMostOneRoute | back/routes/projectRoutes.js:7-17 | The six (method, path shape) pairs are pairwise distinct: no request is accepted by two entries. |
| ProjectRoutes.DispatchTable | back/routes/projectRoutes.js:7-17 | Each request shape reaches its table entry, with `:id` bound to the third path segment. |
| ProjectRoutes.EveryRouteGated | back/routes/projectRoutes.js:7-17 | Every entry runs `protect` before its handler. |
| ProjectRoutes.DispatchGated | back/routes/projectRoutes.js:7-17 | Whatever entry a request reaches, its middleware chain stops a request that has no resolved user. |
| ProjectRoutes.Serve | back/routes/projectRoutes.js:7-17 | The matched entry's middleware chain runs before its handler, and no handler is ever reached without a user. Only a request with a resolved user reaches a handler. A matched request without one is stopped at the gate, and an unmatched path reaches no route. Whatever handler runs, it neither changes nor shows a project of another owner, and the ids stay unique. |
| ProjectRoutes.ServeCollection | back/routes/projectRoutes.js:7-13 | GET `/` runs getProjects, and POST `/` runs createProject, for the resolved caller. |
| ProjectRoutes.ServeShow | back/routes/projectRoutes.js:10 | GET `/:id` runs getProjectById on that id for the resolved caller. |
| ProjectRoutes.ServeUpdate | back/routes/projectRoutes.js:16 | PUT `/:id` runs updateProject on that id with the request body. |
| ProjectRoutes.ServeDelete | back/routes/projectRoutes.js:17 | DELETE `/:id` runs deleteProject on that id. |
| ProjectRoutes.ServeTasks | back/routes/projectRoutes.js:15 | POST `/:id/tasks` runs addTaskToProject on that id, which is distinct from POST `/`. |
| Dashboard.Load | front/src/pages/Dashboard.jsx:14-36 | With no token, the page only goes to login. A failure of either request sets the error, removes the token and goes to login; a failure after the identity reply keeps the user name. Success sets the name and the list. |
| Dashboard.Submit | front/src/pages/Dashboard.jsx:41-63 | A successful update replaces every element with the edited id by the reply, and leaves the length and all other elements unchanged. A successful create appends the reply after the unchanged list. Either success resets the form and leaves edit mode. A failure only sets the error message. |
| Dashboard.DatePart | front/src/pages/Dashboard.jsx:67 | `split('T')[0]` is the prefix before the first 'T', or the whole string when it holds no 'T'. |
| Dashboard.DatePartIsSplit | front/src/pages/Dashboard.jsx:67 | Any string that is a prefix of the deadline, holds no 'T' and stops at a 'T' or at the end is the date part; the characterisation has one solution. |
| Dashboard.Edit | front/src/pages/Dashboard.jsx:65-68 | Edit mode holds the project, and the form gets its name, description and the date part of its deadline. A non-string deadline leaves the form as it was. The list, error, user name, token and page are unchanged. |
| Dashboard.Delete | front/src/pages/Dashboard.jsx:70-80 | A successful delete removes every element with the id; every other element keeps its number of occurrences and its relative order. A failure only sets the error message. |
| Dashboard.Logout | front/src/pages/Dashboard.jsx:82-85 | Afterwards no token is stored and the login page is shown. The list, form, edit mode, error and user name are unchanged. |
| Dashboard.LogoutThenLoad | front/src/pages/Dashboard.jsx:17-19 | After logout, reloading the dashboard only redirects to login, whatever the server would answer. |
| Dashboard.LoadMirrors | front/src/pages/Dashboard.jsx:27-30 | After a successful load, the list equals the server's listing for the caller. |
| Dashboard.CreateMirrors | front/src/pages/Dashboard.jsx:54-57 | If the list equalled the server's listing, it still does after a create the server accepted. |
| Dashboard.UpdateMirrors | front/src/pages/Dashboard.jsx:47-51 | If the list equalled the server's listing, it still does after an update the server accepted. |
| Dashboard.DeleteMirrors | front/src/pages/Dashboard.jsx:73-76 | If the list equalled the server's listing, it still does after a delete the server accepted. |

## Left out

- The document store's internals are not modelled. `find`, `findById`, `save` and `deleteOne` are sequence and map operations, and each handler runs atomically. Concurrent read-modify-write races in update and add-task are not modelled.
- Schema casting and validation are not modelled. `models/Project` is not part of this model. Update stores the raw request value, and a save that the schema would reject appears only as `WriteFails`.
- ObjectId generation is the `newId` parameter, so the model does not know which id the store picks.
- Date parsing (`new Date(deadline)`) is the `parseDate` parameter. `toLocaleDateString` in the page is left out.
- The `protect` middleware, token verification and the auth routes are left out. Their verdict is the `Option<UserId>` given to `ProjectRoutes.Serve`.
- ProjectRoutes.Serve: a request stopped at the gate is `Denied`, without the status or body `protect` sends, because that middleware is not part of this model. An unmatched path is `NoRoute`, without Express's own 404 page.
- URL handling is left out: percent-decoding, trailing slashes, query strings, CORS preflight (`OPTIONS`), and the methods outside `GET HEAD POST PUT DELETE PATCH`. A HEAD reply's empty body is also not modelled.
- JavaScript numbers are integers here, so NaN and -0 are not modelled as falsy. Objects and arrays are one truthy `Compound` value.
- Store order is insertion order. MongoDB does not promise a natural order for `find` without a sort.
- `console.error` in delete is left out.
- Task sub-document ids are not modelled. The store gives each pushed task its own `_id`, which a later read shows but the add-task reply does not, because that reply is the plain `{title, description}` object (projectController.js:51, 56).
- The page's handlers are modelled as running one at a time, each reply applied to the state it was sent from. The handlers build the new list from the list of the render in which they started (Dashboard.jsx:50, 57, 76). Two overlapping requests can therefore lose an update. For example, delete A and then delete B before A's reply arrives: A's reply shows [B, C], and B's reply then shows [A, C]. The `Dashboard.*Mirrors` lemmas do not cover such interleavings.
- ProjectRoutes.Serve: `Unguarded` stands for a handler reached without a resolved user. The handlers would then read `req.user.id` of nothing, and that path is not modelled. `Serve` proves it never happens with this table.
- Frontend I/O is left out: axios, the hard-coded URLs, navigation (a `Page` value), local storage (the `token` field) and rendering. ProjectDetails.jsx:39 posts to `/projects/...` without `/api`, which does not match the mount at back/index.js:21. That is an I/O fault outside this model.
- Dashboard.Edit: a non-string deadline makes `split` throw after `setEditingProject`. The model keeps that queued state update and leaves the form unchanged.
- back/index.js (server bootstrap), front/src/App.jsx (router configuration), front/src/pages/Register.jsx (two requests and a navigation) and front/src/pages/ProjectDetails.jsx are not modelled. ProjectDetails' single local append mirrors the server's add-task.

/** The project collection: Project documents with embedded Tasks, kept as a
    sequence in store order, and the abstract `map` view every operation is
    specified against. The same three list operations serve the document
    store (find by owner, save of a loaded document, deleteOne) and the
    dashboard's local copy of the list (filter, map-replace, append). */
module Documents {
  import opened JsValues

  type UserId = string
  type ProjectId = string

  /** A task is embedded in its project; it has no identity of its own here. */
  datatype Task = Task(title: Value, description: Value)

  datatype Project = Project(owner: UserId, name: Value, description: Value, deadline: Value, tasks: seq<Task>)

  /** A stored document: the generated `_id` and the project it holds. */
  datatype Doc = Doc(id: ProjectId, project: Project)

  /** The store's unique index on `_id`. */
  predicate UniqueIds(s: seq<Doc>) {
    forall i, j :: 0 <= i < j < |s| ==> s[i].id != s[j].id
  }

  /** `a` is `b` with some elements dropped, the rest in their original order. */
  ghost predicate IsSubseq<T>(a: seq<T>, b: seq<T>)
    decreases |b|
  {
    if a == [] then true
    else if b == [] then false
    else (a[0] == b[0] && IsSubseq(a[1..], b[1..])) || IsSubseq(a, b[1..])
  }

  /** The store seen as a map from id to project (what `findById` consults). */
  function View(s: seq<Doc>): map<ProjectId, Project> {
    if s == [] then map[] else View(s[1..])[s[0].id := s[0].project]
  }

  /** The view's keys are exactly the stored ids. */
  lemma {:induction false} ViewKeys(s: seq<Doc>)
    ensures forall i :: 0 <= i < |s| ==> s[i].id in View(s)
    ensures forall id :: id in View(s) ==> exists i :: 0 <= i < |s| && s[i].id == id
  {
    if s != [] {
      ViewKeys(s[1..]);
      forall id | id in View(s)
        ensures exists i :: 0 <= i < |s| && s[i].id == id
      {
        if id != s[0].id {
          var j :| 0 <= j < |s[1..]| && s[1..][j].id == id;
          assert s[j + 1].id == id;
        }
      }
    }
  }

  /** With unique ids, the view maps every stored id to its stored project. */
  lemma {:induction false} ViewValues(s: seq<Doc>)
    requires UniqueIds(s)
    ensures forall i :: 0 <= i < |s| ==> s[i].id in View(s) && View(s)[s[i].id] == s[i].project
  {
    ViewKeys(s);
    if s != [] {
      ViewValues(s[1..]);
      ViewKeys(s[1..]);
      forall i | 0 <= i < |s|
        ensures View(s)[s[i].id] == s[i].project
      {
        if i > 0 {
          assert s[i] == s[1..][i - 1];
        }
      }
    }
  }

  /** `find({ user: u })`: the documents owned by `u`, in store order. */
  function OwnedBy(s: seq<Doc>, u: UserId): (r: seq<Doc>)
    ensures forall d :: d in r <==> d in s && d.project.owner == u
    ensures IsSubseq(r, s)
    ensures forall d: Doc :: d.project.owner == u ==> multiset(r)[d] == multiset(s)[d]
  {
    if s == [] then []
    else
      assert s == [s[0]] + s[1..];
      if s[0].project.owner == u then [s[0]] + OwnedBy(s[1..], u)
      else OwnedBy(s[1..], u)
  }

  /** Every document whose id is `id` removed; the rest keep their order. */
  function RemoveById(s: seq<Doc>, id: ProjectId): (r: seq<Doc>)
    ensures forall d :: d in r <==> d in s && d.id != id
    ensures IsSubseq(r, s)
    ensures UniqueIds(s) ==> UniqueIds(r)
    ensures forall d: Doc :: d.id != id ==> multiset(r)[d] == multiset(s)[d]
  {
    if s == [] then []
    else
      assert s == [s[0]] + s[1..];
      if s[0].id == id then RemoveById(s[1..], id)
      else [s[0]] + RemoveById(s[1..], id)
  }

  /** Every document whose id is `id` replaced by `d`; length and all other positions kept. */
  function ReplaceById(s: seq<Doc>, id: ProjectId, d: Doc): (r: seq<Doc>)
    ensures |r| == |s|
    ensures forall i :: 0 <= i < |s| && s[i].id == id ==> r[i] == d
    ensures forall i :: 0 <= i < |s| && s[i].id != id ==> r[i] == s[i]
  {
    if s == [] then []
    else [if s[0].id == id then d else s[0]] + ReplaceById(s[1..], id, d)
  }

  /** Removing an id removes exactly that key from the view. */
  lemma {:induction false} RemoveView(s: seq<Doc>, id: ProjectId)
    ensures View(RemoveById(s, id)) == View(s) - {id}
  {
    if s != [] {
      RemoveView(s[1..], id);
      if s[0].id != id {
        RemoveKeepsHead(s, id);
      }
    }
  }

  /** Adding one key and removing another commute. */
  lemma UpdateThenRemove<K, V>(m: map<K, V>, gone: K, k: K, v: V)
    requires k != gone
    ensures (m - {gone})[k := v] == m[k := v] - {gone}
  {
  }

  /** The step of `RemoveView` for a kept head. */
  lemma RemoveKeepsHead(s: seq<Doc>, id: ProjectId)
    requires s != [] && s[0].id != id
    requires View(RemoveById(s[1..], id)) == View(s[1..]) - {id}
    ensures View(RemoveById(s, id)) == View(s) - {id}
  {
    var tail := RemoveById(s[1..], id);
    var m := View(s[1..]);
    var k, v := s[0].id, s[0].project;
    assert ([s[0]] + tail)[1..] == tail;
    calc {
      View(RemoveById(s, id));
      View([s[0]] + tail);
      View(tail)[k := v];
      (m - {id})[k := v];
      { UpdateThenRemove(m, id, k, v); }
      m[k := v] - {id};
      View(s) - {id};
    }
  }

  /** Replacing the documents stored under `id` by one with that id changes
      exactly that key of the view, and nothing when the id is absent. */
  lemma {:induction false} ReplaceView(s: seq<Doc>, id: ProjectId, d: Doc)
    requires d.id == id
    ensures View(ReplaceById(s, id, d)) == if id in View(s) then View(s)[id := d.project] else View(s)
  {
    if s != [] {
      var rest := View(s[1..]);
      ReplaceView(s[1..], id, d);
      var head := if s[0].id == id then d else s[0];
      var tail := ReplaceById(s[1..], id, d);
      assert ([head] + tail)[1..] == tail;
      assert View(ReplaceById(s, id, d)) == View(tail)[head.id := head.project];
      if s[0].id == id {
        assert View(tail)[id := d.project] == rest[id := d.project];
      } else if id in rest {
        assert View(tail) == rest[id := d.project];
        assert rest[id := d.project][s[0].id := s[0].project] == rest[s[0].id := s[0].project][id := d.project];
      }
    }
  }

  /** Replacing by a document with the same id keeps the ids, hence their uniqueness. */
  lemma ReplaceKeepsIds(s: seq<Doc>, id: ProjectId, d: Doc)
    requires d.id == id
    ensures forall i :: 0 <= i < |s| ==> ReplaceById(s, id, d)[i].id == s[i].id
    ensures UniqueIds(s) ==> UniqueIds(ReplaceById(s, id, d))
  {
  }

  /** Replacing twice by the same document is replacing once. */
  lemma ReplaceTwice(s: seq<Doc>, id: ProjectId, d: Doc)
    requires d.id == id
    ensures ReplaceById(ReplaceById(s, id, d), id, d) == ReplaceById(s, id, d)
  {
    var once := ReplaceById(s, id, d);
    var twice := ReplaceById(once, id, d);
    assert forall i :: 0 <= i < |s| ==> twice[i] == once[i];
  }

  /** Appending a document under a fresh id adds exactly that key to the view. */
  lemma {:induction false} AppendView(s: seq<Doc>, d: Doc)
    requires d.id !in View(s)
    ensures View(s + [d]) == View(s)[d.id := d.project]
  {
    if s == [] {
      assert [d][1..] == [];
    } else {
      assert (s + [d])[1..] == s[1..] + [d];
      AppendView(s[1..], d);
    }
  }

  /** A fresh id keeps the ids unique. */
  lemma AppendUnique(s: seq<Doc>, d: Doc)
    requires UniqueIds(s) && d.id !in View(s)
    ensures UniqueIds(s + [d])
  {
    ViewKeys(s);
  }

  /** Deleting an id commutes with restricting the store to one owner. */
  lemma {:induction false} OwnedByRemove(s: seq<Doc>, u: UserId, id: ProjectId)
    ensures OwnedBy(RemoveById(s, id), u) == RemoveById(OwnedBy(s, u), id)
  {
    if s != [] {
      OwnedByRemove(s[1..], u, id);
      if s[0].id == id {
      } else if s[0].project.owner == u {
        assert ([s[0]] + RemoveById(s[1..], id))[1..] == RemoveById(s[1..], id);
        assert ([s[0]] + OwnedBy(s[1..], u))[1..] == OwnedBy(s[1..], u);
      } else {
        assert ([s[0]] + RemoveById(s[1..], id))[1..] == RemoveById(s[1..], id);
      }
    }
  }

  /** Replacing an owner's document by another document of the same owner
      commutes with restricting the store to that owner. */
  lemma {:induction false} OwnedByReplace(s: seq<Doc>, u: UserId, id: ProjectId, d: Doc)
    requires d.project.owner == u
    requires forall i :: 0 <= i < |s| && s[i].id == id ==> s[i].project.owner == u
    ensures OwnedBy(ReplaceById(s, id, d), u) == ReplaceById(OwnedBy(s, u), id, d)
  {
    if s != [] {
      OwnedByReplace(s[1..], u, id, d);
      var head := if s[0].id == id then d else s[0];
      assert ([head] + ReplaceById(s[1..], id, d))[1..] == ReplaceById(s[1..], id, d);
      if s[0].project.owner == u {
        assert ([s[0]] + OwnedBy(s[1..], u))[1..] == OwnedBy(s[1..], u);
      }
    }
  }

  /** Appending a document of owner `u` appends it to `u`'s listing. */
  lemma {:induction false} OwnedByAppend(s: seq<Doc>, u: UserId, d: Doc)
    requires d.project.owner == u
    ensures OwnedBy(s + [d], u) == OwnedBy(s, u) + [d]
  {
    if s == [] {
      assert [d][1..] == [];
    } else {
      var t := s + [d];
      assert t[0] == s[0] && t[1..] == s[1..] + [d];
      OwnedByAppend(s[1..], u, d);
      if s[0].project.owner == u {
        calc {
          OwnedBy(t, u);
          [s[0]] + OwnedBy(s[1..] + [d], u);
          [s[0]] + (OwnedBy(s[1..], u) + [d]);
          ([s[0]] + OwnedBy(s[1..], u)) + [d];
        }
      }
    }
  }
}

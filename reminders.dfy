/** The Reminders API: create, list, read, update and delete reminders kept in one
    MongoDB collection. The collection is the class `ReminderStore`, its documents
    in natural order; each operation that filters on "id" acts on the first
    document whose id matches, as `find_one`, `update_one` and `delete_one` do.
    `uuid4()` and `datetime.now()` are parameters of `Create`. */
module Reminders {
  import opened Strings
  import opened Exceptions

  /** A date and time, as its ISO text. */
  datatype DateTime = DateTime(iso: string)

  /** `ReminderBase`: the title is mandatory, the description and due date optional. */
  datatype ReminderBase = ReminderBase(title: string, description: Option<string>, dueDate: Option<DateTime>)

  /** `Reminder`: the base fields, an id and a creation time. */
  datatype Reminder = Reminder(id: string, title: string, description: Option<string>,
                               dueDate: Option<DateTime>, createdAt: DateTime)

  const ListLimit := 1000

  /** The 404 every operation on a missing id raises. */
  function NotFound(id: string): Exception
  {
    HttpException(404, "Lembrete com ID " + id + " não encontrado")
  }

  /** The index of the first document with this id, or `|docs|`. */
  function FindIndex(docs: seq<Reminder>, id: string): (k: nat)
    ensures k <= |docs|
    ensures forall i :: 0 <= i < k ==> docs[i].id != id
    ensures k < |docs| ==> docs[k].id == id
  {
    if docs == [] then 0
    else if docs[0].id == id then 0
    else 1 + FindIndex(docs[1..], id)
  }

  /** `find_one({"id": id})`. */
  function FindOne(docs: seq<Reminder>, id: string): (r: Option<Reminder>)
    ensures r.None? <==> forall i :: 0 <= i < |docs| ==> docs[i].id != id
    ensures r.Some? ==> r.value.id == id && r.value in docs
  {
    var k := FindIndex(docs, id);
    if k < |docs| then Some(docs[k]) else None
  }

  /** `find().to_list(1000)`: the first thousand documents in natural order. */
  function FirstPage(docs: seq<Reminder>): (r: seq<Reminder>)
    ensures |r| <= ListLimit
    ensures |r| == if |docs| <= ListLimit then |docs| else ListLimit
    ensures r == docs[..|r|]
  {
    if |docs| <= ListLimit then docs else docs[..ListLimit]
  }

  /** A reminder with the fields `$set` writes from `model_dump()` of the request:
      title, description and due date, omitted optionals included as None. */
  function WithBase(d: Reminder, base: ReminderBase): (r: Reminder)
    ensures r.id == d.id && r.createdAt == d.createdAt
    ensures r.title == base.title && r.description == base.description && r.dueDate == base.dueDate
  {
    Reminder(d.id, base.title, base.description, base.dueDate, d.createdAt)
  }

  /** The collection after `update_one({"id": id}, {"$set": …})`. */
  function Updated(docs: seq<Reminder>, id: string, base: ReminderBase): (r: seq<Reminder>)
    ensures |r| == |docs|
    ensures var k := FindIndex(docs, id);
      forall i :: 0 <= i < |docs| ==> r[i] == if i == k then WithBase(docs[i], base) else docs[i]
  {
    var k := FindIndex(docs, id);
    if k < |docs| then docs[k := WithBase(docs[k], base)] else docs
  }

  /** `update_result.modified_count`: 0 when no document matches or when the match
      already holds these values. */
  function ModifiedCount(docs: seq<Reminder>, id: string, base: ReminderBase): (n: nat)
    ensures n <= 1
    ensures n == 1 <==> FindOne(docs, id).Some? && WithBase(FindOne(docs, id).value, base) != FindOne(docs, id).value
  {
    var k := FindIndex(docs, id);
    if k < |docs| && WithBase(docs[k], base) != docs[k] then 1 else 0
  }

  /** The collection after `delete_one({"id": id})`. */
  function Deleted(docs: seq<Reminder>, id: string): (r: seq<Reminder>)
    ensures var k := FindIndex(docs, id);
      r == if k < |docs| then docs[..k] + docs[k + 1..] else docs
  {
    var k := FindIndex(docs, id);
    if k < |docs| then docs[..k] + docs[k + 1..] else docs
  }

  /** Ids are unique: `uuid4()` never repeats. */
  ghost predicate UniqueIds(docs: seq<Reminder>)
  {
    forall i, j :: 0 <= i < j < |docs| ==> docs[i].id != docs[j].id
  }

  /** With unique ids, the first match is the only one. */
  lemma FindIndexUnique(docs: seq<Reminder>, id: string, i: nat)
    requires UniqueIds(docs) && i < |docs| && docs[i].id == id
    ensures FindIndex(docs, id) == i
  {
  }

  /** Creating with a fresh id keeps ids unique, and the new reminder is the one
      found under its id. */
  lemma CreateThenRead(docs: seq<Reminder>, r: Reminder)
    requires UniqueIds(docs) && forall i :: 0 <= i < |docs| ==> docs[i].id != r.id
    ensures UniqueIds(docs + [r])
    ensures FindOne(docs + [r], r.id) == Some(r)
  {
    assert FindIndex(docs + [r], r.id) == |docs| by {
      FindIndexUnique(docs + [r], r.id, |docs|);
    }
  }

  /** After an update of a present id, reading it gives the request's fields with
      the id and creation time kept; every other document is unchanged. */
  lemma UpdateThenRead(docs: seq<Reminder>, id: string, base: ReminderBase)
    requires FindOne(docs, id).Some?
    ensures FindOne(Updated(docs, id, base), id) == Some(WithBase(FindOne(docs, id).value, base))
    ensures UniqueIds(docs) ==> UniqueIds(Updated(docs, id, base))
  {
    var k := FindIndex(docs, id);
    var u := Updated(docs, id, base);
    assert u[k].id == id;
    assert FindIndex(u, id) == k by {
      assert forall i :: 0 <= i < k ==> u[i] == docs[i];
    }
  }

  /** An update that modifies nothing leaves the collection as it was, so the
      reminder it returns is the stored one. */
  lemma UnmodifiedUpdate(docs: seq<Reminder>, id: string, base: ReminderBase)
    requires ModifiedCount(docs, id, base) == 0
    ensures Updated(docs, id, base) == docs
  {
  }

  /** With unique ids, a deleted reminder can no longer be found, and the others
      stay in their order. */
  lemma DeleteThenRead(docs: seq<Reminder>, id: string)
    requires UniqueIds(docs) && FindOne(docs, id).Some?
    ensures FindOne(Deleted(docs, id), id).None?
    ensures |Deleted(docs, id)| == |docs| - 1
    ensures forall d :: d in docs && d.id != id ==> d in Deleted(docs, id)
  {
    var k := FindIndex(docs, id);
    var r := Deleted(docs, id);
    forall i | 0 <= i < |r| ensures r[i].id != id {
      if i < k {
        assert r[i] == docs[i];
      } else {
        assert r[i] == docs[i + 1];
      }
    }
    forall d | d in docs && d.id != id ensures d in r {
      var i :| 0 <= i < |docs| && docs[i] == d;
      if i < k {
        assert r[i] == d;
      } else {
        assert i != k && r[i - 1] == d;
      }
    }
  }

  class ReminderStore {
    /** The documents of the "reminders" collection, in natural order. */
    var docs: seq<Reminder>

    constructor ()
      ensures docs == []
    {
      docs := [];
    }

    /** `create_reminder`: a reminder with the request's fields, a fresh id and the
        creation time, inserted and returned. */
    method Create(request: ReminderBase, id: string, now: DateTime) returns (r: Reminder)
      modifies this
      ensures r == Reminder(id, request.title, request.description, request.dueDate, now)
      ensures docs == old(docs) + [r]
    {
      r := Reminder(id, request.title, request.description, request.dueDate, now);
      docs := docs + [r];
    }

    /** `read_reminders`: at most the first thousand reminders, in order. */
    method ReadAll() returns (r: seq<Reminder>)
      ensures |r| == if |docs| <= ListLimit then |docs| else ListLimit
      ensures r == docs[..|r|]
    {
      r := FirstPage(docs);
    }

    /** `read_reminder`: the reminder with this id, or 404. */
    method Read(id: string) returns (r: Result<Reminder>)
      ensures r.Ok? <==> exists i :: 0 <= i < |docs| && docs[i].id == id
      ensures r.Ok? ==> r.value.id == id && r.value == docs[FindIndex(docs, id)]
      ensures r.Err? ==> r.error == NotFound(id)
    {
      var found := FindOne(docs, id);
      if found.None? {
        return Err(NotFound(id));
      }
      r := Ok(found.value);
    }

    /** `update_reminder`: `$set` the request's fields on the reminder with this id;
        404 only when nothing was modified because no reminder has it. A reminder
        that already holds these values is returned without error. */
    method Update(id: string, request: ReminderBase) returns (r: Result<Reminder>)
      modifies this
      ensures docs == Updated(old(docs), id, request)
      ensures FindOne(old(docs), id).None? ==> r == Err(NotFound(id))
      ensures FindOne(old(docs), id).Some? ==> r == Ok(WithBase(FindOne(old(docs), id).value, request))
    {
      var modified := ModifiedCount(docs, id, request);
      ghost var before := docs;
      docs := Updated(docs, id, request);
      if modified == 0 {
        var existing := FindOne(docs, id);
        if existing.None? {
          return Err(NotFound(id));
        }
      }
      UpdateThenRead(before, id, request);
      var updated := FindOne(docs, id);
      r := Ok(updated.value);
    }

    /** `delete_reminder`: the first reminder with this id is removed; 404 when
        none has it. */
    method Delete(id: string) returns (r: Result<()>)
      modifies this
      ensures docs == Deleted(old(docs), id)
      ensures r.Ok? <==> FindOne(old(docs), id).Some?
      ensures r.Err? ==> r.error == NotFound(id)
    {
      var k := FindIndex(docs, id);
      var deletedCount := if k < |docs| then 1 else 0;
      docs := Deleted(docs, id);
      if deletedCount == 0 {
        return Err(NotFound(id));
      }
      r := Ok(());
    }
  }
}

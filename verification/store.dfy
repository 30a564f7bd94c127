/** The two document collections the core touches, `users` and `teachers` (index.js:29-30),
    and the three store calls it makes on them: `findOne({email})`, `insertOne(doc)` and
    `updateOne({_id}, {$set: {role}})`. A collection is a sequence in insertion order, and
    `findOne` is taken to return the first match in that order. */
module Store {
  import opened Wrappers

  /** A document's `_id`, opaque to the core. */
  type Id = nat

  /** A request body as stored: `email` and `role` are `None` when the body lacks them. */
  datatype Doc = Doc(email: Option<string>, role: Option<string>, other: map<string, string>)

  /** A stored document: the body plus the `_id` the store assigned. */
  datatype Record = Record(id: Id, email: Option<string>, role: Option<string>, other: map<string, string>)

  /** The result document of `updateOne`. */
  datatype UpdateResult = UpdateResult(matchedCount: nat, modifiedCount: nat)

  /** `findOne({email: e})`: the position of the first record whose email equals `e`.
      A query for a missing email (`undefined`, here `None`) matches records without one. */
  function FindByEmail(rs: seq<Record>, e: Option<string>): (r: Option<nat>)
    ensures r.Some? ==> r.value < |rs| && rs[r.value].email == e
    ensures r.Some? ==> forall j :: 0 <= j < r.value ==> rs[j].email != e
    ensures r.None? <==> forall j :: 0 <= j < |rs| ==> rs[j].email != e
  {
    if rs == [] then None
    else if rs[0].email == e then Some(0)
    else match FindByEmail(rs[1..], e)
      case None => None
      case Some(i) => Some(i + 1)
  }

  /** The filter `{_id: id}`: the position of the first record with that id. */
  function FindById(rs: seq<Record>, id: Id): (r: Option<nat>)
    ensures r.Some? ==> r.value < |rs| && rs[r.value].id == id
    ensures r.Some? ==> forall j :: 0 <= j < r.value ==> rs[j].id != id
    ensures r.None? <==> forall j :: 0 <= j < |rs| ==> rs[j].id != id
  {
    if rs == [] then None
    else if rs[0].id == id then Some(0)
    else match FindById(rs[1..], id)
      case None => None
      case Some(i) => Some(i + 1)
  }

  /** `user?.role === role` for the user `findOne({email: e})` returns: false when there is none. */
  predicate HasRole(rs: seq<Record>, e: Option<string>, role: string)
    ensures HasRole(rs, e, role) ==> exists i :: 0 <= i < |rs| && rs[i].email == e && rs[i].role == Some(role)
    ensures FindByEmail(rs, e).None? ==> !HasRole(rs, e, role)
  {
    match FindByEmail(rs, e)
    case None => false
    case Some(i) => rs[i].role == Some(role)
  }

  /** `updateOne({_id: id}, {$set: {role: role}})`: the first record with that id gets the
      role; every other record and every other field stays as it was. */
  function SetRole(rs: seq<Record>, id: Id, role: string): (r: seq<Record>)
    ensures |r| == |rs|
    ensures forall i :: 0 <= i < |rs| ==>
      r[i] == if FindById(rs, id) == Some(i) then rs[i].(role := Some(role)) else rs[i]
  {
    if rs == [] then []
    else if rs[0].id == id then [rs[0].(role := Some(role))] + rs[1..]
    else [rs[0]] + SetRole(rs[1..], id, role)
  }

  /** No two records share an `_id` (the store's primary key). */
  ghost predicate DistinctIds(rs: seq<Record>)
  {
    forall i, j :: 0 <= i < j < |rs| ==> rs[i].id != rs[j].id
  }

  /** No two records share an email: the invariant `POST /users` is written to keep. */
  ghost predicate DistinctEmails(rs: seq<Record>)
  {
    forall i, j :: 0 <= i < j < |rs| ==> rs[i].email != rs[j].email
  }

  /** The record `insertOne(doc)` stores under a new `_id`. */
  function Stored(doc: Doc, id: Id): Record
  {
    Record(id, doc.email, doc.role, doc.other)
  }

  /** `findOne` returns the record whose role decides: with the first match found, the
      role check holds iff that record carries the role. */
  lemma HasRoleMeans(rs: seq<Record>, e: Option<string>, role: string)
    ensures HasRole(rs, e, role) <==>
      exists i :: 0 <= i < |rs| && rs[i].email == e && rs[i].role == Some(role)
                  && forall j :: 0 <= j < i ==> rs[j].email != e
  {
    if HasRole(rs, e, role) {
      var i := FindByEmail(rs, e).value;
      assert rs[i].email == e && rs[i].role == Some(role);
    }
    if exists i :: 0 <= i < |rs| && rs[i].email == e && rs[i].role == Some(role)
                   && forall j :: 0 <= j < i ==> rs[j].email != e {
      var i :| 0 <= i < |rs| && rs[i].email == e && rs[i].role == Some(role)
               && forall j :: 0 <= j < i ==> rs[j].email != e;
      var k := FindByEmail(rs, e).value;
      assert k == i;
    }
  }

  /** With no duplicate emails, the role check is a plain existence test. */
  lemma {:induction false} HasRoleDistinct(rs: seq<Record>, e: Option<string>, role: string)
    requires DistinctEmails(rs)
    ensures HasRole(rs, e, role) <==> exists i :: 0 <= i < |rs| && rs[i].email == e && rs[i].role == Some(role)
  {
    if i :| 0 <= i < |rs| && rs[i].email == e && rs[i].role == Some(role) {
      var k := FindByEmail(rs, e).value;
      assert k == i;
    }
  }

  /** Setting a role twice is the same as setting it once. */
  lemma {:induction false} SetRoleIdempotent(rs: seq<Record>, id: Id, role: string)
    ensures SetRole(SetRole(rs, id, role), id, role) == SetRole(rs, id, role)
  {
    if rs != [] && rs[0].id != id {
      SetRoleIdempotent(rs[1..], id, role);
      assert SetRole(rs, id, role)[1..] == SetRole(rs[1..], id, role);
    }
  }

  /** A role update changes no id and no email, so it keeps both uniqueness invariants. */
  lemma SetRoleKeepsInvariants(rs: seq<Record>, id: Id, role: string)
    ensures DistinctIds(rs) ==> DistinctIds(SetRole(rs, id, role))
    ensures DistinctEmails(rs) ==> DistinctEmails(SetRole(rs, id, role))
  {
    var r := SetRole(rs, id, role);
    assert forall i :: 0 <= i < |rs| ==> r[i].id == rs[i].id && r[i].email == rs[i].email;
  }

  /** Lookups by email see only the emails, position by position. */
  lemma SameEmailsSameFind(rs: seq<Record>, qs: seq<Record>, e: Option<string>)
    requires |rs| == |qs|
    requires forall i :: 0 <= i < |rs| ==> rs[i].email == qs[i].email
    ensures FindByEmail(rs, e) == FindByEmail(qs, e)
  {
    var a, b := FindByEmail(rs, e), FindByEmail(qs, e);
    if a.Some? && b.Some? {
      assert rs[b.value].email == e;
      assert qs[a.value].email == e;
    }
  }

  /** Lookups by email see the same position before and after a role update. */
  lemma SetRoleFindByEmail(rs: seq<Record>, id: Id, role: string, e: Option<string>)
    ensures FindByEmail(SetRole(rs, id, role), e) == FindByEmail(rs, e)
  {
    var r := SetRole(rs, id, role);
    assert forall i :: 0 <= i < |rs| ==> r[i].email == rs[i].email;
    SameEmailsSameFind(r, rs, e);
  }

  /** Promoting the record that the role check for `e` looks at makes the check succeed. */
  lemma PromotedHasRole(rs: seq<Record>, id: Id, role: string, e: Option<string>)
    requires DistinctIds(rs)
    requires FindByEmail(rs, e).Some? && rs[FindByEmail(rs, e).value].id == id
    ensures HasRole(SetRole(rs, id, role), e, role)
  {
    var i := FindByEmail(rs, e).value;
    SetRoleFindByEmail(rs, id, role, e);
    var k := FindById(rs, id).value;
    assert k == i;
  }

  /** Promoting any other record leaves the role check for `e` as it was, for every role. */
  lemma PromoteOtherUnaffected(rs: seq<Record>, id: Id, role: string, e: Option<string>, asked: string)
    requires FindByEmail(rs, e).None? || rs[FindByEmail(rs, e).value].id != id
    ensures HasRole(SetRole(rs, id, role), e, asked) == HasRole(rs, e, asked)
  {
    SetRoleFindByEmail(rs, id, role, e);
  }

  /** Appending a record whose email is new keeps emails unique. */
  lemma AppendNewEmail(rs: seq<Record>, r: Record)
    requires DistinctEmails(rs)
    requires FindByEmail(rs, r.email).None?
    ensures DistinctEmails(rs + [r])
  {
  }

  /** Appending a record whose id is new keeps ids unique. */
  lemma AppendNewId(rs: seq<Record>, r: Record)
    requires DistinctIds(rs)
    requires FindById(rs, r.id).None?
    ensures DistinctIds(rs + [r])
  {
  }

  /** A collection in the store. `nextId` stands for the store's `_id` generator:
      every id it hands out is larger than all ids in use. */
  class Collection {
    var records: seq<Record>
    var nextId: Id

    ghost predicate Valid()
      reads this
    {
      DistinctIds(records) && forall i :: 0 <= i < |records| ==> records[i].id < nextId
    }

    constructor ()
      ensures Valid() && records == []
    {
      records := [];
      nextId := 0;
    }

    /** `findOne({email: e})` on the current contents. */
    function FindOne(e: Option<string>): (r: Option<Record>)
      reads this
      ensures r.Some? <==> exists i :: 0 <= i < |records| && records[i].email == e
      ensures r.Some? ==> r.value.email == e && r.value in records
    {
      match FindByEmail(records, e)
      case None => None
      case Some(i) => Some(records[i])
    }

    /** `insertOne(doc)`: appends the document under a fresh `_id` and returns that id. */
    method InsertOne(doc: Doc) returns (id: Id)
      requires Valid()
      modifies this
      ensures Valid()
      ensures FindById(old(records), id).None?
      ensures records == old(records) + [Stored(doc, id)]
    {
      id := nextId;
      AppendNewId(records, Stored(doc, id));
      records := records + [Stored(doc, id)];
      nextId := nextId + 1;
    }

    /** `updateOne({_id: id}, {$set: {role: role}})`: `matchedCount` is 1 iff a record has
        that id, and `modifiedCount` is 1 iff, besides, its role was not already `role`. */
    method UpdateRole(id: Id, role: string) returns (result: UpdateResult)
      requires Valid()
      modifies this
      ensures Valid() && nextId == old(nextId)
      ensures records == SetRole(old(records), id, role)
      ensures result.matchedCount == if FindById(old(records), id).Some? then 1 else 0
      ensures result.modifiedCount ==
        if FindById(old(records), id).Some? && old(records)[FindById(old(records), id).value].role != Some(role)
        then 1 else 0
    {
      match FindById(records, id)
      case None =>
        result := UpdateResult(0, 0);
      case Some(i) =>
        result := UpdateResult(1, if records[i].role != Some(role) then 1 else 0);
        SetRoleKeepsInvariants(records, id, role);
        records := SetRole(records, id, role);
    }
  }
}

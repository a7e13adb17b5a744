/**
 * The MongoDB database of the Flask back-end: three collections of documents kept
 * in their natural (insertion) order, the ObjectId text format, and the
 * find / find_one / insert_one / update_one($set) / delete_one operations the
 * models use.
 */
module FlaskDb {
  import opened Wrappers
  import opened PyText
  import opened PyValues

  /** The text of an ObjectId as str() prints it: 24 lower-case hexadecimal digits. */
  predicate IsCanonicalId(s: string) {
    IsObjectIdText(s) && Lower(s) == s
  }

  /** ObjectId(text): the id in canonical form, or None where bson raises InvalidId. */
  function ParseObjectId(text: string): (r: Option<string>)
    ensures r.Some? <==> IsObjectIdText(text)
    ensures r.Some? ==> r.value == Lower(text) && IsCanonicalId(r.value)
  {
    if IsObjectIdText(text) then
      LowerIdempotent(text);
      assert forall i :: 0 <= i < |text| ==> IsHexDigit(Lower(text)[i]);
      Some(Lower(text))
    else None
  }

  /** A canonical id parses to itself. */
  lemma ParseCanonical(id: string)
    requires IsCanonicalId(id)
    ensures ParseObjectId(id) == Some(id)
  {
  }

  /** A stored document with the id MongoDB gave it. */
  datatype Record = Record(id: string, doc: Doc)

  type Collection = seq<Record>

  /** The document as find_one and find return it: its fields and "_id". */
  function Returned(r: Record): Doc {
    r.doc["_id" := ObjectId(r.id)]
  }

  predicate HasId(c: Collection, id: string) {
    exists i :: 0 <= i < |c| && c[i].id == id
  }

  /** Every id is canonical and no two documents share one. */
  predicate WellKeyed(c: Collection) {
    && (forall i :: 0 <= i < |c| ==> IsCanonicalId(c[i].id))
    && (forall i, j :: 0 <= i < j < |c| ==> c[i].id != c[j].id)
  }

  /** The position of the document with this id. */
  function IndexOfId(c: Collection, id: string): (r: Option<nat>)
    ensures r.Some? ==> r.value < |c| && c[r.value].id == id
    ensures r.None? <==> !HasId(c, id)
    decreases |c|
  {
    if c == [] then None
    else if c[|c| - 1].id == id then Some(|c| - 1)
    else IndexOfId(c[..|c| - 1], id)
  }

  /** find_one({'_id': id}) for an id already parsed. */
  function Lookup(c: Collection, id: string): (r: Option<Doc>)
    ensures r.Some? <==> HasId(c, id)
  {
    match IndexOfId(c, id)
    case Some(i) => Some(Returned(c[i]))
    case None => None
  }

  /** find_one({'_id': ObjectId(text)}): Err where ObjectId raises, otherwise the document if any. */
  function FindById(c: Collection, text: string): (r: Result<Option<Doc>>)
    ensures r.Err? <==> !IsObjectIdText(text)
    ensures r.Ok? ==> r.value == Lookup(c, Lower(text))
  {
    match ParseObjectId(text)
    case None => Err("InvalidId")
    case Some(id) => Ok(Lookup(c, id))
  }

  /**
   * ObjectId(v) for a value other than None: an ObjectId stands for itself, a str is
   * parsed, and any other value raises TypeError (None).
   */
  function ObjectIdOf(v: Value): (r: Option<string>)
    requires v != Null
    ensures v.ObjectId? ==> r == Some(v.hex)
    ensures v.Str? ==> r == ParseObjectId(v.s)
    ensures !v.ObjectId? && !v.Str? ==> r.None?
  {
    match v
    case ObjectId(hex) => Some(hex)
    case Str(text) => ParseObjectId(text)
    case _ => None
  }

  /**
   * find_one({'_id': ObjectId(v)}) for a value read from a document or a request.
   * ObjectId(None) makes a fresh id, which no stored document carries.
   */
  function FindByValue(c: Collection, v: Value): (r: Result<Option<Doc>>)
    ensures v == Null ==> r == Ok(None)
    ensures v != Null ==> (r.Err? <==> ObjectIdOf(v).None?)
    ensures v != Null && r.Ok? ==> r.value == Lookup(c, ObjectIdOf(v).value)
    ensures r.Ok? && r.value.Some? ==> v != Null && ObjectIdOf(v).Some? && HasId(c, ObjectIdOf(v).value)
  {
    if v == Null then Ok(None)
    else match ObjectIdOf(v)
      case None => Err("TypeError")
      case Some(id) => Ok(Lookup(c, id))
  }

  /** find_one({key: q}): the first document in natural order that matches. */
  function FindFirst(c: Collection, key: string, q: Value): (r: Option<nat>)
    ensures r.Some? ==> r.value < |c| && DocMatches(c[r.value].doc, key, q)
    ensures r.Some? ==> forall k :: 0 <= k < r.value ==> !DocMatches(c[k].doc, key, q)
    ensures r.None? <==> forall k :: 0 <= k < |c| ==> !DocMatches(c[k].doc, key, q)
    decreases |c|
  {
    if c == [] then None
    else if DocMatches(c[0].doc, key, q) then Some(0)
    else match FindFirst(c[1..], key, q)
      case None => None
      case Some(k) => Some(k + 1)
  }

  /** find({key: q}): the matching documents, in natural order. */
  function FindAll(c: Collection, key: string, q: Value): (r: Collection)
    ensures |r| <= |c|
    ensures forall k :: 0 <= k < |r| ==> DocMatches(r[k].doc, key, q)
    decreases |c|
  {
    if c == [] then []
    else
      var front := FindAll(c[..|c| - 1], key, q);
      if DocMatches(c[|c| - 1].doc, key, q) then front + [c[|c| - 1]] else front
  }

  /** find({key: q}) holds exactly the stored documents that match. */
  lemma {:induction false} FindAllExactly(c: Collection, key: string, q: Value, r: Record)
    ensures r in FindAll(c, key, q) <==> r in c && DocMatches(r.doc, key, q)
    decreases |c|
  {
    if c != [] {
      var front := c[..|c| - 1];
      FindAllExactly(front, key, q, r);
      assert c == front + [c[|c| - 1]];
    }
  }

  /** find({key: q}) on a collection where nothing matches is empty. */
  lemma {:induction false} FindAllNone(c: Collection, key: string, q: Value)
    requires forall k :: 0 <= k < |c| ==> !DocMatches(c[k].doc, key, q)
    ensures FindAll(c, key, q) == []
    decreases |c|
  {
    if c != [] {
      FindAllNone(c[..|c| - 1], key, q);
    }
  }

  /** insert_one(doc) with the id the server assigns. */
  function Insert(c: Collection, id: string, doc: Doc): (r: Collection)
    ensures |r| == |c| + 1 && r[..|c|] == c && r[|c|] == Record(id, doc)
  {
    c + [Record(id, doc)]
  }

  lemma InsertKeepsKeys(c: Collection, id: string, doc: Doc)
    requires WellKeyed(c) && IsCanonicalId(id) && !HasId(c, id)
    ensures WellKeyed(Insert(c, id, doc)) && HasId(Insert(c, id, doc), id)
  {
    var r := Insert(c, id, doc);
    assert r[|c|].id == id;
  }

  /** update_one({'_id': id}, {'$set': data}): the matching document gains or overwrites data's keys. */
  function UpdateById(c: Collection, id: string, data: Doc): (r: Collection)
    ensures |r| == |c|
    ensures forall k :: 0 <= k < |c| ==> r[k].id == c[k].id
    ensures forall k :: 0 <= k < |c| ==> r[k].doc == if c[k].id == id then c[k].doc + data else c[k].doc
    decreases |c|
  {
    if c == [] then []
    else
      var last := c[|c| - 1];
      UpdateById(c[..|c| - 1], id, data) + [if last.id == id then Record(id, last.doc + data) else last]
  }

  /** delete_one({'_id': id}): the documents with other ids, in order. */
  function DeleteById(c: Collection, id: string): (r: Collection)
    ensures |r| <= |c|
    ensures forall k :: 0 <= k < |r| ==> r[k].id != id
    decreases |c|
  {
    if c == [] then []
    else
      var front := DeleteById(c[..|c| - 1], id);
      if c[|c| - 1].id == id then front else front + [c[|c| - 1]]
  }

  /** delete_one removes the document with that id and keeps every other document. */
  lemma {:induction false} DeleteByIdExactly(c: Collection, id: string, r: Record)
    ensures r in DeleteById(c, id) <==> r in c && r.id != id
    decreases |c|
  {
    if c != [] {
      var front := c[..|c| - 1];
      DeleteByIdExactly(front, id, r);
      assert c == front + [c[|c| - 1]];
    }
  }

  lemma {:induction false} UpdateKeepsKeys(c: Collection, id: string, data: Doc)
    requires WellKeyed(c)
    ensures WellKeyed(UpdateById(c, id, data))
    ensures forall other :: HasId(UpdateById(c, id, data), other) <==> HasId(c, other)
  {
    var r := UpdateById(c, id, data);
    forall other | HasId(r, other) ensures HasId(c, other) {
      var i :| 0 <= i < |r| && r[i].id == other;
      assert c[i].id == other;
    }
    forall other | HasId(c, other) ensures HasId(r, other) {
      var i :| 0 <= i < |c| && c[i].id == other;
      assert r[i].id == other;
    }
  }

  lemma {:induction false} DeleteKeepsKeys(c: Collection, id: string)
    requires WellKeyed(c)
    ensures WellKeyed(DeleteById(c, id))
    decreases |c|
  {
    if c != [] {
      var front := c[..|c| - 1];
      DeleteKeepsKeys(front, id);
      var last := c[|c| - 1];
      var d := DeleteById(front, id);
      if last.id != id {
        forall k | 0 <= k < |d| ensures d[k].id != last.id {
          DeleteByIdExactly(front, id, d[k]);
          var j :| 0 <= j < |front| && front[j] == d[k];
          assert c[j] == front[j];
        }
        AppendKeyed(d, last);
      }
    }
  }

  /** A document whose id is canonical and new may follow a well-keyed collection. */
  lemma AppendKeyed(c: Collection, r: Record)
    requires WellKeyed(c) && IsCanonicalId(r.id)
    requires forall k :: 0 <= k < |c| ==> c[k].id != r.id
    ensures WellKeyed(c + [r])
  {
    var after := c + [r];
    assert forall i :: 0 <= i < |c| ==> after[i] == c[i];
  }

  /** mongo.db: the users, roles and websites collections. */
  class Db {
    var users: Collection
    var roles: Collection
    var websites: Collection

    predicate Valid()
      reads this
    {
      WellKeyed(users) && WellKeyed(roles) && WellKeyed(websites)
    }

    constructor ()
      ensures Valid() && users == [] && roles == [] && websites == []
    {
      users := [];
      roles := [];
      websites := [];
    }
  }
}

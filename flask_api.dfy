/**
 * What the Flask route handlers of app.api and app.auth share: the response they
 * give, the caller request.current_user describes, the required-fields check, the
 * copy of whitelisted fields out of the request body, and str() of ids.
 */
module FlaskApi {
  import opened Wrappers
  import opened PyValues
  import opened FlaskDb

  /**
   * A handler's answer: the status code and the 'error' or 'message' text of its
   * JSON body. A 500 answer produced by `except Exception` carries the name of the
   * exception.
   */
  datatype Response = Response(status: nat, text: string)

  /**
   * request.current_user as a handler reads it: `id` is str(current_user['_id']) and
   * `role` is current_user.get('role', {}).
   */
  datatype Caller = Caller(id: string, role: Value)

  /** user_role.get('name'); Err where the role is not a dict (None.get raises AttributeError). */
  function RoleName(c: Caller): (r: Result<Value>)
    ensures r.Ok? <==> c.role.Dict?
    ensures r.Ok? ==> r.value == Get(c.role.fields, "name", Null)
  {
    if c.role.Dict? then Ok(Get(c.role.fields, "name", Null)) else Err("AttributeError")
  }

  /** str() of an id value: the hex text of an ObjectId, a str itself, `show` for anything else. */
  function IdString(v: Value, show: Value -> string): string {
    if v.ObjectId? then v.hex else Interpolated(v, show)
  }

  /** The 400 message naming a missing required field. */
  function RequiredMessage(field: string): string {
    field + " is required"
  }

  /**
   * `for field in required_fields: if not data.get(field): return 400`: the position
   * of the first required field whose value is missing or falsy.
   */
  function FirstMissing(data: Doc, fields: seq<string>): (r: Option<nat>)
    ensures r.Some? ==> r.value < |fields| && !TruthyAt(data, fields[r.value])
    ensures r.Some? ==> forall j :: 0 <= j < r.value ==> TruthyAt(data, fields[j])
    ensures r.None? <==> forall j :: 0 <= j < |fields| ==> TruthyAt(data, fields[j])
    decreases |fields|
  {
    if fields == [] then None
    else if !TruthyAt(data, fields[0]) then Some(0)
    else match FirstMissing(data, fields[1..])
      case None => None
      case Some(k) => Some(k + 1)
  }

  /**
   * The update_data dict of `for field in allowed_fields: if field in data:
   * update_data[field] = data[field]`; Err where `in` or the indexing raises TypeError.
   */
  function Copied(data: Value, fields: seq<string>): (r: Result<Doc>)
    ensures r.Ok? ==> forall k :: k in r.value ==> k in fields
    decreases |fields|
  {
    if fields == [] then Ok(map[])
    else match Copied(data, fields[..|fields| - 1])
      case Err(e) => Err(e)
      case Ok(front) =>
        var f := fields[|fields| - 1];
        match StrIn(f, data)
        case None => Err("TypeError")
        case Some(false) => Ok(front)
        case Some(true) => if data.Dict? then Ok(front[f := data.fields[f]]) else Err("TypeError")
  }

  /** From a dict body the copy succeeds and holds exactly the whitelisted keys the body has, with the body's values. */
  lemma {:induction false} CopiedFromDict(fields: seq<string>, data: Doc)
    ensures Copied(Dict(data), fields).Ok?
    ensures forall k :: k in Copied(Dict(data), fields).value <==> k in fields && k in data
    ensures forall k :: k in Copied(Dict(data), fields).value ==> Copied(Dict(data), fields).value[k] == data[k]
    decreases |fields|
  {
    if fields != [] {
      var front := fields[..|fields| - 1];
      CopiedFromDict(front, data);
      assert fields == front + [fields[|fields| - 1]];
    }
  }

  /** Any other body never yields a non-empty update: the handler answers 400 or 500. */
  lemma {:induction false} CopiedFromOther(fields: seq<string>, data: Value)
    requires !data.Dict?
    ensures Copied(data, fields).Ok? ==> Copied(data, fields).value == map[]
    decreases |fields|
  {
    if fields != [] {
      CopiedFromOther(fields[..|fields| - 1], data);
    }
  }

  /** The loop itself, field by field. */
  method CopyFields(data: Value, fields: seq<string>) returns (r: Result<Doc>)
    ensures r == Copied(data, fields)
  {
    var update: Doc := map[];
    var i := 0;
    while i < |fields|
      invariant 0 <= i <= |fields|
      invariant Copied(data, fields[..i]) == Ok(update)
    {
      assert fields[..i + 1][..i] == fields[..i];
      var f := fields[i];
      var present := StrIn(f, data);
      if present.None? {
        CopyFailureStays(data, fields, i + 1);
        return Err("TypeError");
      }
      if present.value {
        if !data.Dict? {
          CopyFailureStays(data, fields, i + 1);
          return Err("TypeError");
        }
        update := update[f := data.fields[f]];
      }
      i := i + 1;
    }
    assert fields[..|fields|] == fields;
    r := Ok(update);
  }

  /** Once the copy has raised on a prefix of the fields it raises on the whole list. */
  lemma {:induction false} CopyFailureStays(data: Value, fields: seq<string>, n: nat)
    requires n <= |fields| && Copied(data, fields[..n]).Err?
    ensures Copied(data, fields) == Copied(data, fields[..n])
    decreases |fields| - n
  {
    if n < |fields| {
      assert fields[..n + 1][..n] == fields[..n];
      CopyFailureStays(data, fields, n + 1);
    } else {
      assert fields[..n] == fields;
    }
  }

  /**
   * What a `for doc in docs:` loop that rewrites each document found answers with:
   * the rewritten documents in order, or None once a rewrite raises.
   */
  function Listing(c: Collection, rewrite: Record -> Option<Doc>): (r: Option<seq<Doc>>)
    ensures r.Some? ==> |r.value| == |c|
    ensures r.Some? ==> forall k :: 0 <= k < |c| ==> rewrite(c[k]) == Some(r.value[k])
    decreases |c|
  {
    if c == [] then Some([])
    else match Listing(c[..|c| - 1], rewrite)
      case None => None
      case Some(front) =>
        match rewrite(c[|c| - 1])
        case None => None
        case Some(d) => Some(front + [d])
  }

  /** The listing fails exactly when one of the documents cannot be rewritten. */
  lemma {:induction false} ListingFails(c: Collection, rewrite: Record -> Option<Doc>)
    ensures Listing(c, rewrite).None? <==> exists k :: 0 <= k < |c| && rewrite(c[k]).None?
    decreases |c|
  {
    if c != [] {
      var front := c[..|c| - 1];
      ListingFails(front, rewrite);
      if Listing(front, rewrite).None? {
        var k :| 0 <= k < |front| && rewrite(front[k]).None?;
        assert c[k] == front[k];
      }
      if exists k :: 0 <= k < |c| && rewrite(c[k]).None? {
        var k :| 0 <= k < |c| && rewrite(c[k]).None?;
        if k < |front| {
          assert front[k] == c[k];
        }
      }
    }
  }

  /** The loop itself, stopping at the first document whose rewrite raises. */
  method ListEach(c: Collection, rewrite: Record -> Option<Doc>) returns (r: Option<seq<Doc>>)
    ensures r == Listing(c, rewrite)
  {
    var out: seq<Doc> := [];
    var i := 0;
    while i < |c|
      invariant 0 <= i <= |c|
      invariant Listing(c[..i], rewrite) == Some(out)
    {
      assert c[..i + 1][..i] == c[..i];
      var d := rewrite(c[i]);
      if d.None? {
        ListingFails(c[..i + 1], rewrite);
        ListingFails(c, rewrite);
        assert c[..i + 1][i] == c[i];
        return None;
      }
      out := out + [d.value];
      i := i + 1;
    }
    assert c[..|c|] == c;
    r := Some(out);
  }
}

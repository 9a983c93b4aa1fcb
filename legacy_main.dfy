/**
 * The decisions in the legacy script's `main` (marketo-monkey.py): which
 * fields an object offers when no spec is given, and how the answer to a
 * `set_lead` or `set_snap` is read back. Console output is not modelled;
 * what would be printed is returned instead.
 */
module LegacyMain {
  import opened Results
  import opened Values
  import C = Client
  import SpecParser

  datatype ObjectKind = Lead | Snap

  /** The lead fields offered without asking the service. */
  const LEAD_AVAILABLE_FIELDS: seq<string> := ["firstName", "lastName", "email", "company"]

  /** An object's display name and the names of its settable fields, as printed. */
  datatype Listing = Listing(displayName: Value, fields: seq<string>)

  /**
   * The elements that `for x in v` visits, for a loop whose body starts by
   * subscripting `x` with a string: a list yields its items; an empty dict or
   * string yields nothing; any other dict or string yields strings, and the
   * first subscript of one raises TypeError; other values are not iterable.
   */
  function Elements(v: Value): Result<seq<Value>, PyError>
  {
    match v
    case List(items) => Ok(items)
    case Dict(m) => if m == map[] then Ok([]) else Err(TypeError)
    case Str(s) => if s == "" then Ok([]) else Err(TypeError)
    case _ => Err(TypeError)
  }

  /** A field descriptor that the service does not manage: `not f['crmManaged']`. */
  predicate Unmanaged(f: Value)
  {
    f.Dict? && "crmManaged" in f.entries && !Truthy(f.entries["crmManaged"])
  }

  /** A descriptor the comprehension can read: it says whether it is managed, and names itself if not. */
  predicate Readable(f: Value)
  {
    f.Dict? && "crmManaged" in f.entries && (Unmanaged(f) ==> "name" in f.entries)
  }

  /**
   * `[f['name'] for f in fields if not f['crmManaged']]`, evaluated left to
   * right: the first descriptor that cannot be read raises.
   */
  function UnmanagedNames(fields: seq<Value>): (r: Result<seq<Value>, PyError>)
    ensures r.Ok? <==> forall i :: 0 <= i < |fields| ==> Readable(fields[i])
    ensures r.Ok? ==> |r.value| <= |fields|
    decreases |fields|
  {
    if fields == [] then Ok([])
    else
      var rest := UnmanagedNames(fields[1..]);
      match Subscript(fields[0], "crmManaged")
      case Err(e) => Err(e)
      case Ok(managed) =>
        if Truthy(managed) then rest
        else
          match Subscript(fields[0], "name")
          case Err(e) => Err(e)
          case Ok(name) => if rest.Err? then rest else Ok([name] + rest.value)
  }

  /** The names come out in describe order: the comprehension distributes over concatenation. */
  lemma {:induction false} UnmanagedNamesAppend(a: seq<Value>, b: seq<Value>)
    requires UnmanagedNames(a + b).Ok?
    ensures UnmanagedNames(a).Ok? && UnmanagedNames(b).Ok?
    ensures UnmanagedNames(a + b).value == UnmanagedNames(a).value + UnmanagedNames(b).value
    decreases |a|
  {
    assert forall i :: 0 <= i < |a| ==> (a + b)[i] == a[i];
    assert forall i :: 0 <= i < |b| ==> (a + b)[|a| + i] == b[i];
    if a == [] {
      assert a + b == b;
    } else {
      assert (a + b)[1..] == a[1..] + b;
      UnmanagedNamesAppend(a[1..], b);
    }
  }

  /** A name is listed exactly when some unmanaged descriptor carries it. */
  lemma {:induction false} UnmanagedNamesMembers(fields: seq<Value>, x: Value)
    requires UnmanagedNames(fields).Ok?
    ensures x in UnmanagedNames(fields).value <==>
      exists i :: 0 <= i < |fields| && Unmanaged(fields[i]) && fields[i].entries["name"] == x
    decreases |fields|
  {
    if fields != [] {
      UnmanagedNamesMembers(fields[1..], x);
      if exists i :: 1 <= i < |fields| && Unmanaged(fields[i]) && fields[i].entries["name"] == x {
        var i :| 1 <= i < |fields| && Unmanaged(fields[i]) && fields[i].entries["name"] == x;
        assert fields[1..][i - 1] == fields[i];
      }
      if exists i :: 0 <= i < |fields[1..]| && Unmanaged(fields[1..][i]) && fields[1..][i].entries["name"] == x {
        var i :| 0 <= i < |fields[1..]| && Unmanaged(fields[1..][i]) && fields[1..][i].entries["name"] == x;
        assert fields[i + 1] == fields[1..][i];
      }
    }
  }

  /** `', '.join(names)`: every name must be a string. */
  function Texts(names: seq<Value>): (r: Result<seq<string>, PyError>)
    ensures r.Ok? <==> forall i :: 0 <= i < |names| ==> names[i].Str?
    ensures r.Ok? ==> |r.value| == |names| && forall i :: 0 <= i < |names| ==> names[i] == Str(r.value[i])
    decreases |names|
  {
    if names == [] then Ok([])
    else
      var rest := Texts(names[1..]);
      if !names[0].Str? then Err(TypeError)
      else if rest.Err? then rest
      else Ok([names[0].s] + rest.value)
  }

  /**
   * The snap listing, read from the answer to `describe_snap`: the names of
   * the fields of `result[0]` that are not CRM-managed, and its display name.
   */
  function SnapListing(describe: Value): (r: Result<Listing, PyError>)
    ensures Descriptors(describe).Err? ==> r == Err(Descriptors(describe).error)
    ensures r.Ok? ==> Descriptors(describe).Ok?
    ensures r.Ok? ==> forall i :: 0 <= i < |Descriptors(describe).value| ==> Readable(Descriptors(describe).value[i])
    ensures r.Ok? ==> |r.value.fields| == |UnmanagedNames(Descriptors(describe).value).value|
    ensures r.Ok? ==> forall i :: 0 <= i < |r.value.fields| ==>
      UnmanagedNames(Descriptors(describe).value).value[i] == Str(r.value.fields[i])
    ensures r.Ok? ==> Subscript(SubscriptIndex(describe, "result", 0).value, "displayName") == Ok(r.value.displayName)
  {
    match SubscriptIndex(describe, "result", 0)
    case Err(e) => Err(e)
    case Ok(first) =>
      match Subscript(first, "fields")
      case Err(e) => Err(e)
      case Ok(fields) =>
        match Elements(fields)
        case Err(e) => Err(e)
        case Ok(descriptors) =>
          match UnmanagedNames(descriptors)
          case Err(e) => Err(e)
          case Ok(names) =>
            match Subscript(first, "displayName")
            case Err(e) => Err(e)
            case Ok(displayName) =>
              match Texts(names)
              case Err(e) => Err(e)
              case Ok(texts) => Ok(Listing(displayName, texts))
  }

  /** The descriptors of a describe answer: `result[0]['fields']`, as the loop visits them. */
  function Descriptors(describe: Value): Result<seq<Value>, PyError>
  {
    match SubscriptIndex(describe, "result", 0)
    case Err(e) => Err(e)
    case Ok(first) =>
      match Subscript(first, "fields")
      case Err(e) => Err(e)
      case Ok(fields) => Elements(fields)
  }

  /** The snap listing offers exactly the names of the descriptors whose `crmManaged` is false. */
  lemma SnapListingFields(describe: Value, t: string)
    requires SnapListing(describe).Ok?
    ensures Descriptors(describe).Ok?
    ensures t in SnapListing(describe).value.fields <==>
      exists i :: 0 <= i < |Descriptors(describe).value| && Unmanaged(Descriptors(describe).value[i])
               && Descriptors(describe).value[i].entries["name"] == Str(t)
  {
    var ds := Descriptors(describe).value;
    var names := UnmanagedNames(ds).value;
    var texts := SnapListing(describe).value.fields;
    assert Texts(names) == Ok(texts);
    UnmanagedNamesMembers(ds, Str(t));
    if t in texts {
      var j :| 0 <= j < |texts| && texts[j] == t;
      assert names[j] == Str(t);
    }
    if Str(t) in names {
      var j :| 0 <= j < |names| && names[j] == Str(t);
      assert texts[j] == t;
    }
  }

  /** The field whose presence in the first result record means the mutation went through. */
  function KeyField(kind: ObjectKind): string
  {
    match kind
    case Lead => "id"
    case Snap => "marketoGUID"
  }

  /** How `main` reads the answer to `set_lead` or `set_snap`. */
  datatype Classification =
    | Accepted(key: Value)
      // the record names its key: `main` goes on to print the status and fetch the record
    | Rejected(messages: Result<seq<Value>, PyError>)
      // KeyError: "Failed to create or modify ...!" is printed, then each reason's message,
      // and `main` returns 1; an error while listing the reasons propagates instead
    | Raised(error: PyError)
      // any other exception from the lookup is not caught

  /** `[r['message'] for r in reasons]`, left to right. */
  function Messages(reasons: seq<Value>): (r: Result<seq<Value>, PyError>)
    ensures r.Ok? <==> forall i :: 0 <= i < |reasons| ==> Subscript(reasons[i], "message").Ok?
    ensures r.Ok? ==> |r.value| == |reasons|
    ensures r.Ok? ==> forall i :: 0 <= i < |reasons| ==> Subscript(reasons[i], "message") == Ok(r.value[i])
    decreases |reasons|
  {
    if reasons == [] then Ok([])
    else
      var rest := Messages(reasons[1..]);
      match Subscript(reasons[0], "message")
      case Err(e) => Err(e)
      case Ok(m) => if rest.Err? then rest else Ok([m] + rest.value)
  }

  /** The reasons of a rejected mutation: `updated['result'][0]['reasons']`, as the loop visits them. */
  function Reasons(updated: Value): Result<seq<Value>, PyError>
  {
    match SubscriptIndex(updated, "result", 0)
    case Err(e) => Err(e)
    case Ok(first) =>
      match Subscript(first, "reasons")
      case Err(e) => Err(e)
      case Ok(reasons) => Elements(reasons)
  }

  /**
   * The messages printed under the failure line, one per reason and in
   * order; an answer without `result` makes the listing itself raise KeyError.
   */
  function ReasonMessages(updated: Value): (r: Result<seq<Value>, PyError>)
    ensures updated.Dict? && "result" !in updated.entries ==> r == Err(KeyError)
    ensures Reasons(updated).Err? ==> r == Err(Reasons(updated).error)
    ensures r.Ok? <==> (Reasons(updated).Ok? &&
      forall i :: 0 <= i < |Reasons(updated).value| ==> Subscript(Reasons(updated).value[i], "message").Ok?)
    ensures r.Ok? ==> |r.value| == |Reasons(updated).value|
    ensures r.Ok? ==> forall i :: 0 <= i < |r.value| ==> Subscript(Reasons(updated).value[i], "message") == Ok(r.value[i])
  {
    match Reasons(updated)
    case Err(e) => Err(e)
    case Ok(rs) => Messages(rs)
  }

  /** The `try: key = updated['result'][0][KEY] except KeyError: ...` of `main`. */
  function Classify(kind: ObjectKind, updated: Value): (c: Classification)
    // only KeyError is caught
    ensures c.Raised? ==> c.error != KeyError
    ensures c.Accepted? ==> SubscriptIndex(updated, "result", 0).Ok?
    ensures c.Accepted? ==> Subscript(SubscriptIndex(updated, "result", 0).value, KeyField(kind)) == Ok(c.key)
    ensures c.Rejected? ==> c.messages == ReasonMessages(updated)
    // an answer that is not an object, or whose `result` is empty, escapes `main`
    ensures !updated.Dict? ==> c == Raised(TypeError)
    ensures updated.Dict? && "result" in updated.entries && updated.entries["result"] == List([]) ==>
      c == Raised(IndexError)
    // an object without `result` is reported as a failure, whose listing of reasons raises in turn
    ensures updated.Dict? && "result" !in updated.entries ==> c == Rejected(Err(KeyError))
  {
    var key := match SubscriptIndex(updated, "result", 0)
      case Err(e) => Err(e)
      case Ok(first) => Subscript(first, KeyField(kind));
    if key.Ok? then Accepted(key.value)
    else if key.error == KeyError then Rejected(ReasonMessages(updated))
    else Raised(key.error)
  }

  /**
   * When the answer has a first result record, the mutation is reported as
   * failed exactly when that record lacks the key field (`id` for a lead,
   * `marketoGUID` for a snap); otherwise the key is that field's value.
   */
  lemma FailureExactlyWhenKeyMissing(kind: ObjectKind, updated: Value, record: map<string, Value>)
    requires SubscriptIndex(updated, "result", 0) == Ok(Dict(record))
    ensures Classify(kind, updated).Rejected? <==> KeyField(kind) !in record
    ensures KeyField(kind) in record ==> Classify(kind, updated) == Accepted(record[KeyField(kind)])
    ensures !Classify(kind, updated).Raised?
  {
  }

  /**
   * A reported failure with well-formed reasons lists each reason's message,
   * in order, and makes `main` return 1.
   */
  lemma FailureListsReasons(kind: ObjectKind, updated: Value, record: map<string, Value>, reasons: seq<Value>)
    requires SubscriptIndex(updated, "result", 0) == Ok(Dict(record))
    requires KeyField(kind) !in record && "reasons" in record && record["reasons"] == List(reasons)
    requires forall i :: 0 <= i < |reasons| ==> reasons[i].Dict? && "message" in reasons[i].entries
    ensures Classify(kind, updated).Rejected? && Classify(kind, updated).messages.Ok?
    ensures var ms := Classify(kind, updated).messages.value;
      |ms| == |reasons| && forall i :: 0 <= i < |reasons| ==> ms[i] == reasons[i].entries["message"]
  {
    assert forall i :: 0 <= i < |reasons| ==> Subscript(reasons[i], "message").Ok?;
  }

  /**
   * Only `result` is read: the `success` flag and every other entry of the
   * answer play no part in the decision.
   */
  lemma ClassifyReadsOnlyResult(kind: ObjectKind, entries: map<string, Value>, k: string, v: Value)
    requires k != "result"
    ensures Classify(kind, Dict(entries[k := v])) == Classify(kind, Dict(entries))
  {
    assert Subscript(Dict(entries[k := v]), "result") == Subscript(Dict(entries), "result");
  }

  /** The spec's values, as the keyword arguments `set_lead(**spec)` receives. */
  function AsValues(spec: map<string, string>): (fields: map<string, Value>)
    ensures fields.Keys == spec.Keys
    ensures forall k :: k in spec ==> fields[k] == Str(spec[k])
  {
    map k | k in spec :: Str(spec[k])
  }

  function Mutation(kind: ObjectKind, fields: map<string, Value>): C.Operation
  {
    match kind
    case Lead => C.SetLead(fields)
    case Snap => C.SetSnap(fields)
  }

  /**
   * `main` without a spec: the lead fields are a fixed list and need no
   * request; the snap fields come from `describe_snap`.
   */
  method ListFields(mm: C.MarketoMonkey, net: C.Network, kind: ObjectKind) returns (r: Result<Listing, PyError>)
    modifies mm, net
    ensures kind == Lead ==>
      r == Ok(Listing(Str("Lead"), LEAD_AVAILABLE_FIELDS)) &&
      net.sent == old(net.sent) && mm.accessToken == old(mm.accessToken)
    ensures kind == Snap ==>
      var x := C.Call(mm.config, old(mm.accessToken), net.answer, |old(net.sent)|, C.RouteOf(C.DescribeSnap));
      net.sent == old(net.sent) + x.sent && mm.accessToken == x.token &&
      r == if x.response.Err? then Err(x.response.error) else SnapListing(x.response.value)
  {
    if kind == Lead {
      return Ok(Listing(Str("Lead"), LEAD_AVAILABLE_FIELDS));
    }
    var described := mm.DescribeSnap(net);
    if described.Err? {
      return Err(described.error);
    }
    r := SnapListing(described.value);
  }

  /**
   * `main` with a spec: parse it (inline, as `parse_spec` does), send it with
   * `set_lead` or `set_snap`, and classify the answer. A spec that does not
   * parse raises ValueError before any request is sent; so does, with
   * TypeError, a spec that sets a field named `self`, because `**spec` then
   * binds the method's own first parameter a second time.
   */
  method Submit(mm: C.MarketoMonkey, net: C.Network, kind: ObjectKind, text: string)
    returns (r: Result<Classification, PyError>)
    modifies mm, net
    ensures SpecParser.ParsedSpec(text).Err? ==>
      r == Err(ValueError) && net.sent == old(net.sent) && mm.accessToken == old(mm.accessToken)
    ensures SpecParser.ParsedSpec(text).Ok? && "self" in SpecParser.ParsedSpec(text).value ==>
      r == Err(TypeError) && net.sent == old(net.sent) && mm.accessToken == old(mm.accessToken)
    ensures SpecParser.ParsedSpec(text).Ok? && "self" !in SpecParser.ParsedSpec(text).value ==>
      var op := Mutation(kind, AsValues(SpecParser.ParsedSpec(text).value));
      var x := C.Call(mm.config, old(mm.accessToken), net.answer, |old(net.sent)|, C.RouteOf(op));
      net.sent == old(net.sent) + x.sent && mm.accessToken == x.token &&
      r == if x.response.Err? then Err(x.response.error) else Ok(Classify(kind, x.response.value))
  {
    var spec := SpecParser.ParseSpec(text);
    if spec.Err? {
      return Err(ValueError);
    }
    if "self" in spec.value {
      return Err(TypeError);
    }
    var fields := AsValues(spec.value);
    var updated;
    if kind == Lead {
      updated := mm.SetLead(net, fields);
    } else {
      updated := mm.SetSnap(net, fields);
    }
    if updated.Err? {
      return Err(updated.error);
    }
    r := Ok(Classify(kind, updated.value));
  }
}

/**
 * Requests the admin pages send to the API, the submit outcome they share,
 * and the shown error message. Field lists keep their order: a FormData
 * payload or the insertion order of a JSON object literal.
 */
module Http {
  import opened Util
  import opened Text

  datatype Method = Post | Put

  /** A file picked in the browser; its contents are not modelled. */
  datatype FileRef = FileRef(name: string)

  datatype Value = Str(text: string) | Upload(file: FileRef)

  datatype Field = Field(key: string, value: Value)

  datatype Encoding = Json | Multipart

  datatype Request = Request(verb: Method, path: string, encoding: Encoding, body: seq<Field>)

  datatype Mode = Create | Edit

  /** How a sent request ended: success, or an error with the server's optional `message`. */
  datatype Reply = Succeeded | Failed(serverMessage: Option<string>)

  /** What pressing "save" produces: a client-side error, a request, or (edit with nothing selected) nothing. */
  datatype Submission = Invalid(error: string) | Send(request: Request) | NothingToSend

  const DefaultError := "An error occurred."
  const PasswordMismatch := "Passwords do not match."

  /** The value of the first field named `key` (`FormData.get`, or a JSON member). */
  function Lookup(body: seq<Field>, key: string): (v: Option<Value>)
    ensures v.Some? ==> Field(key, v.value) in body
    decreases |body|
  {
    if body == [] then None
    else if body[0].key == key then Some(body[0].value)
    else Lookup(body[1..], key)
  }

  /** A key that no field carries is not found. */
  lemma {:induction false} LookupMissing(body: seq<Field>, key: string)
    requires forall i :: 0 <= i < |body| ==> body[i].key != key
    ensures Lookup(body, key) == None
    decreases |body|
  {
    if body != [] {
      LookupMissing(body[1..], key);
    }
  }

  /** Looking a key up in `a + b` finds it in `a` first, and in `b` only when `a` lacks it. */
  lemma {:induction false} LookupAppend(a: seq<Field>, b: seq<Field>, key: string)
    ensures Lookup(a + b, key) == if Lookup(a, key).Some? then Lookup(a, key) else Lookup(b, key)
    decreases |a|
  {
    if a == [] {
      assert a + b == b;
    } else {
      var ab := a + b;
      assert ab[0] == a[0] && ab[1..] == a[1..] + b;
      if a[0].key != key {
        LookupAppend(a[1..], b, key);
      }
    }
  }

  /** Appending a field changes the lookup of no other key. */
  lemma LookupAppendOther(body: seq<Field>, field: Field)
    ensures forall k :: k != field.key ==> Lookup(body + [field], k) == Lookup(body, k)
  {
    forall k | k != field.key {
      LookupAppend(body, [field], k);
    }
  }

  /**
   * `if (cond) payload.append(key, value)`: a key not yet present is found
   * afterwards exactly when `cond` held, and every other key looks up as before.
   */
  function AppendIf(body: seq<Field>, cond: bool, key: string, value: Value): (r: seq<Field>)
    ensures r == if cond then body + [Field(key, value)] else body
    ensures Lookup(body, key) == None ==> Lookup(r, key) == if cond then Some(value) else None
    ensures forall k :: k != key ==> Lookup(r, k) == Lookup(body, k)
  {
    LookupAppend(body, [Field(key, value)], key);
    LookupAppendOther(body, Field(key, value));
    if cond then body + [Field(key, value)] else body
  }

  /**
   * The method the API applies: a multipart POST carrying `_method=PUT` is
   * treated as a PUT (form method spoofing, because multipart bodies travel on POST).
   */
  function EffectiveMethod(r: Request): (m: Method)
    ensures (m == Put) <==> (r.verb == Put || Lookup(r.body, "_method") == Some(Str("PUT")))
    ensures Lookup(r.body, "_method") == None ==> m == r.verb
  {
    match r.verb
    case Put => Put
    case Post => if Lookup(r.body, "_method") == Some(Str("PUT")) then Put else Post
  }

  /** `${base}/${id}`. */
  function ItemPath(base: string, id: nat): (path: string)
    ensures base + "/" <= path
    ensures ParseNat(path[|base| + 1..]) == Some(id)
    ensures path[|base| + 1..] == NatToString(id)
  {
    var path := base + "/" + NatToString(id);
    assert path[|base| + 1..] == NatToString(id);
    ParseNatToString(id);
    path
  }

  /** Two item paths under one base are equal only for equal ids. */
  lemma ItemPathInjective(base: string, m: nat, n: nat)
    requires ItemPath(base, m) == ItemPath(base, n)
    ensures m == n
  {
  }

  /** `error.response?.data?.message || "An error occurred."`: never blank; the server's text when it sent one. */
  function ErrorMessage(serverMessage: Option<string>): (msg: string)
    ensures msg != ""
    ensures msg == DefaultError || serverMessage == Some(msg)
    ensures serverMessage.Some? && serverMessage.value != "" ==> msg == serverMessage.value
  {
    OrElse(serverMessage, DefaultError)
  }

  /** `password && password !== password_confirmation`: an empty password skips the check. */
  predicate PasswordsDiffer(password: string, confirmation: string): (differ: bool)
    ensures password == "" ==> !differ
    ensures password != "" ==> (differ <==> password != confirmation)
  {
    password != "" && password != confirmation
  }

  /** The state a submit leaves behind: what went out, whether the modal closed, the error shown. */
  datatype Settled = Settled(sent: Option<Request>, closeModal: bool, formError: string)

  /**
   * The shared try/catch/finally of every `handleSubmit`: an invalid form
   * sends nothing and shows its error; a request that succeeds, or an edit
   * with nothing selected, closes the modal; a failed request keeps the
   * modal open and shows the server's message or the default one.
   */
  function Settle(submission: Submission, reply: Reply): (o: Settled)
    requires submission.Invalid? ==> submission.error != ""
    ensures o.closeModal <==> o.formError == ""
    ensures o.sent == (if submission.Send? then Some(submission.request) else None)
    ensures submission.Invalid? ==> o.formError == submission.error
    ensures submission.Send? && reply.Failed? ==> o.formError == ErrorMessage(reply.serverMessage)
    ensures o.closeModal <==> submission.NothingToSend? || (submission.Send? && reply.Succeeded?)
  {
    match submission
    case Invalid(error) => Settled(None, false, error)
    case NothingToSend => Settled(None, true, "")
    case Send(request) =>
      match reply
      case Succeeded => Settled(Some(request), true, "")
      case Failed(m) => Settled(Some(request), false, ErrorMessage(m))
  }

  /** A query parameter; axios leaves out parameters whose value is `undefined`. */
  datatype Param = Param(name: string, value: string)

  /** `{ name: value || undefined }`: the parameter is sent only when its value is non-empty. */
  function OptionalParam(name: string, value: string): (ps: seq<Param>)
    ensures value == "" ==> ps == []
    ensures value != "" ==> ps == [Param(name, value)]
  {
    if value == "" then [] else [Param(name, value)]
  }
}

/** The webhook content-rule action (`actions/webhook.py`): payload validation,
    recursive interpolation of the payload, the request `submit` hands to the
    shared executor, and the action executor that defers `submit` until the
    transaction commits. `json.loads`, `json.dumps` and the string interpolator
    are parameters (`loads`, `dumps`, `interpolator`). */
module Webhook {
  import opened PyBuiltins
  import opened JsonValues
  import opened DataManagers

  // ------------------------------------------------------- the methods vocabulary

  /** A vocabulary term: the stored value and the title a form shows. */
  datatype Term = Term(value: string, title: string)

  const MethodVocabulary: seq<Term> :=
    [Term("GET", "GET"), Term("POST", "POST"), Term("FORM", "POST FORM")]

  predicate InVocabulary(m: string) {
    exists i :: 0 <= i < |MethodVocabulary| && MethodVocabulary[i].value == m
  }

  /** The vocabulary holds exactly the three methods `submit` dispatches on. */
  lemma VocabularyIsSubmitMethods(m: string)
    ensures InVocabulary(m) <==> m == "GET" || m == "POST" || m == "FORM"
  {
    if m == "GET" {
      assert MethodVocabulary[0].value == m;
    } else if m == "POST" {
      assert MethodVocabulary[1].value == m;
    } else if m == "FORM" {
      assert MethodVocabulary[2].value == m;
    }
  }

  // ----------------------------------------------------------------- validation

  /** `validate_payload`: None is valid; otherwise the text must load as JSON, and
      a ValueError or TypeError from the parser becomes a ValidationError that
      carries its message. Anything else the parser raises propagates. */
  function ValidatePayload(value: Option<string>, loads: string -> Outcome<Json>): (r: Outcome<bool>)
    ensures r.Returned? <==> value.None? || loads(value.value).Returned?
    ensures r.Returned? ==> r.value
    ensures value.Some? && loads(value.value).Raised? ==>
      var e := loads(value.value).exc;
      r == if e.ValueError? || e.TypeError? then Raised(ValidationError(Message(e))) else Raised(e)
  {
    if value.None? then Returned(true)
    else match loads(value.value)
      case Returned(_) => Returned(true)
      case Raised(e) =>
        if e.ValueError? || e.TypeError? then Raised(ValidationError(Message(e))) else Raised(e)
  }

  /** `PayloadValidator.validate`: the same rule, failing with Invalid(e). */
  function ValidatorValidate(value: Option<string>, loads: string -> Outcome<Json>): (r: Outcome<()>)
    ensures r.Returned? <==> value.None? || loads(value.value).Returned?
    ensures value.Some? && loads(value.value).Raised? ==>
      var e := loads(value.value).exc;
      r == if e.ValueError? || e.TypeError? then Raised(Invalid(e)) else Raised(e)
  {
    if value.None? then Returned(())
    else match loads(value.value)
      case Returned(_) => Returned(())
      case Raised(e) => if e.ValueError? || e.TypeError? then Raised(Invalid(e)) else Raised(e)
  }

  /** The field constraint and the form validator accept the same values and,
      on a parse error, report the same message. */
  lemma ValidatorsAgree(value: Option<string>, loads: string -> Outcome<Json>)
    ensures ValidatePayload(value, loads).Returned? <==> ValidatorValidate(value, loads).Returned?
    ensures ValidatePayload(value, loads).Raised? ==>
      Message(ValidatePayload(value, loads).exc) == Message(ValidatorValidate(value, loads).exc)
  {
  }

  // -------------------------------------------------------------- interpolate

  /** `interpolate`: every string leaf becomes `interpolator(s).strip()`; lists
      and dicts are rebuilt element by element; anything else is kept. */
  function Interpolate(v: Json, interpolator: string -> string): (r: Json)
    ensures v.JString? <==> r.JString?
    ensures v.JString? ==> IsStripped(r.s, IsSpace)
    ensures v.JArray? <==> r.JArray?
    ensures v.JArray? ==> |r.items| == |v.items|
    ensures v.JObject? <==> r.JObject?
    ensures v.JObject? ==> Keys(r.members) == Keys(v.members)
    ensures !v.JString? && !v.JArray? && !v.JObject? ==> r == v
    decreases v
  {
    match v
    case JString(s) => JString(Strip(interpolator(s), IsSpace))
    case JArray(xs) => JArray(InterpolateItems(xs, interpolator))
    case JObject(ms) => JObject(InterpolateMembers(ms, interpolator))
    case _ => v
  }

  /** The list comprehension: same length, element by element, in order. */
  function InterpolateItems(xs: seq<Json>, interpolator: string -> string): (ys: seq<Json>)
    ensures |ys| == |xs|
    ensures forall i :: 0 <= i < |xs| ==> ys[i] == Interpolate(xs[i], interpolator)
    decreases xs
  {
    if xs == [] then [] else [Interpolate(xs[0], interpolator)] + InterpolateItems(xs[1..], interpolator)
  }

  /** The dict comprehension: the same keys in the same order, each value
      interpolated on its own. */
  function InterpolateMembers(ms: seq<Member>, interpolator: string -> string): (ns: seq<Member>)
    ensures Keys(ns) == Keys(ms)
    ensures forall i :: 0 <= i < |ms| ==> ns[i].value == Interpolate(ms[i].value, interpolator)
    decreases ms
  {
    if ms == [] then []
    else
      var rest := InterpolateMembers(ms[1..], interpolator);
      var ns := [Member(ms[0].key, Interpolate(ms[0].value, interpolator))] + rest;
      assert forall i :: 1 <= i < |ms| ==> ns[i].key == Keys(rest)[i - 1] == Keys(ms[1..])[i - 1];
      ns
  }

  /** Interpolation keeps the structure: the same lists, the same dict keys, the
      same non-string leaves. */
  lemma {:induction false} InterpolatePreservesShape(v: Json, interpolator: string -> string)
    ensures Shape(Interpolate(v, interpolator)) == Shape(v)
    decreases v
  {
    match v
    case JArray(xs) => ItemsPreserveShape(xs, interpolator);
    case JObject(ms) => MembersPreserveShape(ms, interpolator);
    case _ =>
  }

  lemma {:induction false} ItemsPreserveShape(xs: seq<Json>, interpolator: string -> string)
    ensures ItemsShape(InterpolateItems(xs, interpolator)) == ItemsShape(xs)
    decreases xs
  {
    if xs != [] {
      InterpolatePreservesShape(xs[0], interpolator);
      ItemsPreserveShape(xs[1..], interpolator);
    }
  }

  lemma {:induction false} MembersPreserveShape(ms: seq<Member>, interpolator: string -> string)
    ensures MembersShape(InterpolateMembers(ms, interpolator)) == MembersShape(ms)
    decreases ms
  {
    if ms != [] {
      InterpolatePreservesShape(ms[0].value, interpolator);
      MembersPreserveShape(ms[1..], interpolator);
    }
  }

  /** What interpolation makes of a sequence of string leaves. */
  function InterpolatedTexts(ss: seq<string>, interpolator: string -> string): seq<string>
  {
    seq(|ss|, i requires 0 <= i < |ss| => Strip(interpolator(ss[i]), IsSpace))
  }

  lemma InterpolatedTextsAppend(a: seq<string>, b: seq<string>, interpolator: string -> string)
    ensures InterpolatedTexts(a + b, interpolator)
      == InterpolatedTexts(a, interpolator) + InterpolatedTexts(b, interpolator)
  {
  }

  /** The string leaves of the result are those of the input, in the same
      order, each interpolated and stripped on its own. */
  lemma {:induction false} InterpolateLeaves(v: Json, interpolator: string -> string)
    ensures Leaves(Interpolate(v, interpolator)) == InterpolatedTexts(Leaves(v), interpolator)
    decreases v
  {
    match v
    case JArray(xs) => ItemsLeavesInterpolated(xs, interpolator);
    case JObject(ms) => MembersLeavesInterpolated(ms, interpolator);
    case _ =>
  }

  lemma {:induction false} ItemsLeavesInterpolated(xs: seq<Json>, interpolator: string -> string)
    ensures ItemsLeaves(InterpolateItems(xs, interpolator)) == InterpolatedTexts(ItemsLeaves(xs), interpolator)
    decreases xs
  {
    if xs != [] {
      InterpolateLeaves(xs[0], interpolator);
      ItemsLeavesInterpolated(xs[1..], interpolator);
      InterpolatedTextsAppend(Leaves(xs[0]), ItemsLeaves(xs[1..]), interpolator);
    }
  }

  lemma {:induction false} MembersLeavesInterpolated(ms: seq<Member>, interpolator: string -> string)
    ensures MembersLeaves(InterpolateMembers(ms, interpolator)) == InterpolatedTexts(MembersLeaves(ms), interpolator)
    decreases ms
  {
    if ms != [] {
      InterpolateLeaves(ms[0].value, interpolator);
      MembersLeavesInterpolated(ms[1..], interpolator);
      InterpolatedTextsAppend(Leaves(ms[0].value), MembersLeaves(ms[1..]), interpolator);
    }
  }

  /** No string leaf of an interpolated payload starts or ends with whitespace. */
  lemma InterpolatedLeavesStripped(v: Json, interpolator: string -> string)
    ensures forall s :: s in Leaves(Interpolate(v, interpolator)) ==> IsStripped(s, IsSpace)
  {
    InterpolateLeaves(v, interpolator);
  }

  /** A value without string leaves (a number, a boolean, None, or lists and
      dicts of those) passes through unchanged. */
  lemma {:induction false} InterpolateKeepsStringFree(v: Json, interpolator: string -> string)
    requires Leaves(v) == []
    ensures Interpolate(v, interpolator) == v
    decreases v
  {
    match v
    case JArray(xs) => ItemsKeepStringFree(xs, interpolator);
    case JObject(ms) => MembersKeepStringFree(ms, interpolator);
    case _ =>
  }

  lemma {:induction false} ItemsKeepStringFree(xs: seq<Json>, interpolator: string -> string)
    requires ItemsLeaves(xs) == []
    ensures InterpolateItems(xs, interpolator) == xs
    decreases xs
  {
    if xs != [] {
      InterpolateKeepsStringFree(xs[0], interpolator);
      ItemsKeepStringFree(xs[1..], interpolator);
    }
  }

  lemma {:induction false} MembersKeepStringFree(ms: seq<Member>, interpolator: string -> string)
    requires MembersLeaves(ms) == []
    ensures InterpolateMembers(ms, interpolator) == ms
    decreases ms
  {
    if ms != [] {
      InterpolateKeepsStringFree(ms[0].value, interpolator);
      MembersKeepStringFree(ms[1..], interpolator);
    }
  }

  // ----------------------------------------------------------------- submit

  /** The requests function a call goes to (`r.get` or `r.post`). */
  datatype Verb = Get | Post

  /** The keyword the payload is passed under: `json=`, `data=` or `params=`. */
  datatype Kwarg = JsonBody | FormData | QueryParams

  /** One call handed to the executor. */
  datatype Call = Call(verb: Verb, url: string, kwarg: Kwarg, payload: Json, timeout: int)

  /** How the `for key in payload` rewrite ends: it runs to completion, fails
      with a TypeError that `submit` logs, or fails with an IndexError that
      escapes `submit`. */
  datatype LoopEnd = Completed | TypeErrorLogged | IndexErrorRaised

  /** `json.dumps(v).strip('"')`, stored back into the payload. */
  function FormValue(v: Json, dumps: Json -> string): (r: Json)
    ensures r.JString? && IsStripped(r.s, IsQuote)
  {
    JString(Strip(dumps(v), IsQuote))
  }

  predicate IsFormValue(v: Json) {
    v.JString? && IsStripped(v.s, IsQuote)
  }

  /** A dict after the rewrite loop: the same keys in the same order, each value
      replaced by its form value. */
  function FormMembers(ms: seq<Member>, dumps: Json -> string): (ns: seq<Member>)
    ensures Keys(ns) == Keys(ms)
    ensures forall i :: 0 <= i < |ms| ==> IsFormValue(ns[i].value)
    ensures forall i :: 0 <= i < |ms| ==> ns[i].value == FormValue(ms[i].value, dumps)
  {
    seq(|ms|, i requires 0 <= i < |ms| => Member(ms[i].key, FormValue(ms[i].value, dumps)))
  }

  /** Rewriting a dict for a form, or interpolating it, leaves a dict. */
  lemma RebuiltDictsKeepDistinctKeys(ms: seq<Member>, dumps: Json -> string, interpolator: string -> string)
    ensures DistinctKeys(FormMembers(ms, dumps)) <==> DistinctKeys(ms)
    ensures DistinctKeys(InterpolateMembers(ms, interpolator)) <==> DistinctKeys(ms)
  {
    SameKeysDistinct(FormMembers(ms, dumps), ms);
    SameKeysDistinct(InterpolateMembers(ms, interpolator), ms);
  }

  /** Where `payload[key]` points in a list of length `n`. */
  datatype ListIndex = At(i: nat) | NotAnIndex | OutOfRange

  /** A list index as Python reads it: an int (or a bool, which is one) in
      [-n, n), negative ones counting from the end. */
  function IndexOf(key: Json, n: nat): (r: ListIndex)
    ensures r.At? ==> r.i < n
    ensures r.At? <==> (key.JInt? && -(n as int) <= key.i < n) || (key.JBool? && (if key.b then 1 else 0) < n)
    ensures r.At? && key.JInt? ==> r.i == key.i || r.i == key.i + n
    ensures r == NotAnIndex <==> !key.JInt? && !key.JBool?
  {
    match key
    case JInt(k) => if 0 <= k < n then At(k) else if -(n as int) <= k < 0 then At(k + n) else OutOfRange
    case JBool(b) => if (if b then 1 else 0) < n then At(if b then 1 else 0) else OutOfRange
    case _ => NotAnIndex
  }

  /** The rewrite loop over a list from position `i` on: the key is the element
      now at `i`, which earlier steps may already have rewritten. */
  function ListLoop(items: seq<Json>, i: nat, dumps: Json -> string): (r: (seq<Json>, LoopEnd))
    requires i <= |items|
    ensures |r.0| == |items|
    ensures forall k :: 0 <= k < |items| ==> r.0[k] == items[k] || IsFormValue(r.0[k])
    decreases |items| - i
  {
    if i == |items| then (items, Completed)
    else match IndexOf(items[i], |items|)
      case NotAnIndex => (items, TypeErrorLogged)
      case OutOfRange => (items, IndexErrorRaised)
      case At(j) => ListLoop(items[j := FormValue(items[j], dumps)], i + 1, dumps)
  }

  /** `for key in payload: payload[key] = json.dumps(payload[key]).strip('"')`
      on whatever the payload is. A dict has every value rewritten; a list is
      indexed by its own elements; iterating a non-empty string or indexing with
      a string key, and iterating None, a boolean or a number, raise TypeError. */
  function FormLoop(payload: Json, dumps: Json -> string): (r: (Json, LoopEnd))
    ensures payload.JObject? ==>
      && r.1 == Completed && r.0.JObject?
      && Keys(r.0.members) == Keys(payload.members)
      && forall i :: 0 <= i < |payload.members| ==> IsFormValue(r.0.members[i].value)
    ensures payload.JArray? ==>
      && r.0.JArray? && |r.0.items| == |payload.items|
      && forall k :: 0 <= k < |payload.items| ==> r.0.items[k] == payload.items[k] || IsFormValue(r.0.items[k])
    ensures !payload.JObject? && !payload.JArray? ==>
      r == (payload, if payload == JString("") then Completed else TypeErrorLogged)
  {
    match payload
    case JObject(ms) => (JObject(FormMembers(ms, dumps)), Completed)
    case JArray(xs) => var (ys, e) := ListLoop(xs, 0, dumps); (JArray(ys), e)
    case JString(s) => (payload, if s == "" then Completed else TypeErrorLogged)
    case _ => (payload, TypeErrorLogged)
  }

  /** What one `submit` does: the payload object as it is afterwards, the calls
      it enqueues and how it ended. */
  datatype SubmitEffect = SubmitEffect(payload: Json, queued: seq<Call>, status: LoopEnd)

  /** `submit`. POST enqueues the payload as it is; FORM and GET rewrite it in
      place first and enqueue it only when the rewrite completes; any other
      method does nothing. */
  function SubmitSpec(methodName: string, url: string, payload: Json, timeout: int, dumps: Json -> string)
    : (e: SubmitEffect)
    ensures |e.queued| <= 1
    ensures e.queued != [] <==> InVocabulary(methodName) && e.status == Completed
    ensures e.queued != [] ==> var c := e.queued[0];
      c.url == url && c.timeout == timeout && c.payload == e.payload
    ensures methodName == "POST" ==>
      e == SubmitEffect(payload, [Call(Post, url, JsonBody, payload, timeout)], Completed)
    ensures methodName == "FORM" || methodName == "GET" ==>
      var (p, status) := FormLoop(payload, dumps);
      && e.payload == p && e.status == status
      && (e.queued != [] ==>
            e.queued[0] == if methodName == "FORM" then Call(Post, url, FormData, p, timeout)
                           else Call(Get, url, QueryParams, p, timeout))
    ensures !InVocabulary(methodName) ==> e == SubmitEffect(payload, [], Completed)
  {
    VocabularyIsSubmitMethods(methodName);
    if methodName == "POST" then
      SubmitEffect(payload, [Call(Post, url, JsonBody, payload, timeout)], Completed)
    else if methodName == "FORM" || methodName == "GET" then
      var (p, status) := FormLoop(payload, dumps);
      var call := if methodName == "FORM" then Call(Post, url, FormData, p, timeout)
                  else Call(Get, url, QueryParams, p, timeout);
      SubmitEffect(p, if status == Completed then [call] else [], status)
    else
      SubmitEffect(payload, [], Completed)
  }

  /** FORM or GET on a dict: the keys stay, every value becomes its JSON text
      with no `"` at either end, and exactly one call is enqueued, `post(data=)`
      for FORM and `get(params=)` for GET, carrying the rewritten dict. */
  lemma SubmitFormOrGetOnDict(methodName: string, url: string, ms: seq<Member>, timeout: int, dumps: Json -> string)
    requires methodName == "FORM" || methodName == "GET"
    ensures var e := SubmitSpec(methodName, url, JObject(ms), timeout, dumps);
      && e.payload.JObject? && Keys(e.payload.members) == Keys(ms)
      && (forall i :: 0 <= i < |ms| ==> e.payload.members[i].value == FormValue(ms[i].value, dumps))
      && (forall i :: 0 <= i < |ms| ==> IsFormValue(e.payload.members[i].value))
      && e.queued == [if methodName == "FORM" then Call(Post, url, FormData, e.payload, timeout)
                      else Call(Get, url, QueryParams, e.payload, timeout)]
  {
    VocabularyIsSubmitMethods(methodName);
    var p := JObject(FormMembers(ms, dumps));
    assert FormLoop(JObject(ms), dumps) == (p, Completed);
  }

  /** The executor `submit` hands calls to: a single worker draining a queue.
      Only the queue is modelled. */
  class Executor {
    const maxWorkers: nat
    var queue: seq<Call>

    constructor ()
      ensures maxWorkers == 1 && queue == []
    {
      maxWorkers := 1;
      queue := [];
    }

    /** `EXECUTOR.submit(...)`: schedules the call after those already queued. */
    method Enqueue(c: Call)
      modifies this
      ensures queue == old(queue) + [c]
    {
      queue := queue + [c];
    }
  }

  /** The payload object `submit` receives and rewrites in place. */
  class Payload {
    var value: Json

    constructor (value: Json)
      ensures this.value == value
    {
      this.value := value;
    }
  }

  /** The rewrite loop of FORM and GET, run in place on `payload`. */
  method RewriteForForm(payload: Payload, dumps: Json -> string) returns (status: LoopEnd)
    modifies payload
    ensures (payload.value, status) == FormLoop(old(payload.value), dumps)
  {
    match payload.value
    case JObject(ms) =>
      RewriteMembers(payload, ms, dumps);
      status := Completed;
    case JArray(xs) =>
      status := RewriteItems(payload, xs, dumps);
    case JString(s) =>
      status := if s == "" then Completed else TypeErrorLogged;
    case _ =>
      status := TypeErrorLogged;
  }

  /** The loop on a dict: each value in turn becomes its form value. */
  method RewriteMembers(payload: Payload, ms: seq<Member>, dumps: Json -> string)
    requires payload.value == JObject(ms)
    modifies payload
    ensures payload.value == JObject(FormMembers(ms, dumps))
  {
    var i := 0;
    while i < |ms|
      invariant 0 <= i <= |ms|
      invariant payload.value.JObject? && |payload.value.members| == |ms|
      invariant forall k :: 0 <= k < i ==>
        payload.value.members[k] == Member(ms[k].key, FormValue(ms[k].value, dumps))
      invariant forall k :: i <= k < |ms| ==> payload.value.members[k] == ms[k]
    {
      var current := payload.value.members;
      payload.value := JObject(current[i := Member(current[i].key, FormValue(current[i].value, dumps))]);
      i := i + 1;
    }
    assert payload.value.members == FormMembers(ms, dumps);
  }

  /** The loop on a list: each element in turn, read again after the earlier
      steps, is used as an index and the element it points to is rewritten. */
  method RewriteItems(payload: Payload, xs: seq<Json>, dumps: Json -> string) returns (status: LoopEnd)
    requires payload.value == JArray(xs)
    modifies payload
    ensures var (ys, e) := ListLoop(xs, 0, dumps); payload.value == JArray(ys) && status == e
  {
    var items, i := xs, 0;
    while i < |xs|
      invariant 0 <= i <= |xs| == |items|
      invariant payload.value == JArray(items)
      invariant ListLoop(items, i, dumps) == ListLoop(xs, 0, dumps)
    {
      match IndexOf(items[i], |items|)
      case NotAnIndex =>
        assert ListLoop(items, i, dumps) == (items, TypeErrorLogged);
        return TypeErrorLogged;
      case OutOfRange =>
        assert ListLoop(items, i, dumps) == (items, IndexErrorRaised);
        return IndexErrorRaised;
      case At(j) =>
        var next := items[j := FormValue(items[j], dumps)];
        assert ListLoop(items, i, dumps) == ListLoop(next, i + 1, dumps);
        items := next;
        payload.value := JArray(items);
      i := i + 1;
    }
    assert ListLoop(items, i, dumps) == (items, Completed);
    status := Completed;
  }

  /** `submit(method, url, payload, timeout, r)`: rewrites `payload` in place and
      enqueues on `executor` exactly what `SubmitSpec` says. */
  method Submit(methodName: string, url: string, payload: Payload, timeout: int,
                dumps: Json -> string, executor: Executor) returns (status: LoopEnd)
    modifies payload, executor
    ensures var e := SubmitSpec(methodName, url, old(payload.value), timeout, dumps);
      && payload.value == e.payload
      && executor.queue == old(executor.queue) + e.queued
      && status == e.status
  {
    if methodName == "POST" {
      executor.Enqueue(Call(Post, url, JsonBody, payload.value, timeout));
      status := Completed;
    } else if methodName == "FORM" {
      status := RewriteForForm(payload, dumps);
      if status == Completed {
        executor.Enqueue(Call(Post, url, FormData, payload.value, timeout));
      }
    } else if methodName == "GET" {
      status := RewriteForForm(payload, dumps);
      if status == Completed {
        executor.Enqueue(Call(Get, url, QueryParams, payload.value, timeout));
      }
    } else {
      status := Completed;
    }
  }

  // ------------------------------------------------------ the action executor

  /** The stored configuration of one webhook action. */
  datatype WebhookAction = WebhookAction(url: string, callMethod: string, payload: Option<string>)

  /** `WebhookActionExecutor.timeout`. */
  const Timeout: int := 120

  /** `json.loads(self.element.payload)`: None is not text, so it raises TypeError. */
  function LoadTemplate(payload: Option<string>, loads: string -> Outcome<Json>): (r: Outcome<Json>)
    ensures payload.None? ==> r.Raised? && r.exc.TypeError?
    ensures payload.Some? ==> r == loads(payload.value)
  {
    if payload.None? then Raised(TypeError("the JSON object must be str, bytes or bytearray, not NoneType"))
    else loads(payload.value)
  }

  /** `functools.partial(submit, method, url, payload, timeout, r)` as the
      participant's callable: called with no further arguments it does what
      `submit` does; an IndexError escapes it; extra arguments are a TypeError. */
  function BoundSubmit(methodName: string, url: string, payload: Json, timeout: int, dumps: Json -> string)
    : (f: seq<()> -> Outcome<SubmitEffect>)
    ensures forall extra :: extra != [] ==> f(extra).Raised? && f(extra).exc.TypeError?
    ensures var e := SubmitSpec(methodName, url, payload, timeout, dumps);
      && (f([]).Returned? <==> e.status != IndexErrorRaised)
      && (f([]).Returned? ==> f([]).value == e)
      && (f([]).Raised? ==> f([]).exc.IndexError?)
  {
    (extra: seq<()>) =>
      if extra != [] then Raised(TypeError("submit() takes 5 positional arguments"))
      else
        var e := SubmitSpec(methodName, url, payload, timeout, dumps);
        if e.status == IndexErrorRaised then Raised(IndexError("list index out of range")) else Returned(e)
  }

  /** A participant of the kind the action joins. */
  type WebhookParticipant = DataManager<(), SubmitEffect, ()>

  /** The transaction the action joins, as far as it is visible here. */
  class Transaction {
    var resources: seq<WebhookParticipant>

    constructor ()
      ensures resources == []
    {
      resources := [];
    }

    /** `transaction.get().join(dm)`. */
    method Join(dm: WebhookParticipant)
      modifies this
      ensures resources == old(resources) + [dm]
    {
      resources := resources + [dm];
    }
  }

  /** `WebhookActionExecutor.__call__`: loads the payload template, interpolates
      it, joins one participant bound to `submit` with the interpolated payload
      and the 120 second timeout, and returns True. If the template does not
      load, the error propagates and nothing is joined. `ident` is the identity
      the runtime gives the new participant. */
  method Execute(action: WebhookAction, interpolator: string -> string,
                 loads: string -> Outcome<Json>, dumps: Json -> string,
                 txn: Transaction, ident: nat) returns (r: Outcome<bool>)
    modifies txn
    ensures LoadTemplate(action.payload, loads).Raised? ==>
      r == Raised(LoadTemplate(action.payload, loads).exc) && txn.resources == old(txn.resources)
    ensures LoadTemplate(action.payload, loads).Returned? ==>
      && r == Returned(true)
      && |txn.resources| == |old(txn.resources)| + 1
      && txn.resources[..|old(txn.resources)|] == old(txn.resources)
      && var dm := txn.resources[|old(txn.resources)|];
      && fresh(dm)
      && dm.callable == BoundSubmit(action.callMethod, action.url,
           Interpolate(LoadTemplate(action.payload, loads).value, interpolator), Timeout, dumps)
      && dm.args == [] && dm.vote == None && dm.onAbort == None
      && dm.ident == ident && dm.trace == []
  {
    var loaded := LoadTemplate(action.payload, loads);
    if loaded.Raised? {
      return Raised(loaded.exc);
    }
    var payload := Interpolate(loaded.value, interpolator);
    var dm := new DataManager(BoundSubmit(action.callMethod, action.url, payload, Timeout, dumps),
                              [], None, None, ident);
    txn.Join(dm);
    r := Returned(true);
  }

  // ----------------------------------------------------- properties across files

  /** Configuration and execution disagree on a missing template: validation
      accepts None, but executing the action then raises TypeError. */
  lemma MissingTemplateValidatesButFailsExecution(loads: string -> Outcome<Json>)
    ensures ValidatePayload(None, loads) == Returned(true)
    ensures LoadTemplate(None, loads).Raised? && LoadTemplate(None, loads).exc.TypeError?
  {
  }

  /** A template that passed validation loads when the action executes. */
  lemma ValidatedTemplateLoads(text: string, loads: string -> Outcome<Json>)
    requires ValidatePayload(Some(text), loads).Returned?
    ensures LoadTemplate(Some(text), loads).Returned?
  {
  }

  /** A participant joined by the action: when the transaction commits
      (`tpc_begin`, `tpc_vote`, `tpc_finish`) its callable runs exactly once,
      and for a POST, or a FORM or GET on a dict, that run enqueues exactly one
      call to the configured url with the captured payload and timeout. When
      the transaction aborts before `tpc_finish`, the callable never runs, so
      nothing is enqueued. */
  lemma JoinedParticipantDispatchesOnCommitOnly(dm: WebhookParticipant, action: WebhookAction,
                                                payload: Json, dumps: Json -> string, aborted: seq<Request>)
    requires dm.callable == BoundSubmit(action.callMethod, action.url, payload, Timeout, dumps)
    requires dm.args == []
    requires action.callMethod == "POST" || ((action.callMethod == "FORM" || action.callMethod == "GET") && payload.JObject?)
    requires Request.TpcFinish !in aborted
    ensures Count(dm.Run([Request.TpcBegin(false), Request.TpcVote, Request.TpcFinish]), Callable) == 1
    ensures dm.callable(dm.args).Returned?
    ensures var e := dm.callable(dm.args).value;
      && |e.queued| == 1 && e.queued[0].url == action.url && e.queued[0].timeout == Timeout
      && e.queued[0].payload == e.payload
      && (action.callMethod == "POST" ==> e.payload == payload)
    ensures Count(dm.Run(aborted + [Request.Abort]), Callable) == 0
  {
    dm.CommitRunInvokesCallableOnce();
    dm.AbortedRunNeverInvokesCallable(aborted);
    VocabularyIsSubmitMethods(action.callMethod);
  }
}

/** The private envelope `#resp` of a response builder, as a value, and the
    updates that the builder's chainable setters make to it.

    The setters of the builder (module Builder) are specified by `Apply`
    below; `Written` and `LastWrite` give an independent, key-by-key account of
    the same updates ("the last call that wrote a key decides its value"), and
    the lemmas connect the two. */
module Envelope {

  /** The JSON-like values a caller can store in the envelope or as a
      subclass attribute. `Obj(fields)` is a plain object: its own
      properties are `fields` and its prototype is Object.prototype. */
  datatype Value =
    | Num(n: int)
    | Bool(b: bool)
    | Str(s: string)
    | Null
    | Arr(items: seq<Value>)
    | Obj(fields: map<string, Value>)

  datatype Option<T> = None | Some(value: T)

  /** The key whose assignment on an object that inherits Object.prototype's
      `__proto__` accessor runs that accessor instead of storing an entry. */
  const ProtoKey: string := "__proto__"

  /** The envelope `#resp` (the `Resp` typedef of the source): its own
      entries, any key to any value, and whether an assignment to
      `__proto__` still reaches the inherited `__proto__` accessor. */
  datatype Resp = Resp(entries: map<string, Value>, inheritsProto: bool)

  /** The envelope of a freshly constructed builder: an object literal, so
      it inherits from Object.prototype. */
  const Defaults: Resp :=
    Resp(map["status" := Num(200), "success" := Bool(true), "message" := Str("")], true)

  /** The success flag a status code implies: codes 200 to 209. */
  predicate IsSuccessCode(code: int) {
    200 <= code && code < 210
  }

  function Get(e: Resp, k: string): Option<Value> {
    if k in e.entries then Some(e.entries[k]) else None
  }

  /** `newer` when it is present, `older` otherwise. */
  function Override<T>(newer: Option<T>, older: Option<T>): Option<T> {
    if newer.Some? then newer else older
  }

  /** Whether `__proto__` assignments still reach the accessor after the
      accessor has installed `v` as prototype. A primitive is ignored (the
      old prototype stays); null leaves no prototype at all; an object's own
      `__proto__` entry shadows the accessor further up its chain. */
  predicate KeepsAccessor(v: Value) {
    match v
    case Null => false
    case Obj(fields) => ProtoKey !in fields
    case _ => true
  }

  /** One call of a chainable setter, with its argument. */
  datatype Call =
    | SetStatus(code: int)
    | SetSuccess(ok: bool)
    | SetMessage(msg: string)
    | SetType(t: string)
    | SetAction(name: string)
    | SetMetadata(data: Value)
    | AddField(key: string, value: Value)

  /** A call that cuts the envelope off from the `__proto__` accessor. */
  predicate Detaches(c: Call) {
    c.AddField? && c.key == ProtoKey && !KeepsAccessor(c.value)
  }

  /** The value a call writes at key `k`, or None when it leaves `k` alone;
      `inherits` says whether the envelope still reaches the accessor. */
  function Written(c: Call, k: string, inherits: bool): Option<Value> {
    match c
    case SetStatus(code) =>
      if k == "status" then Some(Num(code))
      else if k == "success" then Some(Bool(IsSuccessCode(code)))
      else None
    case SetSuccess(ok) => if k == "success" then Some(Bool(ok)) else None
    case SetMessage(msg) => if k == "message" then Some(Str(msg)) else None
    case SetType(t) => if k == "type" then Some(Str(t)) else None
    case SetAction(name) => if k == "action" then Some(Str(name)) else None
    case SetMetadata(data) => if k == "metadata" then Some(data) else None
    case AddField(key, v) =>
      if k == key && !(key == ProtoKey && inherits) then Some(v) else None
  }

  /** The envelope after one setter call: the assignments the setter makes.
      Every key the call writes takes the written value (created if absent,
      replaced wholesale if present); every other key keeps its value or
      stays absent. The generic setter on `__proto__`, while the envelope
      reaches the accessor, re-points the prototype and stores nothing. */
  function Apply(e: Resp, c: Call): (e': Resp)
    ensures forall k :: Get(e', k) == Override(Written(c, k, e.inheritsProto), Get(e, k))
    ensures e'.inheritsProto == (e.inheritsProto && !Detaches(c))
  {
    match c
    case SetStatus(code) =>
      e.(entries := e.entries["status" := Num(code)]["success" := Bool(IsSuccessCode(code))])
    case SetSuccess(ok) => e.(entries := e.entries["success" := Bool(ok)])
    case SetMessage(msg) => e.(entries := e.entries["message" := Str(msg)])
    case SetType(t) => e.(entries := e.entries["type" := Str(t)])
    case SetAction(name) => e.(entries := e.entries["action" := Str(name)])
    case SetMetadata(data) => e.(entries := e.entries["metadata" := data])
    case AddField(key, v) =>
      if key == ProtoKey && e.inheritsProto then e.(inheritsProto := KeepsAccessor(v))
      else e.(entries := e.entries[key := v])
  }

  /** The envelope after a chain of calls, first call first. */
  function Run(e: Resp, calls: seq<Call>): Resp
    decreases |calls|
  {
    if calls == [] then e else Run(Apply(e, calls[0]), calls[1..])
  }

  /** Whether an envelope that started with `inherits` still reaches the
      accessor after `calls`: once cut off it stays cut off. */
  predicate InheritsAfter(inherits: bool, calls: seq<Call>) {
    inherits && forall i :: 0 <= i < |calls| ==> !Detaches(calls[i])
  }

  /** The first call of a chain cuts the envelope off, or leaves the rest
      of the chain to decide. */
  lemma InheritsAfterCons(inherits: bool, c: Call, rest: seq<Call>)
    ensures InheritsAfter(inherits, [c] + rest) == InheritsAfter(inherits && !Detaches(c), rest)
  {
    var s := [c] + rest;
    assert s[0] == c;
    assert forall j :: 0 <= j < |rest| ==> s[j + 1] == rest[j];
    assert forall i :: 1 <= i < |s| ==> s[i] == rest[i - 1];
  }

  /** Appending one call to a chain applies it to the chain's result, so a
      builder's setter calls, each specified by `Apply`, compose into `Run`. */
  lemma {:induction false} RunSnoc(e: Resp, calls: seq<Call>, c: Call)
    ensures Run(e, calls + [c]) == Apply(Run(e, calls), c)
    decreases |calls|
  {
    if calls == [] {
      assert calls + [c] == [c];
      assert [c][1..] == [];
    } else {
      assert (calls + [c])[0] == calls[0];
      assert (calls + [c])[1..] == calls[1..] + [c];
      RunSnoc(Apply(e, calls[0]), calls[1..], c);
    }
  }

  /** The prototype state after a chain is the one `InheritsAfter` gives. */
  lemma {:induction false} RunInherits(e: Resp, calls: seq<Call>)
    ensures Run(e, calls).inheritsProto == InheritsAfter(e.inheritsProto, calls)
    decreases |calls|
  {
    if calls != [] {
      RunInherits(Apply(e, calls[0]), calls[1..]);
      assert [calls[0]] + calls[1..] == calls;
      InheritsAfterCons(e.inheritsProto, calls[0], calls[1..]);
    }
  }

  /** The value written at `k` by the last call of the chain that writes `k`,
      each call seeing the prototype state its predecessors left. */
  function LastWrite(calls: seq<Call>, k: string, inherits: bool): Option<Value>
    decreases |calls|
  {
    if calls == [] then None
    else
      var pre := calls[..|calls| - 1];
      Override(Written(calls[|calls| - 1], k, InheritsAfter(inherits, pre)), LastWrite(pre, k, inherits))
  }

  lemma {:induction false} LastWriteCons(c: Call, rest: seq<Call>, k: string, inherits: bool)
    ensures LastWrite([c] + rest, k, inherits)
            == Override(LastWrite(rest, k, inherits && !Detaches(c)), Written(c, k, inherits))
    decreases |rest|
  {
    if rest != [] {
      var s := [c] + rest;
      var rest' := rest[..|rest| - 1];
      assert s[..|s| - 1] == [c] + rest';
      assert s[|s| - 1] == rest[|rest| - 1];
      InheritsAfterCons(inherits, c, rest');
      LastWriteCons(c, rest', k, inherits);
    } else {
      assert ([c] + rest)[..0] == [];
    }
  }

  /** Last write wins: after any chain, a key holds what the last call writing
      it wrote, and keeps its earlier value (or absence) when no call wrote it. */
  lemma {:induction false} LastWriteWins(e: Resp, calls: seq<Call>, k: string)
    ensures Get(Run(e, calls), k) == Override(LastWrite(calls, k, e.inheritsProto), Get(e, k))
    decreases |calls|
  {
    if calls != [] {
      LastWriteWins(Apply(e, calls[0]), calls[1..], k);
      assert [calls[0]] + calls[1..] == calls;
      LastWriteCons(calls[0], calls[1..], k, e.inheritsProto);
    }
  }

  /** A call that never writes `k`, whatever the prototype state. */
  predicate LeavesKey(c: Call, k: string) {
    Written(c, k, true) == None && Written(c, k, false) == None
  }

  /** Calls after `c` that do not write `k` leave `c`'s write at `k` in place. */
  lemma {:induction false} LastWriterIs(pre: seq<Call>, c: Call, post: seq<Call>, k: string, inherits: bool)
    requires forall i :: 0 <= i < |post| ==> LeavesKey(post[i], k)
    ensures LastWrite(pre + [c] + post, k, inherits)
            == Override(Written(c, k, InheritsAfter(inherits, pre)), LastWrite(pre, k, inherits))
    decreases |post|
  {
    var s := pre + [c] + post;
    if post == [] {
      assert s[..|s| - 1] == pre;
    } else {
      assert s[..|s| - 1] == pre + [c] + post[..|post| - 1];
      assert s[|s| - 1] == post[|post| - 1];
      var b := InheritsAfter(inherits, s[..|s| - 1]);
      assert Written(post[|post| - 1], k, b) == None by {
        assert LeavesKey(post[|post| - 1], k);
      }
      LastWriterIs(pre, c, post[..|post| - 1], k, inherits);
    }
  }

  /** `success` follows the last `status` call unless a later call writes
      `success` itself. */
  lemma StatusDerivesSuccess(e: Resp, pre: seq<Call>, code: int, post: seq<Call>)
    requires forall i :: 0 <= i < |post| ==> LeavesKey(post[i], "success")
    ensures Get(Run(e, pre + [SetStatus(code)] + post), "success") == Some(Bool(IsSuccessCode(code)))
  {
    LastWriteWins(e, pre + [SetStatus(code)] + post, "success");
    LastWriterIs(pre, SetStatus(code), post, "success", e.inheritsProto);
  }

  /** A direct `success` call decides the flag until a later call writes it. */
  lemma DirectSuccessOverrides(e: Resp, pre: seq<Call>, ok: bool, post: seq<Call>)
    requires forall i :: 0 <= i < |post| ==> LeavesKey(post[i], "success")
    ensures Get(Run(e, pre + [SetSuccess(ok)] + post), "success") == Some(Bool(ok))
  {
    LastWriteWins(e, pre + [SetSuccess(ok)] + post, "success");
    LastWriterIs(pre, SetSuccess(ok), post, "success", e.inheritsProto);
  }

  /** `success` agrees with the status rule applied to a numeric `status`. */
  predicate Consistent(e: Resp) {
    && "status" in e.entries && e.entries["status"].Num?
    && "success" in e.entries && e.entries["success"] == Bool(IsSuccessCode(e.entries["status"].n))
  }

  /** Calls that can write `status` or `success` without the derivation:
      a direct `success` call and the generic setter on either key. */
  predicate Overrides(c: Call) {
    c.SetSuccess? || (c.AddField? && (c.key == "status" || c.key == "success"))
  }

  lemma DefaultsConsistent()
    ensures Consistent(Defaults)
    ensures Defaults.entries.Keys == {"status", "success", "message"}
    ensures Defaults.inheritsProto
  {
  }

  /** A `status` call makes any envelope consistent. */
  lemma StatusMakesConsistent(e: Resp, code: int)
    ensures Consistent(Apply(e, SetStatus(code)))
  {
  }

  /** Chains without overriding calls keep the envelope consistent: every
      other call leaves `status` and `success` alone, and a `status` call
      derives `success` afresh. */
  lemma {:induction false} RunKeepsConsistent(e: Resp, calls: seq<Call>)
    requires Consistent(e)
    requires forall i :: 0 <= i < |calls| ==> !Overrides(calls[i])
    ensures Consistent(Run(e, calls))
    decreases |calls|
  {
    if calls != [] {
      var e' := Apply(e, calls[0]);
      if !calls[0].SetStatus? {
        assert Written(calls[0], "status", e.inheritsProto) == None;
        assert Written(calls[0], "success", e.inheritsProto) == None;
        assert Get(e', "status") == Get(e, "status") && Get(e', "success") == Get(e, "success");
      }
      RunKeepsConsistent(e', calls[1..]);
    }
  }

  /** A direct `success` call keeps a consistent envelope consistent exactly
      when it writes the flag the status rule would have derived. */
  lemma SuccessConsistentIff(e: Resp, ok: bool)
    requires Consistent(e)
    ensures Consistent(Apply(e, SetSuccess(ok))) <==> ok == IsSuccessCode(e.entries["status"].n)
  {
  }

  /** The generic setter on `__proto__`: while the envelope reaches the
      accessor it stores no entry and only the prototype state can change;
      once cut off, it stores an ordinary entry like any other key. */
  lemma AddProtoEffect(e: Resp, v: Value)
    ensures e.inheritsProto ==> Apply(e, AddField(ProtoKey, v)) == Resp(e.entries, KeepsAccessor(v))
    ensures !e.inheritsProto ==> Apply(e, AddField(ProtoKey, v)) == Resp(e.entries[ProtoKey := v], false)
  {
  }

  /** The generic setter on `status` stores the value unchecked and does not
      recompute `success`: consistency survives exactly when the new value is
      a number that the rule maps to the old flag. */
  lemma AddStatusConsistentIff(e: Resp, v: Value)
    requires Consistent(e)
    ensures Get(Apply(e, AddField("status", v)), "status") == Some(v)
    ensures Get(Apply(e, AddField("status", v)), "success") == Get(e, "success")
    ensures Consistent(Apply(e, AddField("status", v)))
            <==> v.Num? && IsSuccessCode(v.n) == IsSuccessCode(e.entries["status"].n)
  {
  }
}

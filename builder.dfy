/** The response builder: a class owning the private envelope `#resp`, seven
    chainable setters that update it in place and return the same instance,
    and the read-only serialiser `ToJson` with its `Callback` wrapper. */
module Builder {
  import opened Envelope

  /** An entry of the serialised object: an envelope value, or the `data`
      entry that refers back to the builder instance itself. */
  datatype Entry<S> = Field(value: Value) | Data(instance: S)

  /** The plain object `ToJson` produces. */
  type Plain<S> = map<string, Entry<S>>

  /** The envelope entries of a serialised object (every entry except the
      reference to the instance). */
  function EnvelopeOf<S>(out: Plain<S>): map<string, Value> {
    map k | k in out && out[k].Field? :: out[k].value
  }

  class Response {
    /** The private envelope `#resp`. */
    var resp: Resp
    /** The attributes a subclass sets on the instance itself (a DTO's
        `name`, `age`, `users`); the setters never touch them. */
    var payload: map<string, Value>

    /** A fresh builder (or subclass instance with attributes `attrs`):
        exactly `status` 200, `success` true and an empty `message`. */
    constructor (attrs: map<string, Value>)
      ensures resp == Defaults && payload == attrs
      ensures resp.entries.Keys == {"status", "success", "message"} && Consistent(resp)
      ensures "type" !in resp.entries && "action" !in resp.entries && "metadata" !in resp.entries
      ensures resp.inheritsProto
    {
      resp := Defaults;
      payload := attrs;
    }

    /** Sets `status` and derives `success` from it. */
    method Status(code: int) returns (r: Response)
      modifies this`resp
      ensures resp == Apply(old(resp), SetStatus(code))
      ensures resp.entries["status"] == Num(code)
      ensures resp.entries["success"] == Bool(200 <= code < 210)
      ensures Consistent(resp)
      ensures r == this
    {
      resp := resp.(entries := resp.entries["status" := Num(code)]);
      resp := resp.(entries := resp.entries["success" := Bool(code >= 200 && code < 210)]);
      r := this;
    }

    /** Overwrites `success` alone, whatever `status` says. */
    method Success(ok: bool) returns (r: Response)
      modifies this`resp
      ensures resp == Apply(old(resp), SetSuccess(ok))
      ensures resp.entries["success"] == Bool(ok)
      ensures Get(resp, "status") == Get(old(resp), "status")
      ensures r == this
    {
      resp := resp.(entries := resp.entries["success" := Bool(ok)]);
      r := this;
    }

    method Message(msg: string) returns (r: Response)
      modifies this`resp
      ensures resp == Apply(old(resp), SetMessage(msg))
      ensures resp.entries["message"] == Str(msg)
      ensures r == this
    {
      resp := resp.(entries := resp.entries["message" := Str(msg)]);
      r := this;
    }

    method Type(t: string) returns (r: Response)
      modifies this`resp
      ensures resp == Apply(old(resp), SetType(t))
      ensures resp.entries["type"] == Str(t)
      ensures r == this
    {
      resp := resp.(entries := resp.entries["type" := Str(t)]);
      r := this;
    }

    method Action(name: string) returns (r: Response)
      modifies this`resp
      ensures resp == Apply(old(resp), SetAction(name))
      ensures resp.entries["action"] == Str(name)
      ensures r == this
    {
      resp := resp.(entries := resp.entries["action" := Str(name)]);
      r := this;
    }

    /** Replaces `metadata` wholesale (no merge with an earlier value). */
    method Metadata(data: Value) returns (r: Response)
      modifies this`resp
      ensures resp == Apply(old(resp), SetMetadata(data))
      ensures resp.entries["metadata"] == data
      ensures r == this
    {
      resp := resp.(entries := resp.entries["metadata" := data]);
      r := this;
    }

    /** The unchecked generic setter: any key, named ones included, and no
        derivation of `success` even when the key is `status`. While the
        envelope still reaches Object.prototype's `__proto__` accessor, the
        key `__proto__` runs that accessor instead of storing an entry; once
        the prototype is null (or shadows the accessor), `__proto__` is an
        ordinary key. */
    method Add(key: string, value: Value) returns (r: Response)
      modifies this`resp
      ensures resp == Apply(old(resp), AddField(key, value))
      ensures key != ProtoKey || !old(resp).inheritsProto ==> key in resp.entries && resp.entries[key] == value
      ensures key == ProtoKey && old(resp).inheritsProto
              ==> resp.entries == old(resp).entries && resp.inheritsProto == KeepsAccessor(value)
      ensures key != "success" ==> Get(resp, "success") == Get(old(resp), "success")
      ensures r == this
    {
      if key == ProtoKey && resp.inheritsProto {
        resp := resp.(inheritsProto := KeepsAccessor(value));
      } else {
        resp := resp.(entries := resp.entries[key := value]);
      }
      r := this;
    }

    /** A copy of every own envelope entry (an own `__proto__` entry
        included) plus `data` referring to the instance;
        `data` wins over an envelope entry of that name. Reads only. */
    function ToJson(): (out: Plain<Response>)
      reads this
      ensures out.Keys == resp.entries.Keys + {"data"}
      ensures out["data"] == Data(this)
      ensures forall k :: k in resp.entries && k != "data" ==> out[k] == Field(resp.entries[k])
    {
      (map k | k in resp.entries :: Field(resp.entries[k]))["data" := Data(this)]
    }

    /** Passes the serialised object to `cb` and returns what `cb` returns;
        the builder is left as it was. */
    method Callback<R>(cb: Plain<Response> -> R) returns (res: R)
      ensures res == cb(ToJson())
    {
      var out := ToJson();
      res := cb(out);
    }
  }

  /** The serialised object gives back the envelope, except an envelope
      entry named `data`, which the reference to the instance shadows. */
  lemma ToJsonRoundTrip(r: Response)
    ensures EnvelopeOf(r.ToJson()) == r.resp.entries - {"data"}
  {
  }

  /** Two builders in the same state serialise alike, up to the instance
      each `data` entry refers to. */
  lemma ToJsonDependsOnEnvelope(a: Response, b: Response)
    requires a.resp.entries == b.resp.entries
    ensures EnvelopeOf(a.ToJson()) == EnvelopeOf(b.ToJson())
    ensures a.ToJson().Keys == b.ToJson().Keys
  {
  }
}

/** The two DTOs of the example program, `UserDto` and `PaginatedUsersDto`,
    built as subclass instances whose attributes are the builder's payload,
    and the chains the example program runs on them. */
module Examples {
  import opened Envelope
  import opened Builder

  /** The attributes `UserDto(name, age)` sets on itself. */
  function UserAttrs(name: string, age: int): map<string, Value> {
    map["name" := Str(name), "age" := Num(age)]
  }

  /** The attributes `PaginatedUsersDto()` sets on itself: two users. */
  function PaginatedUsersAttrs(): map<string, Value> {
    map["users" := Arr([Obj(UserAttrs("Ben", 10)), Obj(UserAttrs("Gwen", 10))])]
  }

  /** `new UserDto("Ben", 10).message("Fetched user").toJson()` */
  method FetchUser() returns (out: Plain<Response>)
    ensures out.Keys == {"status", "success", "message", "data"}
    ensures EnvelopeOf(out)
            == map["status" := Num(200), "success" := Bool(true), "message" := Str("Fetched user")]
    ensures out["data"].Data? && out["data"].instance.payload == UserAttrs("Ben", 10)
  {
    var user := new Response(UserAttrs("Ben", 10));
    var r := user.Message("Fetched user");
    out := r.ToJson();
    ToJsonRoundTrip(r);
  }

  /** The metadata the paginated example attaches. */
  function PageMetadata(): Value {
    Obj(map["total" := Num(300), "page" := Num(10), "length" := Num(30)])
  }

  /** The envelope the paginated chain leaves behind. */
  function FetchUsersEnvelope(): map<string, Value> {
    map["status" := Num(200), "success" := Bool(true), "message" := Str("Fetched users"),
        "action" := Str("get users"), "id" := Num(123), "metadata" := PageMetadata()]
  }

  /** The setter calls of the paginated chain, in order. */
  function UsersChain(): seq<Call> {
    [SetStatus(200), SetMessage("Fetched users"), SetAction("get users"),
     AddField("id", Num(123)), SetMetadata(PageMetadata())]
  }

  /** The paginated chain of the example program, which sets every kind of
      field; the subclass attribute `users` still rides along under `data`. */
  method FetchUsers() returns (out: Plain<Response>)
    ensures out.Keys == FetchUsersEnvelope().Keys + {"data"}
    ensures EnvelopeOf(out) == FetchUsersEnvelope()
    ensures out["data"].Data? && out["data"].instance.payload == PaginatedUsersAttrs()
  {
    var r := BuildUsers();
    out := r.ToJson();
    ToJsonRoundTrip(r);
  }

  /** `new PaginatedUsersDto().status(200).message(…).action(…).add("id", 123).metadata(…)` */
  method BuildUsers() returns (r: Response)
    ensures r.resp == Run(Defaults, UsersChain())
    ensures r.resp.entries == FetchUsersEnvelope() && r.payload == PaginatedUsersAttrs()
  {
    var calls := UsersChain();
    var users := new Response(PaginatedUsersAttrs());
    assert users.resp == Run(Defaults, calls[..0]);
    r := users.Status(200);
    RunSnoc(Defaults, calls[..0], calls[0]);
    assert calls[..0] + [calls[0]] == calls[..1];
    r := r.Message("Fetched users");
    RunSnoc(Defaults, calls[..1], calls[1]);
    assert calls[..1] + [calls[1]] == calls[..2];
    r := r.Action("get users");
    RunSnoc(Defaults, calls[..2], calls[2]);
    assert calls[..2] + [calls[2]] == calls[..3];
    r := r.Add("id", Num(123));
    RunSnoc(Defaults, calls[..3], calls[3]);
    assert calls[..3] + [calls[3]] == calls[..4];
    r := r.Metadata(PageMetadata());
    RunSnoc(Defaults, calls[..4], calls[4]);
    assert calls[..4] + [calls[4]] == calls;
    UsersChainEnvelope();
  }

  /** The paginated chain, run on the defaults, gives the expected envelope. */
  lemma UsersChainEnvelope()
    ensures Run(Defaults, UsersChain()).entries == FetchUsersEnvelope()
  {
  }

  /** `status(404).success(true)` keeps the override; `success(true).status(404)`
      loses it to the derivation. Both chains return the builder they began on. */
  method OverrideOrder() returns (overridden: Plain<Response>, derived: Plain<Response>)
    ensures "status" in overridden && "success" in overridden && "status" in derived && "success" in derived
    ensures overridden["status"] == Field(Num(404)) && overridden["success"] == Field(Bool(true))
    ensures derived["status"] == Field(Num(404)) && derived["success"] == Field(Bool(false))
  {
    var a := new Response(map[]);
    var r := a.Status(404);
    r := r.Success(true);
    assert r == a;
    overridden := r.ToJson();
    var b := new Response(map[]);
    r := b.Success(true);
    r := r.Status(404);
    assert r == b;
    derived := r.ToJson();
  }

  /** `add("status", "weird")` stores the string unchecked and leaves
      `success` as it was; `add("data", …)` is shadowed by the instance;
      `add("__proto__", {})` re-points the prototype and adds no key. */
  method GenericOverwrite() returns (out: Plain<Response>)
    ensures "status" in out && "success" in out && "data" in out
    ensures out["status"] == Field(Str("weird")) && out["success"] == Field(Bool(true))
    ensures out["data"].Data? && "data" !in EnvelopeOf(out)
    ensures out.Keys == {"status", "success", "message", "data"}
  {
    var b := new Response(map[]);
    var r := b.Add("status", Str("weird"));
    r := r.Add("data", Num(1));
    r := r.Add(ProtoKey, Obj(map[]));
    out := r.ToJson();
    ToJsonRoundTrip(r);
  }

  /** `add("__proto__", null)` leaves the envelope without a prototype, so
      the following `add("__proto__", 5)` stores an own entry, which the
      serialised object then carries. */
  method DetachedProto() returns (out: Plain<Response>)
    ensures out.Keys == {"status", "success", "message", ProtoKey, "data"}
    ensures out[ProtoKey] == Field(Num(5))
  {
    var b := new Response(map[]);
    var r := b.Add(ProtoKey, Null);
    r := r.Add(ProtoKey, Num(5));
    out := r.ToJson();
  }
}

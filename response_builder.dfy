/** The response builder of `src/utility/index.ts`: a mutable object whose setters
    record a status, a message, data and a status code, and whose `build()` yields the
    response body.  A thrown `Error` is the `Err` of the setter's result. */
module Utility {
  import opened Common

  /** The `StatusMessage` union: 'success' or 'error'. */
  datatype Status = Success | Error

  /** The body `build()` returns. */
  datatype Response = Response(status: Status, message: Value, data: Value, success: bool)

  const DATA_ERROR := "Data must be undefined or an object"
  const MESSAGE_ERROR := "Message must be a string"

  /** The properties spreading `data` contributes: none for `null`, its own fields for an object. */
  function Spread(data: Value): (fields: map<string, Value>)
    ensures data.Obj? ==> fields == data.fields
    ensures data.Null? ==> fields == map[]
  {
    if data.Obj? then data.fields else map[]
  }

  /** `{...data, meta}`: the previous fields with `meta` added or replaced. */
  function WithMeta(data: Value, meta: Value): (r: Value)
    ensures r.Obj? && r.fields.Keys == Spread(data).Keys + {"meta"}
    ensures r.fields["meta"] == meta
    ensures forall k | k in Spread(data) && k != "meta" :: r.fields[k] == Spread(data)[k]
  {
    Obj(Spread(data)["meta" := meta])
  }

  /** Only the last `setMeta` is kept, and the other fields are untouched. */
  lemma LastMetaWins(data: Value, first: Value, second: Value)
    ensures WithMeta(WithMeta(data, first), second) == WithMeta(data, second)
  {
  }

  /** The object check of `setSuccess`: an object that is neither an array nor `null`. */
  predicate IsPlainObject(data: Value) {
    data.Obj?
  }

  class APIResponseBuilder {
    var status: Status
    var isSuccess: bool
    var message: Value
    var data: Value
    var code: int

    /** Data is `null` or an object, the message is `null` or a string. */
    ghost predicate Valid()
      reads this
    {
      && (data.Null? || data.Obj?)
      && (message.Null? || message.Str?)
    }

    constructor ()
      ensures Valid()
      ensures status == Success && code == 200 && message == Null && isSuccess && data == Null
    {
      status := Success;
      code := 200;
      message := Null;
      isSuccess := true;
      data := Null;
    }

    /** `setMeta(meta)`: adds `meta` to the data, keeping its other fields. */
    method SetMeta(meta: Value) returns (self: APIResponseBuilder)
      requires Valid()
      modifies this`data
      ensures Valid() && self == this
      ensures data == WithMeta(old(data), meta)
    {
      data := WithMeta(data, meta);
      self := this;
    }

    /** `setSuccess(data, code = 200)`: the code is recorded before the data is checked, so
        a rejected call still changes it; an accepted call sets the data and the success
        flag and leaves the status and the message as they were. */
    method SetSuccess(newData: Value, newCode: Option<int>) returns (r: Result<APIResponseBuilder, string>)
      requires Valid()
      modifies this`code, this`data, this`isSuccess
      ensures Valid() && code == newCode.GetOr(200)
      ensures IsPlainObject(newData) ==> r == Ok(this) && data == newData && isSuccess
      ensures !IsPlainObject(newData) ==>
        r == Err(DATA_ERROR) && data == old(data) && isSuccess == old(isSuccess)
    {
      code := newCode.GetOr(200);
      if !IsPlainObject(newData) {
        return Err(DATA_ERROR);
      }
      data := newData;
      isSuccess := true;
      r := Ok(this);
    }

    /** `setError(message, code = 400)`: a non-string message is rejected before anything
        changes; otherwise the code, the message, the 'error' status and the failure flag are set. */
    method SetError(newMessage: Value, newCode: Option<int>) returns (r: Result<APIResponseBuilder, string>)
      requires Valid()
      modifies this`code, this`message, this`status, this`isSuccess
      ensures Valid()
      ensures !newMessage.Str? ==> r == Err(MESSAGE_ERROR) && unchanged(this)
      ensures newMessage.Str? ==>
        && r == Ok(this) && code == newCode.GetOr(400) && message == newMessage
        && status == Error && !isSuccess
    {
      if !newMessage.Str? {
        return Err(MESSAGE_ERROR);
      }
      code := newCode.GetOr(400);
      message := newMessage;
      status := Error;
      isSuccess := false;
      r := Ok(this);
    }

    /** `build()`: the body; the status code is not part of it.  Its data is `null` or an
        object and its message `null` or a string. */
    function Build(): (body: Response)
      requires Valid()
      reads this
      ensures body.data.Null? || body.data.Obj?
      ensures body.message.Null? || body.message.Str?
      ensures body.success == isSuccess && body.status == status
    {
      Response(status, message, data, isSuccess)
    }
  }

  /** A fresh builder builds an empty success body with code 200. */
  method FreshBuild() returns (body: Response, code: int)
    ensures body == Response(Success, Null, Null, true) && code == 200
  {
    var b := new APIResponseBuilder();
    body, code := b.Build(), b.code;
  }

  /** `setError` followed by `setSuccess` leaves the 'error' status and the error message
      in place but reports success: the flag and the status can disagree. */
  method ErrorThenSuccess(errorText: string, payload: map<string, Value>) returns (body: Response, code: int)
    ensures body.status == Error && body.success
    ensures body.message == Str(errorText) && body.data == Obj(payload) && code == 200
  {
    var b := new APIResponseBuilder();
    var r1 := b.SetError(Str(errorText), None);
    var r2 := b.SetSuccess(Obj(payload), None);
    body, code := b.Build(), b.code;
  }
}

/** Values shared by every handler and middleware: optional values, HTTP
    responses, request bodies and the validation of `binding` struct tags. */
module Common {

  datatype Option<+T> = None | Some(value: T) {
    function GetOr(default: T): T {
      match this
      case Some(v) => v
      case None => default
    }
  }

  const StatusOK := 200
  const StatusCreated := 201
  const StatusBadRequest := 400
  const StatusUnauthorized := 401
  const StatusForbidden := 403
  const StatusNotFound := 404
  const StatusConflict := 409
  const StatusInternalServerError := 500

  /** What a handler writes: a success status with its JSON payload, or an
      error status with the `{"error": ...}` text. */
  datatype Response<+T> = Ok(status: int, body: T) | Err(status: int, error: string)

  /** A JSON request body as `ShouldBindJSON` sees it: decoded into the
      request struct, or rejected by the decoder with its error text. */
  datatype Body<+R> = Decoded(value: R) | Undecodable(reason: string)

  /** One `binding` tag of one struct field, and whether the value meets it. */
  datatype FieldCheck = FieldCheck(field: string, tag: string, ok: bool)

  /** The validator's text for one failed tag. */
  function TagError(structName: string, c: FieldCheck): string {
    "Key: '" + structName + "." + c.field + "' Error:Field validation for '"
    + c.field + "' failed on the '" + c.tag + "' tag"
  }

  /** The failed tags, in field order. */
  function Failures(checks: seq<FieldCheck>): (failed: seq<FieldCheck>)
    ensures |failed| <= |checks|
    ensures forall c :: c in failed ==> c in checks && !c.ok
    ensures forall c :: c in checks && !c.ok ==> c in failed
  {
    if checks == [] then []
    else (if checks[0].ok then [] else [checks[0]]) + Failures(checks[1..])
  }

  function JoinErrors(structName: string, failed: seq<FieldCheck>): string
    decreases |failed|
  {
    if |failed| == 0 then ""
    else if |failed| == 1 then TagError(structName, failed[0])
    else TagError(structName, failed[0]) + "\n" + JoinErrors(structName, failed[1..])
  }

  /** The binder's verdict on a decoded struct: no error when every tag holds,
      otherwise every failed tag's text, one per line. */
  function BindingError(structName: string, checks: seq<FieldCheck>): Option<string> {
    var failed := Failures(checks);
    if failed == [] then None else Some(JoinErrors(structName, failed))
  }

  /** `binding:"required"` on a string field: the zero value "" fails. */
  function Required(field: string, value: string): FieldCheck {
    FieldCheck(field, "required", value != "")
  }

  /** What `ShouldBindJSON` reports for a body: the decoder's error, or the
      validator's, or nothing when the struct binds. */
  function BodyRefusal<R>(body: Body<R>, structName: string, checks: R -> seq<FieldCheck>): (refusal: Option<string>)
    ensures body.Undecodable? ==> refusal == Some(body.reason)
    ensures body.Decoded? ==> refusal == BindingError(structName, checks(body.value))
  {
    match body
    case Undecodable(reason) => Some(reason)
    case Decoded(req) => BindingError(structName, checks(req))
  }

  /** The binder accepts a struct exactly when every tag holds. */
  lemma BindingAcceptsIffAllTagsHold(structName: string, checks: seq<FieldCheck>)
    ensures BindingError(structName, checks).None? <==> forall i :: 0 <= i < |checks| ==> checks[i].ok
  {
    if BindingError(structName, checks).None? {
      forall i | 0 <= i < |checks| ensures checks[i].ok {
        assert checks[i] in checks;
      }
    } else {
      var c := Failures(checks)[0];
      assert c in Failures(checks);
      var i :| 0 <= i < |checks| && checks[i] == c;
      assert !checks[i].ok;
    }
  }
}

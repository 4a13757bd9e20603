/**
 * The admission webhook for cluster descriptions
 * (pkg/webhook/cluster/validating/cluster_create_update_handler.go).
 *
 * A description may be created or updated only if its connection spec names
 * at least one of a secret, a kubeconfig or a token.  The request arrives
 * with the outcomes of decoding its object and its old object; the handler's
 * client is a lookup of stored descriptions by name.
 */
module Validating {
  import opened Results
  import opened Api

  datatype Operation = Create | Update | Delete | Connect

  /** An admission request, with what decoding its two objects gave. */
  datatype Request = Request(
    operation: Operation,
    newObject: Result<Description, string>,
    oldObject: Result<Description, string>)

  /** The handler's client: fetching the stored description by name. */
  datatype Handler = Handler(get: string -> Result<Description, string>)

  /** A field path such as `Spec.ConnectConfig`, one name per step. */
  type Path = seq<string>

  datatype FieldError =
    | Invalid(path: Path, value: string, detail: string)
    | InternalError(path: Path, cause: string)

  datatype Cause = DecodeFailure(message: string) | Rejected(errors: seq<FieldError>)

  datatype Response = Allowed | Errored(code: int, cause: Cause)

  const StatusBadRequest: int := 400
  const StatusUnprocessableEntity: int := 422
  const EmptyConnect: string := "Secret, Config and Token cannot be empty as the same time"

  /** At least one way to reach the cluster is given. */
  predicate HasConnection(config: ConnectConfig) {
    config.secret.Some? || config.config.Some? || config.token.Some?
  }

  /** No error when a connection reference is set; otherwise exactly one Invalid error at `path`. */
  function ValidateSpecConnectConfig(config: ConnectConfig, path: Path): (errs: seq<FieldError>)
    ensures errs == [] <==> HasConnection(config)
    ensures !HasConnection(config) ==> errs == [Invalid(path, "", EmptyConnect)]
  {
    if config.secret.None? && config.config.None? && config.token.None? then
      [Invalid(path, "", EmptyConnect)]
    else
      []
  }

  /** A spec is checked by its connection config, one step further down the path. */
  function ValidateClusterSpec(spec: ClusterSpec, path: Path): (errs: seq<FieldError>)
    ensures errs == ValidateSpecConnectConfig(spec.connect, path + ["ConnectConfig"])
    ensures errs == [] <==> HasConnection(spec.connect)
  {
    ValidateSpecConnectConfig(spec.connect, path + ["ConnectConfig"])
  }

  /** A description is valid exactly when its connection spec names a reference. */
  function ValidateCluster(obj: Description): (errs: seq<FieldError>)
    ensures errs == ValidateSpecConnectConfig(obj.spec.connect, ["Spec", "ConnectConfig"])
    ensures errs == [] <==> HasConnection(obj.spec.connect)
  {
    assert ["Spec"] + ["ConnectConfig"] == ["Spec", "ConnectConfig"];
    ValidateClusterSpec(obj.spec, ["Spec"])
  }

  /**
   * An update is checked like a creation, once the stored object can be
   * fetched; a failed fetch is reported as one internal error.
   */
  function ValidateClusterUpdate(h: Handler, oldObj: Description, newObj: Description): (errs: seq<FieldError>)
    ensures h.get(newObj.name).Err? ==> errs == [InternalError(["cluster"], h.get(newObj.name).error)]
    ensures h.get(newObj.name).Ok? ==> errs == ValidateCluster(newObj)
  {
    match h.get(newObj.name)
    case Err(e) => [InternalError(["cluster"], e)]
    case Ok(_) =>
      var errorList := ValidateCluster(newObj);
      if errorList != [] then errorList else []
  }

  /** The old object of an update plays no part in its validation. */
  lemma UpdateIgnoresOldObject(h: Handler, old1: Description, old2: Description, newObj: Description)
    ensures ValidateClusterUpdate(h, old1, newObj) == ValidateClusterUpdate(h, old2, newObj)
  {
  }

  /** The errors a create or update request is checked against, once its objects decode. */
  function Verdict(h: Handler, req: Request): seq<FieldError>
    requires req.newObject.Ok?
    requires req.operation == Update ==> req.oldObject.Ok?
  {
    if req.operation == Update then ValidateClusterUpdate(h, req.oldObject.value, req.newObject.value)
    else ValidateCluster(req.newObject.value)
  }

  /**
   * Creates and updates: an object that does not decode is a bad request,
   * a decoded object with errors is unprocessable, anything else is allowed.
   * Every other operation is allowed.
   */
  function Handle(h: Handler, req: Request): (r: Response)
    ensures req.operation != Create && req.operation != Update ==> r == Allowed
    ensures r.Errored? ==> r.code == StatusBadRequest || r.code == StatusUnprocessableEntity
    ensures (req.operation == Create || req.operation == Update) && req.newObject.Err? ==>
      r == Errored(StatusBadRequest, DecodeFailure(req.newObject.error))
    ensures req.operation == Update && req.newObject.Ok? && req.oldObject.Err? ==>
      r == Errored(StatusBadRequest, DecodeFailure(req.oldObject.error))
    ensures (req.operation == Create || req.operation == Update) && req.newObject.Ok?
            && (req.operation == Update ==> req.oldObject.Ok?) ==>
      r == (if Verdict(h, req) == [] then Allowed else Errored(StatusUnprocessableEntity, Rejected(Verdict(h, req))))
  {
    match req.operation
    case Create =>
      if req.newObject.Err? then Errored(StatusBadRequest, DecodeFailure(req.newObject.error))
      else
        var errList := ValidateCluster(req.newObject.value);
        if |errList| != 0 then Errored(StatusUnprocessableEntity, Rejected(errList)) else Allowed
    case Update =>
      if req.newObject.Err? then Errored(StatusBadRequest, DecodeFailure(req.newObject.error))
      else if req.oldObject.Err? then Errored(StatusBadRequest, DecodeFailure(req.oldObject.error))
      else
        var errList := ValidateClusterUpdate(h, req.oldObject.value, req.newObject.value);
        if |errList| != 0 then Errored(StatusUnprocessableEntity, Rejected(errList)) else Allowed
    case _ => Allowed
  }

  /**
   * A request is allowed exactly when it is neither a create nor an update,
   * or its objects decode, the stored object of an update can be fetched,
   * and the connection spec names a reference.
   */
  lemma AllowedExactly(h: Handler, req: Request)
    ensures Handle(h, req) == Allowed <==>
      || (req.operation != Create && req.operation != Update)
      || (&& req.newObject.Ok?
          && HasConnection(req.newObject.value.spec.connect)
          && (req.operation == Update ==> req.oldObject.Ok? && h.get(req.newObject.value.name).Ok?))
  {
  }
}

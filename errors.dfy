/** The broker's error values (broker/errors.go): the pairing of a message that is safe to
    show to the Cloud Foundry user with the detailed error meant for the operator, the
    generic user message built from request context, and the translation of service-adapter
    errors into broker API errors. */
module Errors {
  import opened Wrappers
  import Format

  const GenericErrorPrefix: string :=
    "There was a problem completing your request. Please contact your operations team providing the following information:"

  /** The sentinel errors of the broker API library that adapter errors are mapped to. */
  datatype Sentinel = ErrBindingAlreadyExists | ErrBindingDoesNotExist | ErrAppGuidNotProvided

  /** A non-nil Go `error`, by dynamic type. */
  datatype Error =
    // errors.New, fmt.Errorf, or any other error type the code does not distinguish, by its message
    | Plain(msg: string)
    | BindingAlreadyExistsError(msg: string)    // serviceadapter.BindingAlreadyExistsError
    | BindingNotFoundError(msg: string)         // serviceadapter.BindingNotFoundError
    | AppGuidNotProvidedError(msg: string)      // serviceadapter.AppGuidNotProvidedError
    | UnknownFailureError(msg: string)          // serviceadapter.UnknownFailureError
    | APIError(sentinel: Sentinel)              // a brokerapi sentinel value
    | OperationInProgressError(inner: Error)    // broker.OperationInProgressError

  /** The description the broker API library gives each sentinel. */
  function SentinelMessage(s: Sentinel): string
  {
    match s
    case ErrBindingAlreadyExists => "binding already exists"
    case ErrBindingDoesNotExist => "binding does not exist"
    case ErrAppGuidNotProvided => "app_guid is a required field but was not provided"
  }

  /** `err.Error()`. The wrapping OperationInProgressError embeds its error, so it reports
      the message of the error it wraps. */
  function Message(e: Error): (m: string)
    ensures e.OperationInProgressError? ==> m == Message(e.inner)
    ensures e.APIError? ==> m != ""
  {
    match e
    case Plain(msg) => msg
    case BindingAlreadyExistsError(msg) => msg
    case BindingNotFoundError(msg) => msg
    case AppGuidNotProvidedError(msg) => msg
    case UnknownFailureError(msg) => msg
    case APIError(s) => SentinelMessage(s)
    case OperationInProgressError(inner) => Message(inner)
  }

  /** NewOperationInProgressError: marks `e` as "an operation is already in progress"
      without changing what it says. */
  function NewOperationInProgressError(e: Error): (r: Error)
    ensures r.OperationInProgressError? && r.inner == e
    ensures Message(r) == Message(e)
  {
    OperationInProgressError(e)
  }

  /** `%s` of a Go error value: fmt prints a nil interface as "%!s(<nil>)". */
  function Show(e: Option<Error>): string
  {
    match e
    case None => "%!s(<nil>)"
    case Some(err) => Message(err)
  }

  /** A pair of errors: one safe for the Cloud Foundry user, one with the operator's detail. */
  datatype DisplayableError = DisplayableError(errorForCFUser: Option<Error>, errorForOperator: Option<Error>)
  {
    /** The user-safe half, exactly as stored. */
    function ErrorForCFUser(): (r: Option<Error>)
      ensures r == errorForCFUser
    {
      errorForCFUser
    }

    /** `Error()`: operator detail first, then the user message. */
    function Render(): (s: string)
      ensures Occurred() ==>
        s == "error: " + Message(errorForOperator.value) + ". error for user: "
             + Message(errorForCFUser.value) + "."
    {
      "error: " + Show(errorForOperator) + ". error for user: " + Show(errorForCFUser) + "."
    }

    /** An error has occurred only when both halves are present. */
    predicate Occurred()
      ensures Occurred() <==> ErrorForCFUser().Some? && errorForOperator.Some?
    {
      errorForCFUser != None && errorForOperator != None
    }
  }

  /** The value meaning "no error". */
  const NilError: DisplayableError := DisplayableError(None, None)

  lemma NilErrorNeverOccurs()
    ensures !NilError.Occurred()
    ensures NilError.ErrorForCFUser() == None
  {
  }

  /** NewDisplayableError stores both halves unchanged. */
  function NewDisplayableError(errorForCFUser: Option<Error>, errForOperator: Option<Error>): (r: DisplayableError)
    ensures r.ErrorForCFUser() == errorForCFUser && r.errorForOperator == errForOperator
    ensures r.Occurred() <==> errorForCFUser.Some? && errForOperator.Some?
  {
    DisplayableError(errorForCFUser, errForOperator)
  }

  /** The user message of NewBoshRequestError. */
  function BoshRequestMessage(action: string): string
  {
    "Currently unable to " + action + " service instance, please try again later"
  }

  /** NewBoshRequestError: a fixed "try again later" message for the user; the request
      error goes, unchanged, to the operator. */
  function NewBoshRequestError(action: string, requestError: Option<Error>): (r: DisplayableError)
    ensures r.ErrorForCFUser() == Some(Plain(BoshRequestMessage(action)))
    ensures r.errorForOperator == requestError
    ensures r.Occurred() <==> requestError.Some?
  {
    DisplayableError(Some(Plain(BoshRequestMessage(action))), requestError)
  }

  /** The request context NewGenericError reads (brokercontext getters). */
  datatype RequestContext = RequestContext(
    serviceName: string,
    instanceID: string,
    reqID: string,
    operation: string,
    boshTaskID: int)

  /** The identifying details in the generic user message, in the order they are listed. */
  datatype Field = Field(key: string, value: string)

  /** Reference description of the generic message's details: the service, instance and
      request always; the BOSH task only when there is one (non-zero ID); the operation only
      when it is named. */
  function ContextFields(ctx: RequestContext): seq<Field>
  {
    [Field("service", ctx.serviceName),
     Field("service-instance-guid", ctx.instanceID),
     Field("broker-request-id", ctx.reqID)]
    + (if ctx.boshTaskID != 0 then [Field("task-id", Format.IntToDecimal(ctx.boshTaskID))] else [])
    + (if ctx.operation != "" then [Field("operation", ctx.operation)] else [])
  }

  function FieldText(f: Field): string
  {
    f.key + ": " + f.value
  }

  /** Every detail written "key: value", separated by ", ". */
  function RenderFields(fields: seq<Field>): string
  {
    Format.Join(FieldTexts(fields), ", ")
  }

  /** Index of the first field with this key, or |fields| when there is none. */
  function IndexOfKey(fields: seq<Field>, key: string): (k: nat)
    ensures k <= |fields|
    ensures k < |fields| ==> fields[k].key == key
    ensures forall j :: 0 <= j < k ==> fields[j].key != key
  {
    if |fields| == 0 then 0
    else if fields[0].key == key then 0
    else 1 + IndexOfKey(fields[1..], key)
  }

  /** The user-safe message of a generic error, as NewGenericError builds it. */
  function GenericUserMessage(ctx: RequestContext): (m: string)
    ensures |m| > |GenericErrorPrefix| && m[..|GenericErrorPrefix|] == GenericErrorPrefix
  {
    var base := GenericErrorPrefix + " service: " + ctx.serviceName
                + ", service-instance-guid: " + ctx.instanceID
                + ", broker-request-id: " + ctx.reqID;
    var withTask := if ctx.boshTaskID != 0
                    then base + ", task-id: " + Format.IntToDecimal(ctx.boshTaskID)
                    else base;
    if ctx.operation != "" then withTask + ", operation: " + ctx.operation else withTask
  }

  /** NewGenericError: the generic message for the user, the error itself for the operator. */
  function NewGenericError(ctx: RequestContext, err: Option<Error>): (r: DisplayableError)
    ensures r.ErrorForCFUser() == Some(Plain(GenericUserMessage(ctx)))
    ensures r.errorForOperator == err
    ensures r.Occurred() <==> err.Some?
  {
    DisplayableError(Some(Plain(GenericUserMessage(ctx))), err)
  }

  /** adapterToAPIError: the three binding-related adapter errors become the broker API's
      sentinels; an unknown failure is passed on when it has something to say; anything else
      is replaced by the generic user message. */
  function AdapterToAPIError(ctx: RequestContext, err: Option<Error>): (r: Option<Error>)
    ensures err.None? <==> r.None?
    ensures err.Some? && err.value.BindingAlreadyExistsError? ==> r == Some(APIError(ErrBindingAlreadyExists))
    ensures err.Some? && err.value.BindingNotFoundError? ==> r == Some(APIError(ErrBindingDoesNotExist))
    ensures err.Some? && err.value.AppGuidNotProvidedError? ==> r == Some(APIError(ErrAppGuidNotProvided))
    ensures err.Some? && err.value.UnknownFailureError? && Message(err.value) != "" ==> r == err
    ensures err.Some? && IsUnrecognised(err.value) ==> r == Some(Plain(GenericUserMessage(ctx)))
  {
    match err
    case None => None
    case Some(e) =>
      match e
      case BindingAlreadyExistsError(_) => Some(APIError(ErrBindingAlreadyExists))
      case BindingNotFoundError(_) => Some(APIError(ErrBindingDoesNotExist))
      case AppGuidNotProvidedError(_) => Some(APIError(ErrAppGuidNotProvided))
      case UnknownFailureError(_) =>
        if Message(e) == "" then NewGenericError(ctx, err).ErrorForCFUser() else err
      case _ => NewGenericError(ctx, err).ErrorForCFUser()
  }

  /** Errors adapterToAPIError does not pass on in any form: an unknown failure without a
      message, or an error of a type it does not recognise. */
  predicate IsUnrecognised(e: Error)
  {
    match e
    case BindingAlreadyExistsError(_) => false
    case BindingNotFoundError(_) => false
    case AppGuidNotProvidedError(_) => false
    case UnknownFailureError(msg) => msg == ""
    case _ => true
  }

  /** The texts of the fields, in order. */
  function FieldTexts(fields: seq<Field>): (texts: seq<string>)
    ensures |texts| == |fields|
    ensures forall i :: 0 <= i < |fields| ==> texts[i] == FieldText(fields[i])
  {
    seq(|fields|, i requires 0 <= i < |fields| => FieldText(fields[i]))
  }

  lemma RenderFieldsSnoc(fields: seq<Field>, f: Field)
    requires |fields| >= 1
    ensures RenderFields(fields + [f]) == RenderFields(fields) + ", " + FieldText(f)
  {
    assert FieldTexts(fields + [f]) == FieldTexts(fields) + [FieldText(f)];
    Format.JoinSnoc(FieldTexts(fields), FieldText(f), ", ");
  }

  /** Appending one more detail to a message that ends in a detail list. */
  lemma AppendDetail(m: string, p: string, fields: seq<Field>, f: Field, separatedKey: string)
    requires |fields| >= 1
    requires m == p + " " + RenderFields(fields)
    requires separatedKey == ", " + f.key + ": "
    ensures m + separatedKey + f.value == p + " " + RenderFields(fields + [f])
  {
    RenderFieldsSnoc(fields, f);
    SeparatedFieldText(f, separatedKey);
    SeqAssoc(m, separatedKey, f.value);
    SeqAssoc(p + " ", RenderFields(fields), ", " + FieldText(f));
    SeqAssoc(p + " " + RenderFields(fields), ", ", FieldText(f));
  }

  lemma RenderThreeFields(f1: Field, f2: Field, f3: Field)
    ensures RenderFields([f1, f2, f3]) == FieldText(f1) + ", " + FieldText(f2) + ", " + FieldText(f3)
  {
    var texts := FieldTexts([f1, f2, f3]);
    assert texts == [FieldText(f1), FieldText(f2), FieldText(f3)];
    assert texts[1..] == [FieldText(f2), FieldText(f3)];
    assert texts[1..][1..] == [FieldText(f3)];
    var a, b, c := FieldText(f1), FieldText(f2), FieldText(f3);
    assert Format.Join(texts[1..], ", ") == b + ", " + c;
    assert Format.Join(texts, ", ") == a + ", " + (b + ", " + c);
    SeqAssoc(a + ", ", b + ", ", c);
  }

  lemma SeqAssoc(x: string, y: string, z: string)
    ensures x + (y + z) == x + y + z
  {
  }

  /** ", " followed by a field's text is the literal ", key: " followed by its value. */
  lemma SeparatedFieldText(f: Field, separatedKey: string)
    requires separatedKey == ", " + f.key + ": "
    ensures ", " + FieldText(f) == separatedKey + f.value
  {
    SeqAssoc(", ", f.key + ": ", f.value);
  }

  lemma BaseFieldLiterals()
    ensures "service" + ": " == "service: "
    ensures ", " + "service-instance-guid" + ": " == ", service-instance-guid: "
    ensures ", " + "broker-request-id" + ": " == ", broker-request-id: "
  {
  }

  lemma RenderBaseFields(name: string, id: string, reqID: string)
    ensures RenderFields([Field("service", name), Field("service-instance-guid", id), Field("broker-request-id", reqID)])
      == "service: " + name + ", service-instance-guid: " + id + ", broker-request-id: " + reqID
  {
    var f1, f2, f3 := Field("service", name), Field("service-instance-guid", id), Field("broker-request-id", reqID);
    RenderThreeFields(f1, f2, f3);
    BaseFieldLiterals();
    SeparatedFieldText(f2, ", service-instance-guid: ");
    SeparatedFieldText(f3, ", broker-request-id: ");
    var a, b, c := FieldText(f1), FieldText(f2), FieldText(f3);
    SeqAssoc(a, ", ", b);
    SeqAssoc(a + ", " + b, ", ", c);
  }

  /** The generic user message is the fixed prefix followed by the request's details, each
      "key: value", separated by ", ". */
  lemma GenericMessageListsContext(ctx: RequestContext)
    ensures GenericUserMessage(ctx) == GenericErrorPrefix + " " + RenderFields(ContextFields(ctx))
  {
    var p := GenericErrorPrefix;
    var base := [Field("service", ctx.serviceName),
                 Field("service-instance-guid", ctx.instanceID),
                 Field("broker-request-id", ctx.reqID)];
    var m0 := p + " service: " + ctx.serviceName + ", service-instance-guid: " + ctx.instanceID
              + ", broker-request-id: " + ctx.reqID;
    RenderBaseFields(ctx.serviceName, ctx.instanceID, ctx.reqID);
    LeadingSpace(p, ctx);
    var task: seq<Field> := if ctx.boshTaskID != 0 then [Field("task-id", Format.IntToDecimal(ctx.boshTaskID))] else [];
    var m1 := if ctx.boshTaskID != 0 then m0 + ", task-id: " + Format.IntToDecimal(ctx.boshTaskID) else m0;
    if ctx.boshTaskID != 0 {
      assert ", task-id: " == ", " + "task-id" + ": ";
      AppendDetail(m0, p, base, task[0], ", task-id: ");
    } else {
      assert base + task == base;
    }
    assert m1 == p + " " + RenderFields(base + task);
    var ops: seq<Field> := if ctx.operation != "" then [Field("operation", ctx.operation)] else [];
    if ctx.operation != "" {
      assert ", operation: " == ", " + "operation" + ": ";
      AppendDetail(m1, p, base + task, ops[0], ", operation: ");
    } else {
      assert base + task + ops == base + task;
    }
    assert ContextFields(ctx) == base + task + ops;
    assert GenericUserMessage(ctx) == if ctx.operation != "" then m1 + ", operation: " + ctx.operation else m1;
  }

  lemma LeadingSpace(p: string, ctx: RequestContext)
    ensures p + " service: " + ctx.serviceName + ", service-instance-guid: " + ctx.instanceID
              + ", broker-request-id: " + ctx.reqID
         == p + " " + ("service: " + ctx.serviceName + ", service-instance-guid: " + ctx.instanceID
              + ", broker-request-id: " + ctx.reqID)
  {
    assert " service: " == " " + "service: ";
  }

  /** What the generic message's details are: service, instance and request first; a
      task-id exactly when the BOSH task ID is non-zero, reading back as that ID; an operation
      exactly when one is named; and the task-id before the operation. */
  lemma ContextFieldsShape(ctx: RequestContext)
    ensures var fs := ContextFields(ctx);
      |fs| >= 3
      && fs[0] == Field("service", ctx.serviceName)
      && fs[1] == Field("service-instance-guid", ctx.instanceID)
      && fs[2] == Field("broker-request-id", ctx.reqID)
    ensures var fs := ContextFields(ctx);
      |fs| == 3 + (if ctx.boshTaskID != 0 then 1 else 0) + (if ctx.operation != "" then 1 else 0)
      && (ctx.boshTaskID != 0 ==> fs[3] == Field("task-id", Format.IntToDecimal(ctx.boshTaskID)))
      && (ctx.operation != "" ==> fs[|fs| - 1] == Field("operation", ctx.operation))
    ensures var fs := ContextFields(ctx); var k := IndexOfKey(fs, "task-id");
      (k < |fs| <==> ctx.boshTaskID != 0)
      && (k < |fs| ==> Format.SignedDecimalValue(fs[k].value) == ctx.boshTaskID)
    ensures var fs := ContextFields(ctx); var k := IndexOfKey(fs, "operation");
      (k < |fs| <==> ctx.operation != "") && (k < |fs| ==> fs[k].value == ctx.operation)
    ensures var fs := ContextFields(ctx);
      IndexOfKey(fs, "operation") < |fs| && IndexOfKey(fs, "task-id") < |fs| ==>
        IndexOfKey(fs, "task-id") < IndexOfKey(fs, "operation")
  {
    var fs := ContextFields(ctx);
    Format.IntDecimalRoundTrip(ctx.boshTaskID);
    assert fs[0].key != "task-id" && fs[1].key != "task-id" && fs[2].key != "task-id";
    assert fs[0].key != "operation" && fs[1].key != "operation" && fs[2].key != "operation";
    if ctx.boshTaskID != 0 {
      assert fs[3].key == "task-id";
      assert IndexOfKey(fs, "task-id") == 3;
    } else {
      assert forall j :: 0 <= j < |fs| ==> fs[j].key != "task-id";
    }
    if ctx.operation != "" {
      assert fs[|fs| - 1].key == "operation";
      assert forall j :: 0 <= j < |fs| - 1 ==> fs[j].key != "operation";
    } else {
      assert forall j :: 0 <= j < |fs| ==> fs[j].key != "operation";
    }
  }

  /** The user half of a generic error does not depend on the operator's error. */
  lemma GenericUserHalfIgnoresOperatorError(ctx: RequestContext, e1: Option<Error>, e2: Option<Error>)
    ensures NewGenericError(ctx, e1).ErrorForCFUser() == NewGenericError(ctx, e2).ErrorForCFUser()
  {
  }

  /** The detail of an unrecognised adapter error never reaches the user: any two such errors
      are translated to the same value. */
  lemma AdapterHidesUnrecognisedDetail(ctx: RequestContext, e1: Error, e2: Error)
    requires IsUnrecognised(e1) && IsUnrecognised(e2)
    ensures AdapterToAPIError(ctx, Some(e1)) == AdapterToAPIError(ctx, Some(e2))
  {
  }

  /** An adapter error is passed on as it is only when it is an unknown failure with a message
      (or when the error already is the generic message text). */
  lemma AdapterPassesOnOnlyUnknownFailures(ctx: RequestContext, e: Error)
    requires AdapterToAPIError(ctx, Some(e)) == Some(e)
    ensures (e.UnknownFailureError? && e.msg != "") || e == Plain(GenericUserMessage(ctx))
  {
  }
}

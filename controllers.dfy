/** The controller helper that turns the outcome of a guarded action into a
    response: a body that returns true gives an ok response, one that returns
    false or throws gives an error response, and the message comes either from
    the operation's name with a fixed suffix or from three preset messages. */
module Web {
  import opened Wrappers

  const SuccessSuffix: string := "成功！"
  const FailureSuffix: string := "失败！"
  const ExceptionInfix: string := "异常，原因："

  /** The response, reduced to its ok/error tag and its message (None is null). */
  datatype R = Ok(msg: Option<string>) | Error(msg: Option<string>)

  /** What a Boolean body did: returned a value, or threw an exception with a message. */
  datatype BodyOutcome = Returned(value: bool) | Threw(message: string)

  /** What a consumer did with its argument: completed, or threw with a message. */
  datatype Completion = Completed | Failed(message: string)

  /** The identity post-operator. */
  function Identity(r: R): R { r }

  /** The helper's configuration; each builder sets one half and leaves the other null. */
  datatype Controllers = Controllers(
    operationName: Option<string>,
    successMsg: Option<string>,
    errorMsg: Option<string>,
    exceptionMsg: Option<string>)
  {
    /** Message of an ok response: the name with the success suffix, or the preset one. */
    function SuccessMessage(): (m: Option<string>)
      ensures operationName.Some? ==>
                m.Some? && |m.value| == |operationName.value| + |SuccessSuffix|
                && m.value[..|operationName.value|] == operationName.value
                && m.value[|operationName.value|..] == SuccessSuffix
      ensures operationName.None? ==> m == successMsg
    {
      match operationName
      case Some(name) =>
        var text := name + SuccessSuffix;
        assert text[|name|..] == SuccessSuffix;
        Some(text)
      case None => successMsg
    }

    /** Message of the error response for a body that returned false. */
    function FailureMessage(): (m: Option<string>)
      ensures operationName.Some? ==>
                m.Some? && |m.value| == |operationName.value| + |FailureSuffix|
                && m.value[..|operationName.value|] == operationName.value
                && m.value[|operationName.value|..] == FailureSuffix
      ensures operationName.None? ==> m == errorMsg
    {
      match operationName
      case Some(name) =>
        var text := name + FailureSuffix;
        assert text[|name|..] == FailureSuffix;
        Some(text)
      case None => errorMsg
    }

    /** Message of the error response for a body that threw with message `cause`:
        the name, the fixed infix, then the cause; or the preset one. */
    function ExceptionMessage(cause: string): (m: Option<string>)
      ensures operationName.Some? ==>
                var n := |operationName.value|;
                m.Some? && |m.value| == n + |ExceptionInfix| + |cause|
                && m.value[..n] == operationName.value
                && m.value[n..n + |ExceptionInfix|] == ExceptionInfix
                && m.value[n + |ExceptionInfix|..] == cause
      ensures operationName.None? ==> m == exceptionMsg
    {
      match operationName
      case Some(name) =>
        var text := name + ExceptionInfix + cause;
        assert text[|name|..|name| + |ExceptionInfix|] == ExceptionInfix;
        assert text[|name| + |ExceptionInfix|..] == cause;
        Some(text)
      case None => exceptionMsg
    }

    /** exec(ifCondition): ok exactly when the body returned true; error with the
        failure message when it returned false, with the exception message when it threw. */
    function Exec(body: BodyOutcome): (r: R)
      ensures r.Ok? <==> body == Returned(true)
      ensures body == Returned(true) ==> r.msg == SuccessMessage()
      ensures body == Returned(false) ==> r.msg == FailureMessage()
      ensures body.Threw? ==> r.msg == ExceptionMessage(body.message)
    {
      match body
      case Returned(true) => Ok(SuccessMessage())
      case Returned(false) => Error(FailureMessage())
      case Threw(cause) => Error(ExceptionMessage(cause))
    }

    /** exec(ifCondition, successOperate, failureOperate, exceptionOperate): the
        response of the plain exec, passed through the one post-operator of the
        branch that was taken. */
    function ExecWith(body: BodyOutcome, onSuccess: R -> R, onFailure: R -> R, onException: R -> R): (r: R)
      ensures body == Returned(true) ==> r == onSuccess(Exec(body))
      ensures body == Returned(false) ==> r == onFailure(Exec(body))
      ensures body.Threw? ==> r == onException(Exec(body))
    {
      match body
      case Returned(true) => onSuccess(Ok(SuccessMessage()))
      case Returned(false) => onFailure(Error(FailureMessage()))
      case Threw(cause) => onException(Error(ExceptionMessage(cause)))
    }

    /** exec(preOperate, mainBody, elseSupplier): the plain exec when the guard
        holds, the else response otherwise. */
    function ExecGuarded(guard: bool, body: BodyOutcome, orElse: R): (r: R)
      ensures guard ==> r == Exec(body)
      ensures !guard ==> r == orElse
    {
      if guard then Exec(body) else orElse
    }

    /** exec(preOperate, mainBody, elseSupplier, successOperate, failureOperate,
        exceptionOperate): the 4-argument exec when the guard holds, the else
        response otherwise. */
    function ExecGuardedWith(guard: bool, body: BodyOutcome, orElse: R,
                             onSuccess: R -> R, onFailure: R -> R, onException: R -> R): (r: R)
      ensures guard ==> r == ExecWith(body, onSuccess, onFailure, onException)
      ensures !guard ==> r == orElse
    {
      if guard then ExecWith(body, onSuccess, onFailure, onException) else orElse
    }

    /** execWrapSuccess: only a true result is post-processed. */
    function ExecWrapSuccess(body: BodyOutcome, onSuccess: R -> R): (r: R)
      ensures r == if body == Returned(true) then onSuccess(Exec(body)) else Exec(body)
    {
      ExecWith(body, onSuccess, Identity, Identity)
    }

    /** execWrapFailure: only a false result is post-processed. */
    function ExecWrapFailure(body: BodyOutcome, onFailure: R -> R): (r: R)
      ensures r == if body == Returned(false) then onFailure(Exec(body)) else Exec(body)
    {
      ExecWith(body, Identity, onFailure, Identity)
    }

    /** execWrapException: only an exception is post-processed. */
    function ExecWrapException(body: BodyOutcome, onException: R -> R): (r: R)
      ensures r == if body.Threw? then onException(Exec(body)) else Exec(body)
    {
      ExecWith(body, Identity, Identity, onException)
    }

    /** execWrapSuccessFailure: a returned result is post-processed, an exception is not. */
    function ExecWrapSuccessFailure(body: BodyOutcome, onSuccess: R -> R, onFailure: R -> R): (r: R)
      ensures body == Returned(true) ==> r == onSuccess(Exec(body))
      ensures body == Returned(false) ==> r == onFailure(Exec(body))
      ensures body.Threw? ==> r == Exec(body)
    {
      ExecWith(body, onSuccess, onFailure, Identity)
    }

    /** execWrapSuccessException: a false result is not post-processed. */
    function ExecWrapSuccessException(body: BodyOutcome, onSuccess: R -> R, onException: R -> R): (r: R)
      ensures body == Returned(true) ==> r == onSuccess(Exec(body))
      ensures body == Returned(false) ==> r == Exec(body)
      ensures body.Threw? ==> r == onException(Exec(body))
    {
      ExecWith(body, onSuccess, Identity, onException)
    }

    /** execWrapFailureException: a true result is not post-processed. */
    function ExecWrapFailureException(body: BodyOutcome, onFailure: R -> R, onException: R -> R): (r: R)
      ensures body == Returned(true) ==> r == Exec(body)
      ensures body == Returned(false) ==> r == onFailure(Exec(body))
      ensures body.Threw? ==> r == onException(Exec(body))
    {
      ExecWith(body, Identity, onFailure, onException)
    }

    /** execLight(t, tryOperate, tryResultOperate, exceptionOperate): a consumer
        that completes gives the ok response of a body that returned true, one that
        throws gives the error response of a body that threw the same message; then
        the matching post-operator is applied. */
    function ExecLightWith<T>(t: T, tryOperate: T -> Completion, onResult: R -> R, onException: R -> R): (r: R)
      ensures tryOperate(t).Completed? ==> r == onResult(Exec(Returned(true)))
      ensures tryOperate(t).Failed? ==> r == onException(Exec(Threw(tryOperate(t).message)))
    {
      match tryOperate(t)
      case Completed => onResult(Ok(SuccessMessage()))
      case Failed(cause) => onException(Error(ExceptionMessage(cause)))
    }

    /** execLight(t, tryOperate): ok exactly when the consumer completes. */
    function ExecLight<T>(t: T, tryOperate: T -> Completion): (r: R)
      ensures r.Ok? <==> tryOperate(t).Completed?
      ensures tryOperate(t).Completed? ==> r.msg == SuccessMessage()
      ensures tryOperate(t).Failed? ==> r.msg == ExceptionMessage(tryOperate(t).message)
    {
      ExecLightWith(t, tryOperate, Identity, Identity)
    }
  }

  /** builder(operationName): messages are built from the name; no preset message is set. */
  function Builder(operationName: Option<string>): (c: Controllers)
    ensures c.operationName == operationName
    ensures c.successMsg.None? && c.errorMsg.None? && c.exceptionMsg.None?
  {
    Controllers(operationName, None, None, None)
  }

  /** builder(successMsg, errorMsg, exceptionMsg): the name stays null, so the
      preset messages are the ones used. */
  function BuilderWithMessages(successMsg: Option<string>, errorMsg: Option<string>,
                               exceptionMsg: Option<string>): (c: Controllers)
    ensures c.operationName.None?
    ensures c.successMsg == successMsg && c.errorMsg == errorMsg && c.exceptionMsg == exceptionMsg
  {
    Controllers(None, successMsg, errorMsg, exceptionMsg)
  }

  /** The 4-argument exec with identity operators is the plain exec, whatever the body did. */
  lemma ExecWithIdentity(c: Controllers, body: BodyOutcome)
    ensures c.ExecWith(body, Identity, Identity, Identity) == c.Exec(body)
  {
  }

  /** When the guard fails the body's outcome plays no part in the response. */
  lemma GuardRefusedIgnoresBody(c: Controllers, body: BodyOutcome, other: BodyOutcome, orElse: R)
    ensures c.ExecGuarded(false, body, orElse) == c.ExecGuarded(false, other, orElse)
    ensures c.ExecGuardedWith(false, body, orElse, Identity, Identity, Identity) == orElse
  {
  }

  /** execLight is exec with a body that returns true when the consumer completes
      and throws the consumer's exception otherwise. */
  lemma ExecLightIsExec<T>(c: Controllers, t: T, tryOperate: T -> Completion)
    ensures c.ExecLight(t, tryOperate)
            == c.Exec(if tryOperate(t).Completed? then Returned(true) else Threw(tryOperate(t).message))
  {
  }

  /** With builder(operationName) every response names the operation: the name with
      the success suffix, the failure suffix, or the exception infix and the cause. */
  lemma NamedBuilderResponses(name: string, cause: string)
    ensures Builder(Some(name)).Exec(Returned(true)) == Ok(Some(name + SuccessSuffix))
    ensures Builder(Some(name)).Exec(Returned(false)) == Error(Some(name + FailureSuffix))
    ensures Builder(Some(name)).Exec(Threw(cause)) == Error(Some(name + ExceptionInfix + cause))
  {
    var c := Builder(Some(name));
    assert c.SuccessMessage().value == name + SuccessSuffix;
    assert c.FailureMessage().value == name + FailureSuffix;
    assert c.ExceptionMessage(cause).value == name + ExceptionInfix + cause;
  }

  /** With builder(operationName) the three kinds of message are told apart by the
      text that follows the name. */
  lemma NamedMessagesDistinct(name: string, cause: string)
    ensures Builder(Some(name)).SuccessMessage() != Builder(Some(name)).FailureMessage()
    ensures Builder(Some(name)).FailureMessage() != Builder(Some(name)).ExceptionMessage(cause)
    ensures Builder(Some(name)).SuccessMessage() != Builder(Some(name)).ExceptionMessage(cause)
  {
    var c := Builder(Some(name));
    var n := |name|;
    assert c.SuccessMessage().value[n] == SuccessSuffix[0];
    assert c.FailureMessage().value[n] == FailureSuffix[0];
    assert c.ExceptionMessage(cause).value[n] == ExceptionInfix[0];
  }

  /** With builder(successMsg, errorMsg, exceptionMsg) the responses carry exactly the
      preset messages, and the cause of an exception is not shown. */
  lemma PresetBuilderResponses(successMsg: Option<string>, errorMsg: Option<string>,
                               exceptionMsg: Option<string>, cause: string)
    ensures BuilderWithMessages(successMsg, errorMsg, exceptionMsg).Exec(Returned(true)) == Ok(successMsg)
    ensures BuilderWithMessages(successMsg, errorMsg, exceptionMsg).Exec(Returned(false)) == Error(errorMsg)
    ensures BuilderWithMessages(successMsg, errorMsg, exceptionMsg).Exec(Threw(cause)) == Error(exceptionMsg)
  {
  }
}

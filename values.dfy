/** JavaScript values as far as the deferred helpers observe them: only their
    truthiness and their identity matter to settlement. */
module Values {

  datatype Option<+T> = None | Some(value: T)

  /** A JavaScript value. Numbers are integers here: NaN and -0 are not modelled.
      `Error` is an Error object with its `message` and optional `code` property;
      `Object` is any other object, told apart by its identity. */
  datatype Value =
    | Undefined
    | Null
    | Bool(b: bool)
    | Num(n: int)
    | Str(s: string)
    | Error(message: string, code: Option<string>)
    | Object(id: nat)

  /** JavaScript truthiness: undefined, null, false, 0 and "" are falsy,
      every object (an Error included) is truthy. */
  predicate Truthy(v: Value)
  {
    match v
    case Undefined => false
    case Null => false
    case Bool(b) => b
    case Num(n) => n != 0
    case Str(s) => s != ""
    case Error(_, _) => true
    case Object(_) => true
  }

  /** The error the expiry timer rejects with: message 'timeout', code 'ETIMEDOUT'. */
  const TimeoutError: Value := Error("timeout", Some("ETIMEDOUT"))

  /** The error the callback adapter rejects with when given nothing usable. */
  const InvalidInvocation: Value := Error("invalid invocation", None)

  /** The falsy values among those this model represents are exactly these five. */
  lemma FalsyValues(v: Value)
    ensures !Truthy(v) <==> v in {Undefined, Null, Bool(false), Num(0), Str("")}
  {
  }
}

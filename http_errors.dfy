/** The error taxonomy of src/index.ts: `HttpError` and its four
    fixed-status subclasses, the values a handler can throw, and
    `toHttpError`, which normalises any thrown value into an `HttpError`. */
module HttpErrors {
  import opened Wrappers

  /** A JavaScript `Error` that is not an `HttpError` (a `SyntaxError` from
      body decoding, a `TypeError`, ...). */
  datatype PlainError = PlainError(name: string, message: string)

  /** The class an `HttpError` was constructed with: `HttpError` itself, or
      one of the subclasses that fix the status. */
  datatype Subclass = Base | Http404 | Http415 | Http422 | Http500

  /** An `HttpError`: message, numeric status, the class it was built with
      (which `instanceof` observes) and the optional `cause`. */
  datatype HttpError = HttpError(subclass: Subclass, message: string, status: nat, cause: Option<PlainError>)

  /** What a `throw` can carry: an `HttpError`, any other `Error`, or a value
      that is not an `Error` at all. */
  datatype Thrown = Http(error: HttpError) | Plain(plain: PlainError) | NonError

  /** `error instanceof C` for the class `C` named by `sub`: every
      `HttpError` is an instance of the base class. */
  predicate InstanceOf(e: HttpError, sub: Subclass) {
    sub == Base || e.subclass == sub
  }

  /** The status a subclass fixes. */
  predicate StatusFits(e: HttpError) {
    match e.subclass
    case Base => true
    case Http404 => e.status == 404
    case Http415 => e.status == 415
    case Http422 => e.status == 422
    case Http500 => e.status == 500
  }

  /** `new HttpError(message, status)`. */
  function NewHttpError(message: string, status: nat): (e: HttpError)
    ensures InstanceOf(e, Base) && !InstanceOf(e, Http500) && StatusFits(e)
    ensures e.message == message && e.status == status && e.cause == None
  {
    HttpError(Base, message, status, None)
  }

  /** `new HttpError404(message)`, `new HttpError415(message)`, ...: the
      subclass fixes the status and keeps the message. */
  function NewSubclassError(sub: Subclass, message: string): (e: HttpError)
    requires !sub.Base?
    ensures InstanceOf(e, sub) && InstanceOf(e, Base) && StatusFits(e)
    ensures sub == Http404 ==> e.status == 404
    ensures sub == Http415 ==> e.status == 415
    ensures sub == Http422 ==> e.status == 422
    ensures sub == Http500 ==> e.status == 500
    ensures e.message == message && e.cause == None
  {
    var status := match sub
      case Http404 => 404
      case Http415 => 415
      case Http422 => 422
      case Http500 => 500;
    HttpError(sub, message, status, None)
  }

  /** Every `HttpError` a thrown value can hold was built by one of the
      constructors above, so its status fits its class. */
  predicate WellFormed(t: Thrown) {
    t.Http? ==> StatusFits(t.error)
  }

  /** `toHttpError`: an `HttpError` is returned unchanged; another `Error`
      becomes a 500 with the same message and the original as `cause`;
      anything else becomes a 500 "Unknown error". */
  function ToHttpError(t: Thrown): (e: HttpError)
    ensures t.Http? ==> e == t.error
    ensures t.Plain? ==> InstanceOf(e, Http500) && e.status == 500
                         && e.message == t.plain.message && e.cause == Some(t.plain)
    ensures t.NonError? ==> InstanceOf(e, Http500) && e.status == 500
                            && e.message == "Unknown error" && e.cause == None
    ensures WellFormed(t) ==> StatusFits(e)
  {
    match t
    case Http(error) => error
    case Plain(p) => NewSubclassError(Http500, p.message).(cause := Some(p))
    case NonError => NewSubclassError(Http500, "Unknown error")
  }

  /** Normalising twice is normalising once. */
  lemma ToHttpErrorIdempotent(t: Thrown)
    ensures ToHttpError(Http(ToHttpError(t))) == ToHttpError(t)
  {
  }
}

/** The error kinds and result type shared by the whole client.
    The current crate (src/error.rs) and the older `bgg` module (src/bgg/error.rs)
    declare the same variants; the older one adds `IoError`. Both are covered by
    the single `Error` datatype below. Payloads of the transport errors are kept
    as their rendered text. */
module Errors {

  datatype Error =
    | InvalidUserError
    | XmlError(message: string)
    | HttpError(message: string)
    | XmlApiError(message: string)
    | IoError(message: string)

  /** `std::result::Result<T, Error>`. */
  datatype Result<T> = Ok(value: T) | Err(error: Error)

  datatype Option<T> = None | Some(value: T)

  /** What the XML deserialiser hands back: the parsed record, or the text of
      the error it reported. */
  datatype Decoded<T> = Parsed(value: T) | Malformed(reason: string)

  /** Rust's fixed-width unsigned integers. */
  type u8 = x: int | 0 <= x < 0x100
  type u16 = x: int | 0 <= x < 0x1_0000
  type u32 = x: int | 0 <= x < 0x1_0000_0000

  /** The `Display` text of an error: "Invalid user" for the dedicated
      variant, the payload verbatim for every other one. */
  function Display(e: Error): string
  {
    match e
    case InvalidUserError => "Invalid user"
    case XmlError(m) => m
    case HttpError(m) => m
    case XmlApiError(m) => m
    case IoError(m) => m
  }

  /** Mapping a fallible step over a sequence with `?` inside the loop:
      every result in order, or the error of the first element that fails. */
  function TryMap<A, B>(f: A -> Result<B>, xs: seq<A>): Result<seq<B>>
  {
    if xs == [] then Ok([])
    else
      match TryMap(f, xs[..|xs| - 1])
      case Err(e) => Err(e)
      case Ok(ys) =>
        match f(xs[|xs| - 1])
        case Err(e) => Err(e)
        case Ok(y) => Ok(ys + [y])
  }

  /** The map succeeds exactly when the step succeeds on every element; then
      there is one result per element, in order. */
  lemma {:induction false} TryMapSucceeds<A, B>(f: A -> Result<B>, xs: seq<A>)
    ensures TryMap(f, xs).Ok? <==> forall i :: 0 <= i < |xs| ==> f(xs[i]).Ok?
    ensures TryMap(f, xs).Ok? ==>
              |TryMap(f, xs).value| == |xs|
              && forall i :: 0 <= i < |xs| ==> f(xs[i]) == Ok(TryMap(f, xs).value[i])
  {
    if xs != [] {
      var init := xs[..|xs| - 1];
      TryMapSucceeds(f, init);
      assert forall i :: 0 <= i < |xs| - 1 ==> xs[i] == init[i];
    }
  }

  /** A failed map reports the error of the first element that fails. */
  lemma {:induction false} TryMapFailsAtFirst<A, B>(f: A -> Result<B>, xs: seq<A>)
    requires TryMap(f, xs).Err?
    ensures exists k :: 0 <= k < |xs| && f(xs[k]).Err?
                        && (forall i :: 0 <= i < k ==> f(xs[i]).Ok?)
                        && TryMap(f, xs).error == f(xs[k]).error
  {
    var init := xs[..|xs| - 1];
    assert forall i :: 0 <= i < |xs| - 1 ==> xs[i] == init[i];
    if TryMap(f, init).Err? {
      TryMapFailsAtFirst(f, init);
      var k :| 0 <= k < |init| && f(init[k]).Err? && (forall i :: 0 <= i < k ==> f(init[i]).Ok?)
               && TryMap(f, init).error == f(init[k]).error;
      assert f(xs[k]).Err?;
    } else {
      TryMapSucceeds(f, init);
      var k := |xs| - 1;
      assert forall i :: 0 <= i < k ==> f(xs[i]).Ok?;
    }
  }

  /** Once a prefix fails, the whole map fails with the same error. */
  lemma {:induction false} TryMapErrorPersists<A, B>(f: A -> Result<B>, xs: seq<A>, i: nat)
    requires i <= |xs| && TryMap(f, xs[..i]).Err?
    ensures TryMap(f, xs) == TryMap(f, xs[..i])
    decreases |xs| - i
  {
    if i < |xs| {
      assert xs[..i + 1][..i] == xs[..i];
      TryMapErrorPersists(f, xs, i + 1);
    } else {
      assert xs[..i] == xs;
    }
  }
}

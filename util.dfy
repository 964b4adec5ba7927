/** The argument checks of src/util.js. Each walks its arguments with `forEach`
    and throws `IllegalArgumentError` for an argument that passes the test
    `arg && !args instanceof String`. Because `!args` (a boolean) is the left
    operand of `instanceof`, the test never passes, so neither check rejects
    anything. */
module Util {
  import opened Base
  import opened JsValues

  /** The test applied to one argument; `args` is the rest-parameter array. */
  predicate Rejects(arg: JsValue, args: seq<JsValue>)
  {
    IsTruthy(arg) && NegatedInstanceOf(Arr(args), StringCtor)
  }

  /** The argument the `forEach` over `rest` (a suffix of `args`) throws on first. */
  function FirstRejected(rest: seq<JsValue>, args: seq<JsValue>): Option<JsValue>
  {
    if rest == [] then None
    else if Rejects(rest[0], args) then Some(rest[0])
    else FirstRejected(rest[1..], args)
  }

  lemma {:induction false} NothingRejected(rest: seq<JsValue>, args: seq<JsValue>)
    ensures FirstRejected(rest, args) == None
  {
    if rest != [] {
      NothingRejected(rest[1..], args);
    }
  }

  /** `checkArgs(...args)`: returns normally, or throws. */
  function CheckArgs(args: seq<JsValue>): Result<()>
  {
    if FirstRejected(args, args).Some? then Err(IllegalArgumentError) else Ok(())
  }

  /** `checkArgs` never throws, whatever the arguments. */
  lemma CheckArgsNeverThrows(args: seq<JsValue>)
    ensures CheckArgs(args) == Ok(())
  {
    NothingRejected(args, args);
  }

  /** `checkArgsP(...args)`: an async function, so a throw would reject its
      promise; it resolves to the number of arguments, and never rejects. */
  function CheckArgsP(args: seq<JsValue>): (r: Result<int>)
    ensures r == Ok(|args|)
  {
    NothingRejected(args, args);
    if FirstRejected(args, args).Some? then Err(IllegalArgumentError) else Ok(|args|)
  }
}

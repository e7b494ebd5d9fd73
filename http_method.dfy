/**
 * The request-method names the parser hands to an IncomingMessage. The
 * tokenizer reports a method as a numeric code; the codes below are the
 * positions of these methods in the tokenizer's `http_method` enumeration.
 */
module HttpMethod {
  import opened Strings

  const DELETE: nat := 0
  const GET: nat := 1
  const HEAD: nat := 2
  const POST: nat := 3
  const PUT: nat := 4
  const CONNECT: nat := 5
  const OPTIONS: nat := 6
  const TRACE: nat := 7

  /** The codes the parser names; every other code gets the empty name. */
  predicate Known(code: nat)
  {
    code <= TRACE
  }

  /** The switch in the static `onHeadersComplete`. */
  function Name(code: nat): (name: Str)
    ensures name == [] <==> !Known(code)
  {
    if code == DELETE then "DELETE"
    else if code == GET then "GET"
    else if code == HEAD then "HEAD"
    else if code == POST then "POST"
    else if code == PUT then "PUT"
    else if code == CONNECT then "CONNECT"
    else if code == OPTIONS then "OPTIONS"
    else if code == TRACE then "TRACE"
    else ""
  }

  /** The code a method name stands for, the inverse of Name on the known codes. */
  function Code(name: Str): (code: Option<nat>)
    ensures code.Some? ==> Known(code.value) && Name(code.value) == name
  {
    if name == "DELETE" then Some(DELETE)
    else if name == "GET" then Some(GET)
    else if name == "HEAD" then Some(HEAD)
    else if name == "POST" then Some(POST)
    else if name == "PUT" then Some(PUT)
    else if name == "CONNECT" then Some(CONNECT)
    else if name == "OPTIONS" then Some(OPTIONS)
    else if name == "TRACE" then Some(TRACE)
    else None
  }

  /** Every known code gets a name of its own, which leads back to the code. */
  lemma NameRoundTrip(code: nat)
    ensures Known(code) <==> Code(Name(code)) == Some(code)
    ensures !Known(code) ==> Code(Name(code)) == None
  {
    if !Known(code) {
      assert Name(code) == "";
    }
  }

  /** Two codes get the same name only if both are unknown or they are equal. */
  lemma NameInjective(c1: nat, c2: nat)
    requires Name(c1) == Name(c2)
    ensures c1 == c2 || (!Known(c1) && !Known(c2))
  {
    NameRoundTrip(c1);
    NameRoundTrip(c2);
  }
}

/**
 * Request preparation: how the four arguments of `run` and `build_request`
 * (route, arguments, HTTP method, raw-path flag) become the route, arguments
 * and method handed on to the parent class's request builder, which is not
 * part of this model and is treated as a sink.
 */
module Requests {

  import opened PhpArrays

  /** The arguments of `run($request, $args = array(), $method = 'GET', $use_other = false)`. */
  datatype Call = Call(request: string, args: Entries := [], verb: string := "GET", useOther: bool := false)

  /** What `build_request` passes to the parent's `build_request`. */
  datatype Outgoing = Outgoing(request: string, args: Entries, verb: string)

  /** The HTTP methods the endpoint methods use. */
  const Verbs: set<string> := {"GET", "POST", "PUT", "DELETE"}

  /** The array that `build_request` unites with GET arguments when pretty printing. */
  const Pretty: Entries := [("pretty", Bool(true))]

  predicate StartsWith(s: string, prefix: string)
  {
    |prefix| <= |s| && s[..|prefix|] == prefix
  }

  /**
   * `$args += array('pretty' => true)`: unchanged when `pretty` is already a
   * key, otherwise `pretty => true` appended at the end.
   */
  function MergePretty(args: Entries): (r: Entries)
    ensures HasKey(args, "pretty") ==> r == args
    ensures !HasKey(args, "pretty") ==> r == args + Pretty
  {
    var r := Union(args, Pretty);
    assert Union(args + Pretty, []) == args + Pretty;
    r
  }

  /** The union adds `pretty` and changes no value that was already there. */
  lemma MergePrettyLookup(args: Entries, k: string)
    ensures Lookup(MergePretty(args), k) ==
            if k == "pretty" && !HasKey(args, k) then Some(Bool(true)) else Lookup(args, k)
  {
    UnionLookup(args, Pretty, k);
  }

  /** Merging a second time changes nothing. */
  lemma MergePrettyIdempotent(args: Entries)
    ensures MergePretty(MergePretty(args)) == MergePretty(args)
  {
    if !HasKey(args, "pretty") {
      var r := args + Pretty;
      assert r[|args|].0 == "pretty";
    }
  }

  /** `build_request`, as a function of the client's format and pretty-print flag. */
  function Prepare(format: string, prettyPrint: bool, c: Call): (o: Outgoing)
    ensures o.verb == c.verb
    ensures c.useOther ==> o.request == c.request
    ensures !c.useOther ==> o.request == c.request + "." + format
    ensures |o.args| >= |c.args| && o.args[..|c.args|] == c.args
    ensures !(prettyPrint && c.verb == "GET") ==> o.args == c.args
  {
    var args := if prettyPrint && c.verb == "GET" then MergePretty(c.args) else c.args;
    if c.useOther then Outgoing(c.request, args, c.verb)
    else Outgoing(c.request + "." + format, args, c.verb)
  }

  /**
   * The arguments handed on: exactly the caller's, plus `pretty => true` when
   * pretty printing a GET request whose arguments lack `pretty`.
   */
  lemma PrepareArgs(format: string, prettyPrint: bool, c: Call, k: string)
    ensures Lookup(Prepare(format, prettyPrint, c).args, k) ==
            if prettyPrint && c.verb == "GET" && k == "pretty" && !HasKey(c.args, k)
            then Some(Bool(true)) else Lookup(c.args, k)
  {
    if prettyPrint && c.verb == "GET" {
      MergePrettyLookup(c.args, k);
    }
  }

  /** Every GET request prepared with pretty printing on has a `pretty` key. */
  lemma PrettyGetHasPretty(format: string, c: Call)
    requires c.verb == "GET"
    ensures HasKey(Prepare(format, true, c).args, "pretty")
  {
    PrepareArgs(format, true, c, "pretty");
  }

  /** Preparing keeps the arguments a PHP array: keys stay distinct. */
  lemma PrepareDistinct(format: string, prettyPrint: bool, c: Call)
    requires DistinctKeys(c.args)
    ensures DistinctKeys(Prepare(format, prettyPrint, c).args)
  {
    UnionDistinct(c.args, Pretty);
  }
}

/**
 * `_dispatch`: refuse a command whose Mailgun credentials are present on the
 * parsed namespace but empty, otherwise hand the namespace to the chosen
 * command's handler.
 */
module Dispatch {

  /** A value argparse leaves on the namespace. */
  datatype ArgValue = NoValue | Str(s: string) | Flag(b: bool) | Int(i: int) | Strs(items: seq<string>)

  /** Python truth: None, the empty string, False, 0 and the empty list are false. */
  predicate Truthy(v: ArgValue) {
    match v
    case NoValue => false
    case Str(s) => s != ""
    case Flag(b) => b
    case Int(i) => i != 0
    case Strs(items) => items != []
  }

  /** The handler `_func` each sub-command installs; `Help` is the default, which only suggests `--help`. */
  datatype Command = ShowDomains | ShowDomain | CreateRoute | ShowRoutes | Tfvars | TfRemoteConfig | Help

  /** The parsed namespace: the attributes the chosen sub-command defines, and its handler. */
  datatype Namespace = Namespace(attrs: map<string, ArgValue>, handler: Command)

  /** The credentials checked, in this order. */
  const Required: seq<string> := ["mailgun_api_key", "mailgun_user"]

  /** `hasattr(args, name) and not getattr(args, name, None)`. */
  predicate Missing(ns: Namespace, name: string) {
    name in ns.attrs && !Truthy(ns.attrs[name])
  }

  /** A usage error (argparse exits with its message) or the handler that runs. */
  datatype Dispatched = UsageError(message: string) | Invoke(handler: Command)

  /**
   * The handler runs exactly when no required credential is present and
   * false; otherwise the first such credential is named in the error.
   * A sub-command without the credentials (`tf-remote-config`) is never refused.
   */
  method Dispatch(ns: Namespace) returns (d: Dispatched)
    ensures d.Invoke? <==> forall k :: 0 <= k < |Required| ==> !Missing(ns, Required[k])
    ensures d.Invoke? ==> d.handler == ns.handler
    ensures d.UsageError? ==>
              exists k :: 0 <= k < |Required| && Missing(ns, Required[k])
                          && (forall j :: 0 <= j < k ==> !Missing(ns, Required[j]))
                          && d.message == Required[k] + " required"
  {
    var i := 0;
    while i < |Required|
      invariant 0 <= i <= |Required|
      invariant forall j :: 0 <= j < i ==> !Missing(ns, Required[j])
    {
      if Missing(ns, Required[i]) {
        return UsageError(Required[i] + " required");
      }
      i := i + 1;
    }
    return Invoke(ns.handler);
  }
}

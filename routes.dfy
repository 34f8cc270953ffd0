/**
 * The pure part of `create-route`: the request form built from the command's
 * arguments, the `_data` dictionary read from that form, the two match
 * predicates, the first-match search, the three-way decision, and how the
 * provider applies a PUT or POST form to its route list.
 */
module Routes {
  import opened Wrappers

  /** A form value: the form mixes strings with the integer priority. */
  datatype Value = Text(text: string) | Number(number: int)

  /** One `(key, value)` pair of the request form; the key `action` may repeat. */
  datatype Field = Field(key: string, value: Value)

  /** A route as the provider lists it; `id` is assigned by the provider. */
  datatype Route = Route(id: nat, expression: string, actions: seq<string>, priority: int, description: string)

  /** The `_data` dictionary: the route the command asks for, without an id. */
  datatype Desired = Desired(expression: string, actions: seq<string>, priority: int, description: string)

  /** The arguments of `create-route` the route is built from. */
  datatype RouteArgs = RouteArgs(
    domain: string, recipient: string, forward: seq<string>,
    description: string, priority: int, withStop: bool)

  const StopAction: string := "stop()"

  /** The route expression for mail sent to `recipient@domain`. */
  function MatchRecipient(recipient: string, domain: string): string {
    "match_recipient(\"" + recipient + "@" + domain + "\")"
  }

  function ForwardAction(target: string): string {
    "forward(\"" + target + "\")"
  }

  lemma ForwardIsNotStop()
    ensures forall target :: ForwardAction(target) != StopAction
  {
  }

  function ForwardActions(targets: seq<string>): seq<string> {
    seq(|targets|, i requires 0 <= i < |targets| => ForwardAction(targets[i]))
  }

  /**
   * The action list: one `forward` per target in the order given, then
   * `stop()` exactly when the stop flag is set.
   */
  function ActionsFor(targets: seq<string>, withStop: bool): (r: seq<string>)
    ensures |r| == |targets| + (if withStop then 1 else 0)
    ensures forall i :: 0 <= i < |targets| ==> r[i] == ForwardAction(targets[i])
    ensures (|r| > 0 && r[|r| - 1] == StopAction) <==> withStop
  {
    ForwardIsNotStop();
    ForwardActions(targets) + (if withStop then [StopAction] else [])
  }

  /** The three single-valued pairs that open the form. */
  function Header(a: RouteArgs): seq<Field> {
    [Field("expression", Text(MatchRecipient(a.recipient, a.domain))),
     Field("description", Text(a.description)),
     Field("priority", Number(a.priority))]
  }

  function ActionField(action: string): Field {
    Field("action", Text(action))
  }

  function ActionFields(actions: seq<string>): seq<Field> {
    seq(|actions|, i requires 0 <= i < |actions| => ActionField(actions[i]))
  }

  /** The list `data` of form pairs that a POST sends. */
  function RequestData(a: RouteArgs): seq<Field> {
    Header(a) + ActionFields(ActionsFor(a.forward, a.withStop))
  }

  /** Builds `data` the way the command does: three pairs, then one pair per action. */
  method BuildRequestData(a: RouteArgs) returns (data: seq<Field>)
    ensures data == RequestData(a)
  {
    data := Header(a);
    var i := 0;
    while i < |a.forward|
      invariant 0 <= i <= |a.forward|
      invariant |data| == 3 + i && data[..3] == Header(a)
      invariant forall j :: 0 <= j < i ==> data[3 + j] == ActionField(ForwardAction(a.forward[j]))
    {
      data := data + [ActionField(ForwardAction(a.forward[i]))];
      i := i + 1;
    }
    if a.withStop {
      data := data + [ActionField(StopAction)];
    }
    assert forall j :: 0 <= j < |data| ==> data[j] == RequestData(a)[j];
  }

  /** The value that `{k: v for k, v in data}` keeps for `key`: the last pair with that key wins. */
  function Lookup(data: seq<Field>, key: string): (r: Option<Value>)
    ensures r.None? <==> forall i :: 0 <= i < |data| ==> data[i].key != key
    ensures r.Some? ==> exists i :: 0 <= i < |data| && data[i] == Field(key, r.value)
                                   && forall j :: i < j < |data| ==> data[j].key != key
  {
    if data == [] then None
    else if data[|data| - 1].key == key then Some(data[|data| - 1].value)
    else Lookup(data[..|data| - 1], key)
  }

  /** `[v for k, v in data if k == 'action']`; None when one of those values is not text. */
  function ActionValues(data: seq<Field>): Option<seq<string>> {
    if data == [] then Some([])
    else
      var rest := ActionValues(data[1..]);
      if data[0].key != "action" then rest
      else match (data[0].value, rest)
        case (Text(t), Some(ts)) => Some([t] + ts)
        case _ => None
  }

  /**
   * The `_data` dictionary read from a form, or None when the form lacks a
   * field or mistypes one: each single field is the value of its last pair,
   * the actions are all `action` values in form order.
   */
  function DataDict(data: seq<Field>): (r: Option<Desired>)
    ensures r.Some? ==> Lookup(data, "expression") == Some(Text(r.value.expression))
                        && Lookup(data, "description") == Some(Text(r.value.description))
                        && Lookup(data, "priority") == Some(Number(r.value.priority))
                        && ActionValues(data) == Some(r.value.actions)
    ensures r.None? ==> Lookup(data, "expression").None? || Lookup(data, "description").None?
                        || Lookup(data, "priority").None? || ActionValues(data).None?
                        || !Lookup(data, "expression").value.Text? || !Lookup(data, "description").value.Text?
                        || !Lookup(data, "priority").value.Number?
  {
    var e, d, p, acts := Lookup(data, "expression"), Lookup(data, "description"), Lookup(data, "priority"), ActionValues(data);
    if e.Some? && e.value.Text? && d.Some? && d.value.Text? && p.Some? && p.value.Number? && acts.Some?
    then Some(Desired(e.value.text, acts.value, p.value.number, d.value.text))
    else None
  }

  /** The route the arguments ask for. */
  function DesiredOf(a: RouteArgs): Desired {
    Desired(MatchRecipient(a.recipient, a.domain), ActionsFor(a.forward, a.withStop), a.priority, a.description)
  }

  lemma {:induction false} LookupSkip(x: seq<Field>, y: seq<Field>, key: string)
    requires forall i :: 0 <= i < |y| ==> y[i].key != key
    ensures Lookup(x + y, key) == Lookup(x, key)
    decreases |y|
  {
    if y != [] {
      assert (x + y)[..|x + y| - 1] == x + y[..|y| - 1];
      LookupSkip(x, y[..|y| - 1], key);
    } else {
      assert x + y == x;
    }
  }

  lemma {:induction false} ActionValuesSkip(x: seq<Field>, y: seq<Field>)
    requires forall i :: 0 <= i < |x| ==> x[i].key != "action"
    ensures ActionValues(x + y) == ActionValues(y)
    decreases |x|
  {
    if x != [] {
      assert (x + y)[1..] == x[1..] + y;
      ActionValuesSkip(x[1..], y);
    } else {
      assert x + y == y;
    }
  }

  lemma {:induction false} ActionValuesOfFields(actions: seq<string>)
    ensures ActionValues(ActionFields(actions)) == Some(actions)
    decreases |actions|
  {
    if actions != [] {
      assert ActionFields(actions)[1..] == ActionFields(actions[1..]);
      ActionValuesOfFields(actions[1..]);
      assert [actions[0]] + actions[1..] == actions;
    }
  }

  lemma HeaderLookups(a: RouteArgs)
    ensures Lookup(Header(a), "expression") == Some(Text(MatchRecipient(a.recipient, a.domain)))
    ensures Lookup(Header(a), "description") == Some(Text(a.description))
    ensures Lookup(Header(a), "priority") == Some(Number(a.priority))
  {
    var h := Header(a);
    assert h[2].key == "priority" != "expression";
    assert h[1].key == "description" != "expression";
    assert h[2].key != "description";
    assert h[..2][..1] == h[..1] && h[..2][1] == h[1];
    assert Lookup(h, "description") == Lookup(h[..2], "description");
    assert Lookup(h, "expression") == Lookup(h[..2], "expression") == Lookup(h[..1], "expression");
  }

  /** Only `action` pairs follow the header. */
  lemma ActionFieldKeys(actions: seq<string>)
    ensures forall i :: 0 <= i < |ActionFields(actions)| ==> ActionFields(actions)[i].key == "action"
  {
  }

  lemma RequestLookups(a: RouteArgs)
    ensures Lookup(RequestData(a), "expression") == Some(Text(MatchRecipient(a.recipient, a.domain)))
    ensures Lookup(RequestData(a), "description") == Some(Text(a.description))
    ensures Lookup(RequestData(a), "priority") == Some(Number(a.priority))
  {
    var h, fields := Header(a), ActionFields(ActionsFor(a.forward, a.withStop));
    ActionFieldKeys(ActionsFor(a.forward, a.withStop));
    assert "action" != "expression" && "action" != "description" && "action" != "priority";
    HeaderLookups(a);
    LookupSkip(h, fields, "expression");
    LookupSkip(h, fields, "description");
    LookupSkip(h, fields, "priority");
  }

  lemma RequestActions(a: RouteArgs)
    ensures ActionValues(RequestData(a)) == Some(ActionsFor(a.forward, a.withStop))
  {
    var acts := ActionsFor(a.forward, a.withStop);
    var h := Header(a);
    assert h[0].key != "action" && h[1].key != "action" && h[2].key != "action";
    ActionValuesSkip(h, ActionFields(acts));
    ActionValuesOfFields(acts);
  }

  /** Reading the form back as a dictionary gives exactly the route the arguments ask for. */
  lemma DataDictOfRequest(a: RouteArgs)
    ensures DataDict(RequestData(a)) == Some(DesiredOf(a))
  {
    RequestLookups(a);
    RequestActions(a);
  }

  /** The keys a PUT carries. */
  const PutKeys: set<string> := {"description", "priority"}

  /** `[item for item in data if item[0] in keys]`. */
  function Only(data: seq<Field>, keys: set<string>): (r: seq<Field>)
    ensures forall i :: 0 <= i < |r| ==> r[i].key in keys
    ensures |r| <= |data|
  {
    if data == [] then []
    else (if data[0].key in keys then [data[0]] else []) + Only(data[1..], keys)
  }

  /** The filter keeps exactly the pairs whose key is selected. */
  lemma {:induction false} OnlyMembers(data: seq<Field>, keys: set<string>)
    ensures forall f :: f in Only(data, keys) <==> f in data && f.key in keys
    decreases |data|
  {
    if data != [] {
      OnlyMembers(data[1..], keys);
      assert data == [data[0]] + data[1..];
    }
  }

  lemma {:induction false} OnlyAppend(x: seq<Field>, y: seq<Field>, keys: set<string>)
    ensures Only(x + y, keys) == Only(x, keys) + Only(y, keys)
    decreases |x|
  {
    if x != [] {
      assert (x + y)[1..] == x[1..] + y;
      OnlyAppend(x[1..], y, keys);
    } else {
      assert x + y == y;
    }
  }

  lemma {:induction false} OnlyNone(data: seq<Field>, keys: set<string>)
    requires forall i :: 0 <= i < |data| ==> data[i].key !in keys
    ensures Only(data, keys) == []
    decreases |data|
  {
    if data != [] {
      OnlyNone(data[1..], keys);
    }
  }

  lemma PutFormOfHeader(a: RouteArgs)
    ensures Only(Header(a), PutKeys) == [Header(a)[1], Header(a)[2]]
  {
    var h := Header(a);
    assert h[0].key == "expression" && "expression" !in PutKeys;
    assert h[1].key in PutKeys && h[2].key in PutKeys;
    assert h[1..][1..] == [h[2]] && h[1..][1..][1..] == [];
    assert Only(h[1..][1..], PutKeys) == [h[2]];
    assert Only(h[1..], PutKeys) == [h[1], h[2]];
  }

  /** The PUT form holds the description and the priority and nothing else, in that order. */
  lemma PutFormOfRequest(a: RouteArgs)
    ensures Only(RequestData(a), PutKeys) == [Field("description", Text(a.description)), Field("priority", Number(a.priority))]
  {
    var fields := ActionFields(ActionsFor(a.forward, a.withStop));
    PutFormOfHeader(a);
    OnlyAppend(Header(a), fields, PutKeys);
    OnlyNone(fields, PutKeys);
  }

  /** How the provider applies a PUT form: each field given replaces the route's; `action` pairs, if any, replace the actions. */
  function ApplyUpdate(r: Route, form: seq<Field>): Route {
    r.(expression := match Lookup(form, "expression") case Some(Text(e)) => e case _ => r.expression,
       description := match Lookup(form, "description") case Some(Text(d)) => d case _ => r.description,
       priority := match Lookup(form, "priority") case Some(Number(p)) => p case _ => r.priority,
       actions := match ActionValues(form) case Some(acts) => if acts == [] then r.actions else acts case None => r.actions)
  }

  lemma {:induction false} NoActionValues(form: seq<Field>)
    requires forall i :: 0 <= i < |form| ==> form[i].key != "action"
    ensures ActionValues(form) == Some([])
    decreases |form|
  {
    if form != [] {
      NoActionValues(form[1..]);
    }
  }

  /** A form restricted to the PUT keys can change neither a route's expression nor its actions. */
  lemma UpdateKeepsIdentity(r: Route, form: seq<Field>)
    requires forall i :: 0 <= i < |form| ==> form[i].key in PutKeys
    ensures ApplyUpdate(r, form).id == r.id
    ensures ApplyUpdate(r, form).expression == r.expression
    ensures ApplyUpdate(r, form).actions == r.actions
  {
    NoActionValues(form);
  }

  /** The route that the reconciler's PUT leaves behind: the new description and priority on the old identity. */
  function Retitled(r: Route, d: Desired): Route {
    r.(description := d.description, priority := d.priority)
  }

  lemma PutOfRequest(r: Route, a: RouteArgs)
    ensures ApplyUpdate(r, Only(RequestData(a), PutKeys)) == Retitled(r, DesiredOf(a))
  {
    PutFormOfRequest(a);
    var form := Only(RequestData(a), PutKeys);
    UpdateKeepsIdentity(r, form);
    assert form[1].key == "priority" != "description";
    assert form[..1][0].key == "description";
    assert Lookup(form, "description") == Lookup(form[..1], "description");
  }

  function NewRoute(id: nat, d: Desired): Route {
    Route(id, d.expression, d.actions, d.priority, d.description)
  }

  /** How the provider reads a POST form: the route it creates, or None when the form is malformed. */
  function CreatedRoute(id: nat, form: seq<Field>): Option<Route> {
    match DataDict(form)
    case Some(d) => Some(NewRoute(id, d))
    case None => None
  }

  lemma PostOfRequest(id: nat, a: RouteArgs)
    ensures CreatedRoute(id, RequestData(a)) == Some(NewRoute(id, DesiredOf(a)))
  {
    DataDictOfRequest(a);
  }

  // ---------------------------------------------------------------- matching

  /** The keys that are compared. */
  datatype Key = ActionsKey | ExpressionKey | PriorityKey | DescriptionKey

  /** `match_for_update`: the identity of a route. */
  const UpdateKeys: seq<Key> := [ActionsKey, ExpressionKey]

  /** `match_for_pass`: identity plus priority and description. */
  const PassKeys: seq<Key> := UpdateKeys + [PriorityKey, DescriptionKey]

  predicate Agrees(d: Desired, r: Route, k: Key) {
    match k
    case ActionsKey => d.actions == r.actions
    case ExpressionKey => d.expression == r.expression
    case PriorityKey => d.priority == r.priority
    case DescriptionKey => d.description == r.description
  }

  /** `all(_data[k] == _route[k] for k in keys)`. */
  predicate MatchesOn(d: Desired, r: Route, keys: seq<Key>) {
    forall k :: k in keys ==> Agrees(d, r, k)
  }

  predicate FullMatch(d: Desired, r: Route) {
    MatchesOn(d, r, PassKeys)
  }

  predicate IdentityMatch(d: Desired, r: Route) {
    MatchesOn(d, r, UpdateKeys)
  }

  lemma MatchMeaning(d: Desired, r: Route)
    ensures IdentityMatch(d, r) <==> d.actions == r.actions && d.expression == r.expression
    ensures FullMatch(d, r) <==> IdentityMatch(d, r) && d.priority == r.priority && d.description == r.description
  {
    assert Agrees(d, r, ActionsKey) && Agrees(d, r, ExpressionKey) ==> IdentityMatch(d, r) by {
      forall k | k in UpdateKeys ensures Agrees(d, r, ActionsKey) && Agrees(d, r, ExpressionKey) ==> Agrees(d, r, k) {
      }
    }
    assert IdentityMatch(d, r) && Agrees(d, r, PriorityKey) && Agrees(d, r, DescriptionKey) ==> FullMatch(d, r) by {
      forall k | k in PassKeys ensures IdentityMatch(d, r) && Agrees(d, r, PriorityKey) && Agrees(d, r, DescriptionKey) ==> Agrees(d, r, k) {
        if k in UpdateKeys {
        }
      }
    }
    assert ActionsKey in UpdateKeys && ExpressionKey in UpdateKeys;
    assert PriorityKey in PassKeys && DescriptionKey in PassKeys;
    assert forall k :: k in UpdateKeys ==> k in PassKeys;
  }

  /** Actions are compared as ordered lists: the same actions in another order make a different route. */
  lemma ActionOrderMatters(d: Desired, r: Route)
    requires multiset(d.actions) == multiset(r.actions) && d.actions != r.actions
    ensures !IdentityMatch(d, r) && !FullMatch(d, r)
  {
    MatchMeaning(d, r);
  }

  /**
   * `next((r for r in rs[from..] if matches), None)`: the index of the first
   * route from `from` on that agrees on `keys`, or None.
   */
  function FirstMatch(rs: seq<Route>, d: Desired, keys: seq<Key>, from: nat): (r: Option<nat>)
    requires from <= |rs|
    ensures r.Some? ==> from <= r.value < |rs| && MatchesOn(d, rs[r.value], keys)
                        && forall j :: from <= j < r.value ==> !MatchesOn(d, rs[j], keys)
    ensures r.None? ==> forall j :: from <= j < |rs| ==> !MatchesOn(d, rs[j], keys)
    decreases |rs| - from
  {
    if from == |rs| then None
    else if MatchesOn(d, rs[from], keys) then Some(from)
    else FirstMatch(rs, d, keys, from + 1)
  }

  /** The outcome of a reconcile: keep route `index`, re-title route `index`, or create a route. */
  datatype Decision = Keep(index: nat) | Update(index: nat) | Create

  /**
   * The three-way decision: the first full match is kept; failing that, the
   * first identity match is updated; failing that, a route is created.
   */
  function Decide(d: Desired, rs: seq<Route>): (r: Decision)
    ensures r.Keep? <==> exists j :: 0 <= j < |rs| && FullMatch(d, rs[j])
    ensures r.Keep? ==> r.index < |rs| && FullMatch(d, rs[r.index])
                        && forall j :: 0 <= j < r.index ==> !FullMatch(d, rs[j])
    ensures r.Update? ==> r.index < |rs| && IdentityMatch(d, rs[r.index])
                          && (forall j :: 0 <= j < r.index ==> !IdentityMatch(d, rs[j]))
                          && forall j :: 0 <= j < |rs| ==> !FullMatch(d, rs[j])
    ensures r.Create? <==> forall j :: 0 <= j < |rs| ==> !IdentityMatch(d, rs[j])
  {
    match FirstMatch(rs, d, PassKeys, 0)
    case Some(i) => Keep(i)
    case None =>
      match FirstMatch(rs, d, UpdateKeys, 0)
      case Some(i) => Update(i)
      case None =>
        forall j | 0 <= j < |rs| ensures !IdentityMatch(d, rs[j]) && !FullMatch(d, rs[j]) {
          MatchMeaning(d, rs[j]);
        }
        Create
  }

  /** Provider ids are unique. */
  predicate UniqueIds(rs: seq<Route>) {
    forall i, j :: 0 <= i < j < |rs| ==> rs[i].id != rs[j].id
  }

  /** Where the provider finds the route a `PUT /routes/{id}` names. */
  function IndexOfId(rs: seq<Route>, id: nat): (r: Option<nat>)
    ensures r.Some? ==> r.value < |rs| && rs[r.value].id == id
    ensures r.None? <==> forall i :: 0 <= i < |rs| ==> rs[i].id != id
  {
    if rs == [] then None
    else if rs[0].id == id then Some(0)
    else match IndexOfId(rs[1..], id)
      case Some(k) => Some(k + 1)
      case None => None
  }

  /** The route list after a reconcile whose write succeeded; `newId` is the id a created route gets. */
  function Reconciled(d: Desired, rs: seq<Route>, newId: nat): seq<Route> {
    match Decide(d, rs)
    case Keep(_) => rs
    case Update(i) => rs[i := Retitled(rs[i], d)]
    case Create => rs + [NewRoute(newId, d)]
  }

  /** The index of the route that matches the desired one after the reconcile. */
  function Settled(d: Desired, rs: seq<Route>): nat {
    match Decide(d, rs)
    case Keep(i) => i
    case Update(i) => i
    case Create => |rs|
  }

  /**
   * Reconciling is idempotent: on the list a successful reconcile leaves, the
   * next reconcile keeps the route it updated or created, and writes nothing.
   */
  lemma ReconcileIdempotent(d: Desired, rs: seq<Route>, newId: nat)
    ensures Decide(d, Reconciled(d, rs, newId)) == Keep(Settled(d, rs))
  {
    var after := Reconciled(d, rs, newId);
    match Decide(d, rs)
    case Keep(i) =>
    case Update(i) =>
      MatchMeaning(d, rs[i]);
      MatchMeaning(d, after[i]);
      assert FullMatch(d, after[i]);
      assert forall j :: 0 <= j < i ==> after[j] == rs[j];
    case Create =>
      MatchMeaning(d, after[|rs|]);
      assert FullMatch(d, after[|rs|]);
      assert forall j :: 0 <= j < |rs| ==> after[j] == rs[j];
  }

  // ---------------------------------------------------------------- scenarios

  const ScenarioExpression: string := MatchRecipient("a", "x.com")
  const ScenarioActions: seq<string> := ActionsFor(["b@y.com"], false)

  /** An identity match with a different priority and description is updated in place. */
  lemma ScenarioUpdate()
    ensures Decide(Desired(ScenarioExpression, ScenarioActions, 5, "d2"),
                   [Route(1, ScenarioExpression, ScenarioActions, 1, "d1")]) == Update(0)
  {
    var d := Desired(ScenarioExpression, ScenarioActions, 5, "d2");
    var r := Route(1, ScenarioExpression, ScenarioActions, 1, "d1");
    MatchMeaning(d, r);
  }

  /** With no routes at all, the route is created. */
  lemma ScenarioCreate(d: Desired)
    ensures Decide(d, []) == Create
  {
  }
}

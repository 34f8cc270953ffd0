# terraform-mailgun-aws: route reconciliation and remote-state bootstrap

A Dafny model of the decision logic of the operator CLI in `main.py`:

- **`create-route`** (`_create_route`). The command builds the desired Mailgun
  route from its arguments. The expression is `match_recipient("R@D")`. The
  actions are one `forward("x")` per target, in order, then `stop()` when
  `--with-stop` is given. The command sends one `GET /routes` and reads the
  `items` of that single answer.
  The first route that agrees on actions, expression, priority and
  description is reported, and nothing is written. Failing that, the first
  route that agrees on actions and expression gets one PUT, carrying only
  the description and the priority. Failing that, one POST creates the route.
- **`tf-remote-config`'s bucket bootstrap** (`_check_tf_config_bucket`). The
  command probes the state bucket. On a 404 it creates the bucket and waits
  for it. Any other probe error is raised again. It then enables versioning
  unless the status is already `Enabled`.
- **The bucket name** (`_tf_remote_config`). The domain is lower-cased, each
  `.` becomes `-dot-`, and the result fills the `{domain}` slot of the bucket
  template (`terraform-state-{domain}` by default).
- **The credential check in `_dispatch`.** A `mailgun_api_key` or
  `mailgun_user` attribute that is present but false is a usage error.
  Otherwise the sub-command's handler runs.

Files:

- `wrappers.dfy`: `Option` and `Result`.
- `routes.dfy` (module `Routes`): the form list `data`, the `_data`
  dictionary read from it, and the match predicates. It also holds the
  first-match search, the three-way `Decide`, and how the provider applies
  a PUT or POST form. It also holds the idempotence lemma, and it ends with
  two scenario lemmas.
- `reconciler.dfy` (module `Reconciler`): the provider as a class.
  - Fields: `routes`, `nextId`, the status it answers reads and writes
    with, and a write counter.
  - Its GET, PUT and POST methods.
  - `CreateRoute`, proved against `Decide`.
- `bucket_name.dfy` (module `BucketNaming`): `lower()`, `replace('.', '-dot-')`
  and `str.format` with the single keyword `domain`.
- `backend.dfy` (module `Backend`): the object store as a class.
  - Fields: the caller's buckets and their versioning, foreign bucket
    names, the caller's permissions, and request counters.
  - The pure `Bootstrap` that specifies one run.
  - `CheckTfConfigBucket`, proved against `Bootstrap`.
- `dispatch.dfy` (module `Dispatch`): the required-argument loop.

Modelling choices (the model follows `main.py`):

- The existing routes are an ordered list, because the first hit in the
  provider's order wins.
- Versioning has three states. A never-versioned bucket reports no status,
  and `Suspended` is also possible. Every status other than `Enabled` leads
  to an enable.
- The bootstrap returns nothing on success rather than a final status.

## Model

| member | source | states |
|---|---|---|
| `Routes.ActionsFor` | main.py:52-60 | one `forward("t")` per target in input order; the list ends in `stop()` if and only if the stop flag is set |
| `Routes.BuildRequestData` | main.py:47-60 | the `append`/`extend` loop builds exactly the form list: expression, description, priority, then the action pairs |
| `Routes.DataDict` | main.py:62-63 | the `_data` dictionary of a form: when it exists, each of expression, description and priority is the value `Lookup` gives (the last pair with that key) and the actions are every `action` value in form order; it is absent only when one of those is missing or has the wrong kind of value |
| `Routes.Only` | main.py:89-90 | the PUT list comprehension: every pair kept has a selected key, and the list is no longer than the form |
| `Routes.OnlyMembers` | main.py:89-90 | a pair is in the PUT list if and only if it is in the form and its key is selected |
| `Routes.Lookup` | main.py:62 | dictionary semantics of `{k: v for k, v in data}`: absent iff no pair has the key, otherwise the value of the last pair with that key |
| `Routes.DataDictOfRequest` | main.py:45-63 | the `_data` dictionary read from the form is the desired route: expression `match_recipient("R@D")`, the action list, the priority and the description |
| `Routes.PutFormOfRequest` | main.py:87-91 | the PUT form is exactly `[description, priority]`, with no expression and no action pair |
| `Routes.UpdateKeepsIdentity` | main.py:86-91 | a form that only holds description/priority keys cannot change a route's id, expression or actions |
| `Routes.PutOfRequest` | main.py:85-92 | applying the command's PUT form re-titles the route (new description and priority) and keeps its identity |
| `Routes.PostOfRequest` | main.py:96-97 | the POST form creates a route with the full field set: expression, actions, priority, description |
| `Routes.MatchMeaning` | main.py:65-66 | `match_for_update` compares actions and expression; `match_for_pass` compares those plus priority and description |
| `Routes.ActionOrderMatters` | main.py:71 | actions are compared as ordered lists: a route whose actions are the desired ones as a multiset but in a different order matches neither way |
| `Routes.FirstMatch` | main.py:69-73 | `next(...)` over the listing: the first index whose route agrees on the keys, or none when no route agrees |
| `Routes.Decide` | main.py:68-99 | exactly one outcome: keep the first full match if any; else update the first identity match, and only when no full match exists; else create, and only when no identity match exists |
| `Routes.IndexOfId` | main.py:86 | the route a `PUT /routes/{id}` addresses: an index holding that id, or none when no route has it |
| `Routes.ReconcileIdempotent` | main.py:69-77 | after a successful reconcile, reconciling again keeps the route just updated or created (no write) |
| `Routes.ScenarioUpdate` | main.py:79-94 | same expression and actions with priority 1/description d1 against desired 5/d2 gives an update of that route |
| `Routes.ScenarioCreate` | main.py:96-99 | with an empty listing the decision is to create |
| `Reconciler.Body` | main.py:31-32 | `raise_for_status()` then `.json()`: a body is returned if and only if the status is not 400-599 and a body was decoded; an error status raises with that status before the body is read; a missing body is a JSON error (also the PUT and POST answers at main.py:92-93 and 98-99) |
| `Reconciler.Provider.GetRoutes` | main.py:28-32 | `GET /routes` answers the current route list, or no body with the error status |
| `Reconciler.Provider.Put` | main.py:86-92 | one write; on success the addressed route becomes the form applied to it and nothing else changes; an error status or unknown id changes nothing |
| `Reconciler.Provider.Post` | main.py:97-98 | one write; on success the route list grows by the created route with a fresh id; an error status changes nothing |
| `Reconciler.CreateRoute` | main.py:41-99 | a failed GET raises with no write; a full match is reported with no write; otherwise exactly one PUT to the first identity match or one POST, leaving the list `Reconciled` on success and raising the status otherwise; the id counter moves on by one exactly when a route was created |
| `Reconciler.CreateRouteTwice` | main.py:65-77 | after a successful run, a second run reports a fully matching route and sends no write |
| `BucketNaming.Lower` | main.py:172 | lower-casing keeps the length, maps each character by its lower-case partner and leaves no upper-case letter |
| `BucketNaming.LowerIdempotent` | main.py:172 | a sanity property of the model's `Lower` (the source lower-cases once): lower-casing twice is lower-casing once |
| `BucketNaming.DotWords` | main.py:172 | `replace('.', '-dot-')` leaves no dot and adds four characters per dot |
| `BucketNaming.DotWordsOfDot` | main.py:172 | a single `.` is spelled `-dot-` (with `DotWordsAppend` this fixes the replacement's content) |
| `BucketNaming.DotWordsAppend` | main.py:172 | the replacement works piece by piece: on a concatenation it is the concatenation of the replacements |
| `BucketNaming.DotWordsWithoutDots` | main.py:172 | a name without dots is unchanged |
| `BucketNaming.DomainSlug` | main.py:172 | the slug has no dot and no upper-case letter |
| `BucketNaming.FormatFailsOnBrace` | main.py:171 | `str.format` can only refuse a template that contains a brace |
| `BucketNaming.BucketName` | main.py:171-172 | the bucket name is the template formatted with the domain slug; it can only be refused when the template contains a brace |
| `BucketNaming.FormatBraceFree` | main.py:171 | `format` leaves text without braces unchanged |
| `BucketNaming.FormatOneSlot` | main.py:171-172 | a template with a single `{domain}` slot formats to its text with the slug in the slot |
| `BucketNaming.DefaultBucketName` | main.py:18 | with the default template the bucket is `terraform-state-` followed by the slug |
| `BucketNaming.FooDotCom` | main.py:354-356 | `FOO.com` gives `terraform-state-foo-dot-com` |
| `Backend.Bootstrap` | main.py:145-166 | a 404 probe leads to exactly one create; any other probe error propagates with nothing written; an existing bucket is never created; a refused create, versioning read or enable ends the run with that error (a refused read or enable on an existing bucket writes nothing else, and the enable is counted); a successful run held the versioning-read permission, and the enable permission when it sent an enable; after a successful create the bucket exists even if the versioning step then fails; a successful run needed a successful probe or create, and sent an enable exactly when the status was not `Enabled`; the run succeeds exactly when the probe or (after a 404) the create succeeds, the versioning read is permitted, and the enable is permitted unless the bucket is already `Enabled`; a failure after a successful create is a 403 that leaves the new bucket; success leaves the bucket existing with versioning `Enabled` and no other bucket touched |
| `Backend.BootstrapIdempotent` | main.py:147-166 | a second run on the state a successful run leaves sends zero writes and changes nothing |
| `Backend.ScenarioMissingBucket` | main.py:149-166 | in any store where the bucket is missing and not another account's, with all permissions: one create, one enable, the bucket ends `Enabled` and nothing else changes |
| `Backend.ScenarioNotYetVersioned` | main.py:158-166 | an existing bucket that is unversioned or suspended, with the read and enable permissions: no create, one enable, the bucket ends `Enabled` |
| `Backend.ScenarioAlreadyVersioned` | main.py:158-163 | an existing bucket already `Enabled`: no write at all |
| `Backend.ObjectStore.HeadBucket` | main.py:148 | the probe answers 403 without permission or for another account's bucket, 404 for a missing bucket |
| `Backend.ObjectStore.CreateAndWait` | main.py:154-155 | one create request; on success the bucket exists (the wait) unversioned, on refusal nothing changes |
| `Backend.ObjectStore.VersioningStatus` | main.py:161-163 | reads the bucket's versioning status, or the error that denies it |
| `Backend.ObjectStore.EnableBucketVersioning` | main.py:166 | one enable request; on success the status is `Enabled`, on refusal nothing changes |
| `Backend.CheckTfConfigBucket` | main.py:145-166 | the result, the new store state and the create/enable counts are exactly those of `Bootstrap` |
| `Backend.TfRemoteConfig` | main.py:169-174 | a template `format` refuses raises with no write; a dry run writes nothing; otherwise the named bucket is bootstrapped and its name returned |
| `Dispatch.Dispatch` | main.py:201-207 | the handler runs if and only if no required credential is present and false; otherwise the first such credential is named in `"<name> required"` |

## Left out

- HTTP session, basic-auth construction and transport errors (main.py:22-32): the provider is a class answering each request with a configured status; `raise_for_status` is `Reconciler.Body` (statuses 400 to 599 raise).
- Mailgun's own PUT/POST semantics are an assumption of the model: a PUT replaces the fields its form carries, a POST needs expression, description and priority (otherwise 400) and creates the route with the actions the form carries, possibly none (argparse's `required=True` on `--forward`, main.py:277-285, is not modelled, so `RouteArgs` admits an empty target list); the provider's defaults for missing fields are not modelled.
- Route ids are provider-assigned natural numbers from a counter, not strings.
- The `show-domains`, `show-domain`, `show-routes` and `tfvars` commands (main.py:35-38, 102-142): fetch and print, no decision logic.
- Building and running the `terraform remote config` command and the dry-run printing (main.py:175-198): `Backend.TfRemoteConfig` stops at the bucket name.
- Argument parsing, environment defaults, the region lookup and the KeyboardInterrupt handler (main.py:17, 210-391); a bare `--forward` with no value (which argparse turns into `None`) is not modelled, forward targets are strings.
- All printing and JSON pretty-printing.
- boto3 clients; `wait_until_exists` polling and its timeout are not modelled: `Backend.ObjectStore.CreateAndWait` states that the bucket exists afterwards.
- The 404 test searches the error's text for `404` (main.py:152); the model compares the error's status code.
- Region-specific create answers (an own existing bucket in us-east-1) are not modelled; the create is refused with 409 instead, which a 404 probe never leads to.
- BucketNaming.Lower: lower-cases ASCII letters only, while Python's `str.lower` also folds other Unicode letters.
- BucketNaming.Format: handles the `{domain}` field and `{{`/`}}` escapes; a conversion, format spec, index or attribute access on the field (`{domain!s}`, `{domain:>9}`, `{domain[0]}`, `{domain.upper}`), which Python accepts, is reported as an unknown field.
- Reconciler.Provider.GetRoutes: answers the complete route list in one response. Mailgun pages `GET /routes` (100 routes by default) and `_get_routes` (main.py:28-32) reads only the first page, so with more routes than one page a matching route beyond it is missed and a duplicate is POSTed; the model's `CreateRoute`, `CreateRouteTwice` and `ReconcileIdempotent` hold only for listings that fit in one page.
- Concurrency: the tool is assumed to be the only writer during a run, as the source assumes.

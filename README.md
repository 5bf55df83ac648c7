# Event dispatch pipeline of pacifica-notifications, in Dafny

This project models the Celery tasks of the Pacifica notification service. Together they route an incoming event to the subscription rules (EventMatch records) that match it:

- `dispatch_event` selects the rules that are neither deleted nor disabled. It runs each rule's JSONPath against the event and enqueues one `query_policy` task per match.
- `query_policy` posts the event to the policy service at `<policy_url>/events/<owner>`. It acts on the status class of the answer: 5 disables the rule with the response body as the reason, 4 stops, 2 enqueues `route_event`, and any other class does nothing.
- `route_event` overlays the rule's `extensions` on the event's own. It adds headers and credentials from the rule's `auth` (`event_auth_to_requests`) and posts the event to the rule's `target_url`. A transport error disables the rule with the exception text. A 4xx or 5xx answer disables it with the response body.
- `disable_eventmatch` is a single read-modify-write of one stored rule, keyed by uuid. It sets `disabled` to the current time and `error` to the reason.

How the model maps onto the program:

- The rule store is a `map<UUID, Rule>` held by the class `Tasks.Notifier`.
- The task queue is an append-only `outbox: seq<Task>` in the same class. The `.delay(...)` calls become appends of `QueryPolicy(rule, event)` or `RouteEvent(rule, event)`. Each task carries a snapshot of the rule, as `to_hash()` does.
- HTTP answers are inputs. A `PostResult` is either a response (status code and body) or a transport error with its text.
- The clock reading `now` is a parameter.
- The JSONPath matcher is a parameter `matches: (string, Json) -> bool`.
- Each task's effect on the store and the outbox is given by a pure function (`Tasks.PolicyStep`, `Tasks.RouteStep`, `Rules.DisableStore`), and the class's methods are proved to have exactly that effect. The lemmas about those functions state the properties of the pipeline.

Modules: `Wrappers` (Option), `Values` (JSON), `Http` (responses, status classes), `Rules` (rules, tasks, store queries and auto-disable), `Authentication` (`event_auth_to_requests`), `Delivery` (extension merge, delivery headers), `Tasks` (the pipeline and the `Notifier` class).

In these cases the model follows the code as written:

- A transport error during the policy query is not caught by `query_policy`. The task raises and nothing changes.
- `query_policy` ignores status classes other than 2, 4 and 5, and `route_event` ignores classes other than 4 and 5. In the delivery step, a class 1 or 3 answer does not disable the rule.
- An event that is not a JSON object, or whose `extensions` entry is not an object, makes `route_event` raise an error that its `except RequestException` does not catch. Nothing is posted and the store is unchanged.
- `disable_eventmatch` on a uuid that is no longer stored raises `DoesNotExist`. No record changes, and `Notifier.DisableEventMatch` returns `found == false`.
- The rule fields are the ones `tasks.py` reads: `uuid`, `user`, `jsonpath`, `target_url`, `auth`, `extensions`, `disabled`, `deleted` and `error`. The older schema in `orm.py` has `enabled` instead of `disabled` and is not used.

## Model

| member | source | states |
|---|---|---|
| Http.StatusClass | pacifica/notifications/tasks.py:57 | the class c of a status code satisfies 100c <= status < 100c + 100 |
| Http.PolicyVerdictOf | pacifica/notifications/tasks.py:57-63 | disable exactly for 500-599, reject exactly for 400-499, route exactly for 200-299, no effect for every other code |
| Http.DeliveryFailed | pacifica/notifications/tasks.py:99-100 | a delivery answer disables the rule exactly when its status is in 400-599 |
| Rules.EligibleIds | pacifica/notifications/tasks.py:24-27 | a stored uuid is selected exactly when its rule has neither `deleted` nor `disabled` set |
| Rules.DisabledRule | pacifica/notifications/tasks.py:39-42 | `disabled` becomes the clock reading and `error` the reason; every other field keeps its value; the result is no longer eligible |
| Rules.DisableStore | pacifica/notifications/tasks.py:35-43 | same keys; the rule with that uuid gets `disabled == now` and `error == reason`, its other fields unchanged; every other rule unchanged; a missing uuid changes nothing; keying by uuid is preserved |
| Rules.DisableTwice | pacifica/notifications/tasks.py:35-43 | two disables in a row equal one disable with the later clock and reason |
| Rules.QueriesExact | pacifica/notifications/tasks.py:29-32 | every owed query is a `QueryPolicy` of a stored, selected rule's current record and the event; a stored rule is owed one exactly when it is selected |
| Rules.QueriesOverAdd | pacifica/notifications/tasks.py:29-32 | examining one more eligible rule adds its query, if it matches, as a new element (uuids are distinct) |
| Rules.QueriesOverEligible | pacifica/notifications/tasks.py:24-32 | running the matcher on the eligible rules only finds every query the store owes |
| Rules.DisabledNeverQueried | pacifica/notifications/tasks.py:24-27 | after a rule is disabled, no later event is owed a query for its uuid |
| Authentication.AuthArgs | pacifica/notifications/tasks.py:66-78 | the request carries basic credentials exactly for `type == "basic"`, with username and password defaulting to "" |
| Authentication.AuthHeaders | pacifica/notifications/tasks.py:72-77 | for `type == "header"`, `Authorization` is set to "<type> <credentials>" (defaults "") and all other headers are kept; for every other type the headers are unchanged |
| Authentication.AuthorizationValueParses | pacifica/notifications/tasks.py:74-77 | a header value built from a scheme without spaces splits back, at its first space, into that scheme and the credentials |
| Authentication.EventAuthToRequests | pacifica/notifications/tasks.py:66-78 | the caller's header dictionary becomes `AuthHeaders` of its old contents, and the returned arguments are `AuthArgs` |
| Delivery.MergeExtensions | pacifica/notifications/tasks.py:85-86 | the keys are the union; the rule's value wins on a shared key; a key only in the event keeps its value |
| Delivery.MergedEvent | pacifica/notifications/tasks.py:84-87 | defined exactly when the event is an object whose `extensions`, if present, is an object; then every other entry is unchanged and `extensions` is the merge |
| Delivery.DeliveryHeaders | pacifica/notifications/tasks.py:88-89 | `Content-Type: application/json` is always present; the only other possible header is `Authorization`, present exactly for header-type auth |
| Delivery.MergeExample | pacifica/notifications/tasks.py:85-87 | event extensions {"a": 1} under rule extensions {"a": 2, "b": 3} give {"a": 2, "b": 3} |
| Tasks.PolicyUrl | pacifica/notifications/tasks.py:49-53 | the address is the configured base, then "/events/", then the owner |
| Tasks.PolicyUrlIdentifiesOwner | pacifica/notifications/tasks.py:49-53 | two rules get the same policy address exactly when they have the same owner |
| Tasks.PolicyStep | pacifica/notifications/tasks.py:49-63 | 5xx: the rule is disabled with the body and nothing is enqueued; 2xx: exactly one `RouteEvent(rule, event)` is appended and the store is unchanged; any other status or a transport error: no change |
| Tasks.RouteStep | pacifica/notifications/tasks.py:84-101 | the outbox never changes; an event that cannot be merged changes nothing; a transport error disables the rule with its text; a 400-599 answer disables it with the body; any other answer changes nothing |
| Tasks.PolicyServerErrorDisables | pacifica/notifications/tasks.py:58-59 | after a 5xx policy answer, the stored rule has `disabled == now` and `error == body`, no task was enqueued, and no later event is queried for it |
| Tasks.DeliveryFailureDisables | pacifica/notifications/tasks.py:96-101 | after a transport error or a 4xx/5xx delivery answer, the stored rule is disabled with that reason and no later event is queried for it |
| Tasks.AuthorizedAndDeliveredKeepsRule | tests/celery_test.py:81-101 | a 2xx policy answer followed by a 2xx delivery leaves the store unchanged and enqueues exactly the one route task |
| Tasks.PolicyRejectionIsTerminal | pacifica/notifications/tasks.py:60-61 | a 4xx policy answer leaves the store and the outbox unchanged |
| Tasks.Notifier.DispatchEvent | pacifica/notifications/tasks.py:20-32 | the store is unchanged; the ghost set `examined` of visited uuids is `EligibleIds(rules)`; the appended tasks contain exactly one `QueryPolicy` per selected rule and nothing else |
| Tasks.Notifier.DisableEventMatch | pacifica/notifications/tasks.py:35-43 | the store becomes `DisableStore` of the old store; `found` tells whether the uuid was stored |
| Tasks.Notifier.QueryPolicy | pacifica/notifications/tasks.py:46-63 | posts the event to `PolicyUrl(base, owner)` with a JSON content type; the new store and outbox are `PolicyStep` of the old ones |
| Tasks.Notifier.RouteEvent | pacifica/notifications/tasks.py:81-101 | posts the merged event to `target_url` with `DeliveryHeaders` and `AuthArgs` whenever the merge succeeds; the new store is `RouteStep` of the old one |

## Left out

- The Celery application and its transport (`CELERY_APP`, `@task`, `.delay`) are left out. They are a queue library, modelled as the append-only outbox. Running the enqueued tasks, and the order in which they run, is not modelled: each task is a method called with its inputs.
- The HTTP calls (`requests.post`) and the raising of `RequestException` are network I/O. The answer or the error text is an input, and the request is returned as a value.
- The JSONPath engine (`jsonpath.py` over `jsonpath2`) is left out because `jsonpath2` is not part of this model. It is a total predicate parameter. A stored expression that fails to parse would stop `dispatch_event` part-way through its loop. Because the select has no ORDER BY, which of the other rules would still get their queries is arbitrary. This is not modelled: `matches` is total, and no code validates stored expressions with the parser that `dispatch_event` uses (`jsonpath2`).
- The ORM, the database connection and the `atomic()` block are database plumbing. The atomic read-modify-write is one step on the map.
- The order of the `select()` result is not modelled, because the query has no ORDER BY. `DispatchEvent` visits the eligible rules in an arbitrary order, and its contract is stated on the multiset of tasks it enqueues.
- `datetime.now()` is the wall clock. It is a parameter.
- The policy service address is read from configuration in the source. Here it is a constant of `Notifier`. The rest of the configuration and the REST, WSGI and command-line modules are left out as HTTP and process bootstrap.
- The audit log (EventLog / EventLogMatch) and the schema-version gate are left out. `tasks.py` writes no audit records and makes no version check, and the code for both is not part of this model.
- Only the fields that `tasks.py` reads are modelled: `auth` and `extensions` are always mappings, and auth field values are strings. A null `auth`, a non-mapping `basic` or `header` entry, or a non-string credential would make the Python code raise or stringify a value; none of this is modelled.
- JSON numbers are integers; floating point is not modelled.
- `Authentication.EventAuthToRequests` mutates a `Headers` object, as the source mutates the caller's dict. The extension merge in `Notifier.RouteEvent` is done on local copies of the event's maps. The event is the task's own deserialized argument, so the in-place update of the dict in the source cannot be seen by anyone else.

/** Subscription rules (EventMatch records), the task records the pipeline
    enqueues, and the queries and updates the pipeline makes on the store. */
module Rules {
  import opened Wrappers
  import opened Values

  type UUID = string

  /** `datetime.now()` readings, taken as parameters. */
  type Timestamp = nat

  /** A rule's `auth` mapping: its `type` entry and its `basic` and `header`
      sub-mappings. An absent sub-mapping reads as the empty one, exactly as
      `auth.get('basic', {})` does. */
  datatype Auth = Auth(kind: Option<string>, basic: map<string, string>, header: map<string, string>)

  /** An EventMatch record as the tasks read it (`to_hash()`). */
  datatype Rule = Rule(
    uuid: UUID,
    user: string,
    jsonpath: string,
    targetUrl: string,
    auth: Auth,
    extensions: map<string, Json>,
    disabled: Option<Timestamp>,
    deleted: Option<Timestamp>,
    error: Option<string>)

  /** A unit of work handed to the task queue: `query_policy.delay(...)` and
      `route_event.delay(...)`. Each carries a snapshot of the rule. */
  datatype Task = QueryPolicy(rule: Rule, event: Json) | RouteEvent(rule: Rule, event: Json)

  /** The store is keyed by the records' own uuid (the primary key). */
  predicate KeyedByUuid(rules: map<UUID, Rule>)
  {
    forall id :: id in rules ==> rules[id].uuid == id
  }

  /** The selection of the dispatcher: neither deleted nor disabled. */
  predicate Eligible(r: Rule)
  {
    r.deleted.None? && r.disabled.None?
  }

  /** A rule fires for an event when it is eligible and its JSONPath matches. */
  predicate Selected(r: Rule, event: Json, matches: (string, Json) -> bool)
  {
    Eligible(r) && matches(r.jsonpath, event)
  }

  /** The uuids the query `deleted IS NULL AND disabled IS NULL` returns. */
  function EligibleIds(rules: map<UUID, Rule>): (ids: set<UUID>)
    ensures ids <= rules.Keys
    ensures forall id :: id in rules ==> (id in ids <==> rules[id].deleted.None? && rules[id].disabled.None?)
  {
    set id | id in rules && Eligible(rules[id])
  }

  /** The policy queries owed for the rules named in `ids`. */
  function QueriesOver(rules: map<UUID, Rule>, ids: set<UUID>, event: Json, matches: (string, Json) -> bool): set<Task>
  {
    set id | id in ids && id in rules && Selected(rules[id], event, matches) :: QueryPolicy(rules[id], event)
  }

  /** The policy queries an event owes: one per selected rule of the store. */
  function Queries(rules: map<UUID, Rule>, event: Json, matches: (string, Json) -> bool): set<Task>
  {
    QueriesOver(rules, rules.Keys, event, matches)
  }

  /** The record after auto-disabling: a timestamp in `disabled`, the reason in
      `error`, every other field as it was. */
  function DisabledRule(r: Rule, now: Timestamp, error: string): (d: Rule)
    ensures d.disabled == Some(now) && d.error == Some(error)
    ensures d.(disabled := r.disabled, error := r.error) == r
    ensures !Eligible(d)
  {
    r.(disabled := Some(now), error := Some(error))
  }

  /** The read-modify-write of `disable_eventmatch` on the store. A uuid that
      is not stored makes `EventMatch.get` raise, and nothing is written. */
  function DisableStore(rules: map<UUID, Rule>, id: UUID, now: Timestamp, error: string): (s: map<UUID, Rule>)
    ensures s.Keys == rules.Keys
    ensures id in rules ==> s[id].disabled == Some(now) && s[id].error == Some(error)
    ensures id in rules ==> s[id].(disabled := rules[id].disabled, error := rules[id].error) == rules[id]
    ensures forall k :: k in rules && k != id ==> s[k] == rules[k]
    ensures KeyedByUuid(rules) ==> KeyedByUuid(s)
  {
    if id in rules then rules[id := DisabledRule(rules[id], now, error)] else rules
  }

  /** Disabling twice is disabling once with the later clock and reason:
      a repeated call overwrites `disabled` and `error` and nothing else. */
  lemma DisableTwice(rules: map<UUID, Rule>, id: UUID, t1: Timestamp, e1: string, t2: Timestamp, e2: string)
    ensures DisableStore(DisableStore(rules, id, t1, e1), id, t2, e2) == DisableStore(rules, id, t2, e2)
  {
  }

  /** Every policy query owed is for a stored, selected rule, carries that
      rule's current record and the event, and each selected rule is owed one. */
  lemma QueriesExact(rules: map<UUID, Rule>, event: Json, matches: (string, Json) -> bool)
    requires KeyedByUuid(rules)
    ensures forall t :: t in Queries(rules, event, matches) ==>
      t.QueryPolicy? && t.event == event && t.rule.uuid in rules && rules[t.rule.uuid] == t.rule
      && Selected(t.rule, event, matches)
    ensures forall id :: id in rules ==>
      (QueryPolicy(rules[id], event) in Queries(rules, event, matches) <==> Selected(rules[id], event, matches))
  {
  }

  /** Adding one eligible uuid to the rules already examined adds its query,
      if it matches, and the query is new: the uuids differ. */
  lemma QueriesOverAdd(rules: map<UUID, Rule>, done: set<UUID>, id: UUID, event: Json, matches: (string, Json) -> bool)
    requires KeyedByUuid(rules)
    requires id in rules && id !in done && Eligible(rules[id])
    ensures multiset(QueriesOver(rules, done + {id}, event, matches))
         == multiset(QueriesOver(rules, done, event, matches))
          + (if matches(rules[id].jsonpath, event) then multiset{QueryPolicy(rules[id], event)} else multiset{})
  {
  }

  /** Only eligible rules can owe a query, so examining the eligible ones is enough. */
  lemma QueriesOverEligible(rules: map<UUID, Rule>, event: Json, matches: (string, Json) -> bool)
    ensures QueriesOver(rules, EligibleIds(rules), event, matches) == Queries(rules, event, matches)
  {
  }

  /** A rule just disabled is owed no query by any later dispatch. */
  lemma DisabledNeverQueried(rules: map<UUID, Rule>, id: UUID, now: Timestamp, error: string, event: Json, matches: (string, Json) -> bool)
    requires KeyedByUuid(rules)
    ensures forall t :: t in Queries(DisableStore(rules, id, now, error), event, matches) ==> t.rule.uuid != id
  {
  }
}

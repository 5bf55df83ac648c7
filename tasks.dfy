/** The dispatch pipeline: fan-out of an event over the eligible rules, the
    policy query per matching rule, the delivery, and auto-disable. The rule
    store is a map keyed by uuid; the task queue is an append-only outbox. */
module Tasks {
  import opened Wrappers
  import opened Values
  import opened Http
  import opened Rules
  import opened Authentication
  import opened Delivery

  /** `'{}/events/{}'.format(policy_url, user)`: the policy service is
      addressed per owner. */
  function PolicyUrl(base: string, user: string): (url: string)
    ensures |url| == |base| + 8 + |user|
    ensures url[..|base|] == base && url[|base|..|base| + 8] == "/events/" && url[|base| + 8..] == user
  {
    base + "/events/" + user
  }

  /** Two rules share a policy target exactly when they share an owner. */
  lemma PolicyUrlIdentifiesOwner(base: string, u1: string, u2: string)
    ensures PolicyUrl(base, u1) == PolicyUrl(base, u2) <==> u1 == u2
  {
  }

  /** A POST to the policy service. */
  datatype PolicyRequest = PolicyRequest(url: string, body: Json, headers: map<string, string>)

  /** The rule store and the outbox of enqueued tasks. */
  datatype State = State(rules: map<UUID, Rule>, outbox: seq<Task>)

  /** The effect of `query_policy` for a rule snapshot and the policy
      service's answer. A transport error escapes the task and changes nothing. */
  function PolicyStep(s: State, rule: Rule, event: Json, result: PostResult, now: Timestamp): (t: State)
    ensures result.TransportError? ==> t == s
    ensures result.Responded? && 500 <= result.response.status < 600 ==>
      t == s.(rules := DisableStore(s.rules, rule.uuid, now, result.response.text))
    ensures result.Responded? && 200 <= result.response.status < 300 ==>
      t == s.(outbox := s.outbox + [RouteEvent(rule, event)])
    ensures result.Responded? && !(200 <= result.response.status < 300) && !(500 <= result.response.status < 600) ==>
      t == s
  {
    match result
    case TransportError(_) => s
    case Responded(resp) =>
      match PolicyVerdictOf(resp.status)
      case DisableRule => s.(rules := DisableStore(s.rules, rule.uuid, now, resp.text))
      case Rejected => s
      case Authorized => s.(outbox := s.outbox + [RouteEvent(rule, event)])
      case NoEffect => s
  }

  /** The effect of `route_event` for a rule snapshot and the target's answer.
      An event that cannot take the merged extensions makes the task raise
      before anything is sent; a transport error disables the rule with the
      exception text; a 4xx or 5xx answer disables it with the body. */
  function RouteStep(s: State, rule: Rule, event: Json, result: PostResult, now: Timestamp): (t: State)
    ensures t.outbox == s.outbox
    ensures MergedEvent(event, rule.extensions).None? ==> t == s
    ensures MergedEvent(event, rule.extensions).Some? && result.TransportError? ==>
      t.rules == DisableStore(s.rules, rule.uuid, now, result.message)
    ensures MergedEvent(event, rule.extensions).Some? && result.Responded? && 400 <= result.response.status < 600 ==>
      t.rules == DisableStore(s.rules, rule.uuid, now, result.response.text)
    ensures result.Responded? && !(400 <= result.response.status < 600) ==> t == s
  {
    if MergedEvent(event, rule.extensions).None? then s
    else
      match result
      case TransportError(message) => s.(rules := DisableStore(s.rules, rule.uuid, now, message))
      case Responded(resp) =>
        if DeliveryFailed(resp.status) then s.(rules := DisableStore(s.rules, rule.uuid, now, resp.text)) else s
  }

  /** A 5xx from the policy service disables the stored rule with the body as
      reason, and no later event is queried for it. */
  lemma PolicyServerErrorDisables(s: State, rule: Rule, event: Json, resp: Response, now: Timestamp,
                                  later: Json, matches: (string, Json) -> bool)
    requires KeyedByUuid(s.rules) && rule.uuid in s.rules
    requires 500 <= resp.status < 600
    ensures var t := PolicyStep(s, rule, event, Responded(resp), now);
      t.rules[rule.uuid].disabled == Some(now) && t.rules[rule.uuid].error == Some(resp.text)
      && t.outbox == s.outbox
      && forall q :: q in Queries(t.rules, later, matches) ==> q.rule.uuid != rule.uuid
  {
  }

  /** A failed delivery (transport error, 4xx or 5xx) disables the stored rule
      with its reason, and no later event is queried for it. */
  lemma DeliveryFailureDisables(s: State, rule: Rule, event: Json, result: PostResult, now: Timestamp,
                                later: Json, matches: (string, Json) -> bool)
    requires KeyedByUuid(s.rules) && rule.uuid in s.rules
    requires MergedEvent(event, rule.extensions).Some?
    requires result.TransportError? || 400 <= result.response.status < 600
    ensures var t := RouteStep(s, rule, event, result, now);
      var reason := if result.TransportError? then result.message else result.response.text;
      t.rules[rule.uuid].disabled == Some(now) && t.rules[rule.uuid].error == Some(reason)
      && forall q :: q in Queries(t.rules, later, matches) ==> q.rule.uuid != rule.uuid
  {
  }

  /** A 2xx policy answer followed by a 2xx delivery leaves the store as it
      was; the only trace is the one route task. */
  lemma AuthorizedAndDeliveredKeepsRule(s: State, rule: Rule, event: Json, policy: Response, delivery: Response,
                                        t1: Timestamp, t2: Timestamp)
    requires 200 <= policy.status < 300 && 200 <= delivery.status < 300
    ensures var mid := PolicyStep(s, rule, event, Responded(policy), t1);
      mid.outbox == s.outbox + [RouteEvent(rule, event)]
      && RouteStep(mid, rule, event, Responded(delivery), t2).rules == s.rules
  {
  }

  /** A 4xx policy answer is a rejection: the rule stays as it was and no
      delivery is ever attempted for this event. */
  lemma PolicyRejectionIsTerminal(s: State, rule: Rule, event: Json, resp: Response, now: Timestamp)
    requires 400 <= resp.status < 500
    ensures PolicyStep(s, rule, event, Responded(resp), now) == s
  {
  }

  /** The notification service: the rule store, the task outbox and the
      configured policy service address. */
  class Notifier {
    var rules: map<UUID, Rule>
    var outbox: seq<Task>
    const policyUrl: string

    ghost predicate Valid()
      reads this
    {
      KeyedByUuid(rules)
    }

    constructor (policyUrl: string, rules: map<UUID, Rule>)
      requires KeyedByUuid(rules)
      ensures Valid()
      ensures this.policyUrl == policyUrl && this.rules == rules && outbox == []
    {
      this.policyUrl := policyUrl;
      this.rules := rules;
      outbox := [];
    }

    /** `dispatch_event`: selects the eligible rules, runs the matcher on each
        and enqueues one policy query per match. `examined` is the ghost set of
        uuids the loop visited. */
    method DispatchEvent(event: Json, matches: (string, Json) -> bool) returns (sent: seq<Task>, ghost examined: set<UUID>)
      requires Valid()
      modifies this`outbox
      ensures Valid() && rules == old(rules)
      ensures outbox == old(outbox) + sent
      ensures examined == EligibleIds(rules)
      ensures multiset(sent) == multiset(Queries(rules, event, matches))
      ensures forall id :: id in rules ==>
        multiset(sent)[Task.QueryPolicy(rules[id], event)] == if Selected(rules[id], event, matches) then 1 else 0
      ensures forall t :: t in sent ==>
        t.QueryPolicy? && t.event == event && t.rule.uuid in rules && rules[t.rule.uuid] == t.rule
        && Selected(t.rule, event, matches)
    {
      var eligible := EligibleIds(rules);
      var todo := eligible;
      sent, examined := [], {};
      while todo != {}
        invariant todo <= eligible && examined == eligible - todo
        invariant outbox == old(outbox) + sent
        invariant multiset(sent) == multiset(QueriesOver(rules, examined, event, matches))
        decreases todo
      {
        var id :| id in todo;
        var rule := rules[id];
        QueriesOverAdd(rules, examined, id, event, matches);
        if matches(rule.jsonpath, event) {
          outbox := outbox + [Task.QueryPolicy(rule, event)];
          sent := sent + [Task.QueryPolicy(rule, event)];
        }
        todo, examined := todo - {id}, examined + {id};
      }
      QueriesOverEligible(rules, event, matches);
      QueriesExact(rules, event, matches);
      forall t | t in sent
        ensures t in Queries(rules, event, matches)
      {
        assert t in multiset(sent);
      }
    }

    /** `disable_eventmatch`: one read-modify-write of the stored rule with
        this uuid. `found` is false where `EventMatch.get` would raise. */
    method DisableEventMatch(id: UUID, error: string, now: Timestamp) returns (found: bool)
      requires Valid()
      modifies this`rules
      ensures Valid()
      ensures found == (id in old(rules))
      ensures rules == DisableStore(old(rules), id, now, error)
    {
      found := id in rules;
      if found {
        var rule := rules[id];
        rule := rule.(disabled := Some(now));
        rule := rule.(error := Some(error));
        rules := rules[id := rule];
      }
    }

    /** `query_policy`: posts the event to the owner's policy endpoint and acts
        on the status class of the answer. */
    method QueryPolicy(rule: Rule, event: Json, result: PostResult, now: Timestamp) returns (request: PolicyRequest)
      requires Valid()
      modifies this
      ensures Valid()
      ensures request.url == PolicyUrl(policyUrl, rule.user) && request.body == event
      ensures request.headers == map["Content-Type" := "application/json"]
      ensures State(rules, outbox) == PolicyStep(State(old(rules), old(outbox)), rule, event, result, now)
    {
      request := PolicyRequest(PolicyUrl(policyUrl, rule.user), event, JsonContentType);
      if result.TransportError? {
        return;
      }
      var major := StatusClass(result.response.status);
      if major == 5 {
        var found := DisableEventMatch(rule.uuid, result.response.text, now);
      }
      if major == 4 {
        return;
      }
      if major == 2 {
        outbox := outbox + [Task.RouteEvent(rule, event)];
      }
    }

    /** `route_event`: merges the extensions, builds headers and auth, posts the
        event to the rule's target and disables the rule on failure.
        `request` is None when the merge raises and nothing is posted. */
    method RouteEvent(rule: Rule, event: Json, result: PostResult, now: Timestamp) returns (request: Option<DeliveryRequest>)
      requires Valid()
      modifies this`rules
      ensures Valid()
      ensures request.Some? <==> MergedEvent(event, rule.extensions).Some?
      ensures request.Some? ==> request.value == DeliveryRequest(
        rule.targetUrl, MergedEvent(event, rule.extensions).value, DeliveryHeaders(rule.auth), AuthArgs(rule.auth))
      ensures State(rules, outbox) == RouteStep(State(old(rules), outbox), rule, event, result, now)
    {
      var ext := EventExtensions(event);
      if ext.None? {
        return None;
      }
      var newExtensions := ext.value;
      newExtensions := newExtensions + rule.extensions;
      var payload := JObject(event.fields["extensions" := JObject(newExtensions)]);
      var headers := new Headers(JsonContentType);
      var args := EventAuthToRequests(rule, headers);
      request := Some(DeliveryRequest(rule.targetUrl, payload, headers.entries, args));
      match result
      case TransportError(message) =>
        var found := DisableEventMatch(rule.uuid, message, now);
      case Responded(resp) =>
        var major := StatusClass(resp.status);
        if major == 5 || major == 4 {
          var found := DisableEventMatch(rule.uuid, resp.text, now);
        }
    }
  }
}

/** Event topics, subscription patterns, and when a grant contains a subscription. */
module Subscriptions {
  import opened Characters

  const MAX_TOPIC_LENGTH := 128

  predicate TopicChar(c: char) {
    AsciiAlnum(c) || c == '.' || c == '_' || c == ':' || c == '-'
  }

  predicate ValidTopic(topic: string) {
    && 1 <= |topic| <= MAX_TOPIC_LENGTH && AsciiAlnum(topic[0])
    && forall k :: 0 <= k < |topic| ==> TopicChar(topic[k])
  }

  predicate EndsWithStar(pattern: string) {
    pattern != "" && pattern[|pattern|-1] == '*'
  }

  /** What stands before a final star. */
  function Prefix(pattern: string): string
    requires EndsWithStar(pattern)
  {
    pattern[..|pattern|-1]
  }

  predicate ValidSubscription(pattern: string) {
    if pattern == "*" then true
    else if !(1 <= |pattern| <= MAX_TOPIC_LENGTH) then false
    else if EndsWithStar(pattern) then Prefix(pattern) != "" && ValidTopic(Prefix(pattern))
    else ValidTopic(pattern)
  }

  predicate Matches(pattern: string, topic: string) {
    if pattern == "*" then true
    else if EndsWithStar(pattern) then Prefix(pattern) <= topic
    else pattern == topic
  }

  /** The check the supervisor makes: syntax only. */
  predicate Covers(grant: string, requested: string) {
    if !ValidSubscription(grant) || !ValidSubscription(requested) then false
    else if grant == "*" then true
    else if !EndsWithStar(grant) then grant == requested
    else Prefix(grant) <= (if EndsWithStar(requested) then Prefix(requested) else requested)
  }

  /** What the check is meant to decide: every topic the one admits is admitted by the other. */
  ghost predicate Contains(grant: string, requested: string) {
    forall topic :: ValidTopic(topic) && Matches(requested, topic) ==> Matches(grant, topic)
  }

  lemma CoveringContains(grant: string, requested: string)
    requires Covers(grant, requested)
    ensures Contains(grant, requested)
  {
    forall topic | ValidTopic(topic) && Matches(requested, topic) ensures Matches(grant, topic) {
      if grant != "*" && EndsWithStar(grant) {
        if requested != "*" && EndsWithStar(requested) {
          assert Prefix(grant) <= Prefix(requested) <= topic;
        }
      }
    }
  }

  /** A prefix pattern admits its own prefix and, there being room, one letter more. */
  lemma TwoTopics(pattern: string) returns (a: string, b: string)
    requires ValidSubscription(pattern) && EndsWithStar(pattern)
    ensures ValidTopic(a) && ValidTopic(b) && Matches(pattern, a) && Matches(pattern, b)
    ensures if pattern == "*" then a == "a" && b == "b" else a == Prefix(pattern) && b == a + "a"
  {
    if pattern == "*" {
      a, b := "a", "b";
    } else {
      a := Prefix(pattern);
      b := a + "a";
    }
  }

  lemma ContainingCovers(grant: string, requested: string)
    requires ValidSubscription(grant) && ValidSubscription(requested) && Contains(grant, requested)
    ensures Covers(grant, requested)
  {
    if EndsWithStar(requested) {
      var a, b := TwoTopics(requested);
      assert Matches(grant, a) && Matches(grant, b);
    } else {
      assert ValidTopic(requested) && Matches(requested, requested);
      assert Matches(grant, requested);
    }
  }

  /** The syntactic check is exactly containment. */
  lemma CoversIsContainment(grant: string, requested: string)
    requires ValidSubscription(grant) && ValidSubscription(requested)
    ensures Covers(grant, requested) <==> Contains(grant, requested)
  {
    if Covers(grant, requested) { CoveringContains(grant, requested); }
    if Contains(grant, requested) { ContainingCovers(grant, requested); }
  }

  // ---- Permissions ----

  datatype Action = Publish | Subscribe

  function PermissionPrefix(action: Action): string {
    match action case Publish => "mipc.event:publish:" case Subscribe => "mipc.event:subscribe:"
  }

  predicate Grants(action: Action, permission: string, requested: string) {
    PermissionPrefix(action) <= permission && Covers(permission[|PermissionPrefix(action)|..], requested)
  }

  /** Does some permission grant the action on the requested pattern? */
  predicate AllowsEvent(permissions: set<string>, action: Action, requested: string) {
    && (action == Publish ==> ValidTopic(requested))
    && (action == Subscribe ==> ValidSubscription(requested))
    && exists p :: p in permissions && Grants(action, p, requested)
  }

  /** Does some permission grant the action on this very topic? */
  ghost predicate Entitled(permissions: set<string>, action: Action, topic: string) {
    exists grant :: PermissionPrefix(action) + grant in permissions && Matches(grant, topic)
  }

  /** Whoever may subscribe to a pattern is entitled to every topic it admits. */
  lemma SubscriberIsEntitled(permissions: set<string>, action: Action, pattern: string, topic: string)
    requires AllowsEvent(permissions, action, pattern) && ValidTopic(topic) && Matches(pattern, topic)
    ensures Entitled(permissions, action, topic)
  {
    hide Covers, Matches, ValidTopic, ValidSubscription;
    var prefix := PermissionPrefix(action);
    var p :| p in permissions && Grants(action, p, pattern);
    var grant := p[|prefix|..];
    CoveringContains(grant, pattern);
    assert prefix + grant == p;
  }

  /** Topics match themselves. */
  lemma TopicMatchesItself(topic: string)
    requires ValidTopic(topic)
    ensures Matches(topic, topic)
  {
  }
}

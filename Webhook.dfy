/** The webhook event classifier: which decoded payloads become a log entry,
    whom each entry names as its subject and to which actor class it is
    attributed. The registry lookup is the oracle `lookupSucceeds`: it is true
    of an id exactly when the registry call for that id returns no error. */
module Webhook {
  import opened Wrappers
  import opened StatsModel

  /** A JSON value stored under a key of the payload's `data` object: a
      string, or a value of any other JSON type (null included). */
  datatype Value = Str(s: string) | Other

  /** A decoded webhook body. */
  datatype WebhookPayload = WebhookPayload(
    eventType: string,
    created: string,
    object: string,
    data: map<string, Value>)

  /** The string under `field`, or "" when the key is absent or holds a
      value that is not a string; it never fails. */
  function ParseField(src: map<string, Value>, field: string): (r: string)
    ensures field in src && src[field].Str? ==> r == src[field].s
    ensures field !in src || src[field].Other? ==> r == ""
  {
    if field in src then
      match src[field]
      case Str(s) => s
      case Other => ""
    else ""
  }

  /** `sub` occurs in `s` starting at position `i`. */
  ghost predicate OccursAt(s: string, sub: string, i: int)
  {
    0 <= i && i + |sub| <= |s| && s[i..i + |sub|] == sub
  }

  /** Substring search, as the handler's `strings.Contains`. */
  function Contains(s: string, sub: string): bool
    decreases |s|
  {
    if |s| < |sub| then false
    else if s[..|sub|] == sub then true
    else Contains(s[1..], sub)
  }

  /** The search finds `sub` exactly when it occurs somewhere in `s`. */
  lemma {:induction false} ContainsIff(s: string, sub: string)
    ensures Contains(s, sub) <==> exists i :: OccursAt(s, sub, i)
    decreases |s|
  {
    if |s| < |sub| {
      forall i ensures !OccursAt(s, sub, i) { }
    } else if s[..|sub|] == sub {
      assert OccursAt(s, sub, 0);
    } else {
      ContainsIff(s[1..], sub);
      if Contains(s[1..], sub) {
        var i :| OccursAt(s[1..], sub, i);
        assert s[i + 1..i + 1 + |sub|] == s[1..][i..i + |sub|];
        assert OccursAt(s, sub, i + 1);
      } else {
        forall i | OccursAt(s, sub, i) ensures false {
          assert i != 0;
          assert s[1..][i - 1..i - 1 + |sub|] == s[i..i + |sub|];
          assert OccursAt(s[1..], sub, i - 1);
        }
      }
    }
  }

  /** How the actor class of a recognised event is decided. */
  datatype ActorRule =
    | Fixed(createdBy: CreateType)  // always this class
    | InviteLink                    // admin iff `inviteUrl` contains "/u/", else client
    | RegistryLookup                // admin unless the subject is non-empty and its lookup succeeds

  /** The field naming an event's subject, and its actor rule. */
  datatype Rule = Rule(subjectField: string, actor: ActorRule)

  const RecognisedEvents: set<string> := {
    "client.created", "client.deleted", "client.activated", "form_response.completed",
    "file.created", "link.created", "message.sent"
  }

  /** The classification table: one rule per recognised event type. */
  function RuleFor(eventType: string): (r: Option<Rule>)
    ensures r.Some? <==> eventType in RecognisedEvents
  {
    if eventType == "client.created" then Some(Rule("id", InviteLink))
    else if eventType == "client.deleted" then Some(Rule("id", Fixed(Admin)))
    else if eventType == "client.activated" then Some(Rule("id", Fixed(Client)))
    else if eventType == "form_response.completed" then Some(Rule("clientId", Fixed(Client)))
    else if eventType == "file.created" || eventType == "link.created" then Some(Rule("createdBy", RegistryLookup))
    else if eventType == "message.sent" then Some(Rule("senderId", RegistryLookup))
    else None
  }

  /** What handling one webhook body comes to. */
  datatype Outcome =
    | NotDecoded               // the body was not valid JSON for a payload
    | Ignored                  // the event type has no rule
    | Panicked                 // the `inviteUrl` type assertion failed and the handler aborted
    | Recorded(entry: ActivityLog)

  /** The entries a handled body adds to the log: its one entry, if any. */
  function Inserted(o: Outcome): (r: seq<ActivityLog>)
    ensures |r| <= 1
    ensures r != [] <==> o.Recorded?
  {
    if o.Recorded? then [o.entry] else []
  }

  /** `data.inviteUrl` is present but is not a string. */
  predicate InviteUrlNotString(data: map<string, Value>)
  {
    "inviteUrl" in data && data["inviteUrl"].Other?
  }

  /** `data.inviteUrl` is a string containing "/u/", the mark of an invitation link. */
  predicate InvitedLink(data: map<string, Value>)
  {
    "inviteUrl" in data && data["inviteUrl"].Str? && Contains(data["inviteUrl"].s, "/u/")
  }

  /** The classification of one body received at time `now`, by the table. */
  function Classify(body: Option<WebhookPayload>, now: int, lookupSucceeds: string -> bool): Outcome
  {
    match body
    case None => NotDecoded
    case Some(p) =>
      match RuleFor(p.eventType)
      case None => Ignored
      case Some(rule) =>
        var subject := ParseField(p.data, rule.subjectField);
        match rule.actor
        case Fixed(c) => Recorded(ActivityLog("", p.eventType, subject, c, now))
        case InviteLink =>
          if InviteUrlNotString(p.data) then Panicked
          else Recorded(ActivityLog("", p.eventType, subject, if InvitedLink(p.data) then Admin else Client, now))
        case RegistryLookup =>
          var c := if subject != "" && lookupSucceeds(subject) then Client else Admin;
          Recorded(ActivityLog("", p.eventType, subject, c, now))
  }

  /** The ids the classifier looks up in the registry for one body, in order. */
  function RegistryQueries(body: Option<WebhookPayload>): (r: seq<string>)
    ensures |r| <= 1
  {
    if body.None? then []
    else
      match RuleFor(body.value.eventType)
      case None => []
      case Some(rule) =>
        var subject := ParseField(body.value.data, rule.subjectField);
        if rule.actor.RegistryLookup? && subject != "" then [subject] else []
  }

  /** An undecodable body or an unrecognised event type adds nothing and
      queries nothing; every other completed classification records one entry
      carrying the payload's event type, the time of classification and no id. */
  lemma NoEntryUnlessRecognised(body: Option<WebhookPayload>, now: int, lookupSucceeds: string -> bool)
    ensures body.None? ==> Classify(body, now, lookupSucceeds) == NotDecoded
    ensures body.Some? && body.value.eventType !in RecognisedEvents ==>
      Classify(body, now, lookupSucceeds) == Ignored && RegistryQueries(body) == []
    ensures body.Some? && body.value.eventType in RecognisedEvents ==>
      match Classify(body, now, lookupSucceeds)
      case Recorded(e) => e.eventType == body.value.eventType && e.createDate == now && e.id == ""
      case Panicked => body.value.eventType == "client.created"
      case _ => false
  {
  }

  /** `client.created`: the subject is `data.id`; the class is admin exactly
      when `inviteUrl` is present and contains "/u/", else client; a present
      `inviteUrl` that is not a string aborts the handler with no entry. */
  lemma ClientCreatedAttribution(p: WebhookPayload, now: int, lookupSucceeds: string -> bool)
    requires p.eventType == "client.created"
    ensures Classify(Some(p), now, lookupSucceeds) == Panicked <==> InviteUrlNotString(p.data)
    ensures !InviteUrlNotString(p.data) ==>
      var o := Classify(Some(p), now, lookupSucceeds);
      && o.Recorded?
      && o.entry.userId == ParseField(p.data, "id")
      && (o.entry.createdBy == Admin <==> "inviteUrl" in p.data && Contains(p.data["inviteUrl"].s, "/u/"))
    ensures RegistryQueries(Some(p)) == []
  {
  }

  /** `client.deleted` is always admin, `client.activated` and
      `form_response.completed` always client, whatever else the payload holds. */
  lemma FixedAttribution(p: WebhookPayload, now: int, lookupSucceeds: string -> bool)
    requires p.eventType in {"client.deleted", "client.activated", "form_response.completed"}
    ensures Classify(Some(p), now, lookupSucceeds) == Recorded(ActivityLog(
      "", p.eventType,
      ParseField(p.data, if p.eventType == "form_response.completed" then "clientId" else "id"),
      if p.eventType == "client.deleted" then Admin else Client,
      now))
    ensures RegistryQueries(Some(p)) == []
  {
  }

  /** `file.created`, `link.created` and `message.sent`: the subject is
      `createdBy` (`senderId` for messages); with an empty subject the class is
      admin and no lookup is made; otherwise exactly one lookup of the subject is
      made and the class is client exactly when it succeeds. */
  lemma RegistryAttribution(p: WebhookPayload, now: int, lookupSucceeds: string -> bool)
    requires p.eventType in {"file.created", "link.created", "message.sent"}
    ensures
      var subject := ParseField(p.data, if p.eventType == "message.sent" then "senderId" else "createdBy");
      var o := Classify(Some(p), now, lookupSucceeds);
      && o.Recorded? && o.entry.userId == subject
      && (subject == "" ==> o.entry.createdBy == Admin && RegistryQueries(Some(p)) == [])
      && (subject != "" ==> RegistryQueries(Some(p)) == [subject]
                            && (o.entry.createdBy == Client <==> lookupSucceeds(subject)))
  {
  }

  /** The classification depends on the registry only through the lookups it
      makes: two registries that agree on the queried ids classify alike. */
  lemma OnlyQueriedLookupsMatter(body: Option<WebhookPayload>, now: int, r1: string -> bool, r2: string -> bool)
    requires forall id :: id in RegistryQueries(body) ==> r1(id) == r2(id)
    ensures Classify(body, now, r1) == Classify(body, now, r2)
  {
    if body.Some? && RuleFor(body.value.eventType).Some? {
      var rule := RuleFor(body.value.eventType).value;
      var subject := ParseField(body.value.data, rule.subjectField);
      if rule.actor.RegistryLookup? && subject != "" {
        assert subject in RegistryQueries(body);
      }
    }
  }

  /** Entries of the event types whose class is fixed carry that class. */
  predicate WellAttributed(e: ActivityLog)
  {
    && (e.eventType == "client.deleted" ==> e.createdBy == Admin)
    && (e.eventType == "client.activated" ==> e.createdBy == Client)
    && (e.eventType == "form_response.completed" ==> e.createdBy == Client)
  }

  lemma ClassifiedEntriesWellAttributed(body: Option<WebhookPayload>, now: int, lookupSucceeds: string -> bool)
    ensures forall e :: e in Inserted(Classify(body, now, lookupSucceeds)) ==> WellAttributed(e)
  {
  }

  /** A `client.created` event with an invitation link is attributed to an admin. */
  lemma InvitedSignupScenario(now: int, lookupSucceeds: string -> bool)
    ensures Classify(Some(WebhookPayload("client.created", "", "", map["id" := Str("u1"), "inviteUrl" := Str("https://x/u/abc")])),
                     now, lookupSucceeds)
         == Recorded(ActivityLog("", "client.created", "u1", Admin, now))
  {
    var url := "https://x/u/abc";
    var data := map["id" := Str("u1"), "inviteUrl" := Str(url)];
    assert url[9..12] == "/u/";
    assert OccursAt(url, "/u/", 9);
    ContainsIff(url, "/u/");
    assert InvitedLink(data) && !InviteUrlNotString(data);
    assert ParseField(data, "id") == "u1";
  }

  /** A `client.created` event without an invitation link is a direct signup. */
  lemma DirectSignupScenario(now: int, lookupSucceeds: string -> bool)
    ensures Classify(Some(WebhookPayload("client.created", "", "", map["id" := Str("u2")])), now, lookupSucceeds)
         == Recorded(ActivityLog("", "client.created", "u2", Client, now))
  {
  }
}

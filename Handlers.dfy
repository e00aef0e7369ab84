/** The two HTTP handlers over the shared activity log store: the webhook
    receiver, which classifies one event and appends its entry, and the
    dashboard reader, which assembles the charts. Request decoding, response
    encoding and the clock are outside the model: the handlers receive the
    decoded body, the current time and day, and the results of the store
    queries that are not modelled. */
module Handlers {
  import opened Wrappers
  import opened StatsModel
  import opened ActivityStore
  import opened Webhook
  import opened Stats

  class APIHandlers {
    const store: ActivityLogStore

    constructor (store: ActivityLogStore)
      ensures this.store == store
    {
      this.store := store;
    }

    /** Handles one webhook delivery. `body` is None when the request body is
        not a decodable payload; `lookupSucceeds` tells whether the registry
        answers for an id without error. Returns the ids looked up, in order.
        Appends the one entry of a completed classification and nothing else;
        the entries already stored are never changed. */
    method WebhookEvents(body: Option<WebhookPayload>, now: int, lookupSucceeds: string -> bool)
      returns (queried: seq<string>)
      modifies store
      ensures store.entries == old(store.entries) + Inserted(Classify(body, now, lookupSucceeds))
      ensures queried == RegistryQueries(body)
      ensures (forall e :: e in old(store.entries) ==> WellAttributed(e)) ==>
              (forall e :: e in store.entries ==> WellAttributed(e))
    {
      queried := [];
      if body.None? {
        return;  // the payload could not be decoded
      }
      var payload := body.value;
      // Every branch that reaches the insert sets `createdBy` itself.
      var activityLog := ActivityLog("", payload.eventType, "", Client, now);
      if payload.eventType == "client.created" {
        activityLog := activityLog.(createdBy := Client);
        if "inviteUrl" in payload.data {
          var inviteUrl := payload.data["inviteUrl"];
          if inviteUrl.Other? {
            return;  // the string type assertion panics and the handler aborts
          }
          if Contains(inviteUrl.s, "/u/") {
            activityLog := activityLog.(createdBy := Admin);
          }
        }
        activityLog := activityLog.(userId := ParseField(payload.data, "id"));
      } else if payload.eventType == "client.deleted" {
        activityLog := activityLog.(createdBy := Admin, userId := ParseField(payload.data, "id"));
      } else if payload.eventType == "client.activated" {
        activityLog := activityLog.(createdBy := Client, userId := ParseField(payload.data, "id"));
      } else if payload.eventType == "form_response.completed" {
        activityLog := activityLog.(createdBy := Client);
        var createdBy := ParseField(payload.data, "clientId");
        activityLog := activityLog.(userId := createdBy);
      } else if payload.eventType in {"file.created", "link.created", "message.sent"} {
        var createdByFieldName := "createdBy";
        if payload.eventType == "message.sent" {
          createdByFieldName := "senderId";
        }
        var createdBy := ParseField(payload.data, createdByFieldName);
        activityLog := activityLog.(userId := createdBy, createdBy := Admin);
        if createdBy != "" {
          queried := queried + [createdBy];
          if lookupSucceeds(createdBy) {
            activityLog := activityLog.(createdBy := Client);
          }
        }
      } else {
        return;  // an event type with no rule
      }
      store.InsertActivity(activityLog);
      ClassifiedEntriesWellAttributed(body, now, lookupSucceeds);
    }

    /** Assembles the dashboard response from the log and from the outcomes of
        the per-day (`eventCounts`) and per-client (`byUser`) store queries;
        `today` is the day number of the request. */
    method GetActivityStats(eventCounts: Result<seq<int>>, byUser: Result<seq<ActivityStatsDataPoint>>, today: int)
      returns (result: ActivityStatsResponse)
      ensures result.data == Present(Builders(store.entries, eventCounts, byUser, today))
      ensures 2 <= |result.data| <= 4
      ensures result.data[0] == SignupData(store.entries).value
      ensures ActivityPerPortal(store.entries).value in result.data
      ensures |result.data| == 4 <==> eventCounts.Ok? && byUser.Ok?
    {
      var log := store.entries;
      var data: seq<ActivityStatsInfo> := [];
      var signups := SignupData(log);
      if signups.Ok? {
        data := data + [signups.value];
      }
      var signupTrend := SigupLineChart(eventCounts, today);
      if signupTrend.Ok? {
        data := data + [signupTrend.value];
      }
      var activityPerPortal := ActivityPerPortal(log);
      if activityPerPortal.Ok? {
        data := data + [activityPerPortal.value];
      }
      var activityPerClient := PortalPerClient(byUser);
      if activityPerClient.Ok? {
        data := data + [activityPerClient.value];
      }
      result := ActivityStatsResponse(data);
      ResponseShape(log, eventCounts, byUser, today);
    }
  }

  /** A webhook's entry reaches the dashboard: classifying a `client.created`
      body and appending its entry adds one to the invited slice when the
      invitation link is present and to the direct slice otherwise, and
      leaves the other slice unchanged. */
  lemma {:induction false} SignupReachesDashboard(log: seq<ActivityLog>, p: WebhookPayload, now: int, lookupSucceeds: string -> bool)
    requires p.eventType == "client.created" && !InviteUrlNotString(p.data)
    ensures
      var log' := log + Inserted(Classify(Some(p), now, lookupSucceeds));
      var before, after := SignupData(log).value.data, SignupData(log').value.data;
      && after[1].count == before[1].count + (if InvitedLink(p.data) then 1 else 0)
      && after[0].count == before[0].count + (if InvitedLink(p.data) then 0 else 1)
  {
    var e := Classify(Some(p), now, lookupSucceeds).entry;
    assert Inserted(Classify(Some(p), now, lookupSucceeds)) == [e];
    CountForEventsAppend(log, e, "client.created", Admin);
    CountForEventsAppend(log, e, "client.created", Client);
  }

  /** A deleted client is counted once more by the dashboard's first portal bar. */
  lemma {:induction false} DeletionReachesDashboard(log: seq<ActivityLog>, p: WebhookPayload, now: int, lookupSucceeds: string -> bool)
    requires p.eventType == "client.deleted"
    ensures
      var log' := log + Inserted(Classify(Some(p), now, lookupSucceeds));
      ActivityPerPortal(log').value.data[0].count == ActivityPerPortal(log).value.data[0].count + 1
  {
    var e := Classify(Some(p), now, lookupSucceeds).entry;
    assert Inserted(Classify(Some(p), now, lookupSucceeds)) == [e];
    CountForEventsAppend(log, e, "client.deleted", Admin);
  }
}

/** The activity log store, kept abstract: an append-only sequence of
    entries, with the count query the dashboard builders issue. */
module ActivityStore {
  import opened StatsModel

  /** How many entries of the log have this event type and actor class
      (the store's `GetCountForEvents`); 0 on an empty log. */
  function CountForEvents(log: seq<ActivityLog>, eventType: string, createdBy: CreateType): (n: nat)
    ensures n <= |log|
    ensures n == 0 <== log == []
  {
    if log == [] then 0
    else (if log[0].eventType == eventType && log[0].createdBy == createdBy then 1 else 0)
         + CountForEvents(log[1..], eventType, createdBy)
  }

  /** How many entries of the log have this event type, whoever caused them. */
  function CountOfKind(log: seq<ActivityLog>, eventType: string): (n: nat)
    ensures n <= |log|
  {
    if log == [] then 0
    else (if log[0].eventType == eventType then 1 else 0) + CountOfKind(log[1..], eventType)
  }

  /** Appending one entry adds one to exactly the count it matches. */
  lemma {:induction false} CountForEventsAppend(log: seq<ActivityLog>, e: ActivityLog, eventType: string, createdBy: CreateType)
    ensures CountForEvents(log + [e], eventType, createdBy)
         == CountForEvents(log, eventType, createdBy) + (if e.eventType == eventType && e.createdBy == createdBy then 1 else 0)
  {
    if log != [] {
      assert (log + [e])[1..] == log[1..] + [e];
      CountForEventsAppend(log[1..], e, eventType, createdBy);
    }
  }

  /** Every entry is a client's or an admin's, so the two counts of an event
      type add up to all its entries. */
  lemma {:induction false} CountSplitByActor(log: seq<ActivityLog>, eventType: string)
    ensures CountForEvents(log, eventType, Client) + CountForEvents(log, eventType, Admin) == CountOfKind(log, eventType)
  {
    if log != [] {
      CountSplitByActor(log[1..], eventType);
    }
  }

  /** The persistent log. Entries are only ever appended. */
  class ActivityLogStore {
    var entries: seq<ActivityLog>

    /** Opens the store over the entries it already holds, which may come
        from earlier runs of the service. */
    constructor (initial: seq<ActivityLog>)
      ensures entries == initial
    {
      entries := initial;
    }

    /** Persists one entry after all the earlier ones. */
    method InsertActivity(entry: ActivityLog)
      modifies this
      ensures entries == old(entries) + [entry]
    {
      entries := entries + [entry];
    }
  }
}

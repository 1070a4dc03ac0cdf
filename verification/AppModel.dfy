/**
 The applications table and UpsertApplications of
 internal/database/repository/application.go as functions on it.
 */
module AppModel {
  import opened Options
  import opened UpsertTable
  import opened QueueModel

  /** Columns merged with COALESCE(EXCLUDED.c, applications.c). */
  datatype AppColumn =
    | UsedResource | MaxUsedResource | AppPendingResource | FinishedTime | Requests | Allocations | State
    | RejectedMessage | StateLog | PlaceHolderData | HasReserved | Reservations | MaxRequestPriority

  /** A reported application; a COALESCE column absent from `values` is NULL. */
  datatype App = App(
    appId: string, partition: string, queueName: string, values: map<AppColumn, Json>,
    submissionTime: Option<Json>, user: Option<Json>, groups: Option<Json>)

  datatype AppKey = AppKey(partition: string, queueName: string, appId: string)

  datatype AppFixed = AppFixed(
    id: Id, queueId: Id, submissionTime: Option<Json>, user: Option<Json>, groups: Option<Json>)

  type ARow = Row<AppKey, AppFixed, AppColumn, Json>

  function AppKeyOf(a: App): AppKey {
    AppKey(a.partition, a.queueName, a.appId)
  }

  function NewAppFixed(id: Id, queueId: Id, a: App): AppFixed {
    AppFixed(id, queueId, a.submissionTime, a.user, a.groups)
  }

  datatype AppOutcome = AppOutcome(table: seq<ARow>, budget: nat, ok: bool)

  /**
   The upsert statement, given the queue id looked up before; queue_id is NOT NULL.  COALESCE keeps the
   stored value wherever the new one is NULL, so the non-NULL values are the patch.
   */
  function AppExec(t: seq<ARow>, uuid: Supply, a: App, queueId: Option<Id>): Result<seq<ARow>> {
    if queueId.None? then Err
    else Ok(Put(t, AppKeyOf(a), NewAppFixed(uuid(|t|), queueId.value, a), a.values))
  }

  function AppRow(t: seq<ARow>, queues: seq<QRow>, uuid: Supply, a: App): Result<seq<ARow>> {
    match Lookup(queues, a.queueName, a.partition)
    case Err => Err
    case Ok(queueId) => AppExec(t, uuid, a, queueId)
  }

  function UpsertApps(t: seq<ARow>, queues: seq<QRow>, uuid: Supply, apps: seq<App>, budget: nat): AppOutcome
    decreases apps
  {
    if apps == [] then AppOutcome(t, budget, true)
    else if budget == 0 || AppRow(t, queues, uuid, apps[0]).Err? then AppOutcome(t, budget, false)
    else UpsertApps(AppRow(t, queues, uuid, apps[0]).value, queues, uuid, apps[1..], budget - 1)
  }
}

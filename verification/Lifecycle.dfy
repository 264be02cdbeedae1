/** Statuses of intents, outbox rows and hedge groups. */
module Lifecycle {

  datatype IntentStatus = Created | Running | RecoveryRequired | Completed | FailedIntent | Superseded

  datatype OutboxStatus = OutboxPending | OutboxProcessing | OutboxSent | OutboxFailed | OutboxCanceled

  datatype GroupStatus =
    | GroupOpening | GroupOpen | GroupOpenPartial | GroupClosing | GroupClosed | GroupFailed | GroupManual

  /** The intents that may still receive legs. */
  predicate IsLive(s: IntentStatus) {
    s.Created? || s.Running? || s.RecoveryRequired?
  }
}

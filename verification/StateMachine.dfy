/** The central transition policy (core/state_machine.py). */
module StateMachine {
  import opened Records

  const TERMINAL: set<Status> := {COMPLETED, FAILED, CANCELLED}

  function AllowedTargets(current: Status): set<Status> {
    match current
    case CREATED => {QUEUED, FAILED, CANCELLED}
    case QUEUED => {ASSIGNED, PAUSED, FAILED, CANCELLED}
    case ASSIGNED => {RUNNING, PAUSED, RETRYING, FAILOVER_PENDING, FAILED, CANCELLED}
    case RUNNING => {WAITING_APPROVAL, PAUSED, RETRYING, FAILOVER_PENDING, COMPLETED, FAILED, CANCELLED}
    case WAITING_APPROVAL => {RUNNING, PAUSED, FAILED, CANCELLED}
    case PAUSED => {QUEUED, ASSIGNED, RUNNING, FAILED, CANCELLED}
    case RETRYING => {ASSIGNED, RUNNING, FAILOVER_PENDING, FAILED, CANCELLED}
    case FAILOVER_PENDING => {ASSIGNED, RETRYING, FAILED, CANCELLED}
    case COMPLETED => {}
    case FAILED => {}
    case CANCELLED => {}
  }

  /** validate_task_transition succeeds. */
  predicate Allowed(current: Status, target: Status) {
    target in AllowedTargets(current)
  }

  /** A status history in which every step is in the table. */
  predicate IsPath(h: seq<Status>) {
    forall i :: 0 < i < |h| ==> Allowed(h[i - 1], h[i])
  }

  /** The three terminal statuses are exactly those nothing follows; nothing is its own successor. */
  lemma TerminalIffStuck(s: Status)
    ensures s in TERMINAL <==> forall t :: !Allowed(s, t)
    ensures !Allowed(s, s)
  {
    if s !in TERMINAL {
      assert Allowed(s, FAILED);
    }
  }

  /** Along a path a terminal status can only be the last one. */
  lemma TerminalIsLast(h: seq<Status>, i: nat)
    requires IsPath(h) && i < |h| && h[i] in TERMINAL
    ensures i == |h| - 1
  {
    if i + 1 < |h| {
      assert Allowed(h[i + 1 - 1], h[i + 1]);
      TerminalIffStuck(h[i]);
    }
  }

  /** Every status can be reached from CREATED and, unless terminal, can still be failed or cancelled. */
  lemma EveryStatusOnAPath(s: Status) returns (h: seq<Status>)
    ensures IsPath(h) && |h| > 0 && h[0] == CREATED && h[|h| - 1] == s
    ensures s !in TERMINAL ==> Allowed(s, FAILED) && Allowed(s, CANCELLED)
  {
    match s
    case CREATED => h := [CREATED];
    case QUEUED => h := [CREATED, QUEUED];
    case ASSIGNED => h := [CREATED, QUEUED, ASSIGNED];
    case PAUSED => h := [CREATED, QUEUED, PAUSED];
    case FAILED => h := [CREATED, FAILED];
    case CANCELLED => h := [CREATED, CANCELLED];
    case _ =>
      h := [CREATED, QUEUED, ASSIGNED, RUNNING];
      if s == WAITING_APPROVAL || s == COMPLETED || s == RETRYING || s == FAILOVER_PENDING {
        h := h + [s];
      }
  }
}

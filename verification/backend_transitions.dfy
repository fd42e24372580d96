/**
 * The Prisma backend's status-transition rule: a blacklist of forbidden targets per status.
 * It agrees with the in-memory server's whitelist except on staying in the same status.
 */
module BackendTransitions {
  import opened Wrappers
  import opened EventModel

  /** The targets each status may not move to. */
  function ForbiddenTargets(current: Status): seq<Status> {
    match current
    case DRAFT => []
    case PUBLISHED => [DRAFT]
    case CANCELLED => [DRAFT, PUBLISHED]
  }

  function TransitionError(current: Status, next: Status): string {
    "Cannot transition from " + StatusName(current) + " to " + StatusName(next)
  }

  /** `validateStatusTransition` of the backend. */
  function CheckTransition(current: Status, next: Status): (r: Verdict)
    ensures r.error.Some? <==> !r.valid
    ensures !r.valid ==> r.error.value == TransitionError(current, next)
  {
    if next in ForbiddenTargets(current) then Verdict(false, Some(TransitionError(current, next)))
    else Verdict(true, None)
  }

  /**
   * Exactly PUBLISHED to DRAFT, CANCELLED to DRAFT and CANCELLED to PUBLISHED are refused;
   * DRAFT may go anywhere and every status may stay as it is.
   */
  lemma BlacklistRule(current: Status, next: Status)
    ensures !CheckTransition(current, next).valid <==>
      (current == PUBLISHED && next == DRAFT) || (current == CANCELLED && next == DRAFT)
      || (current == CANCELLED && next == PUBLISHED)
    ensures CheckTransition(DRAFT, next).valid
    ensures CheckTransition(current, current).valid
  {
  }

  /**
   * The two services' rules agree on every change of status and disagree on every
   * self-transition: the in-memory server refuses X to X, the backend accepts it.
   */
  lemma RulesDifferOnlyOnSelfTransitions(current: Status, next: Status)
    ensures (ValidateStatusTransition(Some(current), next) == []) == CheckTransition(current, next).valid
      <==> current != next
  {
    TransitionWhitelist(current, next);
    BlacklistRule(current, next);
  }
}

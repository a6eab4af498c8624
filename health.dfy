/** The liveness decision the kubelet takes for a container it found running or stopped. */
module Health {
  import opened Wrappers
  import opened KubeTypes

  /** Is the container still inside its start-up grace period? */
  predicate InGracePeriod(c: Container, created: int, now: int)
    requires c.livenessProbe.Some?
  {
    now - created < c.livenessProbe.value.initialDelaySeconds
  }

  /**
   * healthy: a container without a liveness probe is healthy exactly when it
   * runs; one with a probe is healthy while in its grace period or when no
   * checker is configured, and otherwise gets the checker's verdict as is.
   * `now` is the wall clock in seconds and `created` the container's creation time.
   */
  function CheckHealth(
    checker: Option<HealthChecker>, podFullName: string, state: PodState, c: Container,
    created: int, running: bool, now: int): (r: HealthResult)
    ensures c.livenessProbe.None? ==> r.err.None? && (r.status == Healthy <==> running)
    ensures c.livenessProbe.None? && !running ==> r.status == Unhealthy
    ensures c.livenessProbe.Some? && (InGracePeriod(c, created, now) || checker.None?) ==> r == HealthResult(Healthy, None)
    ensures c.livenessProbe.Some? && !InGracePeriod(c, created, now) && checker.Some? ==>
      r == checker.value(podFullName, state, c)
  {
    if c.livenessProbe.None? then
      if running then HealthResult(Healthy, None) else HealthResult(Unhealthy, None)
    else if InGracePeriod(c, created, now) then HealthResult(Healthy, None)
    else if checker.None? then HealthResult(Healthy, None)
    else checker.value(podFullName, state, c)
  }

  /** The checker is consulted only for a probed container past its grace period. */
  lemma CheckerConsultedOnlyAfterGrace(
    c1: Option<HealthChecker>, c2: Option<HealthChecker>, podFullName: string, state: PodState, c: Container,
    created: int, running: bool, now: int)
    requires c.livenessProbe.None? || InGracePeriod(c, created, now)
    ensures CheckHealth(c1, podFullName, state, c, created, running, now)
         == CheckHealth(c2, podFullName, state, c, created, running, now)
  {
  }
}

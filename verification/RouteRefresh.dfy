/** The route poller's refresh as the code runs it: one field holds the runtime in force, and it is replaced
    only once everything about the new one has been checked. */
module RouteRefresh {
  import opened Common
  import opened HexCodec
  import opened RouteManifest
  import opened RoutePolicy
  import opened ProxyRequest
  import opened Gateway

  class RouteHolder {
    var routeRuntime: RouteRuntime

    constructor ()
      ensures routeRuntime == RouteRuntime(BaselinePolicy(), None)
    {
      routeRuntime := RouteRuntime(BaselinePolicy(), None);
    }

    /** What a poll learned: whether it replaced the runtime, or why it could not. Only the first changes
        anything, and only to the fresh runtime of the revision the live pointer names. */
    method Refresh(env: Env, loaded: Result<Option<LiveRoute>, RouteError>, wallNow: int, monotonicNow: int)
      returns (r: Result<bool, RouteError>)
      modifies this
      ensures var next := RefreshLiveRoute(env, old(routeRuntime), if loaded.Ok? then loaded.value else None,
                                           wallNow, monotonicNow);
              && (r == Ok(true) <==> next.Some?)
              && routeRuntime == (if next.Some? then next.value else old(routeRuntime))
      ensures r == Ok(false) <==>
                loaded.Ok? && (loaded.value.None?
                               || old(routeRuntime.policy.revision) == Hex(loaded.value.value.routeRevision))
    {
      var found :- loaded;
      if found.None? {
        return Ok(false);
      }
      var live := found.value;
      var revision := Hex(live.routeRevision);
      if routeRuntime.policy.revision == revision {
        return Ok(false);
      }
      var policy :- FromSignedBytes(env.world, env.config.route, env.scope, env.secretHex, env.apiKey,
                                    env.config.maxInFlight, wallNow, monotonicNow, live.manifest, live.signature);
      if policy.revision != revision {
        return Err(ProposalMismatch);
      }
      var runtime :- BuildRouteRuntime(env.world, policy, env.apiKey);
      routeRuntime := runtime;
      r := Ok(true);
    }
  }
}

/** The limiter object: its window and counts are replaced as requests come in. */
module LimiterObject {
  import opened Common
  import opened Limits

  class Limiter {
    var window: nat
    var counts: map<string, nat>
    const limit: int
    ghost var log: seq<Decision>

    ghost function Abstract(): State reads this {
      State(window, counts, log)
    }

    constructor (limitPerMinute: int)
      ensures limit == limitPerMinute && Abstract() == Run(limit, [])
    {
      window, counts, limit, log := 0, map[], limitPerMinute, [];
    }

    method Allow(client: string, now: nat) returns (granted: bool)
      modifies this
      ensures Abstract() == Limits.Allow(old(Abstract()), limit, client, now)
      ensures granted == log[|log| - 1].granted
      ensures Inv(old(Abstract()), limit) ==> Inv(Abstract(), limit)
    {
      ghost var before := Abstract();
      if window != Window(now) {
        window := Window(now);
        counts := map[];
      }
      counts := counts[client := CountOf(counts, client) + 1];
      granted := counts[client] <= limit;
      log := log + [Decision(client, now, granted)];
      assert Abstract() == Limits.Allow(before, limit, client, now);
      if Inv(before, limit) { AllowKeeps(before, limit, client, now); }
    }
  }
}

/** The command runtime as it works: one transaction looks the key up, runs the action and
    remembers its response. */
module Commands {
  import opened Domain
  import I = Idempotency

  class Runtime<S, R> {
    var state: S
    var saved: map<string, I.Saved<R>>
    const platform: I.Platform

    function Store(): I.Store<S, R>
      reads this
    {
      I.Store(state, saved)
    }

    constructor (platform: I.Platform, start: S)
      ensures Store() == I.Store(start, map[]) && this.platform == platform
    {
      this.platform, state, saved := platform, start, map[];
    }

    /** Everything the command does is committed with its remembered response, or nothing. */
    method Run(c: I.Call<S, R>) returns (o: Outcome<R>)
      modifies this`state, this`saved
      ensures (Store(), o) == I.Execute(platform, old(Store()), c)
      ensures c.key in old(saved) ==> state == old(state) && saved == old(saved)
    {
      if !I.Accepts(platform, c.key) {
        return Err(Fault(ValidationError, 400));
      }
      if c.key in saved {
        var previous := saved[c.key];
        if previous.request != c.body {
          return Err(Fail(IdempotencyConflict));
        }
        return if c.commits then Ok(previous.response) else I.Lost();
      }
      var done := c.action(state);
      if done.Err? {
        return Err(done.error);
      }
      if !c.commits {
        return I.Lost();
      }
      state := done.value.0;
      saved := saved[c.key := I.Saved(c.body, done.value.1)];
      o := Ok(done.value.1);
    }
  }
}

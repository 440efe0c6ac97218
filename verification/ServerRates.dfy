/** The rate window inside the server's runs: among challenges, resets, commands and other replicas, the requests one
    replica gets admitted in one epoch still come in windows a minute apart. */
module ServerRates {
  import opened Basics
  import opened CommandProtocol
  import opened RateWindow
  import opened ServerState
  import opened ServerRuns
  import opened ServerCheckpoints

  /** This transaction admits a request of the replica in this epoch. */
  ghost predicate Admits(s: Server, a: Action, id: string, epoch: int) {
    && a.ConsumeWindow? && a.binding.replicaId == id && a.binding.epoch == epoch
    && ConsumeRate(s, a.userId, a.binding, a.credential).1.RateAccepted?
  }

  ghost function WindowOf(s: Server, id: string): Option<Window> {
    if id in s.windows then Some(s.windows[id]) else None
  }

  /** The admitted requests of the replica among the first n transactions. */
  ghost function Hits(states: seq<Server>, actions: seq<Action>, id: string, epoch: int, n: nat): seq<Hit>
    requires n <= |actions| < |states|
  {
    if n == 0 then []
    else
      Hits(states, actions, id, epoch, n - 1) +
      if Admits(states[n - 1], actions[n - 1], id, epoch) && WindowOf(states[n], id).Some? then
        [Hit(states[n - 1].now, WindowOf(states[n], id).value)]
      else []
  }

  /** The hits so far, the stored window and the replica's epoch agree: the stored window is that of the last hit, or
      the replica has left the epoch for good. */
  ghost predicate InStep(s: Server, hits: seq<Hit>, id: string, epoch: int) {
    && Chain(hits)
    && (id in s.windows ==> id in s.replicas && s.windows[id].epoch <= s.replicas[id].epoch)
    && (WindowOf(s, id).Some? && s.windows[id].epoch == epoch ==> Open(s.windows[id], epoch, s.now))
    && (hits != [] ==>
          && hits[|hits| - 1].time <= s.now && id in s.replicas
          && ((WindowOf(s, id) == Some(hits[|hits| - 1].window) && s.windows[id].epoch == epoch) ||
              s.replicas[id].epoch > epoch))
  }

  /** Windows change by admissions, and disappear only when the epoch moves on. */
  lemma WindowStep(s: Server, a: Action, id: string)
    requires Enabled(s, a)
    ensures var t := Step(s, a);
            && s.now <= t.now
            && (id in s.replicas ==> id in t.replicas && s.replicas[id].epoch <= t.replicas[id].epoch)
            && (WindowOf(t, id) == WindowOf(s, id) ||
                (WindowOf(t, id).None? && id in s.replicas && id in t.replicas &&
                    s.replicas[id].epoch < t.replicas[id].epoch) ||
                (a.ConsumeWindow? && Admits(s, a, id, a.binding.epoch)))
  {
    hide Stale, WellFormedBatch, Execute, Consume;
    if a.ExecuteCommands? {
      ExecuteKeepsReplicas(s, a.userId, a.binding, a.credential, a.commands, a.attempt);
    }
  }

  lemma AdmittedWindow(s: Server, a: Action, id: string, epoch: int)
    requires Admits(s, a, id, epoch)
    ensures var t := Step(s, a);
            && id in s.replicas && s.replicas[id].epoch == epoch && t.replicas == s.replicas && t.now == s.now
            && WindowOf(t, id) == Consume(WindowOf(s, id), epoch, s.now) && WindowOf(t, id).Some?
  {
    hide Stale, Consume;
  }

  lemma ChainGrows(hits: seq<Hit>, hit: Hit)
    requires Chain(hits) && Chain([hit]) && (hits != [] ==> Follows(hits[|hits| - 1], hit))
    ensures Chain(hits + [hit])
  {
    hide Follows;
    assert [hit][0] == hit;
  }

  lemma HitFollows(window: Option<Window>, epoch: int, previous: Option<Hit>, now: int)
    requires Consume(window, epoch, now).Some?
    requires window.Some? && window.value.epoch == epoch ==> Open(window.value, epoch, now)
    requires previous.Some? ==>
        window == Some(previous.value.window) && previous.value.time <= now && previous.value.window.epoch == epoch
    ensures var next := Consume(window, epoch, now).value;
            && Open(next, epoch, now) && Chain([Hit(now, next)])
            && (previous.Some? ==> Follows(previous.value, Hit(now, next)))
  {
  }

  lemma AdmissionInStep(s: Server, a: Action, hits: seq<Hit>, id: string, epoch: int)
    requires Enabled(s, a) && InStep(s, hits, id, epoch) && Admits(s, a, id, epoch)
    ensures var t := Step(s, a);
            WindowOf(t, id).Some? && InStep(t, hits + [Hit(s.now, WindowOf(t, id).value)], id, epoch)
  {
    hide Chain, Follows, Consume, Open;
    AdmittedWindow(s, a, id, epoch);
    var previous := if hits == [] then None else Some(hits[|hits| - 1]);
    HitFollows(WindowOf(s, id), epoch, previous, s.now);
    ChainGrows(hits, Hit(s.now, WindowOf(Step(s, a), id).value));
    OpenEpoch(WindowOf(Step(s, a), id).value, epoch, s.now);
  }

  lemma OpenEpoch(window: Window, epoch: int, now: int)
    requires Open(window, epoch, now)
    ensures window.epoch == epoch
  {
  }

  lemma OtherInStep(s: Server, a: Action, hits: seq<Hit>, id: string, epoch: int)
    requires Enabled(s, a) && InStep(s, hits, id, epoch) && !Admits(s, a, id, epoch)
    ensures InStep(Step(s, a), hits, id, epoch)
  {
    hide Chain, Follows, Consume, Admits, Enabled, Step;
    WindowStep(s, a, id);
    if a.ConsumeWindow? && Admits(s, a, id, a.binding.epoch) {
      AdmittedWindow(s, a, id, a.binding.epoch);
      WindowEpoch(WindowOf(s, id), a.binding.epoch, s.now);
    }
  }

  lemma WindowEpoch(window: Option<Window>, epoch: int, now: int)
    requires Consume(window, epoch, now).Some?
    ensures Consume(window, epoch, now).value.epoch == epoch
  {
  }

  lemma {:induction false} RunInStep(states: seq<Server>, actions: seq<Action>, id: string, epoch: int, n: nat)
    requires IsRun(states, actions) && n <= |actions| && InStep(states[0], [], id, epoch)
    ensures InStep(states[n], Hits(states, actions, id, epoch, n), id, epoch)
  {
    hide InStep, Admits, Enabled, Step;
    if n > 0 {
      RunInStep(states, actions, id, epoch, n - 1);
      if Admits(states[n - 1], actions[n - 1], id, epoch) {
        AdmissionInStep(states[n - 1], actions[n - 1], Hits(states, actions, id, epoch, n - 1), id, epoch);
      } else {
        OtherInStep(states[n - 1], actions[n - 1], Hits(states, actions, id, epoch, n - 1), id, epoch);
        assert Hits(states, actions, id, epoch, n) == Hits(states, actions, id, epoch, n - 1);
      }
    }
  }

  lemma NothingAdmitted(s: Server, id: string, epoch: int)
    requires s.windows == map[]
    ensures InStep(s, [], id, epoch)
  {
  }

  lemma InStepChain(s: Server, hits: seq<Hit>, id: string, epoch: int)
    requires InStep(s, hits, id, epoch)
    ensures Chain(hits)
  {
  }

  /** In every run from empty rate windows, a span shorter than a minute holds at most 127 admitted requests of one
      replica and epoch, and different windows start at least a minute apart. */
  lemma RunMinute(states: seq<Server>, actions: seq<Action>, id: string, epoch: int, i: nat, j: nat)
    requires IsRun(states, actions) && states[0].windows == map[]
    requires i <= j < |Hits(states, actions, id, epoch, |actions|)|
    ensures var hits := Hits(states, actions, id, epoch, |actions|);
            && (hits[j].time < hits[i].time + MINUTE ==> j - i < 127)
            && (hits[i].window.startedAt != hits[j].window.startedAt ==>
                  hits[i].window.startedAt + MINUTE <= hits[j].window.startedAt)
  {
    hide Chain, Hits, Enabled, Step, InStep;
    var hits := Hits(states, actions, id, epoch, |actions|);
    NothingAdmitted(states[0], id, epoch);
    RunInStep(states, actions, id, epoch, |actions|);
    InStepChain(states[|actions|], hits, id, epoch);
    ChainApart(hits, i, j);
    if hits[j].time < hits[i].time + MINUTE {
      ChainMinute(hits, i, j);
    }
  }
}

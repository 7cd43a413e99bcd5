/** The setup wizard that `window.getGlobalData` hands to the page (index.js:25-62).
    The page collects a display name and a party choice ("solo" or "multi") over three
    steps; `submit` then saves the choice to local storage, starts a peer invitation for
    a multiplayer party, and raises the `ready` flag that lets the game start.
    The storage write and the invitation are recorded in an effect log instead of
    being performed. */
module SetupWizard {

  /** The JavaScript values the wizard holds or compares. For the comparisons the
      guard makes (an object against '', `undefined` against `null`) and for the party
      test against "multi", strict equality (`===`) is Dafny's `==`. Object identity is
      not modelled: every object is the one value `Object`. */
  datatype JsValue = Undefined | Null | Str(s: string) | Object

  /** The step at which the guard lets `submit` through. */
  const FinalStep := 3

  /** The local-storage key under which `submit` saves the configuration. */
  const StorageKey := "state"

  /** The party value for which `submit` invites a peer. */
  const Multi := Str("multi")

  /** What `this.model` evaluates to inside the guard: the wizard's model is an object. */
  const ModelInGuard := Object

  /** What `this.party` evaluates to inside the guard: the party lives under `model`,
      and the wizard object itself has no `party` property, so the read is `undefined`. */
  const PartyInGuard := Undefined

  /** The `{name, party}` object that `submit` builds. It is a value: editing the
      wizard's model afterwards cannot change a snapshot already handed out. */
  datatype Snapshot = Snapshot(name: string, party: JsValue)

  /** A side effect of `submit`. */
  datatype Effect =
    | Persist(key: string, snapshot: Snapshot)  // local-storage write of the serialised snapshot
    | Invite(snapshot: Snapshot)                // peer invitation started with the snapshot

  /** Number of storage writes in an effect log. */
  function PersistCount(log: seq<Effect>): nat
  {
    if log == [] then 0 else (if log[0].Persist? then 1 else 0) + PersistCount(log[1..])
  }

  /** Number of peer invitations in an effect log. */
  function InviteCount(log: seq<Effect>): nat
  {
    if log == [] then 0 else (if log[0].Invite? then 1 else 0) + InviteCount(log[1..])
  }

  /** Counting effects distributes over appending logs. */
  lemma {:induction false} CountsOfConcatenation(a: seq<Effect>, b: seq<Effect>)
    ensures PersistCount(a + b) == PersistCount(a) + PersistCount(b)
    ensures InviteCount(a + b) == InviteCount(a) + InviteCount(b)
  {
    if a == [] {
      assert a + b == b;
    } else {
      assert (a + b)[1..] == a[1..] + b;
      CountsOfConcatenation(a[1..], b);
    }
  }

  /** The effects of one successful `submit` that built snapshot `s`: exactly one
      storage write of `s` under the key "state", first, and one invitation, carrying
      the same `s`, exactly when the party is "multi". */
  function SubmitEffects(s: Snapshot): (r: seq<Effect>)
    ensures |r| > 0 && r[0] == Persist(StorageKey, s)
    ensures PersistCount(r) == 1
    ensures InviteCount(r) == (if s.party == Multi then 1 else 0)
    ensures forall e :: e in r ==> e.snapshot == s
  {
    var write := [Persist(StorageKey, s)];
    if s.party == Multi then
      CountsOfConcatenation(write, [Invite(s)]);
      write + [Invite(s)]
    else
      write
  }

  /** Appending the effects of a successful `submit` to any log adds one storage
      write, and one invitation exactly for a multiplayer party. */
  lemma SubmitAddsOnePersist(log: seq<Effect>, s: Snapshot)
    ensures PersistCount(log + SubmitEffects(s)) == PersistCount(log) + 1
    ensures InviteCount(log + SubmitEffects(s)) == InviteCount(log) + (if s.party == Multi then 1 else 0)
  {
    CountsOfConcatenation(log, SubmitEffects(s));
  }

  /** The object returned by `getGlobalData`. `model.name` and `model.party` are the
      fields `name` and `party`; the page's form bindings assign them directly. */
  class Wizard {
    var step: int
    var name: string
    var party: JsValue
    var ready: bool
    /** Every `direction` received by the `userInteraction` handler, oldest first. */
    var userInteractions: seq<JsValue>
    /** Storage writes and invitations performed so far, oldest first. */
    var effects: seq<Effect>

    /** A fresh wizard: first step, empty name, no party, not ready, empty logs. */
    constructor ()
      ensures step == 1 && name == "" && party == Null && !ready
      ensures userInteractions == [] && effects == []
    {
      step := 1;
      name := "";
      party := Null;
      ready := false;
      userInteractions := [];
      effects := [];
    }

    /** The `userInteraction` handler that `init` registers: it appends the event's
        direction to the log and touches nothing else. */
    method OnUserInteraction(direction: JsValue)
      modifies this`userInteractions
      ensures userInteractions == old(userInteractions) + [direction]
      ensures old(userInteractions) <= userInteractions
    {
      userInteractions := userInteractions + [direction];
    }

    /** `nextStep(n)`: moves to step `n` unchecked, backwards or skipping included. */
    method NextStep(n: int)
      modifies this`step
      ensures step == n
      ensures name == old(name) && party == old(party) && ready == old(ready)
      ensures userInteractions == old(userInteractions) && effects == old(effects)
    {
      step := n;
    }

    /** The guard `validates()` as written. Its last two conjuncts compare the model
        object with '' and the missing `this.party` with null, so both always hold and
        the guard is true exactly at the final step, whatever the name and party. */
    predicate Validates()
      reads this
      ensures Validates() <==> step == FinalStep
    {
      step == FinalStep && ModelInGuard != Str("") && PartyInGuard != Null
    }

    /** `submit()`. When the guard fails nothing changes. When it holds, the snapshot
        of name and party is written to storage, a peer is invited with the same
        snapshot if the party is "multi", and `ready` is set whatever the party. */
    method Submit()
      modifies this`ready, this`effects
      ensures old(Validates()) ==> ready && effects == old(effects) + SubmitEffects(Snapshot(name, party))
      ensures !old(Validates()) ==> ready == old(ready) && effects == old(effects)
      ensures PersistCount(effects) == PersistCount(old(effects)) + (if old(Validates()) then 1 else 0)
      ensures InviteCount(effects) ==
                InviteCount(old(effects)) + (if old(Validates()) && party == Multi then 1 else 0)
    {
      if Validates() {
        var initialState := Snapshot(name, party);
        effects := effects + [Persist(StorageKey, initialState)];
        if party == Multi {
          effects := effects + [Invite(initialState)];
          ready := true;
        } else {
          ready := true;
        }
        assert effects == old(effects) + SubmitEffects(initialState);
        SubmitAddsOnePersist(old(effects), initialState);
      }
    }
  }

  /** A wizard moved straight to step 3 and submitted, with the name and party never
      filled in, still saves `{name: '', party: null}` and becomes ready: the guard
      as written does not look at the form. */
  method SubmitUntouchedForm() returns (ready: bool, effects: seq<Effect>)
    ensures ready
    ensures effects == [Persist(StorageKey, Snapshot("", Null))]
  {
    var w := new Wizard();
    w.NextStep(FinalStep);
    w.Submit();
    ready, effects := w.ready, w.effects;
  }
}
